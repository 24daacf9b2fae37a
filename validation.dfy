/**
  The registration-data validator of the "Data Validation Tools" page
  (src/pages/Validation.tsx): ten string fields, one rule per checked
  field applied in a fixed order, an ordered list of findings, and the
  pass verdict derived from it.
 */
module Validation {
  import opened Wrappers
  import opened Text
  import opened JsNumbers

  // ---------------------------------------------------------------------
  // Form state and the single-field update

  /** The ten text fields of the registration form; each is `""` when left blank. */
  datatype FormData = FormData(
    animalId: string,
    breedName: string,
    animalType: string,
    age: string,
    weight: string,
    milkYield: string,
    region: string,
    color: string,
    hornShape: string,
    bodySize: string)

  /** The keys of `FormData`, as `handleInputChange` receives them. */
  datatype FormKey =
    | AnimalId | BreedName | AnimalType | Age | Weight
    | MilkYield | Region | Color | HornShape | BodySize

  const EmptyForm: FormData := FormData("", "", "", "", "", "", "", "", "", "")

  /** `formData[key]`. */
  function Get(form: FormData, key: FormKey): string {
    match key
    case AnimalId => form.animalId
    case BreedName => form.breedName
    case AnimalType => form.animalType
    case Age => form.age
    case Weight => form.weight
    case MilkYield => form.milkYield
    case Region => form.region
    case Color => form.color
    case HornShape => form.hornShape
    case BodySize => form.bodySize
  }

  /** `{ ...prev, [key]: value }`: the named field takes the new value and the other nine keep theirs. */
  function UpdateField(form: FormData, key: FormKey, value: string): (r: FormData)
    ensures Get(r, key) == value
    ensures forall k :: k != key ==> Get(r, k) == Get(form, k)
  {
    match key
    case AnimalId => form.(animalId := value)
    case BreedName => form.(breedName := value)
    case AnimalType => form.(animalType := value)
    case Age => form.(age := value)
    case Weight => form.(weight := value)
    case MilkYield => form.(milkYield := value)
    case Region => form.(region := value)
    case Color => form.(color := value)
    case HornShape => form.(hornShape := value)
    case BodySize => form.(bodySize := value)
  }

  // ---------------------------------------------------------------------
  // Findings

  datatype Status = Valid | Warning | Error

  /** The field a finding is about; `Label` gives the text the page stores and shows for it. */
  datatype Field = AnimalIdField | BreedNameField | AgeField | WeightField | MilkYieldField | RegionField

  function Label(f: Field): string {
    match f
    case AnimalIdField => "Animal ID"
    case BreedNameField => "Breed Name"
    case AgeField => "Age"
    case WeightField => "Weight"
    case MilkYieldField => "Milk Yield"
    case RegionField => "Region"
  }

  /** The shown text tells the fields apart, so modelling the field as an enumeration loses nothing. */
  lemma LabelIdentifiesField(f: Field, g: Field)
    ensures Label(f) == Label(g) <==> f == g
  {
  }

  datatype Finding = Finding(field: Field, status: Status, message: string)

  /** The order in which the rules run. */
  const RuleOrder: seq<Field> := [AnimalIdField, BreedNameField, AgeField, WeightField, MilkYieldField, RegionField]

  /** The position of a field's rule in `RuleOrder`. */
  function Rank(f: Field): (r: nat)
    ensures r < |RuleOrder| && RuleOrder[r] == f
  {
    match f
    case AnimalIdField => 0
    case BreedNameField => 1
    case AgeField => 2
    case WeightField => 3
    case MilkYieldField => 4
    case RegionField => 5
  }

  // Reference data of the rules.

  const CommonBreeds: seq<string> := ["Gir", "Sahiwal", "Red Sindhi", "Kankrej", "Murrah", "Nili-Ravi"]

  const BreedRegions: map<string, seq<string>> := map[
    "Gir" := ["Gujarat", "Rajasthan"],
    "Sahiwal" := ["Punjab", "Haryana"],
    "Red Sindhi" := ["Sindh", "Rajasthan"],
    "Kankrej" := ["Gujarat", "Rajasthan"],
    "Murrah" := ["Haryana", "Punjab"],
    "Nili-Ravi" := ["Punjab"]
  ]

  const IdRequiredMessage := "Animal ID is required for registration"
  const IdShortMessage := "Animal ID should be at least 6 characters"
  const IdValidMessage := "Valid animal identification format"
  const BreedRequiredMessage := "Breed name is required"
  const BreedKnownMessage := "Recognized breed in database"
  const BreedUnknownMessage := "Breed not found in common breeds database. Please verify."
  const AgeWarningMessage := "Please verify age - seems unusually high for livestock"
  const AgeValidMessage := "Age within expected range"
  const CattleWeightMessage := "Weight outside typical range for cattle (200-800 kg)"
  const BuffaloWeightMessage := "Weight outside typical range for buffalo (300-1000 kg)"
  const WeightValidMessage := "Weight within expected range"
  const MilkYieldWarningMessage := "Milk yield seems exceptionally high. Please verify."
  const MilkYieldValidMessage := "Milk yield within normal range"
  const RegionValidMessage := "Region matches breed's typical distribution"

  /** The warning for a region outside the breed's expected regions. */
  function RegionWarningMessage(breedName: string, expected: seq<string>): string {
    breedName + " is typically found in " + Join(expected, ", ") + ". Please verify location."
  }

  // The rules, one per checked field.

  /** Animal ID: required; shorter than six characters is suspicious. */
  function AnimalIdFinding(id: string): (r: Finding)
    ensures r.field == AnimalIdField
    ensures r.status == Error <==> id == ""
    ensures r.status == Warning <==> 0 < |id| < 6
    ensures r.status == Valid <==> |id| >= 6
  {
    if id == "" then Finding(AnimalIdField, Error, IdRequiredMessage)
    else if |id| < 6 then Finding(AnimalIdField, Warning, IdShortMessage)
    else Finding(AnimalIdField, Valid, IdValidMessage)
  }

  /** Breed name: required; recognised only as a case-sensitive exact member of the common breeds. */
  function BreedNameFinding(name: string): (r: Finding)
    ensures r.field == BreedNameField
    ensures r.status == Error <==> name == ""
    ensures r.status == Valid <==> name in CommonBreeds
    ensures r.status == Warning <==> name != "" && name !in CommonBreeds
  {
    if name == "" then Finding(BreedNameField, Error, BreedRequiredMessage)
    else if name in CommonBreeds then Finding(BreedNameField, Valid, BreedKnownMessage)
    else Finding(BreedNameField, Warning, BreedUnknownMessage)
  }

  /** Age: skipped when blank; a non-number or more than 20 years is a warning. */
  function AgeFinding(age: string): (r: Option<Finding>)
    ensures r.None? <==> age == ""
    ensures r.Some? ==> r.value.field == AgeField && r.value.status != Error
    ensures r.Some? ==> (r.value.status == Warning <==> ToNumber(age) == NaN || Gt(ToNumber(age), 20.0))
  {
    if age != "" && (ToNumber(age) == NaN || Gt(ToNumber(age), 20.0)) then
      Some(Finding(AgeField, Warning, AgeWarningMessage))
    else if age != "" then
      Some(Finding(AgeField, Valid, AgeValidMessage))
    else
      None
  }

  /** A weight the range check for this animal type rejects. */
  predicate OutOfRange(w: Num, animalType: string) {
    || (animalType == "Cattle" && (Lt(w, 200.0) || Gt(w, 800.0)))
    || (animalType == "Buffalo" && (Lt(w, 300.0) || Gt(w, 1000.0)))
  }

  /**
    Weight: considered only when both weight and animal type are filled in.
    Outside the cattle or buffalo range is a warning; otherwise a positive
    weight is valid and anything else (zero, negative, not a number) gives
    no finding.
   */
  function WeightFinding(weight: string, animalType: string): (r: Option<Finding>)
    ensures weight == "" || animalType == "" ==> r.None?
    ensures r.Some? ==> r.value.field == WeightField && r.value.status != Error
    ensures weight != "" && animalType != "" ==>
      (r.Some? && r.value.status == Warning <==> OutOfRange(ToNumber(weight), animalType))
    ensures weight != "" && animalType != "" ==>
      (r.Some? && r.value.status == Valid <==> !OutOfRange(ToNumber(weight), animalType) && Gt(ToNumber(weight), 0.0))
  {
    if weight != "" && animalType != "" then
      var w := ToNumber(weight);
      if animalType == "Cattle" && (Lt(w, 200.0) || Gt(w, 800.0)) then
        Some(Finding(WeightField, Warning, CattleWeightMessage))
      else if animalType == "Buffalo" && (Lt(w, 300.0) || Gt(w, 1000.0)) then
        Some(Finding(WeightField, Warning, BuffaloWeightMessage))
      else if Gt(w, 0.0) then
        Some(Finding(WeightField, Valid, WeightValidMessage))
      else
        None
    else
      None
  }

  /** Milk yield: above 50 is a warning, above 0 is valid, anything else gives no finding. */
  function MilkYieldFinding(milkYield: string): (r: Option<Finding>)
    ensures r.Some? ==> r.value.field == MilkYieldField && r.value.status != Error
    ensures r.Some? && r.value.status == Warning <==> milkYield != "" && Gt(ToNumber(milkYield), 50.0)
    ensures r.Some? && r.value.status == Valid <==>
      milkYield != "" && Gt(ToNumber(milkYield), 0.0) && !Gt(ToNumber(milkYield), 50.0)
  {
    if milkYield != "" then
      var v := ToNumber(milkYield);
      if Gt(v, 50.0) then Some(Finding(MilkYieldField, Warning, MilkYieldWarningMessage))
      else if Gt(v, 0.0) then Some(Finding(MilkYieldField, Valid, MilkYieldValidMessage))
      else None
    else
      None
  }

  /**
    Region cross-check: only for a filled-in region and a breed that has an
    entry in the breed-region table; a region outside the entry is a warning
    naming the expected regions.
   */
  function RegionFinding(region: string, breedName: string): (r: Option<Finding>)
    ensures r.Some? <==> region != "" && breedName != "" && breedName in BreedRegions
    ensures r.Some? ==> r.value.field == RegionField && r.value.status != Error
    ensures r.Some? ==> (r.value.status == Valid <==> region in BreedRegions[breedName])
    ensures r.Some? && r.value.status == Warning ==>
      r.value.message == RegionWarningMessage(breedName, BreedRegions[breedName])
  {
    if region != "" && breedName != "" then
      if breedName in BreedRegions && region !in BreedRegions[breedName] then
        Some(Finding(RegionField, Warning, RegionWarningMessage(breedName, BreedRegions[breedName])))
      else if breedName in BreedRegions then
        Some(Finding(RegionField, Valid, RegionValidMessage))
      else
        None
    else
      None
  }

  /** What each rule contributes, in rule order: `None` where it appends nothing. */
  function RuleResults(form: FormData): (os: seq<Option<Finding>>)
    ensures |os| == |RuleOrder|
  {
    [ Some(AnimalIdFinding(form.animalId)),
      Some(BreedNameFinding(form.breedName)),
      AgeFinding(form.age),
      WeightFinding(form.weight, form.animalType),
      MilkYieldFinding(form.milkYield),
      RegionFinding(form.region, form.breedName) ]
  }

  /** The i-th rule, when it emits a finding, emits one about the i-th field of the rule order. */
  lemma RuleResultsFollowRuleOrder(form: FormData)
    ensures forall i :: 0 <= i < |RuleResults(form)| && RuleResults(form)[i].Some? ==>
      Rank(RuleResults(form)[i].value.field) == i
  {
  }

  /** The finding, if any, that the rule for `f` contributes. */
  function RuleFinding(form: FormData, f: Field): (r: Option<Finding>)
    ensures r.Some? ==> r.value.field == f
  {
    RuleResultsFollowRuleOrder(form);
    RuleResults(form)[Rank(f)]
  }

  function OptSeq(o: Option<Finding>): (s: seq<Finding>)
    ensures |s| <= 1
  {
    if o.Some? then [o.value] else []
  }

  /** The findings carried by `os`, in order: what pushing each present one onto a list gives. */
  function Somes(os: seq<Option<Finding>>): seq<Finding>
    decreases |os|
  {
    if os == [] then [] else Somes(os[..|os| - 1]) + OptSeq(os[|os| - 1])
  }

  /**
    What `validateForm` computes: the Animal ID and Breed Name findings,
    then whatever the age, weight, milk-yield and region rules emit, in
    that order.
   */
  function Findings(form: FormData): (rs: seq<Finding>)
    ensures 2 <= |rs| <= |RuleOrder|
    ensures rs[0].field == AnimalIdField && rs[1].field == BreedNameField
  {
    [AnimalIdFinding(form.animalId), BreedNameFinding(form.breedName)]
      + OptSeq(AgeFinding(form.age)) + OptSeq(WeightFinding(form.weight, form.animalType))
      + OptSeq(MilkYieldFinding(form.milkYield)) + OptSeq(RegionFinding(form.region, form.breedName))
  }

  /** Findings appear in strictly increasing rule order, so no field has two. */
  predicate Ascending(rs: seq<Finding>) {
    forall i, j :: 0 <= i < j < |rs| ==> Rank(rs[i].field) < Rank(rs[j].field)
  }

  /** `results.some(r => r.status === 'error')`. */
  function HasError(rs: seq<Finding>): (b: bool)
    ensures b <==> exists f :: f in rs && f.status == Error
  {
    exists i :: 0 <= i < |rs| && rs[i].status == Error
  }

  /** `!hasErrors && results.length > 0`: some finding, and none of them an error. */
  function FormVerdict(rs: seq<Finding>): (v: bool)
    ensures v <==> |rs| > 0 && forall f :: f in rs ==> f.status != Error
  {
    !HasError(rs) && |rs| > 0
  }

  // ---------------------------------------------------------------------
  // What the rule sequence guarantees

  /**
    For a list of optional findings whose i-th entry, when present, is about
    the i-th field of the rule order: the findings come out in rule order,
    each is one of the entries, and every present entry is among them.
   */
  lemma {:induction false} SomesFacts(os: seq<Option<Finding>>)
    requires |os| <= |RuleOrder|
    requires forall i :: 0 <= i < |os| && os[i].Some? ==> Rank(os[i].value.field) == i
    ensures var rs := Somes(os);
      && |rs| <= |os|
      && Ascending(rs)
      && (forall j :: 0 <= j < |rs| ==> Some(rs[j]) in os)
      && (forall i :: 0 <= i < |os| && os[i].Some? ==> os[i].value in rs)
      && (forall j :: 0 <= j < |rs| ==> Rank(rs[j].field) < |os|)
    decreases |os|
  {
    if os != [] {
      var init := os[..|os| - 1];
      SomesFacts(init);
      var rest := Somes(init);
      var last := OptSeq(os[|os| - 1]);
      var rs := Somes(os);
      assert rs == rest + last;
      forall i, j | 0 <= i < j < |rs|
        ensures Rank(rs[i].field) < Rank(rs[j].field)
      {
        if j >= |rest| {
          assert rs[i] == rest[i];
        }
      }
      forall j | 0 <= j < |rs|
        ensures Some(rs[j]) in os && Rank(rs[j].field) < |os|
      {
        if j < |rest| {
          assert rs[j] == rest[j];
          assert Some(rs[j]) in init;
        }
      }
      forall i | 0 <= i < |os| && os[i].Some?
        ensures os[i].value in rs
      {
        if i < |os| - 1 {
          assert os[i] == init[i];
        }
      }
    }
  }

  lemma SomesStep(os: seq<Option<Finding>>, k: nat)
    requires k < |os|
    ensures Somes(os[..k + 1]) == Somes(os[..k]) + OptSeq(os[k])
  {
    assert os[..k + 1][..k] == os[..k];
    assert os[..k + 1][k] == os[k];
  }

  /** Six results whose first two are present, unfolded. */
  lemma SomesOfSix(os: seq<Option<Finding>>)
    requires |os| == 6 && os[0].Some? && os[1].Some?
    ensures Somes(os) == [os[0].value, os[1].value] + OptSeq(os[2]) + OptSeq(os[3]) + OptSeq(os[4]) + OptSeq(os[5])
  {
    var s1 := [os[0].value, os[1].value];
    var s2 := s1 + OptSeq(os[2]);
    var s3 := s2 + OptSeq(os[3]);
    var s4 := s3 + OptSeq(os[4]);
    SomesStep(os, 0);
    assert Somes(os[..1]) == [os[0].value];
    SomesStep(os, 1);
    assert Somes(os[..2]) == s1;
    SomesStep(os, 2);
    SomesStep(os, 3);
    SomesStep(os, 4);
    SomesStep(os, 5);
    assert os[..6] == os;
  }

  /** `Findings` is the present rule results, in rule order. */
  lemma FindingsAreSomes(form: FormData)
    ensures Findings(form) == Somes(RuleResults(form))
  {
    SomesOfSix(RuleResults(form));
  }

  /**
    The same facts for a full list of rule results whose first two rules
    always contribute: the two required findings come first, and a field
    has a finding exactly when its entry is present.
   */
  lemma SomesShape(os: seq<Option<Finding>>)
    requires |os| == |RuleOrder| && os[0].Some? && os[1].Some?
    requires forall i :: 0 <= i < |os| && os[i].Some? ==> Rank(os[i].value.field) == i
    ensures var rs := Somes(os);
      && 2 <= |rs| <= 6
      && rs[0] == os[0].value
      && rs[1] == os[1].value
      && Ascending(rs)
      && (forall j :: 0 <= j < |rs| ==> os[Rank(rs[j].field)] == Some(rs[j]))
      && (forall f :: os[Rank(f)].Some? <==> exists j :: 0 <= j < |rs| && rs[j].field == f)
  {
    var rs := Somes(os);
    SomesFacts(os);
    forall j | 0 <= j < |rs|
      ensures os[Rank(rs[j].field)] == Some(rs[j])
    {
      var i :| 0 <= i < |os| && os[i] == Some(rs[j]);
      assert Rank(rs[j].field) == i;
    }
    forall f
      ensures os[Rank(f)].Some? <==> exists j :: 0 <= j < |rs| && rs[j].field == f
    {
      var o := os[Rank(f)];
      if o.Some? {
        var j :| 0 <= j < |rs| && rs[j] == o.value;
      }
    }
    // The two required entries are present, and nothing ranks below them.
    var a :| 0 <= a < |rs| && rs[a] == os[0].value;
    var b :| 0 <= b < |rs| && rs[b] == os[1].value;
    assert 2 <= |rs| by {
      assert a != b;
    }
    forall j | 0 <= j < |rs| ensures Rank(rs[j].field) >= j {
      AscendingRankAtLeastIndex(rs, j);
    }
    assert a == 0 && b == 1;
  }

  /**
    The shape of the findings list: the Animal ID finding first, the Breed
    Name finding second, then the optional ones, in rule order with at most
    one per field, so between two and six findings; a field has a finding
    exactly when its rule emits one, and that finding is the rule's.
   */
  lemma FindingsShape(form: FormData)
    ensures var rs := Findings(form);
      && 2 <= |rs| <= 6
      && rs[0] == AnimalIdFinding(form.animalId)
      && rs[1] == BreedNameFinding(form.breedName)
      && Ascending(rs)
      && (forall j :: 0 <= j < |rs| ==> RuleFinding(form, rs[j].field) == Some(rs[j]))
      && (forall f :: RuleFinding(form, f).Some? <==> exists j :: 0 <= j < |rs| && rs[j].field == f)
  {
    var os := RuleResults(form);
    RuleResultsFollowRuleOrder(form);
    FindingsAreSomes(form);
    SomesShape(os);
  }

  lemma {:induction false} AscendingRankAtLeastIndex(rs: seq<Finding>, j: nat)
    requires Ascending(rs) && j < |rs|
    ensures Rank(rs[j].field) >= j
    decreases j
  {
    if j > 0 {
      AscendingRankAtLeastIndex(rs, j - 1);
    }
  }

  /** Only the two required fields can produce an `error`; every other rule stops at a warning. */
  lemma OnlyRequiredFieldsError(form: FormData, i: nat)
    requires i < |Findings(form)| && Findings(form)[i].status == Error
    ensures Findings(form)[i].field == AnimalIdField || Findings(form)[i].field == BreedNameField
  {
    FindingsShape(form);
  }

  /** The form passes exactly when Animal ID and Breed Name are both filled in; warnings never block it. */
  lemma VerdictIffRequiredFields(form: FormData)
    ensures FormVerdict(Findings(form)) <==> form.animalId != "" && form.breedName != ""
  {
    var rs := Findings(form);
    FindingsShape(form);
    if form.animalId != "" && form.breedName != "" {
      forall i | 0 <= i < |rs|
        ensures rs[i].status != Error
      {
        if rs[i].status == Error {
          OnlyRequiredFieldsError(form, i);
        }
      }
    }
  }

  /** A valid weight finding for cattle or buffalo lies inside that type's range. */
  lemma ValidWeightInRange(weight: string, animalType: string)
    requires WeightFinding(weight, animalType).Some? && WeightFinding(weight, animalType).value.status == Valid
    ensures ToNumber(weight).Val?
    ensures animalType == "Cattle" ==> 200.0 <= ToNumber(weight).v <= 800.0
    ensures animalType == "Buffalo" ==> 300.0 <= ToNumber(weight).v <= 1000.0
    ensures ToNumber(weight).v > 0.0
  {
  }

  /** The region warning starts with the breed name and names every expected region. */
  lemma RegionWarningNamesRegions(breedName: string, expected: seq<string>)
    ensures StartsWith(RegionWarningMessage(breedName, expected), breedName)
    ensures forall k :: 0 <= k < |expected| ==> Includes(RegionWarningMessage(breedName, expected), expected[k])
  {
    var msg := RegionWarningMessage(breedName, expected);
    assert msg == breedName + (" is typically found in " + Join(expected, ", ") + ". Please verify location.");
    forall k | 0 <= k < |expected|
      ensures Includes(msg, expected[k])
    {
      JoinIncludesItems(expected, ", ", k);
      IncludesInContext(breedName + " is typically found in ", Join(expected, ", "), ". Please verify location.", expected[k]);
    }
  }

  /** An age typed as whole years is valid up to 20 and a warning above. */
  lemma AgeOfWholeYears(n: nat)
    ensures AgeFinding(NatToString(n))
         == if n <= 20 then Some(Finding(AgeField, Valid, AgeValidMessage))
            else Some(Finding(AgeField, Warning, AgeWarningMessage))
  {
    ToNumberOfNat(n);
  }

  /** A cattle weight typed as whole kilograms is valid from 200 to 800 and a warning outside. */
  lemma CattleWeightOfWholeKilograms(n: nat)
    ensures WeightFinding(NatToString(n), "Cattle")
         == if 200 <= n <= 800 then Some(Finding(WeightField, Valid, WeightValidMessage))
            else Some(Finding(WeightField, Warning, CattleWeightMessage))
  {
    ToNumberOfNat(n);
  }

  // Worked examples.

  /** Both required fields blank: two errors and a failing verdict. */
  lemma BlankFormFails()
    ensures Findings(EmptyForm)
         == [Finding(AnimalIdField, Error, IdRequiredMessage), Finding(BreedNameField, Error, BreedRequiredMessage)]
    ensures !FormVerdict(Findings(EmptyForm))
  {
    assert AgeFinding("") == None;
    assert WeightFinding("", "") == None;
    assert MilkYieldFinding("") == None;
    assert RegionFinding("", "") == None;
    var rs := Findings(EmptyForm);
    assert rs[0].status == Error;
  }

  /** The numeric fields of the Gir record below: three years and 450 kg are both in range. */
  lemma GirRecordNumbers()
    ensures AgeFinding("3") == Some(Finding(AgeField, Valid, AgeValidMessage))
    ensures WeightFinding("450", "Cattle") == Some(Finding(WeightField, Valid, WeightValidMessage))
  {
    AgeOfWholeYears(3);
    assert NatToString(3) == "3";
    CattleWeightOfWholeKilograms(450);
    assert NatToString(450) == "450";
  }

  /** Gujarat is one of the Gir's listed regions. */
  lemma GirInGujarat()
    ensures RegionFinding("Gujarat", "Gir") == Some(Finding(RegionField, Valid, RegionValidMessage))
  {
    assert "Gujarat" in BreedRegions["Gir"];
  }

  /** A complete, consistent Gir record: five `valid` findings and the form passes. */
  lemma ConsistentGirRecordPasses()
    ensures var form := FormData("BP2024001", "Gir", "Cattle", "3", "450", "", "Gujarat", "", "", "");
      var rs := Findings(form);
      && rs == [Finding(AnimalIdField, Valid, IdValidMessage), Finding(BreedNameField, Valid, BreedKnownMessage),
                Finding(AgeField, Valid, AgeValidMessage), Finding(WeightField, Valid, WeightValidMessage),
                Finding(RegionField, Valid, RegionValidMessage)]
      && FormVerdict(rs)
  {
    GirRecordNumbers();
    var id := Finding(AnimalIdField, Valid, IdValidMessage);
    var breed := Finding(BreedNameField, Valid, BreedKnownMessage);
    var age := Finding(AgeField, Valid, AgeValidMessage);
    var weight := Finding(WeightField, Valid, WeightValidMessage);
    var region := Finding(RegionField, Valid, RegionValidMessage);
    GirInGujarat();
    var rs := Findings(FormData("BP2024001", "Gir", "Cattle", "3", "450", "", "Gujarat", "", "", ""));
    var s3 := [id, breed] + [age];
    assert s3 == [id, breed, age];
    var s4 := s3 + [weight];
    assert s4 == [id, breed, age, weight];
    var s6 := s4 + [] + [region];
    assert s6 == [id, breed, age, weight, region];
    assert rs == s6;
    VerdictIffRequiredFields(FormData("BP2024001", "Gir", "Cattle", "3", "450", "", "Gujarat", "", "", ""));
  }

  /** 900 kg is above the cattle range. */
  lemma HeavyCowWeight()
    ensures WeightFinding("900", "Cattle") == Some(Finding(WeightField, Warning, CattleWeightMessage))
  {
    CattleWeightOfWholeKilograms(900);
    assert NatToString(900) == "900";
  }

  /** A short ID and an over-heavy cow give warnings only, so the form still passes. */
  lemma WarningsDoNotBlock()
    ensures var form := FormData("AB1", "Gir", "Cattle", "", "900", "", "", "", "", "");
      var rs := Findings(form);
      && rs == [Finding(AnimalIdField, Warning, IdShortMessage), Finding(BreedNameField, Valid, BreedKnownMessage),
                Finding(WeightField, Warning, CattleWeightMessage)]
      && FormVerdict(rs)
  {
    var id := Finding(AnimalIdField, Warning, IdShortMessage);
    var breed := Finding(BreedNameField, Valid, BreedKnownMessage);
    var weight := Finding(WeightField, Warning, CattleWeightMessage);
    HeavyCowWeight();
    var rs := Findings(FormData("AB1", "Gir", "Cattle", "", "900", "", "", "", "", ""));
    assert rs == [id, breed] + [] + [weight] + [] + [];
    assert [id, breed] + [] + [weight] + [] + [] == [id, breed, weight];
  }

  /** Gir registered in Punjab: the region warning lists "Gujarat, Rajasthan". */
  lemma GirInPunjabWarns()
    ensures RegionFinding("Punjab", "Gir")
         == Some(Finding(RegionField, Warning, RegionWarningMessage("Gir", ["Gujarat", "Rajasthan"])))
    ensures RegionWarningMessage("Gir", ["Gujarat", "Rajasthan"])
         == "Gir" + " is typically found in " + "Gujarat, Rajasthan" + ". Please verify location."
  {
    var expected := BreedRegions["Gir"];
    assert expected == ["Gujarat", "Rajasthan"];
    assert "Punjab" !in expected;
    assert Join(expected[1..], ", ") == "Rajasthan";
    assert Join(expected, ", ") == "Gujarat, Rajasthan";
  }

  // ---------------------------------------------------------------------
  // The region lookup as the page writes it

  /**
    The names every plain JavaScript object inherits from `Object.prototype`.
    Indexing the breed-region object literal with one of them does not give
    `undefined` but the inherited member: a function, or for `__proto__` the
    prototype object itself.
   */
  const ObjectPrototypeMembers: set<string> := {
    "constructor", "hasOwnProperty", "isPrototypeOf", "propertyIsEnumerable",
    "toLocaleString", "toString", "valueOf", "__proto__",
    "__defineGetter__", "__defineSetter__", "__lookupGetter__", "__lookupSetter__"
  }

  /** What `breedRegions[breedName]` yields on the object literal. */
  datatype RegionLookup =
    | OwnEntry(regions: seq<string>)  // one of the six listed breeds
    | InheritedMember                 // truthy, and has no `includes` method
    | Undefined

  function LookupAsWritten(breedName: string): (r: RegionLookup)
    ensures r.OwnEntry? <==> breedName in BreedRegions
    ensures r.InheritedMember? <==> breedName in ObjectPrototypeMembers
  {
    assert forall b :: b in BreedRegions ==> b !in ObjectPrototypeMembers;
    if breedName in BreedRegions then OwnEntry(BreedRegions[breedName])
    else if breedName in ObjectPrototypeMembers then InheritedMember
    else Undefined
  }

  /** A rule step either completes with what it pushes or throws a `TypeError`. */
  datatype StepOutcome = Completed(pushed: Option<Finding>) | Throws

  /**
    The region cross-check as written: a truthy inherited member passes the
    `expectedRegions &&` guard and then `expectedRegions.includes` is not a
    function.
   */
  function RegionStepAsWritten(region: string, breedName: string): (r: StepOutcome)
    ensures r.Throws? <==> region != "" && breedName in ObjectPrototypeMembers
  {
    if region != "" && breedName != "" then
      match LookupAsWritten(breedName)
      case OwnEntry(expected) =>
        if region !in expected then
          Completed(Some(Finding(RegionField, Warning, RegionWarningMessage(breedName, expected))))
        else
          Completed(Some(Finding(RegionField, Valid, RegionValidMessage)))
      case InheritedMember => Throws
      case Undefined => Completed(None)
    else
      Completed(None)
  }

  /** Typing "constructor" as the breed with any region makes the step throw. */
  lemma ConstructorBreedThrows()
    ensures RegionStepAsWritten("Gujarat", "constructor") == Throws
    ensures BreedNameFinding("constructor").status == Warning
  {
  }

  /**
    Wherever the written step completes, the own-key lookup of
    `RegionFinding` pushes the same finding; it also completes on the
    inherited names, with no finding, as for any breed outside the table.
   */
  lemma RegionFindingCorrectsLookup(region: string, breedName: string)
    ensures RegionStepAsWritten(region, breedName).Completed? ==>
      RegionStepAsWritten(region, breedName).pushed == RegionFinding(region, breedName)
    ensures breedName in ObjectPrototypeMembers ==> RegionFinding(region, breedName).None?
  {
  }

  // ---------------------------------------------------------------------
  // How a finding is displayed

  /** The status as the page spells it. */
  function StatusName(st: Status): string {
    match st
    case Valid => "valid"
    case Warning => "warning"
    case Error => "error"
  }

  datatype StatusIcon = CheckCircleIcon | AlertTriangleIcon | XCircleIcon

  /** The colour family of an icon or an alert border. */
  datatype Tone = SuccessTone | WarningTone | DestructiveTone | NoTone

  /** `getStatusIcon`: one icon per status, none for any other string. */
  function StatusIconOf(status: string): (icon: Option<StatusIcon>)
    ensures icon == Some(CheckCircleIcon) <==> status == "valid"
    ensures icon == Some(AlertTriangleIcon) <==> status == "warning"
    ensures icon == Some(XCircleIcon) <==> status == "error"
  {
    if status == "valid" then Some(CheckCircleIcon)
    else if status == "warning" then Some(AlertTriangleIcon)
    else if status == "error" then Some(XCircleIcon)
    else None
  }

  /** `getStatusColor`: one alert colour per status, the empty class list for any other string. */
  function StatusColor(status: string): (tone: Tone)
    ensures tone == SuccessTone <==> status == "valid"
    ensures tone == WarningTone <==> status == "warning"
    ensures tone == DestructiveTone <==> status == "error"
  {
    if status == "valid" then SuccessTone
    else if status == "warning" then WarningTone
    else if status == "error" then DestructiveTone
    else NoTone
  }

  /** The tone in which an icon is drawn. */
  function IconTone(icon: StatusIcon): Tone {
    match icon
    case CheckCircleIcon => SuccessTone
    case AlertTriangleIcon => WarningTone
    case XCircleIcon => DestructiveTone
  }

  /**
    Every finding is shown with an icon and a coloured border, the two in
    the same tone, and different statuses look different.
   */
  lemma StatusDisplayAgrees(st1: Status, st2: Status)
    ensures StatusIconOf(StatusName(st1)).Some?
    ensures IconTone(StatusIconOf(StatusName(st1)).value) == StatusColor(StatusName(st1)) != NoTone
    ensures st1 != st2 ==> StatusColor(StatusName(st1)) != StatusColor(StatusName(st2))
  {
  }

  // ---------------------------------------------------------------------
  // The rule blocks of `validateForm`, each pushing onto the results list
  //
  // These methods are the imperative rendering of the `results.push` blocks:
  // each repeats the branches of the rule function above it stands for, and
  // its `ensures` ties the list it returns to that function.

  /** The Animal ID block: always pushes exactly one finding. */
  method PushAnimalIdFinding(results: seq<Finding>, animalId: string) returns (r: seq<Finding>)
    ensures r == results + [AnimalIdFinding(animalId)]
  {
    if animalId == "" {
      r := results + [Finding(AnimalIdField, Error, IdRequiredMessage)];
    } else if |animalId| < 6 {
      r := results + [Finding(AnimalIdField, Warning, IdShortMessage)];
    } else {
      r := results + [Finding(AnimalIdField, Valid, IdValidMessage)];
    }
  }

  /** The Breed Name block: always pushes exactly one finding. */
  method PushBreedNameFinding(results: seq<Finding>, breedName: string) returns (r: seq<Finding>)
    ensures r == results + [BreedNameFinding(breedName)]
  {
    if breedName == "" {
      r := results + [Finding(BreedNameField, Error, BreedRequiredMessage)];
    } else {
      if breedName in CommonBreeds {
        r := results + [Finding(BreedNameField, Valid, BreedKnownMessage)];
      } else {
        r := results + [Finding(BreedNameField, Warning, BreedUnknownMessage)];
      }
    }
  }

  /** The Age block: pushes a finding only for a filled-in age. */
  method PushAgeFinding(results: seq<Finding>, age: string) returns (r: seq<Finding>)
    ensures r == results + OptSeq(AgeFinding(age))
  {
    r := results;
    if age != "" && (ToNumber(age) == NaN || Gt(ToNumber(age), 20.0)) {
      r := r + [Finding(AgeField, Warning, AgeWarningMessage)];
    } else if age != "" {
      r := r + [Finding(AgeField, Valid, AgeValidMessage)];
    }
  }

  /** The Weight block: needs both the weight and the animal type. */
  method PushWeightFinding(results: seq<Finding>, weightText: string, animalType: string) returns (r: seq<Finding>)
    ensures r == results + OptSeq(WeightFinding(weightText, animalType))
  {
    r := results;
    if weightText != "" && animalType != "" {
      var weight := ToNumber(weightText);
      if animalType == "Cattle" && (Lt(weight, 200.0) || Gt(weight, 800.0)) {
        r := r + [Finding(WeightField, Warning, CattleWeightMessage)];
      } else if animalType == "Buffalo" && (Lt(weight, 300.0) || Gt(weight, 1000.0)) {
        r := r + [Finding(WeightField, Warning, BuffaloWeightMessage)];
      } else if Gt(weight, 0.0) {
        r := r + [Finding(WeightField, Valid, WeightValidMessage)];
      }
    }
  }

  /** The Milk Yield block. */
  method PushMilkYieldFinding(results: seq<Finding>, milkYield: string) returns (r: seq<Finding>)
    ensures r == results + OptSeq(MilkYieldFinding(milkYield))
  {
    r := results;
    if milkYield != "" {
      var milkYieldValue := ToNumber(milkYield);
      if Gt(milkYieldValue, 50.0) {
        r := r + [Finding(MilkYieldField, Warning, MilkYieldWarningMessage)];
      } else if Gt(milkYieldValue, 0.0) {
        r := r + [Finding(MilkYieldField, Valid, MilkYieldValidMessage)];
      }
    }
  }

  /** The Region block: checks the region against the breed's known regions. */
  method PushRegionFinding(results: seq<Finding>, region: string, breedName: string) returns (r: seq<Finding>)
    ensures r == results + OptSeq(RegionFinding(region, breedName))
  {
    r := results;
    if region != "" && breedName != "" {
      if breedName in BreedRegions && region !in BreedRegions[breedName] {
        var expectedRegions := BreedRegions[breedName];
        r := r + [Finding(RegionField, Warning, RegionWarningMessage(breedName, expectedRegions))];
      } else if breedName in BreedRegions {
        r := r + [Finding(RegionField, Valid, RegionValidMessage)];
      }
    }
  }

  // ---------------------------------------------------------------------
  // The page state

  class ValidationPage {
    var formData: FormData
    var validationResults: seq<Finding>
    var isValidating: bool
    var isFormValid: bool

    constructor ()
      ensures formData == EmptyForm && validationResults == [] && !isValidating && !isFormValid
    {
      formData := EmptyForm;
      validationResults := [];
      isValidating := false;
      isFormValid := false;
    }

    /** The input handler: one field changes, nothing else on the page does. */
    method HandleInputChange(key: FormKey, value: string)
      modifies this`formData
      ensures formData == UpdateField(old(formData), key, value)
    {
      formData := UpdateField(formData, key, value);
    }

    /**
      The "Validate Data" action: run the rules in order, appending a
      finding for each rule that has one, then publish the list and the
      verdict.
     */
    method ValidateForm()
      requires !isValidating
      modifies this`validationResults, this`isValidating, this`isFormValid
      ensures validationResults == Findings(formData)
      ensures isFormValid == FormVerdict(validationResults)
      ensures isFormValid <==> formData.animalId != "" && formData.breedName != ""
      ensures !isValidating
    {
      isValidating := true;
      var results: seq<Finding> := [];
      results := PushAnimalIdFinding(results, formData.animalId);
      results := PushBreedNameFinding(results, formData.breedName);
      assert results == [AnimalIdFinding(formData.animalId), BreedNameFinding(formData.breedName)];
      results := PushAgeFinding(results, formData.age);
      results := PushWeightFinding(results, formData.weight, formData.animalType);
      results := PushMilkYieldFinding(results, formData.milkYield);
      results := PushRegionFinding(results, formData.region, formData.breedName);
      validationResults := results;
      isValidating := false;

      var hasErrors := HasError(results);
      isFormValid := !hasErrors && |results| > 0;
      VerdictIffRequiredFields(formData);
    }

    /**
      The same action with the region block as written: when the lookup
      lands on an inherited member the block throws, the asynchronous
      handler ends with a rejected promise before the statements that
      publish the list, clear `isValidating` and set the verdict (nothing
      catches it), so the page stays in its validating state with the
      previous results.
     */
    method ValidateFormAsWritten() returns (threw: bool)
      requires !isValidating
      modifies this`validationResults, this`isValidating, this`isFormValid
      ensures threw <==> RegionStepAsWritten(formData.region, formData.breedName).Throws?
      ensures threw ==> isValidating && validationResults == old(validationResults) && isFormValid == old(isFormValid)
      ensures !threw ==> validationResults == Findings(formData) && isFormValid == FormVerdict(validationResults) && !isValidating
    {
      isValidating := true;
      var results: seq<Finding> := [];
      results := PushAnimalIdFinding(results, formData.animalId);
      results := PushBreedNameFinding(results, formData.breedName);
      assert results == [AnimalIdFinding(formData.animalId), BreedNameFinding(formData.breedName)];
      results := PushAgeFinding(results, formData.age);
      results := PushWeightFinding(results, formData.weight, formData.animalType);
      results := PushMilkYieldFinding(results, formData.milkYield);
      var step := RegionStepAsWritten(formData.region, formData.breedName);
      if step.Throws? {
        return true;
      }
      RegionFindingCorrectsLookup(formData.region, formData.breedName);
      results := results + OptSeq(step.pushed);
      validationResults := results;
      isValidating := false;

      var hasErrors := HasError(results);
      isFormValid := !hasErrors && |results| > 0;
      threw := false;
    }
  }
}
