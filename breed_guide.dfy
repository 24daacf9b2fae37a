/**
  The "Breed Identification Guide" page (src/pages/BreedGuide.tsx): a fixed
  catalog of six breeds, the filter that combines a free-text search with a
  type facet and a region facet, and the option lists of the two facets.
 */
module BreedGuide {
  import opened Text

  // ---------------------------------------------------------------------
  // The catalog

  datatype Breed = Breed(
    id: nat,
    name: string,
    breedType: string,
    origin: string,
    characteristics: seq<string>,
    milkYield: string,
    description: string)

  const Gir := Breed(1, "Gir", "Cattle", "Gujarat",
    ["White with red/brown patches", "Lyre-shaped horns", "Medium to large size"],
    "10-12 liters/day",
    "One of the most popular indigenous cattle breeds known for high milk production.")

  const Sahiwal := Breed(2, "Sahiwal", "Cattle", "Punjab",
    ["Red-brown color", "Loose skin", "Drooping ears"],
    "8-12 liters/day",
    "Hardy breed well-adapted to hot climate conditions.")

  const Murrah := Breed(3, "Murrah", "Buffalo", "Haryana",
    ["Black color", "Curved horns", "Heavy body"],
    "12-18 liters/day",
    "World-famous buffalo breed known for highest milk production.")

  const RedSindhi := Breed(4, "Red Sindhi", "Cattle", "Sindh",
    ["Deep red color", "Compact body", "Heat tolerant"],
    "6-10 liters/day",
    "Excellent dual-purpose breed suitable for tropical conditions.")

  const NiliRavi := Breed(5, "Nili-Ravi", "Buffalo", "Punjab/Pakistan",
    ["Dark grey/black", "White markings", "Large size"],
    "10-15 liters/day",
    "Premium buffalo breed known for rich milk quality.")

  const Kankrej := Breed(6, "Kankrej", "Cattle", "Gujarat/Rajasthan",
    ["Silver-grey color", "Lyre-shaped horns", "Drought resistant"],
    "8-10 liters/day",
    "Hardy dual-purpose breed excellent for arid regions.")

  /** `breedData`, in its declared order. */
  const Catalog: seq<Breed> := [Gir, Sahiwal, Murrah, RedSindhi, NiliRavi, Kankrej]

  /** The facet value that switches a facet off. */
  const AllOption := "All"

  // ---------------------------------------------------------------------
  // The filter

  /**
    The search box: a case-insensitive substring of the name or of the
    origin. The empty search matches every breed, and so does any term
    found verbatim in the name or the origin.
   */
  function MatchesSearch(b: Breed, searchTerm: string): (r: bool)
    ensures searchTerm == "" ==> r
    ensures Includes(b.name, searchTerm) || Includes(b.origin, searchTerm) ==> r
  {
    IncludesLowered(b.name, searchTerm);
    IncludesLowered(b.origin, searchTerm);
    Includes(ToLower(b.name), ToLower(searchTerm)) || Includes(ToLower(b.origin), ToLower(searchTerm))
  }

  /** The type facet: `"All"` passes every breed, any other choice exactly the breeds of that type. */
  function MatchesType(b: Breed, selectedType: string): (r: bool)
    ensures selectedType == AllOption ==> r
    ensures selectedType != AllOption ==> (r <==> b.breedType == selectedType)
  {
    selectedType == AllOption || b.breedType == selectedType
  }

  /**
    The region facet: `"All"`, or a case-sensitive substring of the origin;
    a breed always passes with its own origin, and never with a region
    longer than its origin.
   */
  function MatchesRegion(b: Breed, selectedRegion: string): (r: bool)
    ensures selectedRegion == AllOption || selectedRegion == b.origin ==> r
    ensures r && selectedRegion != AllOption ==> |selectedRegion| <= |b.origin|
  {
    assert b.origin[0..|b.origin|] == b.origin;
    IncludesAt(b.origin, b.origin, 0);
    selectedRegion == AllOption || Includes(b.origin, selectedRegion)
  }

  predicate Matches(b: Breed, searchTerm: string, selectedType: string, selectedRegion: string) {
    MatchesSearch(b, searchTerm) && MatchesType(b, selectedType) && MatchesRegion(b, selectedRegion)
  }

  /**
    `filteredBreeds`: the breeds that pass all three conditions, in their
    original order. Nothing is invented (soundness) and nothing that matches
    is dropped (completeness), so the count shown never exceeds the total.
   */
  function FilterBreeds(breeds: seq<Breed>, searchTerm: string, selectedType: string, selectedRegion: string)
    : (r: seq<Breed>)
    ensures |r| <= |breeds|
    ensures forall b :: b in r ==> b in breeds && Matches(b, searchTerm, selectedType, selectedRegion)
    ensures forall b :: b in breeds && Matches(b, searchTerm, selectedType, selectedRegion) ==> b in r
    decreases |breeds|
  {
    if breeds == [] then []
    else
      var rest := FilterBreeds(breeds[1..], searchTerm, selectedType, selectedRegion);
      if Matches(breeds[0], searchTerm, selectedType, selectedRegion) then [breeds[0]] + rest else rest
  }

  /** Filtering a concatenation filters each part and keeps them in order: the filter is stable. */
  lemma {:induction false} FilterConcat(a: seq<Breed>, b: seq<Breed>, searchTerm: string, selectedType: string,
                                        selectedRegion: string)
    ensures FilterBreeds(a + b, searchTerm, selectedType, selectedRegion)
         == FilterBreeds(a, searchTerm, selectedType, selectedRegion)
          + FilterBreeds(b, searchTerm, selectedType, selectedRegion)
    decreases |a|
  {
    if a == [] {
      assert a + b == b;
    } else {
      assert (a + b)[0] == a[0];
      assert (a + b)[1..] == a[1..] + b;
      FilterConcat(a[1..], b, searchTerm, selectedType, selectedRegion);
    }
  }

  /** The empty search with both facets on `"All"` shows the whole list, in order. */
  lemma {:induction false} FilterDefaultsIsIdentity(breeds: seq<Breed>)
    ensures FilterBreeds(breeds, "", AllOption, AllOption) == breeds
    decreases |breeds|
  {
    if breeds != [] {
      FilterDefaultsIsIdentity(breeds[1..]);
    }
  }

  /** Filtering what the filter returned, with the same settings, changes nothing. */
  lemma {:induction false} FilterIdempotent(breeds: seq<Breed>, searchTerm: string, selectedType: string,
                                            selectedRegion: string)
    ensures var once := FilterBreeds(breeds, searchTerm, selectedType, selectedRegion);
      FilterBreeds(once, searchTerm, selectedType, selectedRegion) == once
    decreases |breeds|
  {
    if breeds != [] {
      FilterIdempotent(breeds[1..], searchTerm, selectedType, selectedRegion);
      var rest := FilterBreeds(breeds[1..], searchTerm, selectedType, selectedRegion);
      if Matches(breeds[0], searchTerm, selectedType, selectedRegion) {
        assert ([breeds[0]] + rest)[1..] == rest;
      }
    }
  }

  /** Two search terms that differ only in letter case select the same breeds. */
  lemma {:induction false} SearchIgnoresCase(breeds: seq<Breed>, term1: string, term2: string,
                                             selectedType: string, selectedRegion: string)
    requires ToLower(term1) == ToLower(term2)
    ensures FilterBreeds(breeds, term1, selectedType, selectedRegion)
         == FilterBreeds(breeds, term2, selectedType, selectedRegion)
    decreases |breeds|
  {
    if breeds != [] {
      SearchIgnoresCase(breeds[1..], term1, term2, selectedType, selectedRegion);
    }
  }

  /** In particular, typing the search in capitals changes nothing. */
  lemma SearchInCapitals(breeds: seq<Breed>, searchTerm: string, selectedType: string, selectedRegion: string)
    ensures FilterBreeds(breeds, ToUpper(searchTerm), selectedType, selectedRegion)
         == FilterBreeds(breeds, searchTerm, selectedType, selectedRegion)
  {
    SearchIgnoresCase(breeds, ToUpper(searchTerm), searchTerm, selectedType, selectedRegion);
  }

  /** The type facet alone keeps exactly the breeds of that type. */
  lemma {:induction false} TypeFacetIsExact(breeds: seq<Breed>, selectedType: string)
    requires selectedType != AllOption
    ensures forall b :: b in FilterBreeds(breeds, "", selectedType, AllOption) <==> b in breeds && b.breedType == selectedType
  {
  }

  // Worked examples on the catalog.

  /** What the filter keeps of one breed. */
  function Keep(b: Breed, searchTerm: string, selectedType: string, selectedRegion: string): seq<Breed> {
    if Matches(b, searchTerm, selectedType, selectedRegion) then [b] else []
  }

  /** A one-breed list is kept exactly when the breed matches. */
  lemma FilterSingleton(b: Breed, searchTerm: string, selectedType: string, selectedRegion: string)
    ensures FilterBreeds([b], searchTerm, selectedType, selectedRegion) == Keep(b, searchTerm, selectedType, selectedRegion)
  {
  }

  /** The filter decides the head and then filters the tail: with `FilterConcat`, the result is the subsequence of matching breeds. */
  lemma FilterCons(b: Breed, rest: seq<Breed>, searchTerm: string, selectedType: string, selectedRegion: string)
    ensures FilterBreeds([b] + rest, searchTerm, selectedType, selectedRegion)
         == Keep(b, searchTerm, selectedType, selectedRegion) + FilterBreeds(rest, searchTerm, selectedType, selectedRegion)
  {
    assert ([b] + rest)[1..] == rest;
  }

  /** The filter over the catalog, breed by breed. */
  lemma FilterCatalog(searchTerm: string, selectedType: string, selectedRegion: string)
    ensures FilterBreeds(Catalog, searchTerm, selectedType, selectedRegion)
         == Keep(Gir, searchTerm, selectedType, selectedRegion)
          + (Keep(Sahiwal, searchTerm, selectedType, selectedRegion)
          + (Keep(Murrah, searchTerm, selectedType, selectedRegion)
          + (Keep(RedSindhi, searchTerm, selectedType, selectedRegion)
          + (Keep(NiliRavi, searchTerm, selectedType, selectedRegion)
          + Keep(Kankrej, searchTerm, selectedType, selectedRegion)))))
  {
    var s5 := [Kankrej];
    var s4 := [NiliRavi] + s5;
    var s3 := [RedSindhi] + s4;
    var s2 := [Murrah] + s3;
    var s1 := [Sahiwal] + s2;
    assert Catalog == [Gir] + s1;
    FilterCons(Gir, s1, searchTerm, selectedType, selectedRegion);
    FilterCons(Sahiwal, s2, searchTerm, selectedType, selectedRegion);
    FilterCons(Murrah, s3, searchTerm, selectedType, selectedRegion);
    FilterCons(RedSindhi, s4, searchTerm, selectedType, selectedRegion);
    FilterCons(NiliRavi, s5, searchTerm, selectedType, selectedRegion);
    FilterSingleton(Kankrej, searchTerm, selectedType, selectedRegion);
  }

  /** With the empty search, a breed is kept by the region facet alone exactly when its origin includes the region. */
  lemma KeepByRegion(b: Breed, selectedRegion: string)
    requires selectedRegion != AllOption
    ensures Keep(b, "", AllOption, selectedRegion) == if Includes(b.origin, selectedRegion) then [b] else []
  {
  }

  /** The breeds whose origin starts with "Gujarat". */
  lemma GujaratOrigins()
    ensures Keep(Gir, "", AllOption, "Gujarat") == [Gir]
    ensures Keep(Kankrej, "", AllOption, "Gujarat") == [Kankrej]
  {
    KeepByRegion(Gir, "Gujarat");
    assert "Gujarat" <= Gir.origin;
    KeepByRegion(Kankrej, "Gujarat");
    assert "Gujarat" <= Kankrej.origin;
  }

  /** The other four origins have no capital G at all. */
  lemma NoCapitalG()
    ensures 'G' !in Sahiwal.origin && 'G' !in Murrah.origin
    ensures 'G' !in RedSindhi.origin && 'G' !in NiliRavi.origin
  {
  }

  lemma NonGujaratOrigins()
    ensures Keep(Sahiwal, "", AllOption, "Gujarat") == []
    ensures Keep(Murrah, "", AllOption, "Gujarat") == []
    ensures Keep(RedSindhi, "", AllOption, "Gujarat") == []
    ensures Keep(NiliRavi, "", AllOption, "Gujarat") == []
  {
    NoCapitalG();
    KeepByRegion(Sahiwal, "Gujarat");
    MissingFirstLetter(Sahiwal.origin, "Gujarat");
    KeepByRegion(Murrah, "Gujarat");
    MissingFirstLetter(Murrah.origin, "Gujarat");
    KeepByRegion(RedSindhi, "Gujarat");
    MissingFirstLetter(RedSindhi.origin, "Gujarat");
    KeepByRegion(NiliRavi, "Gujarat");
    MissingFirstLetter(NiliRavi.origin, "Gujarat");
  }

  /** The region facet is a substring test: "Gujarat" also selects Kankrej from "Gujarat/Rajasthan". */
  lemma GujaratRegionFacet()
    ensures FilterBreeds(Catalog, "", AllOption, "Gujarat") == [Gir, Kankrej]
  {
    FilterCatalog("", AllOption, "Gujarat");
    GujaratOrigins();
    NonGujaratOrigins();
    assert [Gir] + ([] + ([] + ([] + ([] + [Kankrej])))) == [Gir, Kankrej];
  }

  /** With the empty search and every region, a breed is kept by the type facet alone exactly when its type is the selected one. */
  lemma KeepByType(b: Breed, selectedType: string)
    requires selectedType != AllOption
    ensures Keep(b, "", selectedType, AllOption) == if b.breedType == selectedType then [b] else []
  {
  }

  /** The type facet "Buffalo" selects Murrah and Nili-Ravi. */
  lemma BuffaloTypeFacet()
    ensures FilterBreeds(Catalog, "", "Buffalo", AllOption) == [Murrah, NiliRavi]
  {
    FilterCatalog("", "Buffalo", AllOption);
    KeepByType(Gir, "Buffalo");
    KeepByType(Sahiwal, "Buffalo");
    KeepByType(Murrah, "Buffalo");
    KeepByType(RedSindhi, "Buffalo");
    KeepByType(NiliRavi, "Buffalo");
    KeepByType(Kankrej, "Buffalo");
    assert [] + ([] + ([Murrah] + ([] + ([NiliRavi] + [])))) == [Murrah, NiliRavi];
  }

  /** An occurrence of `sub` puts its first letter in `s`. */
  lemma FirstLetterOfOccurrence(s: string, sub: string)
    ensures Includes(s, sub) && |sub| > 0 ==> sub[0] in s
  {
    if Includes(s, sub) && |sub| > 0 {
      var k := IncludesWitness(s, sub);
      assert s[k] == s[k..k + |sub|][0];
    }
  }

  /** A string without the first letter of `sub` cannot include `sub`. */
  lemma MissingFirstLetter(s: string, sub: string)
    requires |sub| > 0 && sub[0] !in s
    ensures !Includes(s, sub)
  {
    FirstLetterOfOccurrence(s, sub);
  }

  // ---------------------------------------------------------------------
  // The facet options

  /** `Array.from(new Set(xs))`: each distinct value once, where it first occurs. */
  function Distinct(xs: seq<string>): (d: seq<string>)
    ensures forall i, j :: 0 <= i < j < |d| ==> d[i] != d[j]
    ensures forall x :: x in d <==> x in xs
    decreases |xs|
  {
    if xs == [] then []
    else
      var d := Distinct(xs[..|xs| - 1]);
      var last := xs[|xs| - 1];
      if last in d then d else d + [last]
  }

  /** The distinct values come in the order of their first occurrences. */
  lemma {:induction false} DistinctInFirstSeenOrder(xs: seq<string>)
    ensures forall i, j :: 0 <= i < j < |Distinct(xs)| ==> FirstIndex(xs, Distinct(xs)[i]) < FirstIndex(xs, Distinct(xs)[j])
    decreases |xs|
  {
    if xs != [] {
      var init := xs[..|xs| - 1];
      var last := xs[|xs| - 1];
      DistinctInFirstSeenOrder(init);
      OrderKeptInLongerList(xs, init);
      var d := Distinct(init);
      var d' := Distinct(xs);
      assert d' == if last in d then d else d + [last];
      if last !in d {
        NewValueComesLast(xs, init);
        forall i, j | 0 <= i < j < |d'|
          ensures FirstIndex(xs, d'[i]) < FirstIndex(xs, d'[j])
        {
          assert d'[i] == d[i];
          if j < |d| {
            assert d'[j] == d[j];
          }
        }
      }
    }
  }

  /** Lengthening the list keeps the order of the values seen so far. */
  lemma OrderKeptInLongerList(xs: seq<string>, init: seq<string>)
    requires init <= xs
    requires forall i, j :: 0 <= i < j < |Distinct(init)| ==> FirstIndex(init, Distinct(init)[i]) < FirstIndex(init, Distinct(init)[j])
    ensures forall i, j :: 0 <= i < j < |Distinct(init)| ==> Distinct(init)[i] in xs && Distinct(init)[j] in xs && FirstIndex(xs, Distinct(init)[i]) < FirstIndex(xs, Distinct(init)[j])
  {
    var d := Distinct(init);
    FirstIndexOfPrefix(xs, init);
    forall i | 0 <= i < |d|
      ensures d[i] in init && d[i] in xs && FirstIndex(xs, d[i]) == FirstIndex(init, d[i])
    {
      assert d[i] in d;
    }
  }

  /** A value first seen at the end comes after every value seen before it. */
  lemma NewValueComesLast(xs: seq<string>, init: seq<string>)
    requires |xs| > 0 && init == xs[..|xs| - 1] && xs[|xs| - 1] !in init
    ensures forall i :: 0 <= i < |Distinct(init)| ==> Distinct(init)[i] in xs && FirstIndex(xs, Distinct(init)[i]) < FirstIndex(xs, xs[|xs| - 1])
  {
    var d := Distinct(init);
    FirstIndexOfPrefix(xs, init);
    forall i | 0 <= i < |d|
      ensures d[i] in init && d[i] in xs && FirstIndex(xs, d[i]) < |init|
    {
      assert d[i] in d;
    }
  }

  /** The position of the first occurrence of `x`. */
  function FirstIndex(xs: seq<string>, x: string): (k: nat)
    requires x in xs
    ensures k < |xs| && xs[k] == x
    ensures forall i :: 0 <= i < k ==> xs[i] != x
  {
    if xs[0] == x then 0 else 1 + FirstIndex(xs[1..], x)
  }

  /** A value that already occurs in a prefix is first found there. */
  lemma FirstIndexOfPrefix(xs: seq<string>, init: seq<string>)
    requires init <= xs
    ensures forall x :: x in init ==> FirstIndex(xs, x) == FirstIndex(init, x)
    ensures forall x :: x in xs && x !in init ==> FirstIndex(xs, x) >= |init|
  {
    forall x | x in init
      ensures FirstIndex(xs, x) == FirstIndex(init, x)
    {
      var k := FirstIndex(init, x);
      assert xs[k] == x;
      var m := FirstIndex(xs, x);
      assert forall i :: 0 <= i < |init| ==> init[i] == xs[i];
    }
    forall x | x in xs && x !in init
      ensures FirstIndex(xs, x) >= |init|
    {
      assert forall i :: 0 <= i < |init| ==> init[i] == xs[i];
    }
  }

  function Types(breeds: seq<Breed>): (ts: seq<string>)
    ensures |ts| == |breeds| && forall i :: 0 <= i < |breeds| ==> ts[i] == breeds[i].breedType
  {
    seq(|breeds|, i requires 0 <= i < |breeds| => breeds[i].breedType)
  }

  /** `uniqueTypes`: `"All"`, then each type of the list once, in first-seen order. */
  function UniqueTypes(breeds: seq<Breed>): (r: seq<string>)
    ensures |r| >= 1 && r[0] == AllOption
    ensures forall t :: t in r[1..] <==> exists b :: b in breeds && b.breedType == t
  {
    var d := Distinct(Types(breeds));
    assert forall t :: t in d <==> exists b :: b in breeds && b.breedType == t by {
      forall t | t in d ensures exists b :: b in breeds && b.breedType == t {
        var i :| 0 <= i < |breeds| && Types(breeds)[i] == t;
        assert breeds[i] in breeds;
      }
      forall t | exists b :: b in breeds && b.breedType == t ensures t in d {
        var b :| b in breeds && b.breedType == t;
        var i :| 0 <= i < |breeds| && breeds[i] == b;
        assert Types(breeds)[i] == t;
      }
    }
    assert ([AllOption] + d)[1..] == d;
    [AllOption] + d
  }

  /** Appending a value already seen leaves the distinct values as they are, */
  lemma DistinctSnocSeen(xs: seq<string>, x: string)
    requires x in xs
    ensures Distinct(xs + [x]) == Distinct(xs)
  {
    assert (xs + [x])[..|xs|] == xs;
  }

  /** and appending a new value appends it to them. */
  lemma DistinctSnocNew(xs: seq<string>, x: string)
    requires x !in xs
    ensures Distinct(xs + [x]) == Distinct(xs) + [x]
  {
    assert (xs + [x])[..|xs|] == xs;
  }

  lemma DistinctOfRepeat(c: string)
    ensures Distinct([c, c]) == [c]
  {
    DistinctSnocNew([], c);
    assert [] + [c] == [c];
    DistinctSnocSeen([c], c);
    assert [c] + [c] == [c, c];
  }

  lemma DistinctOfRepeatThenNew(c: string, b: string)
    requires c != b
    ensures Distinct([c, c, b]) == [c, b]
  {
    DistinctOfRepeat(c);
    DistinctSnocNew([c, c], b);
    assert [c, c] + [b] == [c, c, b];
    assert [c] + [b] == [c, b];
  }

  lemma DistinctOfFourSeen(c: string, b: string)
    requires c != b
    ensures Distinct([c, c, b, c]) == [c, b]
  {
    DistinctOfRepeatThenNew(c, b);
    DistinctSnocSeen([c, c, b], c);
    assert [c, c, b] + [c] == [c, c, b, c];
  }

  lemma DistinctOfFiveSeen(c: string, b: string)
    requires c != b
    ensures Distinct([c, c, b, c, b]) == [c, b]
  {
    DistinctOfFourSeen(c, b);
    DistinctSnocSeen([c, c, b, c], b);
    assert [c, c, b, c] + [b] == [c, c, b, c, b];
  }

  /** Two values in the order of the catalog's types collapse to their first occurrences. */
  lemma DistinctOfTypePattern(c: string, b: string)
    requires c != b
    ensures Distinct([c, c, b, c, b, c]) == [c, b]
  {
    DistinctOfFiveSeen(c, b);
    DistinctSnocSeen([c, c, b, c, b], c);
    assert [c, c, b, c, b] + [c] == [c, c, b, c, b, c];
  }

  lemma CatalogTypes()
    ensures Types(Catalog) == ["Cattle", "Cattle", "Buffalo", "Cattle", "Buffalo", "Cattle"]
  {
  }

  /** On the catalog the type options are "All", "Cattle", "Buffalo". */
  lemma CatalogTypeOptions()
    ensures UniqueTypes(Catalog) == [AllOption, "Cattle", "Buffalo"]
  {
    CatalogTypes();
    DistinctOfTypePattern("Cattle", "Buffalo");
  }

  /** `uniqueRegions`, a fixed list. */
  const UniqueRegions: seq<string> := [AllOption, "Gujarat", "Punjab", "Haryana", "Rajasthan"]

  /** A catalog breed for each region option other than "All". */
  lemma RegionWitnesses()
    ensures Gir in Catalog && MatchesRegion(Gir, "Gujarat")
    ensures Sahiwal in Catalog && MatchesRegion(Sahiwal, "Punjab")
    ensures Murrah in Catalog && MatchesRegion(Murrah, "Haryana")
    ensures Kankrej in Catalog && MatchesRegion(Kankrej, "Rajasthan")
  {
    assert Catalog[0] == Gir && Catalog[1] == Sahiwal && Catalog[2] == Murrah && Catalog[5] == Kankrej;
    assert "Gujarat" <= Gir.origin;
    assert "Punjab" <= Sahiwal.origin;
    assert "Haryana" <= Murrah.origin;
    assert Kankrej.origin[8..17] == "Rajasthan";
    IncludesAt(Kankrej.origin, "Rajasthan", 8);
  }

  /** Every region option other than "All" selects at least one catalog breed. */
  lemma RegionOptionsAllSelectSomething()
    ensures forall region :: region in UniqueRegions[1..] ==> exists b :: b in Catalog && MatchesRegion(b, region)
  {
    RegionWitnesses();
    assert UniqueRegions[1..] == ["Gujarat", "Punjab", "Haryana", "Rajasthan"];
    forall region | region in UniqueRegions[1..]
      ensures exists b :: b in Catalog && MatchesRegion(b, region)
    {
      if region == "Gujarat" {
        assert Gir in Catalog && MatchesRegion(Gir, region);
      } else if region == "Punjab" {
        assert Sahiwal in Catalog && MatchesRegion(Sahiwal, region);
      } else if region == "Haryana" {
        assert Murrah in Catalog && MatchesRegion(Murrah, region);
      } else {
        assert region == "Rajasthan";
        assert Kankrej in Catalog && MatchesRegion(Kankrej, region);
      }
    }
  }
}
