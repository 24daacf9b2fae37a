/**
  The AI Classifier page: the guard on an uploaded photo, the page state
  that the upload, classify and clear actions update, and the tiers that
  colour a result's confidence score.
 */
module AIClassifier {
  import opened Wrappers
  import opened Text

  // ---------------------------------------------------------------------
  // Results

  /** One suggested breed; `confidence` is a percentage. */
  datatype ClassificationResult = ClassificationResult(
    breed: string,
    confidence: real,
    breedType: string,
    characteristics: seq<string>,
    region: string)

  /** The fixed answer of the simulated classifier, best match first. */
  const MockResults: seq<ClassificationResult> := [
    ClassificationResult("Gir", 87.5, "Cattle",
      ["White with red patches", "Lyre-shaped horns", "Prominent forehead"], "Gujarat"),
    ClassificationResult("Sahiwal", 72.3, "Cattle",
      ["Red-brown color", "Loose skin", "Drooping ears"], "Punjab"),
    ClassificationResult("Red Sindhi", 45.8, "Cattle",
      ["Deep red color", "Compact body", "Small to medium size"], "Sindh")
  ]

  // ---------------------------------------------------------------------
  // The upload guard

  /** What the page knows of a chosen file: its size in bytes and its MIME type. */
  datatype FileInfo = FileInfo(size: nat, mimeType: string)

  /** 10 MB: `10 * 1024 * 1024` bytes. */
  const MaxUploadBytes: nat := 10 * 1024 * 1024

  const SizeErrorMessage := "File size must be less than 10MB"
  const TypeErrorMessage := "Please upload a valid image file"

  datatype UploadCheck = TooLarge | NotAnImage | Accepted

  /** The two checks in their order: the size first, then the MIME type prefix. */
  function CheckUpload(file: FileInfo): (c: UploadCheck)
    ensures c == TooLarge <==> file.size > MaxUploadBytes
    ensures c == NotAnImage <==> file.size <= MaxUploadBytes && !StartsWith(file.mimeType, "image/")
    ensures c == Accepted <==> file.size <= MaxUploadBytes && StartsWith(file.mimeType, "image/")
  {
    if file.size > MaxUploadBytes then TooLarge
    else if !StartsWith(file.mimeType, "image/") then NotAnImage
    else Accepted
  }

  /** The limit is inclusive: exactly 10485760 bytes pass, one more byte does not. */
  lemma UploadLimitIsInclusive(mimeType: string)
    ensures CheckUpload(FileInfo(10485760, mimeType)) != TooLarge
    ensures CheckUpload(FileInfo(10485761, mimeType)) == TooLarge
  {
  }

  /** An oversized file is reported as oversized whatever its type. */
  lemma SizeCheckedFirst(file: FileInfo)
    requires file.size > MaxUploadBytes
    ensures CheckUpload(file) == TooLarge
    ensures CheckUpload(file.(mimeType := "application/pdf")) == TooLarge
  {
  }

  // ---------------------------------------------------------------------
  // Confidence tiers

  datatype Tier = Low | Medium | High

  /** The tier of a confidence score: 80 and above is high, 60 and above medium. */
  function ConfidenceTier(confidence: real): (t: Tier)
    ensures t == High <==> confidence >= 80.0
    ensures t == Medium <==> 60.0 <= confidence < 80.0
    ensures t == Low <==> confidence < 60.0
  {
    if confidence >= 80.0 then High else if confidence >= 60.0 then Medium else Low
  }

  function TierRank(t: Tier): nat {
    match t
    case Low => 0
    case Medium => 1
    case High => 2
  }

  /** A higher score never gets a lower tier. */
  lemma TierMonotone(c1: real, c2: real)
    requires c1 <= c2
    ensures TierRank(ConfidenceTier(c1)) <= TierRank(ConfidenceTier(c2))
  {
  }

  datatype TextColor = SuccessText | WarningText | MutedText

  datatype BadgeVariant = DefaultBadge | SecondaryBadge | OutlineBadge

  /** `getConfidenceColor`. */
  function ConfidenceColor(confidence: real): (c: TextColor)
    ensures c == SuccessText <==> confidence >= 80.0
    ensures c == WarningText <==> 60.0 <= confidence < 80.0
  {
    if confidence >= 80.0 then SuccessText
    else if confidence >= 60.0 then WarningText
    else MutedText
  }

  /** `getConfidenceBadge`. */
  function ConfidenceBadge(confidence: real): (b: BadgeVariant)
    ensures b == DefaultBadge <==> confidence >= 80.0
    ensures b == SecondaryBadge <==> 60.0 <= confidence < 80.0
  {
    if confidence >= 80.0 then DefaultBadge
    else if confidence >= 60.0 then SecondaryBadge
    else OutlineBadge
  }

  function TierColor(t: Tier): TextColor {
    match t
    case High => SuccessText
    case Medium => WarningText
    case Low => MutedText
  }

  function TierBadge(t: Tier): BadgeVariant {
    match t
    case High => DefaultBadge
    case Medium => SecondaryBadge
    case Low => OutlineBadge
  }

  /**
    The colour and the badge are two views of the same tier: each is a
    function of the tier, and each tells the tier apart.
   */
  lemma ColorAndBadgeAgree(c1: real, c2: real)
    ensures ConfidenceColor(c1) == TierColor(ConfidenceTier(c1))
    ensures ConfidenceBadge(c1) == TierBadge(ConfidenceTier(c1))
    ensures ConfidenceColor(c1) == ConfidenceColor(c2) <==> ConfidenceTier(c1) == ConfidenceTier(c2)
    ensures ConfidenceBadge(c1) == ConfidenceBadge(c2) <==> ConfidenceTier(c1) == ConfidenceTier(c2)
  {
  }

  /**
    The "High confidence match" line under the result at `index`: only the
    top result can carry it, and exactly when that result's percentage is
    shown in the success colour with the default badge.
   */
  function ShowsHighConfidence(results: seq<ClassificationResult>, index: nat): (shown: bool)
    requires index < |results|
    ensures shown ==> index == 0
    ensures index == 0 ==> (shown <==> ConfidenceColor(results[0].confidence) == SuccessText)
    ensures index == 0 ==> (shown <==> ConfidenceBadge(results[0].confidence) == DefaultBadge)
  {
    index == 0 && results[index].confidence >= 80.0
  }

  /** The line appears at most once, on the first result, and only in the high tier. */
  lemma HighConfidenceOnlyFirst(results: seq<ClassificationResult>, index: nat)
    requires index < |results|
    ensures ShowsHighConfidence(results, index) <==> index == 0 && ConfidenceTier(results[0].confidence) == High
  {
  }

  /** With the simulated answer the line is shown, for Gir. */
  lemma MockResultsShowBanner()
    ensures ShowsHighConfidence(MockResults, 0)
    ensures ConfidenceTier(MockResults[1].confidence) == Medium
    ensures ConfidenceTier(MockResults[2].confidence) == Low
  {
  }

  // ---------------------------------------------------------------------
  // The page state

  class ClassifierPage {
    var uploadedImage: Option<string>
    var isAnalyzing: bool
    var results: seq<ClassificationResult>
    var error: Option<string>

    /**
      Results are either absent or the classifier's answer, and an analysis
      or a result is always about a loaded image.
     */
    predicate Valid()
      reads this
    {
      && (results == [] || results == MockResults)
      && (isAnalyzing || results != [] ==> uploadedImage.Some?)
    }

    constructor ()
      ensures Valid()
      ensures uploadedImage == None && !isAnalyzing && results == [] && error == None
    {
      uploadedImage := None;
      isAnalyzing := false;
      results := [];
      error := None;
    }

    /**
      `handleFileUpload`: no file changes nothing; a file that fails a check
      sets the matching error and changes nothing else; an accepted file
      starts reading it (`startsRead`), which `OnImageLoaded` completes.
     */
    method HandleFileUpload(file: Option<FileInfo>) returns (startsRead: bool)
      requires Valid()
      modifies this
      ensures Valid()
      ensures startsRead <==> file.Some? && CheckUpload(file.value) == Accepted
      ensures uploadedImage == old(uploadedImage) && results == old(results) && isAnalyzing == old(isAnalyzing)
      ensures file.Some? && CheckUpload(file.value) == TooLarge ==> error == Some(SizeErrorMessage)
      ensures file.Some? && CheckUpload(file.value) == NotAnImage ==> error == Some(TypeErrorMessage)
      ensures file.None? || CheckUpload(file.value) == Accepted ==> error == old(error)
    {
      startsRead := false;
      if file.Some? {
        var f := file.value;
        if f.size > 10 * 1024 * 1024 {
          error := Some(SizeErrorMessage);
          return;
        }
        if !StartsWith(f.mimeType, "image/") {
          error := Some(TypeErrorMessage);
          return;
        }
        startsRead := true;
      }
    }

    /** The reader's `onload`: the image is shown, the error and the old results are cleared. */
    method OnImageLoaded(dataUrl: string)
      requires Valid()
      modifies this
      ensures Valid()
      ensures uploadedImage == Some(dataUrl) && error == None && results == []
      ensures isAnalyzing == old(isAnalyzing)
    {
      uploadedImage := Some(dataUrl);
      error := None;
      results := [];
    }

    /**
      The first half of `simulateClassification`: without an image nothing
      happens; otherwise the analysis starts and the error is cleared.
     */
    method StartClassification() returns (started: bool)
      requires Valid() && !isAnalyzing
      modifies this
      ensures Valid()
      ensures started <==> old(uploadedImage).Some?
      ensures started ==> isAnalyzing && error == None
      ensures !started ==> !isAnalyzing && error == old(error)
      ensures uploadedImage == old(uploadedImage) && results == old(results)
    {
      if uploadedImage.None? {
        return false;
      }
      isAnalyzing := true;
      error := None;
      started := true;
    }

    /** The second half, after the simulated delay: the results arrive and the analysis ends. */
    method CompleteClassification()
      requires Valid() && isAnalyzing
      modifies this
      ensures Valid()
      ensures results == MockResults && !isAnalyzing
      ensures uploadedImage == old(uploadedImage) && error == old(error)
    {
      results := MockResults;
      isAnalyzing := false;
    }

    /** The Clear button, disabled during an analysis: image, results and error are all reset. */
    method Clear()
      requires Valid() && !isAnalyzing
      modifies this
      ensures Valid()
      ensures uploadedImage == None && results == [] && error == None && !isAnalyzing
    {
      uploadedImage := None;
      results := [];
      error := None;
    }
  }
}
