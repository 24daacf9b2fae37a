# Livestock breed pages, modelled in Dafny

This project models the logic behind four pages of a web app for Indian
cattle and buffalo breeds.

- **Registration validation** (`validation.dfy`). A ten-field form is
  edited one field at a time. On "Validate Data", six rules run in a
  fixed order: animal ID, breed name, age, weight, milk yield, then region
  against breed. Each rule appends at most one finding, with status
  `valid`, `warning` or `error`. The form passes when no finding is an
  error and there is at least one finding. The page is a class,
  `ValidationPage`. Its `ValidateForm` method builds the findings list
  step by step. It is proved equal to the specification function
  `Findings`, about which the ordering and verdict lemmas are stated.
- **Breed guide** (`breed_guide.dfy`). This is the catalog of six breeds
  and the stable filter behind the page. The filter combines a
  case-insensitive text search over name and origin, an exact type facet,
  and a substring region facet. The file also models the type options,
  built by de-duplicating the catalog's types in first-seen order, and the
  fixed region options.
- **Training** (`training.dfy`). This is the six learning modules and the
  summary figures: completed count, overall progress as `Math.round` of
  the mean, and learning time as `Math.round` of the summed minutes over
  60. It also covers the detail panel's main button label, the "Reset
  Progress" button, the progress bar and the difficulty badge colour.
- **AI classifier** (`ai_classifier.dfy`). This is the guard on an
  uploaded photo: at most 10 MB, and a MIME type starting with `image/`.
  The page state changes through a class, `ClassifierPage`, with methods
  for upload, image load, classification start and finish, and Clear.
  The page keeps an invariant: results exist only for a loaded image. The
  file also models the three confidence tiers behind the text colour, the
  badge and the "High confidence match" line.

Three support modules model the JavaScript semantics the pages rely on:

- `text.dfy`: `startsWith`, `includes`, ASCII `toLowerCase` and
  `toUpperCase`, `join`, and the decimal rendering of a natural number.
- `js_numbers.dfy`: `Number(s)` for decimal text, with `NaN` as a
  value; `<` and `>`, which are false on `NaN`; `parseInt` of a leading
  digit run; `Math.round`, with the identity that rounds a quotient of
  integers in integer arithmetic.
- `wrappers.dfy`: `Option`.

The validation rules are evidently meant to report every problem as a
finding and never to fail. The code, however, looks up the breed's
regions in a plain object literal, and a breed name that is also an
inherited `Object.prototype` member makes the region rule throw. The
model keeps both: `ValidateFormAsWritten` is the page as written, and
`ValidateForm` with `Findings` is the evidently intended behaviour. See
"Findings".

## Model

| member | source | states |
|---|---|---|
| Validation.UpdateField | src/pages/Validation.tsx:56-61 | The named field takes the new value; every other field keeps its value |
| Validation.ValidationPage.HandleInputChange | src/pages/Validation.tsx:56-61 | The form becomes `UpdateField` of the old form; nothing else on the page changes |
| Validation.ValidationPage.constructor | src/pages/Validation.tsx:39-54 | Starts with all ten fields empty, no findings, not validating and not valid |
| Validation.AnimalIdFinding | src/pages/Validation.tsx:72-90 | Error iff the ID is empty, warning iff it has 1 to 5 characters, valid iff it has at least 6 |
| Validation.BreedNameFinding | src/pages/Validation.tsx:93-115 | Error iff the name is empty, valid iff it is one of the six common breeds (exact match), warning otherwise |
| Validation.AgeFinding | src/pages/Validation.tsx:118-130 | No finding iff the age is empty; otherwise never an error, and a warning iff `Number(age)` is NaN or above 20 |
| Validation.WeightFinding | src/pages/Validation.tsx:133-154 | No finding unless both weight and type are filled in. Then: warning iff outside the cattle range 200-800 or the buffalo range 300-1000; valid iff in range and above 0. So NaN gives no finding for any type, and 0 or a negative weight gives none for a type other than Cattle or Buffalo (for those two it is a range warning) |
| Validation.MilkYieldFinding | src/pages/Validation.tsx:157-172 | Warning iff the yield is filled in and above 50; valid iff it is above 0 and at most 50; never an error |
| Validation.RegionFinding | src/pages/Validation.tsx:175-199 | A finding iff region and breed are filled in and the breed has its own entry in the region table. It is valid iff the region is one of the listed regions; the warning names the breed and the comma-joined regions |
| Validation.PushAnimalIdFinding | src/pages/Validation.tsx:72-90 | Appends exactly the Animal ID rule's finding to the list |
| Validation.PushBreedNameFinding | src/pages/Validation.tsx:93-115 | Appends exactly the Breed Name rule's finding |
| Validation.PushAgeFinding | src/pages/Validation.tsx:118-130 | Appends the Age rule's finding, if any |
| Validation.PushWeightFinding | src/pages/Validation.tsx:133-154 | Appends the Weight rule's finding, if any |
| Validation.PushMilkYieldFinding | src/pages/Validation.tsx:157-172 | Appends the Milk Yield rule's finding, if any |
| Validation.PushRegionFinding | src/pages/Validation.tsx:175-199 | Appends the Region rule's finding, if any |
| Validation.ValidationPage.ValidateForm | src/pages/Validation.tsx:63-207 | Callable only while not validating, as the "Validate Data" button is disabled then. With the own-key region lookup: the published list is `Findings(form)`; the verdict is "no error and non-empty", which holds iff animal ID and breed name are both filled in; validation has ended |
| Validation.ValidationPage.ValidateFormAsWritten | src/pages/Validation.tsx:63-207 | Callable only while not validating, as the "Validate Data" button is disabled then. As written: it throws iff the region rule throws. Then results and verdict keep their old values and `isValidating` stays true, so the button stays disabled. Otherwise it publishes `Findings(form)` and its verdict and ends validation |
| Validation.LabelIdentifiesField | src/pages/Validation.tsx:74-194 | Two fields share a label iff they are the same field, so the field enumeration stands for the label strings |
| Validation.Findings | src/pages/Validation.tsx:69-199 | Between two and six findings; the first is about Animal ID and the second about Breed Name |
| Validation.HasError | src/pages/Validation.tsx:205 | `results.some(r => r.status === "error")`: true iff some finding has the error status |
| Validation.FormVerdict | src/pages/Validation.tsx:206 | True iff there is at least one finding and none is an error |
| Validation.RuleResults | src/pages/Validation.tsx:69-199 | Six optional findings, one per rule |
| Validation.RuleResultsFollowRuleOrder | src/pages/Validation.tsx:69-199 | The i-th rule result, when present, is about the i-th field of the rule order |
| Validation.FindingsAreSomes | src/pages/Validation.tsx:69-199 | The pushed list is exactly the present rule results, in rule order |
| Validation.FindingsShape | src/pages/Validation.tsx:69-199 | 2 to 6 findings. The first two are always the ID and breed findings. Fields strictly follow the rule order, with no field twice. A field has a finding iff its rule produced one |
| Validation.OnlyRequiredFieldsError | src/pages/Validation.tsx:72-199 | Only the Animal ID and Breed Name findings can be errors |
| Validation.VerdictIffRequiredFields | src/pages/Validation.tsx:201-206 | `!hasErrors && results.length > 0` holds iff animal ID and breed name are both non-empty |
| Validation.ValidWeightInRange | src/pages/Validation.tsx:133-154 | A valid weight is a number above 0 within its type's range |
| Validation.RegionWarningNamesRegions | src/pages/Validation.tsx:190 | The region warning starts with the breed name and mentions every expected region |
| Validation.AgeOfWholeYears | src/pages/Validation.tsx:118-130 | A whole number of years is valid up to 20 and a warning above |
| Validation.CattleWeightOfWholeKilograms | src/pages/Validation.tsx:133-154 | A whole-kilogram cattle weight is valid exactly within 200-800, a warning otherwise |
| Validation.BlankFormFails | src/pages/Validation.tsx:72-98 | The empty form gives exactly the two "required" errors and fails |
| Validation.GirRecordNumbers | src/pages/Validation.tsx:118-154 | Age "3" and cattle weight "450" are valid |
| Validation.GirInGujarat | src/pages/Validation.tsx:176-198 | Gujarat is a listed region of the Gir, so the region finding is valid |
| Validation.ConsistentGirRecordPasses | src/pages/Validation.tsx:63-207 | The record BP2024001 / Gir / Cattle / 3 / 450 / Gujarat gives five valid findings and passes |
| Validation.HeavyCowWeight | src/pages/Validation.tsx:135-140 | A 900 kg cow is a cattle-range warning |
| Validation.WarningsDoNotBlock | src/pages/Validation.tsx:63-207 | ID "AB1", Gir, Cattle, 900 kg gives two warnings and one valid finding, and still passes |
| Validation.GirInPunjabWarns | src/pages/Validation.tsx:185-191 | Gir in Punjab warns "Gir is typically found in Gujarat, Rajasthan. Please verify location." |
| Validation.LookupAsWritten | src/pages/Validation.tsx:176-185 | The object-literal lookup yields an own entry iff the name is one of the six breeds, and an inherited member iff it is an `Object.prototype` name |
| Validation.RegionStepAsWritten | src/pages/Validation.tsx:175-199 | The region rule as written throws iff the region is filled in and the breed name is an `Object.prototype` name |
| Validation.ConstructorBreedThrows | src/pages/Validation.tsx:185-186 | Breed "constructor" with region "Gujarat" throws, although the breed rule only warns |
| Validation.RegionFindingCorrectsLookup | src/pages/Validation.tsx:175-199 | Wherever the written rule completes, the own-key rule pushes the same finding; on the inherited names it completes with no finding |
| Validation.StatusIconOf | src/pages/Validation.tsx:209-216 | Check-circle iff "valid", alert-triangle iff "warning", x-circle iff "error"; no icon for any other string |
| Validation.StatusColor | src/pages/Validation.tsx:218-225 | Success, warning, destructive tone iff "valid", "warning", "error" respectively |
| Validation.StatusDisplayAgrees | src/pages/Validation.tsx:209-225 | Every status has an icon whose tone is its border tone; different statuses get different tones |
| BreedGuide.MatchesSearch | src/pages/BreedGuide.tsx:79-80 | The empty search matches every breed, and so does any term found verbatim in the name or origin |
| BreedGuide.MatchesType | src/pages/BreedGuide.tsx:81 | "All" passes every breed; any other choice passes a breed iff it is the breed's type |
| BreedGuide.MatchesRegion | src/pages/BreedGuide.tsx:82 | "All" and the breed's own origin always pass; a region that passes (other than "All") is no longer than the origin |
| BreedGuide.FilterBreeds | src/pages/BreedGuide.tsx:78-85 | Keeps exactly the breeds matching search, type and region (sound and complete); never longer than the catalog |
| BreedGuide.FilterConcat | src/pages/BreedGuide.tsx:78-85 | Filtering distributes over concatenation, so catalog order is preserved |
| BreedGuide.FilterDefaultsIsIdentity | src/pages/BreedGuide.tsx:74-85 | With the initial state (empty search, "All", "All") every breed is shown, in order |
| BreedGuide.FilterIdempotent | src/pages/BreedGuide.tsx:78-85 | Filtering the filtered list again changes nothing |
| BreedGuide.SearchIgnoresCase | src/pages/BreedGuide.tsx:79-80 | Two search terms with the same lower-case form select the same breeds |
| BreedGuide.SearchInCapitals | src/pages/BreedGuide.tsx:79-80 | Typing the search in capitals changes nothing |
| BreedGuide.TypeFacetIsExact | src/pages/BreedGuide.tsx:81 | With only a type facet, a breed is kept iff its type equals the facet |
| BreedGuide.FilterCatalog | src/pages/BreedGuide.tsx:10-85 | On the catalog, the filter keeps or drops each of the six breeds in catalog order |
| BreedGuide.KeepByRegion | src/pages/BreedGuide.tsx:82 | With only a region facet, a breed is kept iff its origin contains the facet |
| BreedGuide.GujaratRegionFacet | src/pages/BreedGuide.tsx:10-85 | The region facet "Gujarat" shows Gir and Kankrej ("Gujarat/Rajasthan"), by partial match |
| BreedGuide.BuffaloTypeFacet | src/pages/BreedGuide.tsx:10-85 | The type facet "Buffalo" shows Murrah and Nili-Ravi |
| BreedGuide.Distinct | src/pages/BreedGuide.tsx:87 | `Array.from(new Set(xs))`: no value twice, and exactly the values of `xs` |
| BreedGuide.DistinctInFirstSeenOrder | src/pages/BreedGuide.tsx:87 | The distinct values come in the order of their first occurrence |
| BreedGuide.UniqueTypes | src/pages/BreedGuide.tsx:87 | "All" first; after it, a type appears iff some breed has it |
| BreedGuide.CatalogTypeOptions | src/pages/BreedGuide.tsx:10-87 | On the catalog the type options are exactly "All", "Cattle", "Buffalo" |
| BreedGuide.RegionOptionsAllSelectSomething | src/pages/BreedGuide.tsx:10-88 | Every region option other than "All" selects at least one catalog breed |
| Training.CompletedModules | src/pages/Training.tsx:96 | The completed modules: a module is in the list iff it is in the input and completed (the order and multiplicity follow from `CompletedModulesOfConcat` and `AggregatesOfSingleton`) |
| Training.CompletedCount | src/pages/Training.tsx:96 | The completed count never exceeds the number of modules (its exact value per module follows from `CompletedModulesOfConcat` and `AggregatesOfSingleton`) |
| Training.CompletedModulesOfConcat | src/pages/Training.tsx:96 | `filter` distributes over concatenation: the completed modules of `a + b` are those of `a` followed by those of `b`, and the counts add up |
| Training.ProgressSum | src/pages/Training.tsx:97 | The sum of the module progresses is non-negative when every progress is |
| Training.ProgressSumOfConcat | src/pages/Training.tsx:97 | The progress sum of `a + b` is the sum for `a` plus the sum for `b` |
| Training.AggregatesOfSingleton | src/pages/Training.tsx:96-97 | One module: it is completed-listed iff completed, counts 1 iff completed, and contributes its own progress |
| Training.ConsSteps | src/pages/Training.tsx:96-97 | Prepending a module adds its completion indicator to the count and its progress to the sum |
| Training.CompletedCountExtremes | src/pages/Training.tsx:96 | The count equals the number of modules iff all are completed, and is 0 iff none is |
| Training.ProgressSumBounds | src/pages/Training.tsx:97 | The progress sum lies between n·lo and n·hi |
| Training.TotalProgress | src/pages/Training.tsx:97 | Undefined (NaN) iff there are no modules; otherwise `Math.round(sum / n)`, which equals `(2·sum + n) div 2n` |
| Training.TotalProgressWithinBounds | src/pages/Training.tsx:97 | Overall progress stays within the bounds of the module progresses (0-100 stays 0-100) |
| Training.DurationSum | src/pages/Training.tsx:158 | The minute total is defined iff every duration label starts with a digit |
| Training.LearningHours | src/pages/Training.tsx:158 | `Math.round(minutes / 60)`: defined with the minute total, equal to `(minutes + 30) div 60` |
| Training.DurationSumOfParsed | src/pages/Training.tsx:158 | When every label parses, the total is the sum of the parsed minutes |
| Training.TwoDigitLabel | src/pages/Training.tsx:158 | `parseInt` of a label like "15 min" is its two-digit number |
| Training.TrainingModulesCompleted | src/pages/Training.tsx:30-96 | Two of the six modules are completed |
| Training.TrainingModulesProgress | src/pages/Training.tsx:30-97 | Progresses 100, 100, 65, 0, 0, 25 give an overall 48% |
| Training.TrainingModulesMinutes | src/pages/Training.tsx:30-158 | The six durations add up to 118 minutes |
| Training.TrainingModulesLearningTime | src/pages/Training.tsx:30-158 | The learning time shown is 2h |
| Training.ActionLabel | src/pages/Training.tsx:315 | "Review" iff completed, "Continue" iff not completed and started, "Start" otherwise |
| Training.ShowProgressBar | src/pages/Training.tsx:302-308 | A progress bar is never shown for a "Start" module; for a module not completed, it is shown iff the label is "Continue" |
| Training.ShowReset | src/pages/Training.tsx:317-319 | The reset button is shown iff the label is "Continue", and then always with a progress bar |
| Training.DifficultyColor | src/pages/Training.tsx:99-106 | Success, warning, destructive tone iff "Beginner", "Intermediate", "Advanced"; muted otherwise |
| Training.DifficultyColorsDistinct | src/pages/Training.tsx:99-106 | Every level has its own non-muted tone |
| AIClassifier.CheckUpload | src/pages/AIClassifier.tsx:27-35 | Too large iff above 10·1024·1024 bytes; not an image iff within size and the type does not start with "image/"; accepted otherwise |
| AIClassifier.UploadLimitIsInclusive | src/pages/AIClassifier.tsx:27 | Exactly 10485760 bytes passes the size check; 10485761 does not |
| AIClassifier.SizeCheckedFirst | src/pages/AIClassifier.tsx:27-35 | An oversized file is reported as oversized whatever its type |
| AIClassifier.ClassifierPage.constructor | src/pages/AIClassifier.tsx:18-21 | No image, not analyzing, no results, no error |
| AIClassifier.ClassifierPage.HandleFileUpload | src/pages/AIClassifier.tsx:24-45 | No file changes nothing. A rejected file sets the size or type error and nothing else. An accepted file starts the read. The invariant holds |
| AIClassifier.ClassifierPage.OnImageLoaded | src/pages/AIClassifier.tsx:38-42 | The image is set; the error and the old results are cleared |
| AIClassifier.ClassifierPage.StartClassification | src/pages/AIClassifier.tsx:47-51 | Without an image nothing happens; otherwise analysis starts and the error is cleared |
| AIClassifier.ClassifierPage.CompleteClassification | src/pages/AIClassifier.tsx:57-82 | The three mock results arrive and analysis ends |
| AIClassifier.ClassifierPage.Clear | src/pages/AIClassifier.tsx:195-203 | Image, results and error are reset; only allowed when not analyzing |
| AIClassifier.ConfidenceTier | src/pages/AIClassifier.tsx:85-95 | High iff at least 80, medium iff in [60, 80), low iff below 60 |
| AIClassifier.TierMonotone | src/pages/AIClassifier.tsx:85-95 | A higher confidence never gets a lower tier |
| AIClassifier.ConfidenceColor | src/pages/AIClassifier.tsx:85-89 | Success text iff at least 80, warning text iff in [60, 80) |
| AIClassifier.ConfidenceBadge | src/pages/AIClassifier.tsx:91-95 | Default badge iff at least 80, secondary iff in [60, 80) |
| AIClassifier.ColorAndBadgeAgree | src/pages/AIClassifier.tsx:85-95 | Colour and badge are each a function of the tier and each tells the tiers apart |
| AIClassifier.ShowsHighConfidence | src/pages/AIClassifier.tsx:304 | Only the first result can carry the line, and it does iff its percentage is in the success colour, iff it has the default badge |
| AIClassifier.HighConfidenceOnlyFirst | src/pages/AIClassifier.tsx:304 | The "High confidence match" line shows only under the first result, iff its tier is high |
| AIClassifier.MockResultsShowBanner | src/pages/AIClassifier.tsx:57-79 | With the mock answer the line shows for Gir (87.5); Sahiwal is medium and Red Sindhi low |
| JsNumbers.ToNumber | src/pages/Validation.tsx:118 | A non-empty run of digits reads as its decimal value; a minus sign before such a run negates it |
| JsNumbers.ToNumberOfNat | src/pages/Validation.tsx:118 | `Number(String(n)) == n` for every natural number |
| JsNumbers.ParseIntPrefix | src/pages/Training.tsx:158 | `parseInt` is NaN iff the string is empty or does not start with a digit |
| JsNumbers.ParseIntPrefixOfRendering | src/pages/Training.tsx:158 | `parseInt(String(n) + rest) == n` when `rest` does not start with a digit |
| JsNumbers.MathRound | src/pages/Training.tsx:97 | `Math.round(x)` lies within half a unit of `x`, rounding halves up |
| JsNumbers.RoundOfQuotient | src/pages/Training.tsx:97 | `Math.round(s / n) == (2s + n) div 2n` for positive `n` |
| Text.StartsWith | src/pages/AIClassifier.tsx:32 | True iff the prefix is at most as long as the string and equals its first characters; a string includes each of its prefixes |
| Text.Includes | src/pages/BreedGuide.tsx:79-82 | The empty string is included in every string; an included string is no longer than the string |
| Text.IncludesLowered | src/pages/BreedGuide.tsx:79-80 | An occurrence survives lower-casing both strings, so a verbatim match is a case-insensitive match |
| Text.Join | src/pages/Validation.tsx:190 | The joined string begins with the first item; joining nothing gives the empty string |
| Text.ToLower | src/pages/BreedGuide.tsx:79-80 | Same length, each character folded to lower case |
| Text.ToUpper | src/pages/BreedGuide.tsx:79-80 | Upper-casing then lower-casing gives the lower-case form; it builds the capitalised search term of `SearchInCapitals` and is not called by the page itself |
| Text.ToLowerIdempotent | src/pages/BreedGuide.tsx:79-80 | Lower-casing twice is lower-casing once |
| Text.JoinIncludesItems | src/pages/Validation.tsx:190 | `join` contains every item |
| Text.NatToStringRoundTrip | src/pages/Validation.tsx:118 | Reading back the decimal rendering of `n` gives `n` |

## Left out

- The JSX layout, CSS class strings, icons and images are left out. Icons, tones, badge variants and button labels are enumerations.
- Header, Footer, Homepage and Index are not part of this model. They hold navigation and static content.
- Async delays are not modelled: the 1.5 s `setTimeout` in validation and the 3 s one in classification. `ValidateForm` runs start to end in one call. `isValidating` is observed only before and after it.
- Classification is split into `StartClassification` and `CompleteClassification`, the two sides of its delay.
- The `FileReader` is not modelled. Reading a file is the event `OnImageLoaded` with the data URL it produces. Nothing models a second upload that overtakes a pending read.
- The Clear button's reset of the hidden file input (AIClassifier.tsx:199-201) is DOM state and is not modelled.
- The mock classifier's answer is fixed, as in the source. No ranking or image analysis exists to model.
- JsNumbers.ToNumber: covers decimal literals only, with optional sign, digits, an optional fraction, and surrounding ASCII white space. Exponents, hex/octal/binary prefixes, `Infinity`, numeric separators and Unicode white space all give NaN here, although `Number` accepts some of them. The value is the exact decimal, not rounded to the nearest double as `Number` rounds it, so an input with 17 or more significant digits that sits next to a threshold (0, 20, 50, 200, 300, 800, 1000) can land on the other side of it: "800.0000000000000001" is above 800 here but exactly 800 on the page.
- JsNumbers.ParseIntPrefix: reads only a run of leading ASCII digits. It does not skip leading white space or accept a sign as `parseInt` does, nor read the `0x`/`0X` hexadecimal prefix (`parseInt("0x1A min")` is 26 on the page, 0 here). Every label the page parses starts with a digit.
- Validation.ValidationPage.ValidateForm, Validation.Findings: use the own-key region lookup of `RegionFinding`, so for an `Object.prototype` name as breed they give no region finding where the page throws; the page's actual outcome for those names is `ValidateFormAsWritten`.
- Validation.AnimalIdFinding: `.length` counts UTF-16 code units, while the model counts characters, so an ID with characters outside the Basic Multilingual Plane can be "at least 6" on the page but not in the model.
- Text.ToLower: folds ASCII letters only. `toLowerCase` folds all of Unicode. Strings are sequences of characters, not UTF-16 code units.
- Confidence and progress are modelled as a real and an integer, not IEEE doubles. All values on the pages are small whole or one-decimal numbers.
- Training's `getTypeIcon` and the "Select a module" placeholder are left out. They are pure presentation.
- The AI classifier's "Ready to Analyze" and error cards are left out. They only display `uploadedImage`, `error` and `isAnalyzing`.
- Selecting a module in Training is plain React state, with no logic to model.

## Findings

| source | as written | input that shows it | evidently intended | confidence | as-written member | corrected member |
|---|---|---|---|---|---|---|
| src/pages/Validation.tsx:176-186 | `breedRegions[formData.breedName]` on a plain object literal. A breed name equal to an inherited `Object.prototype` member yields a truthy function. `expectedRegions.includes` is then not a function, and `validateForm` rejects before publishing results, leaving `isValidating` true | breedName "constructor", region "Gujarat" | Only the six listed breeds have expected regions; any other name gives no region finding | not executed | Validation.RegionStepAsWritten, Validation.ConstructorBreedThrows, Validation.ValidationPage.ValidateFormAsWritten | Validation.RegionFinding, Validation.RegionFindingCorrectsLookup, Validation.ValidationPage.ValidateForm, Validation.Findings |
