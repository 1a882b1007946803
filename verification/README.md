# 1031 Exchange Denver: a Dafny model of the site's logic

The site is a Next.js marketing site for a 1031 exchange practice. This
project models its logic as pure Dafny functions over immutable data:

- the lead-intake endpoint `POST /api/lead`: the Turnstile spam gate, the
  SendGrid email, the webhook and the HTTP answers;
- the seven client-side tools:
  - the boot calculator;
  - the exchange cost estimator;
  - the debt-relief calculator;
  - the depreciation-recapture estimator;
  - the replacement-value calculator;
  - the 45/180-day deadline calculator and the timeline tracker;
  - the identification letter helper.
- the search and filter widgets:
  - the search panel of the services, locations and property-types pages;
  - the home-page location and service searches;
  - the related-services filter.
- blog pagination;
- the contact-link builder and the `application/x-www-form-urlencoded`
  serializer and parser it relies on (WHATWG URL Standard, section 5), with
  UTF-8;
- the breadcrumb JSON-LD;
- the footer link lists;
- the sitemap.

JavaScript numbers are modelled by `JsNumber.Num`: either `NaN` or a finite
real. `parseFloat` and `Number` are modelled on the strings the tools can
hold, which are digits and dots only. This is because every keystroke goes
through the sanitiser `value.replace(/[^0-9.]/g, "")`. Validation in the
`calculate…` handlers is a list of rules. `Checks.Collect` gathers the
messages of the violated ones in order. Calls to outside services (Turnstile,
SendGrid, the webhook, the CMS) are parameters that say what the service did.

Module layout, one file each:

- Foundations:
  - `Wrappers`: `Option`.
  - `Lists`: filter, slice, find and subsequences.
  - `Text`: JavaScript `trim`, `toLowerCase` and `includes`.
  - `JsNumber`: numbers, the sanitiser, `parseFloat` and `Number`.
  - `Checks`: validation rules.
  - `Catalog`: the data records.
- Encoding:
  - `Utf8`.
  - `UrlEncoded`.
  - `Routing`.
- Tools:
  - `Boot`, `ExchangeCost`, `DebtRelief`, `DepreciationRecapture`,
    `ReplacementValue`: the calculators.
  - `Deadlines`: the deadline calculator and the timeline tracker.
  - `Letter`: the identification letter helper.
- Widgets and pages:
  - `SearchPanel`, `HomeSearch`, `RelatedServices`: the search and filter
    widgets.
  - `BlogGrid`: blog pagination.
  - `Seo`: breadcrumb JSON-LD.
  - `Footer`: the footer link lists.
  - `Sitemap`: the sitemap.
  - `Lead`: the lead endpoint.

Where the written description of the site and the code disagree, the model
follows the code:

- A body that is not JSON makes `POST /api/lead` answer 500, not 400.
- A failing email send also answers 500, and the webhook is then not
  called. The email is not best-effort.
- The home service search sends the query to the contact page untrimmed.

## Model

| member | source | states |
|---|---|---|
| `Checks.Collect` | components/tools/ReplacementPropertyValueCalculator.tsx:22-50 | the error list is empty exactly when no rule is violated, holds exactly the messages of violated rules, and keeps rule order |
| `Lists.Filter` | components/services/RelatedServiceGrid.tsx:20-22 | `Array.filter`: every kept element satisfies the predicate and none is added |
| `Lists.FilterMembership` | components/services/RelatedServiceGrid.tsx:20-22 | an element is kept exactly when it is in the input and satisfies the predicate |
| `Lists.FilterCount` | components/services/RelatedServiceGrid.tsx:20-22 | each element is kept as many times as it occurs in the input when it satisfies the predicate, and never otherwise |
| `Lists.FilterIsSubsequence` | components/services/RelatedServiceGrid.tsx:20-22 | filtering keeps the input's order |
| `Lists.FilterPartition` | components/search/SearchPanel.tsx:46-50 | splitting by a predicate and its negation loses and duplicates nothing |
| `Lists.FilterConcat` | components/Footer.tsx:25-30 | filtering distributes over concatenation |
| `Lists.FilterFilter` | components/search/SearchPanel.tsx:42-50 | filtering by a weaker and then a stronger predicate equals filtering by the stronger one |
| `Lists.FilterAll` | components/search/SearchPanel.tsx:42-44 | a filter every element passes returns the input |
| `Lists.FilterNone` | components/search/SearchPanel.tsx:42-44 | a filter no element passes returns nothing |
| `Lists.Take` | components/home/HomeLocationSearch.tsx:29-31 | `slice(0, n)`: the first `min(n, length)` elements |
| `Lists.SliceIndex` | components/blog/BlogGrid.tsx:37 | `slice`'s index normalisation: negative indices count from the end, and the result is clamped to the length |
| `Lists.Slice` | components/blog/BlogGrid.tsx:35-38 | `Array.slice(start, end)`: the contiguous run from `start`, at most `end - start` long, cut at the end of the array, non-empty when `start` is inside |
| `Lists.PrefixIsSubsequence` | components/home/HomeLocationSearch.tsx:29-31 | a prefix keeps order |
| `Lists.SubsequenceTransitive` | components/Footer.tsx:21-23 | order-keeping selections compose |
| `Lists.SubsequenceMembers` | components/Footer.tsx:21-23 | an order-keeping selection only holds elements of its source |
| `Lists.FirstIndex` | components/home/HomeLocationSearch.tsx:46-48 | `findIndex`: the first position satisfying the predicate, or none when no position does |
| `Lists.Find` | components/home/HomeLocationSearch.tsx:46-48 | `Array.find`: present exactly when some element satisfies the predicate, and then the first such element |
| `Lists.FindIsFilterHead` | components/search/SearchPanel.tsx:53-60 | `find` returns the head of the filtered list, and finds nothing exactly when that list is empty |
| `Text.LowerChar` | components/search/SearchPanel.tsx:43 | `toLowerCase` on one character maps each ASCII capital to its small letter and leaves every other character alone |
| `Text.Lower` | components/search/SearchPanel.tsx:41-43 | `toLowerCase` keeps the length and lowers each character in place |
| `Text.LowerIdempotent` | components/search/SearchPanel.tsx:41-47 | lowering twice is lowering once |
| `Text.LeadingSpaces` | components/search/SearchPanel.tsx:41 | the length of the run of white space at the start |
| `Text.TrailingStart` | components/search/SearchPanel.tsx:41 | where the run of white space at the end begins |
| `Text.Trim` | components/search/SearchPanel.tsx:41 | `trim` removes white space at both ends and nothing else: the result is a slice of the input with only white space around it, and it has no white space at either end |
| `Text.TrimEmptyIffAllSpace` | components/services/RelatedServiceGrid.tsx:16 | `!query.trim()` holds exactly when the query is all white space |
| `Text.NonBlankNonEmpty` | components/home/HomeServiceSearch.tsx:39-49 | a query that is not blank is a non-empty string |
| `Text.ContainsSelf` | components/search/SearchPanel.tsx:43-47 | a label contains itself, so an exact label is also a match |
| `Text.ContainsInTail` | app/api/lead/route.ts:94-103 | whatever the tail of a text contains, the whole text contains |
| `Text.ContainsMiddle` | app/api/lead/route.ts:81-103 | a text contains every middle part of it |
| `Text.ContainsTransitive` | app/api/lead/route.ts:81-103 | a part of a part of a text is a part of the text |
| `Text.TrimFramed` | app/api/lead/route.ts:81-92 | text framed by white space, and itself starting and ending with a visible character, is exactly what `trim` returns |
| `Text.TrimKeepsInner` | app/api/lead/route.ts:81-92 | trimming keeps any inner text that neither starts nor ends with white space |
| `Text.TrimKeepsSlice` | app/api/lead/route.ts:81-92 | trimming keeps any slice that neither starts nor ends with white space |
| `JsNumber.OrZero` | components/tools/ReplacementPropertyValueCalculator.tsx:25-28 | `parseFloat(x) \|\| 0`: NaN reads as 0, any number as itself |
| `JsNumber.PercentBounds` | components/tools/DebtReliefCalculator.tsx:44 | a percentage from 0 to 100 of a non-negative amount lies between 0 and the amount |
| `JsNumber.PercentOfAmount` | components/tools/DepreciationRecaptureEstimator.tsx:59 | the tax `amount * (rate / 100)` for a valid rate lies between 0 and the amount |
| `JsNumber.PercentOf` | components/tools/ExchangeCostEstimator.tsx:78-80 | a finite percentage of a finite amount is finite, and a rate capped at `cap` gives at most `cap` percent of the amount |
| `JsNumber.Sanitize` | components/tools/ReplacementPropertyValueCalculator.tsx:81 | the sanitiser keeps the digits and dots of the input in order, each as many times as it occurs, and drops every other character |
| `JsNumber.SanitizeFixesSanitized` | components/tools/BootCalculator.tsx:74-76 | sanitising text that is already digits and dots changes nothing |
| `JsNumber.SanitizeIdempotent` | components/tools/BootCalculator.tsx:74-76 | sanitising twice is sanitising once |
| `JsNumber.LeadingDigits` | components/tools/ReplacementPropertyValueCalculator.tsx:24 | the length of the run of digits at the start |
| `JsNumber.ParseFloat` | components/tools/ReplacementPropertyValueCalculator.tsx:24-28 | `parseFloat` on sanitised text is NaN exactly for the empty string and for a leading dot not followed by a digit, and otherwise non-negative |
| `JsNumber.ToNumber` | components/tools/BootCalculator.tsx:29-35 | `Number` on sanitised text is NaN or non-negative |
| `JsNumber.ToNumberDefinedIff` | components/tools/BootCalculator.tsx:29-35 | `Number` of non-empty sanitised text is a number exactly when the text has a digit and at most one dot |
| `JsNumber.ToNumberAgreesWithParseFloat` | components/tools/BootCalculator.tsx:29-35 | where `Number` gives a number, `parseFloat` gives the same one |
| `JsNumber.ParseField` | components/tools/BootCalculator.tsx:29-35 | a field reads as null exactly when its text is empty, and otherwise as `Number` of the text, which is never negative |
| `JsNumber.AllDigitsNumber` | components/tools/ExchangeCostEstimator.tsx:21-27 | a string of digits reads as its decimal value |
| `JsNumber.NatToDigits` | components/tools/ExchangeCostEstimator.tsx:21-27 | the decimal numeral of a whole number is a non-empty string of digits |
| `JsNumber.NatToDigitsValue` | components/tools/ExchangeCostEstimator.tsx:21-27 | reading a whole number's numeral gives the number back |
| `JsNumber.ParseNatRoundTrip` | components/tools/BootCalculator.tsx:29-35 | both `parseFloat` and `Number` read a whole number's numeral back as that number |
| `JsNumber.MixedParseExamples` | components/tools/ReplacementPropertyValueCalculator.tsx:24-28 | "1.2.3" is 1.2 for `parseFloat` but NaN for `Number`, and "." is NaN for both |
| `Utf8.EncodeChar` | lib/routing.ts:8-12 | a character is one to four bytes: one byte exactly for ASCII, otherwise a lead byte of at least 0xC2 followed by continuation bytes |
| `Utf8.Encode` | lib/routing.ts:8-12 | the encoding is at least as long as the text, and exactly as long when the text is ASCII |
| `Utf8.EncodeConcat` | lib/routing.ts:8-12 | encoding distributes over concatenation |
| `Utf8.EncodeAscii` | lib/routing.ts:8-12 | ASCII text encodes to its own code points |
| `Utf8.DecodeOne` | lib/routing.ts:8-12 | decoding one character consumes one to four bytes, and an ASCII byte is that character |
| `Utf8.Decode` | lib/routing.ts:8-12 | decoding yields no more characters than bytes |
| `Utf8.DecodeTwo` | lib/routing.ts:8-12 | a two-byte character decodes back to itself |
| `Utf8.DecodeThree` | lib/routing.ts:8-12 | a three-byte character decodes back to itself |
| `Utf8.DecodeFour` | lib/routing.ts:8-12 | a four-byte character decodes back to itself |
| `Utf8.DecodeOneEncodeChar` | lib/routing.ts:8-12 | every character decodes back to itself, using all of its bytes |
| `Utf8.DecodeEncode` | lib/routing.ts:8-12 | decoding the encoding of any text gives the text back |
| `Utf8.EncodeExample` | lib/routing.ts:8-12 | "A & é" encodes to 41 20 26 20 C3 A9 |
| `UrlEncoded.HexValue` | lib/routing.ts:8-12 | a hex digit's value is below 16 |
| `UrlEncoded.HexDigit` | lib/routing.ts:8-12 | the upper-case hex digit of a value below 16 reads back as that value |
| `UrlEncoded.EncodeByte` | lib/routing.ts:8-12 | space becomes `+`; alphanumerics and `*-._` stay; every other byte becomes `%` and two hex digits of its value |
| `UrlEncoded.EncodeBytes` | lib/routing.ts:8-12 | the encoded bytes are all from the serialized alphabet and no fewer than the input |
| `UrlEncoded.EncodeComponent` | lib/routing.ts:8-12 | an encoded name or value uses only the serialized alphabet, so it holds no `=` or `&` |
| `UrlEncoded.SerializePair` | lib/routing.ts:8-12 | a serialized pair is non-empty and holds no `&` |
| `UrlEncoded.SerializeBytes` | lib/routing.ts:8-12 | a serialized list is empty exactly when there are no pairs, and uses only the serialized alphabet, `=` and `&` |
| `UrlEncoded.AsString` | lib/routing.ts:12 | ASCII bytes read as the string of the same code points |
| `UrlEncoded.Serialize` | lib/routing.ts:12 | `params.toString()` is pure ASCII |
| `UrlEncoded.SplitOn` | lib/routing.ts:8-12 | splitting at a separator yields at least one piece |
| `UrlEncoded.SplitFirst` | lib/routing.ts:8-12 | splitting at the first `=`: the name has no `=`, and name, `=` and value rebuild the input |
| `UrlEncoded.PlusToSpace` | lib/routing.ts:8-12 | the parser turns each `+` into a space and keeps every other byte |
| `UrlEncoded.PercentDecode` | lib/routing.ts:8-12 | percent-decoding never lengthens its input and leaves input without `%` unchanged |
| `UrlEncoded.ParseSequences` | lib/routing.ts:8-12 | the parser yields at most one pair per `&`-separated piece |
| `UrlEncoded.EncodeAsString` | lib/routing.ts:12 | the UTF-8 encoding of an ASCII string built from bytes is those bytes |
| `UrlEncoded.PlusToSpaceConcat` | lib/routing.ts:8-12 | replacing `+` distributes over concatenation |
| `UrlEncoded.DecodeEncodedByte` | lib/routing.ts:8-12 | each encoded byte decodes to itself, whatever follows it |
| `UrlEncoded.DecodeEncodeBytes` | lib/routing.ts:8-12 | decoding encoded bytes gives the bytes back |
| `UrlEncoded.DecodeEncodeComponent` | lib/routing.ts:8-12 | decoding an encoded name or value gives the text back |
| `UrlEncoded.SplitOnWithout` | lib/routing.ts:8-12 | a piece without the separator is not split |
| `UrlEncoded.SplitOnAt` | lib/routing.ts:8-12 | splitting after a separator-free piece keeps that piece whole and splits the rest |
| `UrlEncoded.SplitFirstAt` | lib/routing.ts:8-12 | a separator-free name is split off whole |
| `UrlEncoded.ParseSerializedPair` | lib/routing.ts:8-12 | a serialized pair splits at its `=` into the encoded name and the encoded value |
| `UrlEncoded.ParseSerializeBytes` | lib/routing.ts:8-12 | parsing the serialized bytes of any list of pairs gives the list back |
| `UrlEncoded.ParseSerialize` | lib/routing.ts:8-12 | parsing the serialized string of any list of pairs gives the list back |
| `UrlEncoded.EncodeByteExamples` | lib/routing.ts:8-12 | the bytes C3, A9 and `&` encode as `%C3`, `%A9` and `%26` |
| `UrlEncoded.EncodeBytesExample` | lib/routing.ts:8-12 | the bytes of "A & é" serialize as `A+%26+%C3%A9` |
| `UrlEncoded.EncodeComponentExample` | lib/routing.ts:8-12 | "A & é" serializes as `A+%26+%C3%A9` |
| `Routing.BuildContactHref` | lib/routing.ts:3-13 | the link always starts with the contact route; a missing or empty project type gives the bare route; otherwise the route, `?` and the serialized single pair `projectType` |
| `Routing.QueryOf` | lib/routing.ts:12 | the query is present exactly when the link has a `?`, and it is a proper suffix of the link |
| `Routing.QueryOfAfter` | lib/routing.ts:12 | after a route without `?`, the query is what follows the `?` |
| `Routing.ContactHrefRoundTrip` | lib/routing.ts:3-13 | the link has a query exactly when a non-empty project type was given, and parsing it yields the single pair `projectType` with that value |
| `Boot.Edit` | components/tools/BootCalculator.tsx:74-76 | `handleChange` sets the edited field to the sanitised text, leaves the others alone and keeps the form sanitised |
| `Boot.FieldError` | components/tools/BootCalculator.tsx:37-50 | a field has no error exactly when it is a number of at least zero; an empty field shows "Required", a malformed one "Enter a numeric value" and a negative one "Must be zero or greater" |
| `Boot.ErrorAt` | components/tools/BootCalculator.tsx:37-50 | a sanitised field has no error exactly when it is non-empty and reads as a number |
| `Boot.Errors` | components/tools/BootCalculator.tsx:37-50 | the error map holds exactly the erroneous fields, each with its message |
| `Boot.CanShowResultsIff` | components/tools/BootCalculator.tsx:52-58 | results show exactly when every field is non-empty and reads as a number |
| `Boot.ComputeResults` | components/tools/BootCalculator.tsx:60-72 | results exist exactly when every field reads as a number, and then the three amounts read as finite numbers. Cash boot is the cash received. Mortgage boot is zero exactly when the new mortgage is at least the old, and otherwise it is the difference. The total is their sum, and the tax is 20% of it |
| `Boot.NegativeMessageUnreachable` | components/tools/BootCalculator.tsx:45-46 | sanitised fields are never negative, so "Must be zero or greater" is never shown |
| `Boot.PropertyValuesDoNotMatter` | components/tools/BootCalculator.tsx:60-72 | the two property values only need to be present and numeric; they do not change the results |
| `Boot.MalformedFieldHidesResults` | components/tools/BootCalculator.tsx:43-44 | "1.2.3" as cash received shows "Enter a numeric value" and hides the results |
| `ExchangeCost.Edit` | components/tools/ExchangeCostEstimator.tsx:87-89 | `handleChange` sets the edited field to the sanitised text, leaves the others alone and keeps the form sanitised |
| `ExchangeCost.ParseAll` | components/tools/ExchangeCostEstimator.tsx:29-35 | each parsed value is null exactly when its field is empty |
| `ExchangeCost.DefaultsAccepted` | components/tools/ExchangeCostEstimator.tsx:21-64 | the form as first shown reads 1%, $1,500, 0.5% and $500, all four pass their checks, and only the empty property value is flagged |
| `ExchangeCost.FieldError` | components/tools/ExchangeCostEstimator.tsx:37-64 | the checks as written accept a present value that is in range and, for every field except the property value, also a NaN; a failing field shows its own message |
| `ExchangeCost.Errors` | components/tools/ExchangeCostEstimator.tsx:37-64 | the error map holds exactly the fields whose check fails, each with its message |
| `ExchangeCost.ComputeResults` | components/tools/ExchangeCostEstimator.tsx:66-85 | results exist exactly when every field is present and passes its check. The property value is then a positive number. The QI fee and title insurance are percentages of it, and the total is the sum of the four costs |
| `ExchangeCost.CostsOf` | components/tools/ExchangeCostEstimator.tsx:78-83 | escrow and recording fees pass through; the QI fee and title insurance are their percentages of the property value; each cost, and the total, is NaN exactly when an input it uses is NaN; a finite total is the sum of the four costs |
| `ExchangeCost.NaNPercentageShowsNaN` | components/tools/ExchangeCostEstimator.tsx:42-48 | with "1.2.3" as the QI fee percentage the form shows results, and the QI fee and total are NaN |
| `ExchangeCost.NaNPercentagePasses` | components/tools/ExchangeCostEstimator.tsx:42-48 | a NaN percentage with otherwise valid values passes the checks and yields NaN costs |
| `ExchangeCost.FieldErrorChecked` | components/tools/ExchangeCostEstimator.tsx:37-64 | corrected check: a field has no error exactly when it is a finite number in its range |
| `ExchangeCost.ErrorsChecked` | components/tools/ExchangeCostEstimator.tsx:37-64 | corrected error map: exactly the fields failing the corrected check |
| `ExchangeCost.CanShowResultsCheckedIff` | components/tools/ExchangeCostEstimator.tsx:66-72 | with the corrected checks, results show exactly when every field is a finite number in range |
| `ExchangeCost.Share` | components/tools/ExchangeCostEstimator.tsx:78-80 | a fee of at most `cap` percent of a non-negative property value lies between zero and `cap` percent of it: the QI fee at most the value, the title insurance at most 2% of it |
| `ExchangeCost.ComputeResultsChecked` | components/tools/ExchangeCostEstimator.tsx:74-85 | corrected results exist exactly when every field is in range; then every cost is a finite non-negative number, the QI fee is at most the property value, the title insurance at most 2% of it, and the total is the sum |
| `ExchangeCost.CheckedAgreesWhereDefined` | components/tools/ExchangeCostEstimator.tsx:74-85 | wherever the corrected estimator shows results, the estimator as written shows the same ones |
| `DebtRelief.Edit` | components/tools/DebtReliefCalculator.tsx:54-66 | the edited field takes the sanitised text, the others keep theirs, and the form stays sanitised |
| `DebtRelief.Calculate` | components/tools/DebtReliefCalculator.tsx:18-52 | the errors are the violated rules' messages in order. The result is valid exactly when both mortgages are non-negative and the rate is a number from 0 to 100. Then the mortgage boot is the excess of the old mortgage over the new, or zero, and the tax is that rate of it. Otherwise both are zero |
| `DebtRelief.FromFields` | components/tools/DebtReliefCalculator.tsx:21-38 | from sanitised fields only the rate can be reported wrong |
| `DebtRelief.OnlyRateCanFail` | components/tools/DebtReliefCalculator.tsx:25-33 | with non-negative mortgages the only possible error is the rate error |
| `DebtRelief.DefaultRateAccepted` | components/tools/DebtReliefCalculator.tsx:15 | with the default rate "20" every pair of mortgage texts gives a valid result whose tax is a fifth of the mortgage boot |
| `DepreciationRecapture.Edit` | components/tools/DepreciationRecaptureEstimator.tsx:73-88 | the edited field takes the sanitised text, the others keep theirs, and the form stays sanitised |
| `DepreciationRecapture.Recaptured` | components/tools/DepreciationRecaptureEstimator.tsx:50-56 | the recaptured amount lies between zero and the depreciation taken and never exceeds the gain; it is all the depreciation when the gain covers it, the gain when smaller, and zero without gain |
| `DepreciationRecapture.Calculate` | components/tools/DepreciationRecaptureEstimator.tsx:20-71 | the errors are the violated rules' messages in order. The result is valid exactly when cost and sale are positive numbers, the depreciation lies between zero and the cost, and the rate is from 0 to 100. Recapture is capped by the depreciation and by the gain, and the tax by the recapture. The net is the sale minus the tax. An invalid result is all zero |
| `DepreciationRecapture.FromFields` | components/tools/DepreciationRecaptureEstimator.tsx:23-47 | from sanitised fields the negative-depreciation error never appears |
| `DepreciationRecapture.DepreciationCheckPasses` | components/tools/DepreciationRecaptureEstimator.tsx:28-42 | a non-negative depreciation never triggers the negative-depreciation rule |
| `DepreciationRecapture.DefaultRateIsValid` | components/tools/DepreciationRecaptureEstimator.tsx:17 | the default rate "25" reads as 25 and passes the rate rule |
| `DepreciationRecapture.WorkedExample` | components/tools/DepreciationRecaptureEstimator.tsx:50-70 | cost 500000, depreciation 150000, sale 600000 at 25% recapture 150000, tax 37500 and net 562500 |
| `ReplacementValue.Edit` | components/tools/ReplacementPropertyValueCalculator.tsx:80-102 | the edited field takes the sanitised text, the others keep theirs, and the form stays sanitised |
| `ReplacementValue.Calculate` | components/tools/ReplacementPropertyValueCalculator.tsx:21-78 | the errors are the violated rules' messages in order. The result is valid exactly when the sale price is positive, all amounts are non-negative, the mortgage is within the sale price, and costs plus cash out fit in the proceeds. Then the equity is non-negative, the minimum value is equity plus new mortgage, and the recommended value is 5% more. An invalid result is all zero |
| `ReplacementValue.FromFields` | components/tools/ReplacementPropertyValueCalculator.tsx:24-55 | from sanitised fields only the sale-price, mortgage-exceeds-sale and exceeds-proceeds errors can appear |
| `ReplacementValue.OnlyComparisonsFail` | components/tools/ReplacementPropertyValueCalculator.tsx:30-50 | with non-negative amounts only the three comparison rules can be violated |
| `ReplacementValue.NaNSaleSingleError` | components/tools/ReplacementPropertyValueCalculator.tsx:30-32 | a sale price that is not a number gives exactly one error, the sale-price one |
| `ReplacementValue.NegativeErrorsUnreachable` | components/tools/ReplacementPropertyValueCalculator.tsx:34-48 | the four "cannot be negative" errors never appear for sanitised input |
| `ReplacementValue.WorkedExample` | components/tools/ReplacementPropertyValueCalculator.tsx:58-77 | sale 1000000, mortgage 400000, costs 20000, new mortgage 300000 give equity 580000, minimum 880000 and recommended 924000 |
| `Deadlines.AddDays` | components/tools/DeadlineCalculator.tsx:12-16 | the result is exactly `days` days after the base |
| `Deadlines.AddDaysCompose` | components/tools/DeadlineCalculator.tsx:12-16 | adding `a` days and then `b` days is adding `a + b` days; adding zero changes nothing |
| `Deadlines.ComputeDeadlines` | components/tools/DeadlineCalculator.tsx:29-35 | identification is 45 days after closing and the exchange deadline 180 days after, so they are 135 days apart and in that order |
| `Deadlines.DeadlinesShift` | components/tools/DeadlineCalculator.tsx:29-35 | moving the closing date moves both deadlines by the same number of days |
| `Deadlines.Dates` | components/tools/TimelineTracker.tsx:24-53 | the dates of the milestones, one per milestone, in order |
| `Deadlines.Milestones` | components/tools/TimelineTracker.tsx:24-53 | five milestones in strictly increasing date order, starting at the sale and with the 45-day and 180-day entries on the deadline calculator's dates |
| `Deadlines.MilestoneNamesDistinct` | components/tools/TimelineTracker.tsx:27-51 | no two milestones share a name |
| `Deadlines.MilestonesShift` | components/tools/TimelineTracker.tsx:24-53 | moving the closing date moves every milestone date by the same amount and keeps the names and notes |
| `Letter.OrPlaceholder` | components/tools/IdentificationLetterHelper.tsx:13-19 | `x \|\| placeholder`: the typed text when non-empty, otherwise the placeholder |
| `Letter.Shown` | components/tools/IdentificationLetterHelper.tsx:13-19 | the letter shows each typed field verbatim and each blank one as its placeholder |
| `Letter.Template` | components/tools/IdentificationLetterHelper.tsx:11-23 | the letter starts with "To: " and ends with the acknowledgement sentence |
| `Letter.StripPrefix` | components/tools/IdentificationLetterHelper.tsx:13-21 | a prefix is stripped exactly when present, and prefix and rest rebuild the text |
| `Letter.StripPrefixOf` | components/tools/IdentificationLetterHelper.tsx:13-21 | stripping a prefix from text that starts with it leaves the rest |
| `Letter.SplitLine` | components/tools/IdentificationLetterHelper.tsx:13-21 | a line is split off exactly when there is a line break, and line, break and rest rebuild the text |
| `Letter.SplitLineOf` | components/tools/IdentificationLetterHelper.tsx:13-21 | a single-line text followed by a break is split off whole |
| `Letter.Field` | components/tools/IdentificationLetterHelper.tsx:13-21 | reading a heading's line: heading, line, break and rest rebuild the text, and the line has no break |
| `Letter.FieldOf` | components/tools/IdentificationLetterHelper.tsx:13-21 | a heading followed by a single line reads back that line and the rest |
| `Letter.ParseLetter` | components/tools/IdentificationLetterHelper.tsx:13-21 | only a text starting with "To: " reads as a letter |
| `Letter.ParseTemplate` | components/tools/IdentificationLetterHelper.tsx:11-23 | reading back a letter whose first three fields are single lines gives exactly the texts shown in it |
| `Letter.ParseComposed` | components/tools/IdentificationLetterHelper.tsx:13-21 | each heading's line is read back from the assembled letter |
| `Letter.PlaceholdersSingleLine` | components/tools/IdentificationLetterHelper.tsx:13-16 | the three single-line placeholders hold no line break |
| `Letter.TemplateInjective` | components/tools/IdentificationLetterHelper.tsx:11-23 | two letters are the same text exactly when they show the same four fields |
| `Letter.BlankLetter` | components/tools/IdentificationLetterHelper.tsx:11-23 | the blank form's letter reads back as the four placeholders |
| `SearchPanel.ExactImpliesMatch` | components/search/SearchPanel.tsx:42-48 | an item whose label equals the query also contains it |
| `SearchPanel.Filtered` | components/search/SearchPanel.tsx:36-51 | no query shows all items. Otherwise the result is a permutation of the matching items with exact matches first, and each group keeps data order (the sort is stable) |
| `SearchPanel.StablePartition` | components/search/SearchPanel.tsx:46-50 | exact-first ordering is a permutation that keeps each group's order |
| `SearchPanel.FilteredMembers` | components/search/SearchPanel.tsx:36-51 | an item is shown exactly when it is listed and its lowered label contains the normalized query |
| `SearchPanel.ExactMatchHref` | components/search/SearchPanel.tsx:53-60 | the link is present exactly when some label equals the normalized query, and it is the first such item's link |
| `SearchPanel.ExactMatchShownFirst` | components/search/SearchPanel.tsx:36-60 | when there is an exact match, the list is non-empty and its first card is the one submitting goes to |
| `SearchPanel.FirstExactIsHead` | components/search/SearchPanel.tsx:46-50 | in an exact-first list the first exact item is the head |
| `SearchPanel.FallbackValue` | components/search/SearchPanel.tsx:70-73 | the project type sent is never empty: the prefill if non-empty, else the query, else "Other" |
| `SearchPanel.SubmitDestination` | components/search/SearchPanel.tsx:62-74 | submitting goes to the exact match's link, or else to the contact page with the fallback project type |
| `SearchPanel.SubmitCarriesProjectType` | components/search/SearchPanel.tsx:62-74 | without an exact match the contact page reads back the fallback as its only parameter |
| `SearchPanel.FallbackIgnoresKind` | components/search/SearchPanel.tsx:70-73 | the panel kind does not change the fallback, because the `\|\| "Other"` applies to every kind |
| `SearchPanel.EmptyStateDestination` | components/search/SearchPanel.tsx:152-156 | the empty state links to the contact page with the query, or "Other" when there is none |
| `HomeSearch.DisplayLocations` | components/home/HomeLocationSearch.tsx:24-38 | a blank query shows the featured cards; otherwise one card per matching location, the first eight in data order |
| `HomeSearch.DisplayedLocationsMatch` | components/home/HomeLocationSearch.tsx:24-38 | every card shown is for a listed location whose lowered name contains the lowered query |
| `HomeSearch.FewMatchesAllShown` | components/home/HomeLocationSearch.tsx:29-31 | with at most eight matches, every matching location is shown |
| `HomeSearch.LocationSubmit` | components/home/HomeLocationSearch.tsx:40-54 | a blank query or no exact name goes to the contact page with "Other", and an exact name goes to that location's page |
| `HomeSearch.LocationSubmitTargets` | components/home/HomeLocationSearch.tsx:40-54 | submitting leads either to contact with "Other" or to the page of a listed location named like the query |
| `HomeSearch.DisplayServices` | components/home/HomeServiceSearch.tsx:22-35 | a blank query shows the featured list; otherwise one card per matching service, the first six in data order |
| `HomeSearch.DisplayedServicesMatch` | components/home/HomeServiceSearch.tsx:22-35 | every card shown is for a listed service whose lowered name contains the lowered query |
| `HomeSearch.ServiceSubmit` | components/home/HomeServiceSearch.tsx:37-50 | a blank query does nothing; an exact name goes to the service page; otherwise the contact page with the query |
| `HomeSearch.ServiceSubmitCarriesQuery` | components/home/HomeServiceSearch.tsx:37-50 | without an exact match the contact page reads back the query as typed, surrounding spaces included |
| `RelatedServices.RelatedFiltered` | components/services/RelatedServiceGrid.tsx:15-23 | a blank query shows all services; otherwise the services whose lowered name contains the lowered query, in data order, each as many times as in the data, and no other |
| `RelatedServices.ShowEmptyIff` | components/services/RelatedServiceGrid.tsx:25 | the empty state shows exactly when the query is not blank and no service name contains it |
| `RelatedServices.ClearRestores` | components/services/RelatedServiceGrid.tsx:44-51 | clearing shows every service again and hides the empty state; any query shows a selection of that list |
| `RelatedServices.EmptyStateHref` | components/services/RelatedServiceGrid.tsx:63-64 | the empty-state link goes to the contact page |
| `RelatedServices.EmptyStateCarriesQuery` | components/services/RelatedServiceGrid.tsx:55-68 | the contact page reads back the query as typed |
| `BlogGrid.CeilDiv` | components/blog/BlogGrid.tsx:32 | `Math.ceil(n / size)`: the fewest pages of `size` that hold `n` |
| `BlogGrid.TotalPages` | components/blog/BlogGrid.tsx:32 | at least one page, and just enough pages to hold every post |
| `BlogGrid.ClampedPage` | components/blog/BlogGrid.tsx:33 | the page shown is the requested one when it exists, otherwise the last |
| `BlogGrid.VisibleBounds` | components/blog/BlogGrid.tsx:35-38 | a page shows at most `size` posts, as a contiguous run, and shows some post whenever there are posts |
| `BlogGrid.LastPageStartsInside` | components/blog/BlogGrid.tsx:32-37 | every existing page starts inside the list of posts |
| `BlogGrid.Prev` | components/blog/BlogGrid.tsx:81 | Prev goes one page back and never below the first |
| `BlogGrid.Next` | components/blog/BlogGrid.tsx:92-93 | Next goes one page on and never beyond the last |
| `BlogGrid.PressesStayInRange` | components/blog/BlogGrid.tsx:32-93 | from any page the state can hold, including one past the end after the page size grows, Next lands on an existing page and shows the next one (or stays on the last), and the corrected Prev shows the previous one (or stays on the first) |
| `BlogGrid.PrevShown` | components/blog/BlogGrid.tsx:80-81 | corrected Prev: one page back from the page shown, always an existing page |
| `BlogGrid.PrevPastEndStalls` | components/blog/BlogGrid.tsx:32-81 | as written, Prev from a page past the end leaves the shown page where it was, while the button is enabled |
| `BlogGrid.PrevStallsAfterResize` | components/blog/BlogGrid.tsx:21-93 | 15 posts at 3 a page, paged to the fifth, then 6 a page: the third page shows, and Prev keeps showing it |
| `BlogGrid.SomeButtonEnabled` | components/blog/BlogGrid.tsx:76-91 | when the controls are shown, Prev and Next are never both disabled |
| `BlogGrid.ControlsShownIff` | components/blog/BlogGrid.tsx:32-76 | the controls show exactly when the posts do not fit on one page |
| `BlogGrid.VisiblePage` | components/blog/BlogGrid.tsx:35-38 | an existing page is the run of posts from `page * size`, `size` long or to the end |
| `BlogGrid.PagesUpToPrefix` | components/blog/BlogGrid.tsx:32-38 | the first `k` pages together are the first `k * size` posts, or all of them |
| `BlogGrid.PagesCoverPosts` | components/blog/BlogGrid.tsx:32-38 | paging through every page shows every post exactly once, in order |
| `Seo.Entry` | lib/seo.ts:7-12 | a list entry has position index + 1 and the step's label, and an `item` exactly when the step has a link |
| `Seo.BuildBreadcrumbJsonLd` | lib/seo.ts:6-19 | a schema.org BreadcrumbList with one entry per step, in order, positions 1, 2, 3, …, and an `item` exactly for the linked steps |
| `Seo.PositionsIncrease` | lib/seo.ts:7-12 | positions increase without gaps |
| `Seo.ItemRecoversHref` | lib/seo.ts:11 | a linked entry is the base URL followed by the step's link |
| `Seo.BreadcrumbAppend` | lib/seo.ts:6-19 | extending a trail keeps the existing entries, and the new ones continue the numbering |
| `Footer.FooterToolsShape` | components/Footer.tsx:15-19 | the footer lists three tools, all under `/tools/` |
| `Footer.MainServices` | components/Footer.tsx:21-23 | the first seven of the "Property Paths" services and the identification service, in data order, or all of them when fewer qualify |
| `Footer.MainServicesSelection` | components/Footer.tsx:21-23 | the main services are drawn from the data in data order, and all qualifying services are listed when at most seven qualify |
| `Footer.OtherCities` | components/Footer.tsx:25-30 | the first seven cities other than Denver, in data order, or all of them when fewer qualify |
| `Footer.MainLocations` | components/Footer.tsx:25-30 | the other cities, preceded by at most one more entry, which is Denver from the data |
| `Footer.MainLocationsShape` | components/Footer.tsx:25-30 | the first Denver entry of the data, when there is one, followed by the other cities; Denver appears at most once, every other entry is a city, and every entry is from the data |
| `Sitemap.StaticRoutes` | app/sitemap.ts:10-71 | the ten fixed pages under the base URL with their change frequencies and priorities |
| `Sitemap.SlugRoutes` | app/sitemap.ts:73-92 | one monthly route per slug, under the section, with the section's priority |
| `Sitemap.BlogRoute` | app/sitemap.ts:124-129 | a post's route is `/blog/` and its slug; it carries the post's update stamp exactly when the post has a non-empty one |
| `Sitemap.BlogRoutes` | app/sitemap.ts:110-132 | one route per fetched post, in order, and none when the fetch failed |
| `Sitemap.BuildSitemap` | app/sitemap.ts:134-141 | the sitemap has one route per static page, service, location, property type, tool page and post |
| `Sitemap.Assemble` | app/sitemap.ts:134-141 | the concatenation of the six groups, as long as all of them together |
| `Sitemap.AssembleParts` | app/sitemap.ts:134-141 | each group sits at its offset in the concatenation |
| `Sitemap.StaticRoutesFirst` | app/sitemap.ts:134-141 | the sitemap starts with the ten static routes |
| `Sitemap.ServiceRoutesAt` | app/sitemap.ts:73-78 | the service routes follow the static ones, one per service, in order |
| `Sitemap.LocationRoutesAt` | app/sitemap.ts:80-85 | the location routes follow the service routes |
| `Sitemap.PropertyTypeRoutesAt` | app/sitemap.ts:87-92 | the property-type routes follow the location routes |
| `Sitemap.ToolRoutesAt` | app/sitemap.ts:94-108 | the tool pages follow the property types |
| `Sitemap.BlogRoutesLast` | app/sitemap.ts:134-141 | the blog routes close the sitemap |
| `Sitemap.FetchFailureKeepsOtherRoutes` | app/sitemap.ts:110-132 | a failed CMS fetch drops only the blog routes |
| `Sitemap.UnderBase` | app/sitemap.ts:7 | a URL built on the base URL starts with it |
| `Sitemap.StaticWellPlaced` | app/sitemap.ts:10-71 | every static route is under the base URL with a priority between 0 and 1 |
| `Sitemap.SlugRoutesWellPlaced` | app/sitemap.ts:73-92 | every slug route is under the base URL with a priority between 0 and 1 |
| `Sitemap.BlogRoutesWellPlaced` | app/sitemap.ts:110-132 | every blog route is under the base URL with a priority between 0 and 1 |
| `Sitemap.RoutesUnderBase` | app/sitemap.ts:7-141 | every route of the sitemap is under the base URL with a priority between 0 and 1 |
| `Lead.Or` | app/api/lead/route.ts:70 | `a \|\| b`: `a` when it is a non-empty string, otherwise `b` |
| `Lead.OrElse` | app/api/lead/route.ts:122-131 | `v \|\| fallback`: the value when it is a non-empty string, otherwise the fallback |
| `Lead.VerifyTurnstile` | app/api/lead/route.ts:18-45 | without a secret the check passes; with one it passes exactly when the service answered `success === true` |
| `Lead.ClientIp` | app/api/lead/route.ts:70 | the client address is the forwarded-for header, else the real-IP header, and it is empty exactly when neither is a non-empty string |
| `Lead.ProjectTypeLine` | app/api/lead/route.ts:88 | the "Project Type" line shows the service when it is a non-empty string, and "Not specified" when it is missing or empty |
| `Lead.EmailText` | app/api/lead/route.ts:81-92 | the text email has no white space at either end |
| `Lead.EmailKeepsHead` | app/api/lead/route.ts:81-88 | trimming keeps the title, the contact lines and the "Project Type:" label, in order |
| `Lead.EmailShowsContact` | app/api/lead/route.ts:81-87 | the text email shows the title and name; the company line between name and email when a company is given, and an empty line there otherwise; the phone line right before the project type |
| `Lead.EmailTextWithDetails` | app/api/lead/route.ts:81-92 | with details or a message that ends in a visible character, the text email is exactly head, project type, timeline line, blank line and details block |
| `Lead.EmailShowsDetails` | app/api/lead/route.ts:89-92 | with details or a message, the text email ends with the "Details:" block; the timeline line, or an empty line when there is none, comes before it |
| `Lead.EmailTextWithTimeline` | app/api/lead/route.ts:81-92 | without details or message, and with a timeline that ends in a visible character, the text email is exactly head, project type and timeline line |
| `Lead.EmailTextWithProjectType` | app/api/lead/route.ts:81-92 | without details, message or timeline, and with a project type that ends in a visible character, the text email is exactly head and project-type line |
| `Lead.EmailEndsWithTimeline` | app/api/lead/route.ts:89-92 | without details or message, a given timeline is the last line of the text email |
| `Lead.EmailEndsWithProjectType` | app/api/lead/route.ts:88-92 | without details, message or timeline, the "Project Type" line is the last line of the text email |
| `Lead.BreakLines` | app/api/lead/route.ts:102 | the HTML details hold no line break |
| `Lead.BreakLinesKeepsPlainText` | app/api/lead/route.ts:102 | single-line text is unchanged |
| `Lead.BreakLinesLength` | app/api/lead/route.ts:102 | each line break grows into the four characters of `<br>` |
| `Lead.IndentedShowsLine` | app/api/lead/route.ts:94-103 | each line of the HTML template shows, with its line break and indentation, in the joined text |
| `Lead.HtmlLines` | app/api/lead/route.ts:94-103 | the HTML lines are the heading and a paragraph per field; the company, timeline and details paragraphs are empty exactly when the field is not given, and the details keep their line breaks as `<br>` |
| `Lead.EmailHtmlShowsFields` | app/api/lead/route.ts:94-103 | the HTML email shows the name, email, phone and project type paragraphs, and the company, timeline and details paragraphs when they are given |
| `Lead.BuildEmail` | app/api/lead/route.ts:105-113 | the email goes to the configured inbox, from the configured or default sender, with the lead's name in the subject |
| `Lead.BuildPayload` | app/api/lead/route.ts:122-131 | the webhook gets the contact fields as sent, the service as project type, and the details or else the message |
| `Lead.Deliver` | app/api/lead/route.ts:105-138 | after the gate the answer is 200 with the success body unless a configured email send fails, which answers 500 "Failed to submit lead"; the email is sent exactly when it is configured, and the webhook is called exactly when it is configured and the email did not fail |
| `Lead.Post` | app/api/lead/route.ts:47-146 | the handler answers 200, 400 or 500, and it answers 200 exactly with the success body |
| `Lead.DeliverInOrder` | app/api/lead/route.ts:105-136 | after the gate the email comes before the webhook, and nothing is verified again |
| `Lead.CallsInOrder` | app/api/lead/route.ts:47-146 | verification, email and webhook happen in that order, each at most once |
| `Lead.BadBodyFails` | app/api/lead/route.ts:49-60 | a body that is not JSON or is `null` answers 500 "Failed to submit lead" and calls nothing |
| `Lead.NoSecretSkipsGate` | app/api/lead/route.ts:62-79 | without a secret there is no 400 answer and no verification call |
| `Lead.MissingTokenRefused` | app/api/lead/route.ts:63-68 | with a secret and no token the answer is 400 "Turnstile token is required" and nothing is called |
| `Lead.FailedVerificationRefused` | app/api/lead/route.ts:70-78 | a token the service does not accept answers 400 "Turnstile verification failed" after exactly one verification call, made with the client IP |
| `Lead.EmailFailureStopsWebhook` | app/api/lead/route.ts:105-145 | a failing email send answers 500, and the webhook is not called |
| `Lead.WebhookFailureSwallowed` | app/api/lead/route.ts:133-135 | whether the webhook fails does not change the answer or the calls |
| `Lead.SuccessIff` | app/api/lead/route.ts:47-146 | the answer is 200 exactly when the body is an object, the gate passes, and the email does not fail when configured |
| `Lead.SuccessCalls` | app/api/lead/route.ts:62-138 | on success, verification, email and webhook were each called exactly when configured |
| `Lead.EmailShowsProjectType` | app/api/lead/route.ts:81-92 | the text email contains the "Project Type" line, and "Not specified" when no service was given |

## Left out

- Network I/O: the Turnstile, SendGrid, webhook and CMS calls are not
  performed. Each is a parameter saying what the service did
  (`Lead.Outcomes`, `Sitemap.CmsResult`). The model records the calls
  made, in order.
- Console logging in the lead handler, because it has no effect on the
  answer.
- The webhook timestamp (`new Date().toISOString()`), because it reads a
  clock. It is a parameter.
- The sitemap's `new Date()` stamps are the single value `Sitemap.Now`, for
  the same reason.
- JSON bodies whose fields are not strings. A field is missing or a string.
- `Lead.EmailShowsDetails`, `Lead.EmailEndsWithTimeline` and
  `Lead.EmailEndsWithProjectType` state the closing line only when it ends
  in a visible character. The text email is trimmed, so trailing white
  space of the details, timeline or service is cut, and the full value no
  longer appears.
- Escaping in the HTML email, because the source does not escape either.
  Only the line-break replacement is modelled.
- IEEE 754 floating point: rounding, infinities and `-0`. Numbers are exact
  reals or NaN.
  - `Boot.ComputeResults`, `DebtRelief.Calculate`,
    `DepreciationRecapture.Calculate`, `ReplacementValue.Calculate` and
    `ExchangeCost.ComputeResults` state exact real arithmetic. The source
    computes with rounded binary floating point.
- `toLocaleString` and `Intl` formatting of amounts and dates. This is
  display only.
- Dates are whole day numbers. Time zones, daylight saving and the parsing
  of the date input are not modelled.
- React state, `useMemo` and event plumbing. Each memo and handler is a
  function of its inputs. `router.push` is modelled as the returned
  destination.
- The blog grid's resize listener, because it depends on the window. The
  page size is a parameter, with the two sizes 6 and 3 as constants.
- The blog cards' date display and "Draft" label, because they are display
  only.
- The letter helper's copy and print buttons, because they use the browser
  clipboard and window.
- `Text.Lower` folds ASCII letters only. JavaScript's `toLowerCase` also
  folds other scripts.
- lib/constants.ts is not part of this model. `CONTACT_ROUTE` is the
  parameter `contactRoute`.
- The data tables (services, locations, property types, tools, featured
  cards) are parameters. The models hold for any contents.
- Static JSX pages and their copy. The identification rules explainer is
  static text.
- The sitemap's `lastModified` for a post carries the CMS stamp string
  instead of a parsed `Date`.

## Findings

| source | as written | input that shows it | evidently intended | confidence | as-written member | corrected member |
|---|---|---|---|---|---|---|
| components/blog/BlogGrid.tsx:81 | Prev steps back from the page state, which can lie past the last page once the page size grows, so the first press can leave the shown page unchanged | 15 posts, 3 a page, Next to page index 4, window widened to 6 a page: page 3 of 3 shows, Prev sets the state to 3, page 3 still shows | Prev steps back from the page shown, `Math.min(current, totalPages - 1) - 1` | not executed; the next press does move back | `BlogGrid.PrevStallsAfterResize` | `BlogGrid.PrevShown` |
| components/tools/ExchangeCostEstimator.tsx:42-62 | the QI-fee, escrow, title and recording checks test `value === null`, `< 0` and `> limit`, all of which are false for NaN, so a malformed number passes and the results show NaN | property value "100", QI fee percentage "1.2.3", escrow "1500", title rate "0.5", recording "500" | a value that is not a number is an error, as the property-value check already treats it | not executed | `ExchangeCost.NaNPercentageShowsNaN` | `ExchangeCost.ComputeResultsChecked` |
