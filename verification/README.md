# Drug lookup front end: label normalisation, view choice and category picks

A browser page searches the OpenFDA drug-label API by brand name, reduces the
first label it gets back to a six-field summary (brand name, generic name,
purpose, warnings, side effects, dosage) and draws it as a card. A row of
category buttons puts a random drug of that category into the search box and
searches for it.

This Dafny project models the pure logic of `script.js`:

- `DrugLabel` (`drug_label.dfy`): `simplifyDrugData`. Each summary field is a
  JavaScript `||` chain over optional-chained first elements
  (`rawData.purpose?.[0] || rawData.indications_and_usage?.[0] || "..."`).
  `Head` models `?.[0]`. `OrChain` models `||` over a list of operands ending
  in a constant string, under JavaScript truthiness (`undefined` and `""` are
  falsy). A label record is a datatype whose array fields are
  `Option<seq<string>>`, with an optional `openfda` sub-record and the
  optional `error` field of the record built on a failed fetch.
- `Display` (`display.dfy`): the branch `displayDrugInfo` draws (loading,
  then a truthy `error`, then the card), and the ordered displays of one
  `handleSearch`, with the outcome of `fetchDrugData` as a parameter.
- `Categories` (`categories.dfy`): the category table of `searchCategory` and
  the pick, with the random index as a parameter.
- `Wrappers` (`wrappers.dfy`): the `Option` type.

## Model

| member | source | states |
|---|---|---|
| DrugLabel.ErrorRecord | script.js:23-26 | the record returned on a failed fetch carries only `error`, set to the message; every label field is missing |
| DrugLabel.Head | script.js:51-56 | `field?.[0]` is defined exactly when the array exists and is non-empty, and is then its element 0 |
| DrugLabel.OrChain | script.js:51-56 | the JavaScript OR chain ending in a fallback yields the fallback or one of the truthy operands, so it is non-empty whenever the fallback is |
| DrugLabel.OrChainFirstTruthy | script.js:53-54 | when operand k is the first truthy one, the chain yields operand k, whatever follows it |
| DrugLabel.OrChainAllFalsy | script.js:51-56 | when every operand is falsy (undefined or ""), the chain yields its constant fallback |
| DrugLabel.OrChainDependsOnTruthyValues | script.js:51-56 | two operand lists with the same truthiness and the same truthy values give the same result, so "" and undefined are interchangeable |
| DrugLabel.Simplify | script.js:49-58 | for every label record, all six summary fields are non-empty strings |
| DrugLabel.BrandNameRule | script.js:51 | brand name is `openfda.brand_name[0]` when `openfda` exists and that element is present and non-empty, otherwise exactly "Information not available" |
| DrugLabel.GenericNameRule | script.js:52 | the same rule for `openfda.generic_name[0]` |
| DrugLabel.PurposePrecedence | script.js:53 | `purpose[0]` when non-empty; only otherwise `indications_and_usage[0]`; otherwise "Information not available" |
| DrugLabel.WarningsPrecedence | script.js:54 | `warnings[0]` when non-empty; only otherwise `boxed_warning[0]`; otherwise "None listed" |
| DrugLabel.SideEffectsAndDosageDefaults | script.js:55-56 | side effects are `adverse_reactions[0]` or "Information not available"; dosage is `dosage_and_administration[0]` or "Consult your doctor"; a missing array, an empty array and an empty first string all take the default |
| DrugLabel.OnlyFirstElementsMatter | script.js:50-57 | records that agree on the first element of every array, and on whether `openfda` exists, give the same summary; `error` is ignored |
| DrugLabel.LaterPurposeEntriesIgnored | script.js:53 | overwriting any `purpose` entry past index 0 leaves the summary unchanged |
| DrugLabel.EmptyPurposeLikeMissing | script.js:53 | a `purpose` array whose first entry is "" gives the same summary as no `purpose` array at all |
| DrugLabel.NothingPresentGivesDefaults | script.js:49-58 | a record with no present field gives the all-defaults summary |
| DrugLabel.ErrorRecordDiscarded | script.js:49-57 | the `{error: message}` record of a failed fetch (line 25) normalises to the all-defaults summary, which has no error field |
| Display.SelectView | script.js:61-75 | loading wins; otherwise a truthy `error` is drawn as an error with that non-empty message; otherwise the card of the object's summary |
| Display.SummaryShownAsCard | script.js:75-105 | a simplified summary is always drawn as its card |
| Display.FetchedRecord | script.js:18-26 | a failed fetch becomes a record whose `error` is the failure's message |
| Display.HandleSearch | script.js:30-47 | an empty name gives exactly the display "Please enter a drug name"; any other name gives the loading notice followed by a card |
| Display.EmptyNameGuard | script.js:33-36 | the first display is the empty-name error exactly when the name is empty, and then the fetch result plays no part |
| Display.FoundRecordShown | script.js:38-43 | a found label is shown as loading, then the card of its simplified record |
| Display.FailureShownAsDefaultCard | script.js:40-46 | as written, a failed fetch ends on the all-defaults card and its message is never displayed |
| Display.HandleSearchReportingFailure | script.js:40-46 | corrected search: empty name refused, otherwise loading first |
| Display.ReportingFailureShowsMessage | script.js:40-46 | the corrected search ends on the failure's message, and matches the written one on every found label without `error` |
| Categories.SearchCategory | script.js:110-125 | an unknown category changes nothing; a known one yields a non-empty member of that category's list |
| Categories.EveryDrugCanBePicked | script.js:121-125 | every drug of a category is the pick for some index below the list's length |
| Categories.PickedSearchStartsLoading | script.js:133-139 | the search triggered by a pick always passes the empty-name guard and starts with the loading notice |

## Findings

| source | as written | input that shows it | evidently intended | confidence | as-written member | corrected member |
|---|---|---|---|---|---|---|
| script.js:40-46 | `fetchDrugData` turns every failure into `{error: message}`; `simplifyDrugData` drops `error`, so after a fetch `displayDrugInfo` never takes its error branch, and the `catch` never fires for a failure `fetchDrugData` reports | a name with no label, e.g. "xyz": the API has no result, the record is `{error: "No drug found with that name."}`, and the page shows a card reading "Information not available" | the failure message is shown through the error branch | high; not executed | Display.FailureShownAsDefaultCard | Display.HandleSearchReportingFailure |

## Left out

- Network access: `fetchDrugData` builds the OpenFDA URL, checks `response.ok` and parses JSON (script.js:6-22). Its outcome is the parameter `Display.Fetched`, and only its failure record (line 25) is modelled.
- The API key constant (script.js:1-2) is configuration.
- DOM effects: `getElementById`, the `innerHTML` text and templates, writing the search box and `scrollIntoView` (script.js:62-105, 127-135). Only the branch drawn and its message or summary are modelled.
- Timing: the 3-second `setTimeout` before the triggered search (script.js:137-139). `Categories.PickedSearchStartsLoading` relates the pick to the search it triggers, without the delay.
- Categories.SearchCategory: `Math.floor(Math.random() * drugs.length)` is an index parameter below the list's length. Lookups of inherited object keys such as "constructor" are not modelled; the table is a map with exactly the six listed categories.
- Display.HandleSearch: the `catch` branch (script.js:44-46) is not modelled. It fires only when `simplifyDrugData` or the second `displayDrugInfo` throws (a null or undefined first result, or the results element removed during the fetch); `Fetched` cannot express these.
- Label fields other than strings in arrays (numbers, nested objects) are not modelled; OpenFDA label fields are arrays of strings.
- Haversine distance and pharmacy ranking are not part of `script.js`.
