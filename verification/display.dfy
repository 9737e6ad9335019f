/**
 * What the results area shows: the branch `displayDrugInfo` takes for the
 * object it is given, and the sequence of displays one `handleSearch`
 * produces. The HTML text itself is not modelled, only which branch is
 * drawn and with what message or summary.
 */
module Display {
  import opened Wrappers
  import opened DrugLabel

  /** Message for an empty search box. */
  const EmptyNameMessage: string := "Please enter a drug name"

  /**
   * The object handed to `displayDrugInfo`: `{loading: true}`, `{error: msg}`
   * or a summary. The properties a given object lacks read as undefined.
   */
  datatype DisplayInput = DisplayInput(loading: bool, error: Option<string>, summary: Option<Summary>)

  /**
   * The branch drawn. `Card(None)` is the card of an object that is neither
   * loading, nor an error, nor a summary: every field renders as undefined.
   */
  datatype View = Loading | Error(message: string) | Card(summary: Option<Summary>)

  function LoadingInput(): DisplayInput { DisplayInput(true, None, None) }
  function ErrorInput(message: string): DisplayInput { DisplayInput(false, Some(message), None) }
  function SummaryInput(s: Summary): DisplayInput { DisplayInput(false, None, Some(s)) }

  /** The priority of `displayDrugInfo`: loading first, then a truthy error, then the card. */
  function SelectView(d: DisplayInput): (v: View)
    ensures v.Loading? <==> d.loading
    ensures v.Error? <==> !d.loading && Truthy(d.error)
    ensures v.Error? ==> v.message == d.error.value && v.message != ""
    ensures v.Card? ==> v.summary == d.summary
  {
    if d.loading then Loading
    else if Truthy(d.error) then Error(d.error.value)
    else Card(d.summary)
  }

  /** A summary is always drawn as its card. */
  lemma SummaryShownAsCard(s: Summary)
    ensures SelectView(SummaryInput(s)) == Card(Some(s))
  {
  }

  /** What `fetchDrugData` resolves to: a label record, or a failure with its message. */
  datatype Fetched = Found(record: RawRecord) | Failed(message: string)

  /** The value `fetchDrugData` returns: the record, or `{error: message}` on failure. */
  function FetchedRecord(f: Fetched): (r: RawRecord)
    ensures f.Failed? ==> r.error == Some(f.message)
  {
    match f
    case Found(record) => record
    case Failed(message) => ErrorRecord(message)
  }

  /**
   * The displays of one `handleSearch(name)`, in order, as the code is
   * written: an empty name is refused before any lookup; otherwise the
   * loading notice, then the simplified record. The `catch` around the fetch
   * never fires for a failure `fetchDrugData` reports, because it turns each
   * one into a record itself.
   */
  function HandleSearch(name: string, fetched: Fetched): (views: seq<View>)
    ensures name == "" ==> views == [Error(EmptyNameMessage)]
    ensures name != "" ==> |views| == 2 && views[0] == Loading && views[1].Card?
  {
    if name == "" then [SelectView(ErrorInput(EmptyNameMessage))]
    else [SelectView(LoadingInput()), SelectView(SummaryInput(Simplify(FetchedRecord(fetched))))]
  }

  /** The guard refuses exactly the empty name, and then nothing is fetched. */
  lemma EmptyNameGuard(name: string, fetched: Fetched, other: Fetched)
    ensures HandleSearch(name, fetched)[0] == Error(EmptyNameMessage) <==> name == ""
    ensures name == "" ==> HandleSearch(name, fetched) == HandleSearch(name, other)
  {
  }

  /** A label that was found ends on the card of its simplified record, whose fields are all non-empty. */
  lemma FoundRecordShown(name: string, record: RawRecord)
    requires name != ""
    ensures HandleSearch(name, Found(record)) == [Loading, Card(Some(Simplify(record)))]
  {
  }

  /**
   * As written, a failed fetch ends on the all-defaults card: the failure
   * message never reaches the screen.
   */
  lemma FailureShownAsDefaultCard(name: string, message: string)
    requires name != ""
    ensures HandleSearch(name, Failed(message)) == [Loading, Card(Some(DefaultSummary))]
    ensures Error(message) !in HandleSearch(name, Failed(message))
  {
    ErrorRecordDiscarded(message);
  }

  /**
   * `handleSearch` as evidently intended: a record carrying `error` is shown
   * through the error branch instead of being simplified.
   */
  function HandleSearchReportingFailure(name: string, fetched: Fetched): (views: seq<View>)
    ensures name == "" ==> views == [Error(EmptyNameMessage)]
    ensures name != "" ==> |views| == 2 && views[0] == Loading
  {
    if name == "" then [SelectView(ErrorInput(EmptyNameMessage))]
    else
      var raw := FetchedRecord(fetched);
      if raw.error.Some? then [SelectView(LoadingInput()), SelectView(ErrorInput(raw.error.value))]
      else [SelectView(LoadingInput()), SelectView(SummaryInput(Simplify(raw)))]
  }

  /** The corrected search shows a failure's message, and agrees with the original on every found label. */
  lemma ReportingFailureShowsMessage(name: string, fetched: Fetched)
    requires name != ""
    ensures fetched.Failed? && fetched.message != "" ==>
      HandleSearchReportingFailure(name, fetched)[1] == Error(fetched.message)
    ensures fetched.Found? && fetched.record.error.None? ==>
      HandleSearchReportingFailure(name, fetched) == HandleSearch(name, fetched)
  {
  }
}
