/**
 * `CoverageTestReportFragment`: the screen that shows a finished coverage
 * test's report. It renders the coverage-test view-model's states: a
 * progress dialog while loading, an error dialog for failures (except
 * subscription failures), the report's counters and link type, and a
 * return to the dashboard once disconnected.
 */
module CoverageTestReportFragments {
  import opened Sdk
  import opened CoverageTestViewModels

  /** `getLinkType`: the name of a link-type code; unknown codes read as "AUTO_ALL_PHY". */
  function LinkTypeName(linkType: int): (name: string)
    ensures linkType == 0 <==> name == "LoRA"
    ensures linkType == 1 <==> name == "FSK"
    ensures linkType == 2 <==> name == "BLE"
    ensures linkType == 14 <==> name == "AUTO_SUB_GHZ"
    ensures linkType !in {0, 1, 2, 14} <==> name == "AUTO_ALL_PHY"
  {
    if linkType == 0 then "LoRA"
    else if linkType == 1 then "FSK"
    else if linkType == 2 then "BLE"
    else if linkType == 14 then "AUTO_SUB_GHZ"
    else "AUTO_ALL_PHY"
  }

  /** The name table is total and takes exactly five values. */
  lemma LinkTypeNames(linkType: int)
    ensures LinkTypeName(linkType) in {"LoRA", "FSK", "BLE", "AUTO_SUB_GHZ", "AUTO_ALL_PHY"}
  {
  }

  /** The three report lines: packets sent, pongs received and the link-type name. */
  datatype ReportText = ReportText(totalPkts: int, totalPongs: int, linkType: string)

  /** `showReport`'s content for a report. */
  function ReportOf(data: CoverageReport): ReportText {
    ReportText(data.totalPkts, data.totalPongs, LinkTypeName(data.linkType))
  }

  /** A progress dialog, reduced to whether it is on screen. */
  datatype ProgressDialog = ProgressDialog(showing: bool)

  /** `progressDialog?.dismiss()`. */
  function Dismissed(dialog: Option<ProgressDialog>): (d: Option<ProgressDialog>)
    ensures d.Some? <==> dialog.Some?
    ensures d.Some? ==> !d.value.showing
  {
    match dialog
    case Some(_) => Some(ProgressDialog(false))
    case None => None
  }

  /** Whether a state's failure gets an error dialog: every failure but the subscription's. */
  predicate ShowsError(state: CoverageTestUiState) {
    state.Failure? && state.event != CoverageTestEvent.Subscribe
  }

  class CoverageTestReportFragment {
    var progressDialog: Option<ProgressDialog>
    /** Dialogs replaced while still on screen (a new `Loading` does not dismiss the old one). */
    var abandonedDialogs: nat
    /** The report shown, once one has been fetched. */
    var report: Option<ReportText>
    /** The messages of the error dialogs shown, in order; a missing message shows as none. */
    var errors: seq<Option<string>>
    /** The number of navigations to the dashboard. */
    var navigations: nat

    constructor ()
      ensures progressDialog == None && abandonedDialogs == 0 && report == None
      ensures errors == [] && navigations == 0
    {
      progressDialog := None;
      abandonedDialogs := 0;
      report := None;
      errors := [];
      navigations := 0;
    }

    /** `handleUiState`: render one state of the coverage-test view-model. */
    method HandleUiState(state: CoverageTestUiState)
      modifies this
      ensures state.Idle? ==>
        progressDialog == old(progressDialog) && abandonedDialogs == old(abandonedDialogs)
      ensures state.Loading? ==>
        progressDialog == Some(ProgressDialog(true)) &&
        abandonedDialogs == old(abandonedDialogs) +
          (if old(progressDialog).Some? && old(progressDialog).value.showing then 1 else 0)
      ensures !state.Idle? && !state.Loading? ==>
        progressDialog == Dismissed(old(progressDialog)) && abandonedDialogs == old(abandonedDialogs)
      ensures errors == old(errors) +
        (if ShowsError(state) then [if state.exception.Some? then state.exception.value.message else None] else [])
      ensures navigations == old(navigations) + (if state.Disconnected? then 1 else 0)
      ensures report == if state.ReportFetched? then Some(ReportOf(state.data)) else old(report)
    {
      match state {
        case Idle =>
        case Loading(_) =>
          if progressDialog.Some? && progressDialog.value.showing {
            abandonedDialogs := abandonedDialogs + 1;
          }
          progressDialog := Some(ProgressDialog(true));
        case Failure(event, exception) =>
          progressDialog := Dismissed(progressDialog);
          if event != CoverageTestEvent.Subscribe {
            var message := if exception.Some? then exception.value.message else None;
            errors := errors + [message];
          }
        case Disconnected(_) =>
          progressDialog := Dismissed(progressDialog);
          navigations := navigations + 1;
        case ReportFetched(data) =>
          report := Some(ReportOf(data));
          progressDialog := Dismissed(progressDialog);
        case _ =>
          progressDialog := Dismissed(progressDialog);
      }
    }
  }

  /**
   * A test that ends normally: collecting the report shows the dialog, the
   * report replaces it, and the disconnect returns to the dashboard, with
   * no error dialog and no dialog left on screen.
   */
  method ReportSession(fragment: CoverageTestReportFragment, data: CoverageReport)
    requires fragment.progressDialog == None && fragment.errors == []
    modifies fragment
    ensures fragment.report == Some(ReportText(data.totalPkts, data.totalPongs, LinkTypeName(data.linkType)))
    ensures fragment.progressDialog == Some(ProgressDialog(false))
    ensures fragment.errors == [] && fragment.navigations == old(fragment.navigations) + 1
  {
    fragment.HandleUiState(EventState(CollectingReport));
    fragment.HandleUiState(EventState(TestReportEvent(data)));
    fragment.HandleUiState(Loading(CoverageTestEvent.Disconnect));
    fragment.HandleUiState(Disconnected(CoverageTestEvent.Stop));
  }
}
