/**
 * How the pieces fit together: the action a header button requests, the
 * form prep builds for it, the status the save hook reads from it, and
 * which entry ends up current.
 */
module Lifecycle {
  import opened Common
  import LogStatus
  import opened AssetLog
  import opened LogPrep
  import opened AssetRecord
  import opened AssetHeader

  /** The status each header action stands for. */
  function Intended(a: Action): int
  {
    match a
    case SetBaseAction => LogStatus.SetBase
    case ReturnAction => LogStatus.Return
    case AssignPerson => LogStatus.Assign
    case AssignSite => LogStatus.Assign
    case AssignOrganisation => LogStatus.Assign
    case UpdateStatus => 0
  }

  /** Every button opens the form for the status it stands for ("Update Status" leaves it open). */
  lemma ButtonsOpenMatchingForms(a: Action)
    ensures PrepStatus(ActionMethod(a)) == Intended(a)
    ensures PrepMethod(ActionMethod(a)) == "create"
  {
  }

  /**
   * The save hook reads the same status from the action as prep did, except
   * for "return", which prep fixes and the hook does not know.
   */
  lemma AcceptStatusAgreesWithPrep(action: string)
    ensures AcceptStatus(action).Some? ==> AcceptStatus(action).value == PrepStatus(action)
    ensures AcceptStatus(action).None? && PrepStatus(action) != 0 <==> action == "return"
  {
  }

  /**
   * Saving a "Return" or a plain "Update Status" entry interactively leaves
   * the asset as it was, whatever was submitted.
   */
  lemma ReturnAndStatusUpdateChangeNothing(s: AssetState, a: Action, rowFound: bool, e: LogEntry,
                                           sites: map<int, Option<int>>, tracked: Option<int>)
    requires a in {ReturnAction, UpdateStatus}
    ensures LogEffect(s, ActionMethod(a), false, rowFound, e, sites, tracked) == (Skipped, s)
  {
  }

  /**
   * An interactive entry just appended to the log is superseded exactly
   * when an earlier entry that was not cancelled is dated later.
   */
  lemma {:induction false} AppendedEntryTakesEffect(s: AssetState, prior: seq<LogEntry>, action: string,
                                                    e: LogEntry, sites: map<int, Option<int>>,
                                                    tracked: Option<int>)
    requires s.log == prior + [e] && !e.cancel
    requires action in {"setbase", "assignperson", "assignsite", "assignorg"}
    ensures LogEffect(s, action, false, true, e, sites, tracked).0 == Aborted ==>
              EffectiveStatus(action, false, e) == Some(LogStatus.SetBase)
    ensures LogEffect(s, action, false, true, e, sites, tracked).0 == Superseded <==>
              exists i :: 0 <= i < |prior| && !prior[i].cancel && e.date < prior[i].date
  {
    AppendedEntryAndCurrentDate(prior, e);
  }

  /**
   * A site change saved later than every entry in the log that is not
   * cancelled makes its "base set" entry the current one, however the
   * database orders entries of equal date.
   */
  lemma {:induction false} SiteChangeBecomesCurrent(s: AssetState, form: AssetForm,
                                                    sites: map<int, Option<int>>, now: int)
    requires SiteChanged(s, form) && SavedKeys(s, form).1.value in sites
    requires forall i :: 0 <= i < |s.log| && !s.log[i].cancel ==> s.log[i].date < now
    ensures GetCurrentLog(SaveEffect(s, false, form, sites, now).1.log).Some?
    ensures GetCurrentLog(SaveEffect(s, false, form, sites, now).1.log).value.status == LogStatus.SetBase
    ensures GetCurrentLog(SaveEffect(s, false, form, sites, now).1.log).value.cond == 1
  {
    var r := SaveEffect(s, false, form, sites, now).1;
    var e := SetBaseEntry(SavedKeys(s, form).0, SavedKeys(s, form).1, now);
    assert r.log == s.log + [e];
    assert r.log[..|s.log|] == s.log;
    assert r.log[|r.log| - 1] == e;
  }

  /**
   * After such a site change the header offers the three assignments and no
   * "Return".
   */
  method HeaderAfterSiteChange(s: AssetState, form: AssetForm, sites: map<int, Option<int>>, now: int,
                               assetId: int, assetType: int)
    returns (h: Header)
    requires SiteChanged(s, form) && SavedKeys(s, form).1.value in sites
    requires forall i :: 0 <= i < |s.log| && !s.log[i].cancel ==> s.log[i].date < now
    ensures h.Header? && Actions(h.buttons) == OfferedActions(LogStatus.SetBase)
    ensures AssignPerson in Actions(h.buttons) && AssignSite in Actions(h.buttons)
    ensures AssignOrganisation in Actions(h.buttons) && ReturnAction !in Actions(h.buttons)
  {
    var saved := SaveEffect(s, false, form, sites, now).1;
    SiteChangeBecomesCurrent(s, form, sites, now);
    h := Rheader(true, true, "asset", assetId, assetType, saved.log);
    OfferedActionsShape(LogStatus.SetBase);
  }
}
