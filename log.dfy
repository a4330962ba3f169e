/**
 * The asset log: one entry per status change of an asset, and the rule that
 * picks the entry describing the asset's present state
 * (asset_get_current_log).
 */
module AssetLog {
  import opened Common

  /** One row of the asset_log table, as stored or as submitted in a form. */
  datatype LogEntry = LogEntry(
    status: Option<int>,
    date: int,                      // timestamp, time zone dropped
    personId: Option<int>,          // "Assigned To"
    checkInToPerson: bool,          // "Track with this Person?"
    organisationId: Option<int>,
    siteId: Option<int>,
    cancel: bool,                   // "this log entry did not occur"
    cond: Option<int>)

  /** What asset_get_current_log reports about the entry it selects. */
  datatype CurrentLog = CurrentLog(
    date: int,
    personId: Option<int>,
    cond: int,
    status: int,
    organisationId: Option<int>,
    siteId: Option<int>)

  /** The summary of one entry: a stored status or condition is kept, a NULL one reads as 0. */
  function Summary(e: LogEntry): (c: CurrentLog)
    ensures c.date == e.date && c.personId == e.personId
    ensures c.organisationId == e.organisationId && c.siteId == e.siteId
    ensures e.status.Some? ==> c.status == e.status.value
    ensures e.status.None? ==> c.status == 0
    ensures e.cond.Some? ==> c.cond == e.cond.value
    ensures e.cond.None? ==> c.cond == 0
  {
    CurrentLog(e.date, e.personId, OrZero(e.cond), OrZero(e.status), e.organisationId, e.siteId)
  }

  /**
   * The position of the entry with the greatest date among the entries that
   * are not cancelled, or None when every entry is cancelled. Among entries
   * with the same date the later one is kept (the database leaves that order
   * open).
   */
  function CurrentIndex(log: seq<LogEntry>): (r: Option<nat>)
    ensures r.None? <==> forall i :: 0 <= i < |log| ==> log[i].cancel
    ensures r.Some? ==> r.value < |log| && !log[r.value].cancel
    ensures r.Some? ==> forall i :: 0 <= i < |log| && !log[i].cancel ==> log[i].date <= log[r.value].date
  {
    if |log| == 0 then None
    else
      var prev := CurrentIndex(log[..|log| - 1]);
      var last := log[|log| - 1];
      if last.cancel then prev
      else if prev.Some? && last.date < log[prev.value].date then prev
      else Some(|log| - 1)
  }

  /** asset_get_current_log: the summary of the latest entry not cancelled. */
  function GetCurrentLog(log: seq<LogEntry>): (r: Option<CurrentLog>)
    ensures r.None? <==> forall i :: 0 <= i < |log| ==> log[i].cancel
    ensures r.Some? ==> exists i :: 0 <= i < |log| && !log[i].cancel && r.value == Summary(log[i])
    ensures r.Some? ==> forall i :: 0 <= i < |log| && !log[i].cancel ==> log[i].date <= r.value.date
  {
    var k := CurrentIndex(log);
    if k.None? then None else Some(Summary(log[k.value]))
  }

  /** Entries cancelled later are invisible: appending a cancelled entry changes nothing. */
  lemma {:induction false} CancelledEntryIsIgnored(log: seq<LogEntry>, e: LogEntry)
    requires e.cancel
    ensures GetCurrentLog(log + [e]) == GetCurrentLog(log)
  {
    assert (log + [e])[..|log|] == log;
  }

  /**
   * After a non-cancelled entry is appended there is a current log, and its
   * date equals the entry's date exactly when no earlier non-cancelled entry
   * is dated later; otherwise it is later than the entry.
   */
  lemma {:induction false} AppendedEntryAndCurrentDate(log: seq<LogEntry>, e: LogEntry)
    requires !e.cancel
    ensures GetCurrentLog(log + [e]).Some?
    ensures e.date <= GetCurrentLog(log + [e]).value.date
    ensures GetCurrentLog(log + [e]).value.date <= e.date <==>
              forall i :: 0 <= i < |log| && !log[i].cancel ==> log[i].date <= e.date
  {
    var full := log + [e];
    assert full[|log|] == e;
    var c := GetCurrentLog(full).value;
    if forall i :: 0 <= i < |log| && !log[i].cancel ==> log[i].date <= e.date {
      assert full[..|full| - 1] == log;
      var k := CurrentIndex(full).value;
      if k < |log| {
        assert full[k] == log[k];
      }
    } else {
      var j :| 0 <= j < |log| && !log[j].cancel && e.date < log[j].date;
      assert full[j] == log[j];
    }
  }
}
