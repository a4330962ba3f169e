/**
 * The asset record and the two hooks that run after it or one of its log
 * entries is saved (AssetModel.asset_onaccept and
 * AssetModel.asset_log_onaccept). The database becomes this one asset with
 * its component items and its log; the tracker becomes a record of the last
 * presence it was told about.
 */
module AssetRecord {
  import opened Common
  import LogStatus
  import opened AssetLog

  /** A component item of a kit, with the location it is at. */
  datatype Item = Item(id: int, locationId: Option<int>)

  /** The purchase fields of an asset. */
  datatype Purchase = Purchase(
    supplyOrgId: Option<int>,
    date: Option<int>,
    price: Option<int>,          // an opaque amount
    currency: Option<string>)

  const NoPurchase: Purchase := Purchase(None, None, None, None)

  /** Who holds the asset when it is checked in. */
  datatype Holder = SiteHolder(siteId: Option<int>) | PersonHolder(personId: Option<int>)

  /** The asset's presence as the tracker last recorded it. */
  datatype Presence =
    | Untracked                          // never placed, or checked out
    | CheckedIn(holder: Holder)          // follows a site or a person
    | Placed(locationId: Option<int>)    // put at a location

  /** The stored state of one asset. */
  datatype AssetState = AssetState(
    organisationId: Option<int>,
    siteId: Option<int>,
    locationId: Option<int>,       // base location
    presence: Presence,
    assignedToId: Option<int>,
    cond: Option<int>,
    purchase: Purchase,
    items: seq<Item>,
    log: seq<LogEntry>)

  /** How a hook ended. */
  datatype Outcome =
    | Skipped       // nothing for this hook to do
    | Superseded    // the log entry is older than the current one
    | Done          // the hook did its work
    | Aborted       // a lookup failed and the hook raised an error

  /** The values submitted with an asset form, and the stored site before the save. */
  datatype AssetForm = AssetForm(
    kit: bool,                     // a missing value reads as false
    organisationId: Option<int>,
    siteId: Option<int>,
    oldSiteId: Option<int>)        // None when the asset is new

  /** Every item moved to `loc`, in the same order. */
  function ItemsAt(items: seq<Item>, loc: Option<int>): (r: seq<Item>)
    ensures |r| == |items|
    ensures forall i :: 0 <= i < |r| ==> r[i].id == items[i].id && r[i].locationId == loc
  {
    seq(|items|, i requires 0 <= i < |items| => items[i].(locationId := loc))
  }

  /** The entry a site change writes: base set, good condition, dated now. */
  function SetBaseEntry(organisationId: Option<int>, siteId: Option<int>, now: int): (e: LogEntry)
    ensures e.status == Some(LogStatus.SetBase) && e.cond == Some(1) && !e.cancel && e.date == now
    ensures e.organisationId == organisationId && e.siteId == siteId
    ensures e.personId.None? && !e.checkInToPerson
  {
    LogEntry(Some(LogStatus.SetBase), now, None, false, organisationId, siteId, false, Some(1))
  }

  /** The organisation and site the hook works with: the form's, or the record's when either is missing. */
  function SavedKeys(s: AssetState, form: AssetForm): (r: (Option<int>, Option<int>))
    // the form's pair is used only when both are set; half a pair is never mixed in
    ensures IsSet(form.organisationId) && IsSet(form.siteId) ==> r == (form.organisationId, form.siteId)
    ensures !(IsSet(form.organisationId) && IsSet(form.siteId)) ==> r == (s.organisationId, s.siteId)
    ensures r == (form.organisationId, form.siteId) || r == (s.organisationId, s.siteId)
  {
    if IsSet(form.organisationId) && IsSet(form.siteId) then (form.organisationId, form.siteId)
    else (s.organisationId, s.siteId)
  }

  /** Whether the save moves the asset to a new base site. */
  predicate SiteChanged(s: AssetState, form: AssetForm)
    // only a set site counts, and a new asset with a site always changes
    ensures SiteChanged(s, form) ==> IsSet(SavedKeys(s, form).1) && SavedKeys(s, form).1 != form.oldSiteId
    ensures form.oldSiteId.None? && IsSet(SavedKeys(s, form).1) ==> SiteChanged(s, form)
    ensures SavedKeys(s, form).1 == form.oldSiteId ==> !SiteChanged(s, form)
  {
    var site := SavedKeys(s, form).1;
    IsSet(site) && site != form.oldSiteId
  }

  /**
   * asset_onaccept, with the kit branch clearing the four purchase fields the
   * table declares: `bulk` is true for an import or a synchronisation,
   * `sites` maps a site to its location, `now` is the clock.
   */
  function SaveEffect(s: AssetState, bulk: bool, form: AssetForm, sites: map<int, Option<int>>, now: int)
    : (r: (Outcome, AssetState))
    // an import or a synchronisation does nothing
    ensures bulk ==> r == (Skipped, s)
    ensures r.0 in {Skipped, Done, Aborted}
    ensures r.0 != Done ==> r.1 == s
    // any other save does its work, unless the new site has no row
    ensures !bulk ==> (r.0 == Done <==> !(SiteChanged(s, form) && SavedKeys(s, form).1.value !in sites))
    // the hook never changes these
    ensures r.1.organisationId == s.organisationId && r.1.siteId == s.siteId
    ensures r.1.presence == s.presence && r.1.assignedToId == s.assignedToId && r.1.cond == s.cond
    // exactly one "base set" entry is logged, and only when the site changes
    ensures |r.1.log| == |s.log| + (if r.0 == Done && SiteChanged(s, form) then 1 else 0)
    ensures r.1.log[..|s.log|] == s.log
    ensures |r.1.log| > |s.log| ==>
              var e := r.1.log[|s.log|];
              e.status == Some(LogStatus.SetBase) && e.cond == Some(1) && !e.cancel &&
              e.siteId == SavedKeys(s, form).1 && e.organisationId == SavedKeys(s, form).0 && e.date == now
    // the base location becomes the new site's location, and changes at no other time
    ensures r.0 == Done && SiteChanged(s, form) ==> r.1.locationId == sites[SavedKeys(s, form).1.value]
    ensures !(r.0 == Done && SiteChanged(s, form)) ==> r.1.locationId == s.locationId
    ensures r.0 == Aborted <==> !bulk && SiteChanged(s, form) && SavedKeys(s, form).1.value !in sites
    // a plain asset ends with no component items
    ensures r.0 == Done && !form.kit ==> r.1.items == [] && r.1.purchase == s.purchase
    // a kit keeps its items, moved to the new base, and loses its purchase details
    ensures r.0 == Done && form.kit ==>
              r.1.purchase == NoPurchase &&
              r.1.items == if SiteChanged(s, form) then ItemsAt(s.items, r.1.locationId) else s.items
  {
    if bulk then (Skipped, s)
    else
      var (org, site) := SavedKeys(s, form);
      if SiteChanged(s, form) && site.value !in sites then (Aborted, s)
      else
        var s1 :=
          if SiteChanged(s, form) then
            var loc := sites[site.value];
            s.(locationId := loc,
               items := if form.kit then ItemsAt(s.items, loc) else s.items,
               log := s.log + [SetBaseEntry(org, site, now)])
          else s;
        var s2 := if form.kit then s1.(purchase := NoPurchase) else s1.(items := []);
        (Done, s2)
  }

  /**
   * asset_onaccept as written: the kit branch's update names a field the
   * asset table does not declare (the supplier column is supply_org_id), so
   * the database layer rejects it and the save ends in an error.
   */
  function SaveEffectAsWritten(s: AssetState, bulk: bool, form: AssetForm, sites: map<int, Option<int>>,
                               now: int): (r: (Outcome, AssetState))
    ensures r.0 != Done ==> r.1 == s
    ensures r.0 == Aborted <==> !bulk && (form.kit || (SiteChanged(s, form) && SavedKeys(s, form).1.value !in sites))
    ensures !form.kit ==> r == SaveEffect(s, bulk, form, sites, now)
  {
    if !bulk && form.kit then (Aborted, s)
    else SaveEffect(s, bulk, form, sites, now)
  }

  /**
   * No interactive kit save completes as written, whereas the corrected hook
   * completes it and clears all four purchase fields.
   */
  lemma {:induction false} KitSaveFailsAsWritten(s: AssetState, form: AssetForm, sites: map<int, Option<int>>,
                                                  now: int)
    requires form.kit && !(SiteChanged(s, form) && SavedKeys(s, form).1.value !in sites)
    ensures SaveEffectAsWritten(s, false, form, sites, now) == (Aborted, s)
    ensures SaveEffect(s, false, form, sites, now).0 == Done
    ensures SaveEffect(s, false, form, sites, now).1.purchase == NoPurchase
  {
  }

  /** The status asset_log_onaccept reads from the action; it knows no "return". */
  function AcceptStatus(action: string): (r: Option<int>)
    ensures r == Some(LogStatus.SetBase) <==> action == "setbase"
    ensures r == Some(LogStatus.Assign) <==> action in {"assignperson", "assignsite", "assignorg"}
    ensures r.None? <==> action !in {"setbase", "assignperson", "assignsite", "assignorg"}
  {
    if action == "setbase" then Some(LogStatus.SetBase)
    else if action in {"assignperson", "assignsite", "assignorg"} then Some(LogStatus.Assign)
    else None
  }

  /**
   * The status the entry is applied with: for an interactive action the
   * submitted status, or the action's when none was submitted; for an import
   * the submitted status; None when the hook has nothing to do.
   */
  function EffectiveStatus(action: string, isImport: bool, e: LogEntry): (r: Option<int>)
    // interactive: a submitted status that is set wins, else the action's
    ensures AcceptStatus(action).Some? && IsSet(e.status) ==> r == e.status
    ensures AcceptStatus(action).Some? && !IsSet(e.status) ==> r == AcceptStatus(action)
    // import: the submitted status, even 0; nothing when none was submitted
    ensures AcceptStatus(action).None? && isImport ==> r == e.status
    ensures AcceptStatus(action).None? && !isImport ==> r.None?
  {
    match AcceptStatus(action)
    case Some(status) => Some(if IsSet(e.status) then e.status.value else status)
    case None => if isImport then e.status else None
  }

  /** Applies an entry that has become current, with status `status`. */
  function Apply(s: AssetState, action: string, status: int, e: LogEntry,
                 sites: map<int, Option<int>>, tracked: Option<int>): (r: (Outcome, AssetState))
    ensures r.0 in {Done, Aborted}
    // only a base set for a site without a row fails, and then nothing changes
    ensures r.0 == Aborted <==> status == LogStatus.SetBase && (e.siteId.None? || e.siteId.value !in sites)
    ensures r.0 == Aborted ==> r.1 == s
    // the log, the keys and the purchase are never written; a current entry sets the condition
    ensures r.1.log == s.log && r.1.organisationId == s.organisationId && r.1.siteId == s.siteId
    ensures r.1.purchase == s.purchase
    ensures r.0 == Done ==> r.1.cond == e.cond
    ensures r.1.locationId != s.locationId ==> status == LogStatus.SetBase
    ensures r.1.assignedToId != s.assignedToId ==>
              status == LogStatus.Assign && action !in {"assignsite", "assignorg"}
    // base set: the base location and every item go to the site's location
    ensures status == LogStatus.SetBase && e.siteId.Some? && e.siteId.value in sites ==>
              r.1 == s.(locationId := sites[e.siteId.value], items := ItemsAt(s.items, sites[e.siteId.value]),
                        cond := e.cond)
    // assigned to a site, or to an organisation with a site: checked in there, and
    // the items follow the location the tracker reports, if any
    ensures status == LogStatus.Assign && (action == "assignsite" || (action == "assignorg" && IsSet(e.siteId))) ==>
              r.1 == s.(presence := CheckedIn(SiteHolder(e.siteId)),
                        items := if tracked.Some? then ItemsAt(s.items, tracked) else s.items,
                        cond := e.cond)
    // assigned to an organisation without a site: the asset is no longer tracked
    ensures status == LogStatus.Assign && action == "assignorg" && !IsSet(e.siteId) ==>
              r.1 == s.(presence := Untracked, cond := e.cond)
    // assigned to a person: the person becomes the assignee, and the asset follows them
    // or is placed at the location the tracker gives for them
    ensures status == LogStatus.Assign && action !in {"assignsite", "assignorg"} && e.checkInToPerson ==>
              r.1 == s.(presence := CheckedIn(PersonHolder(e.personId)),
                        items := if tracked.Some? then ItemsAt(s.items, tracked) else s.items,
                        assignedToId := e.personId, cond := e.cond)
    ensures status == LogStatus.Assign && action !in {"assignsite", "assignorg"} && !e.checkInToPerson ==>
              r.1 == s.(presence := Placed(tracked), items := ItemsAt(s.items, tracked),
                        assignedToId := e.personId, cond := e.cond)
    // returned: placed, with every item, at the location the tracker reports
    ensures status == LogStatus.Return ==>
              r.1 == s.(presence := Placed(tracked), items := ItemsAt(s.items, tracked), cond := e.cond)
    // any other status only records the condition
    ensures status !in {LogStatus.SetBase, LogStatus.Assign, LogStatus.Return} ==> r.1 == s.(cond := e.cond)
  {
    if status == LogStatus.SetBase then
      if e.siteId.None? || e.siteId.value !in sites then (Aborted, s)
      else
        var loc := sites[e.siteId.value];
        (Done, s.(locationId := loc, items := ItemsAt(s.items, loc), cond := e.cond))
    else
      var s1 :=
        if status == LogStatus.Assign then
          if action == "assignsite" || (action == "assignorg" && IsSet(e.siteId)) then
            s.(presence := CheckedIn(SiteHolder(e.siteId)),
               items := if tracked.Some? then ItemsAt(s.items, tracked) else s.items)
          else if action == "assignorg" then
            s.(presence := Untracked)
          else if e.checkInToPerson then
            s.(presence := CheckedIn(PersonHolder(e.personId)),
               items := if tracked.Some? then ItemsAt(s.items, tracked) else s.items,
               assignedToId := e.personId)
          else
            s.(presence := Placed(tracked), items := ItemsAt(s.items, tracked),
               assignedToId := e.personId)
        else if status == LogStatus.Return then
          s.(presence := Placed(tracked), items := ItemsAt(s.items, tracked))
        else s;
      (Done, s1.(cond := e.cond))
  }

  /**
   * asset_log_onaccept for the just-saved entry `e` of an asset whose log
   * (which already holds `e`) is `s.log`. `action` is the action prep saw,
   * `isImport` marks an import, `rowFound` whether the saved row could be
   * read back, `sites` maps a site to its location and `tracked` is the
   * location the tracker reports after being updated.
   */
  function LogEffect(s: AssetState, action: string, isImport: bool, rowFound: bool, e: LogEntry,
                     sites: map<int, Option<int>>, tracked: Option<int>): (r: (Outcome, AssetState))
    ensures r.0 != Done ==> r.1 == s
    // the hook never writes the log, the site, the organisation or the purchase
    ensures r.1.log == s.log && r.1.organisationId == s.organisationId && r.1.siteId == s.siteId
    ensures r.1.purchase == s.purchase
    // a "return" or a plain status update made interactively changes nothing
    ensures !isImport && action !in {"setbase", "assignperson", "assignsite", "assignorg"} ==> r == (Skipped, s)
    // an entry takes effect only as an import or when it is not older than the current log
    ensures r.0 == Done ==>
              isImport ||
              (GetCurrentLog(s.log).Some? && GetCurrentLog(s.log).value.date <= e.date)
    // which entries are applied, and with which status
    ensures AcceptStatus(action).None? && isImport && e.status.None? ==> r == (Aborted, s)
    ensures AcceptStatus(action).None? && isImport && e.status.Some? ==>
              r == Apply(s, action, e.status.value, e, sites, tracked)
    ensures AcceptStatus(action).Some? && !rowFound ==> r == (Skipped, s)
    ensures AcceptStatus(action).Some? && rowFound && GetCurrentLog(s.log).None? ==> r == (Aborted, s)
    ensures AcceptStatus(action).Some? && rowFound && GetCurrentLog(s.log).Some? &&
            GetCurrentLog(s.log).value.date <= e.date ==>
              r == Apply(s, action, EffectiveStatus(action, isImport, e).value, e, sites, tracked)
    ensures r.0 == Superseded <==>
              AcceptStatus(action).Some? && rowFound &&
              GetCurrentLog(s.log).Some? && e.date < GetCurrentLog(s.log).value.date
    ensures r.0 == Done ==> r.1.cond == e.cond
    ensures r.1.assignedToId != s.assignedToId ==>
              EffectiveStatus(action, isImport, e) == Some(LogStatus.Assign) &&
              action !in {"assignsite", "assignorg"}
    ensures r.1.locationId != s.locationId ==> EffectiveStatus(action, isImport, e) == Some(LogStatus.SetBase)
  {
    var status := EffectiveStatus(action, isImport, e);
    if AcceptStatus(action).None? then
      if !isImport then (Skipped, s)
      else if status.None? then (Aborted, s)     // the submitted status is not a number
      else Apply(s, action, status.value, e, sites, tracked)
    else if !rowFound then (Skipped, s)
    else
      match GetCurrentLog(s.log)
      case None => (Aborted, s)                   // no date to compare with
      case Some(current) =>
        if current.date <= e.date then Apply(s, action, status.value, e, sites, tracked)
        else (Superseded, s)
  }

  /** One asset row, its component items and its log entries. */
  class Asset {
    var organisationId: Option<int>
    var siteId: Option<int>
    var locationId: Option<int>
    var presence: Presence
    var assignedToId: Option<int>
    var cond: Option<int>
    var purchase: Purchase
    var items: seq<Item>
    var log: seq<LogEntry>

    function State(): AssetState
      reads this
    {
      AssetState(organisationId, siteId, locationId, presence, assignedToId, cond, purchase, items, log)
    }

    /** A new asset owned by `organisationId` at `siteId`, before its hooks run. */
    constructor (organisationId: Option<int>, siteId: Option<int>, purchase: Purchase)
      ensures State() == AssetState(organisationId, siteId, None, Untracked, None, None, purchase, [], [])
    {
      this.organisationId := organisationId;
      this.siteId := siteId;
      locationId := None;
      presence := Untracked;
      assignedToId := None;
      cond := None;
      this.purchase := purchase;
      items := [];
      log := [];
    }

    /** Sets the location of every component item (one bulk update). */
    method MoveItems(loc: Option<int>)
      modifies this
      ensures State() == old(State()).(items := ItemsAt(old(items), loc))
    {
      var moved: seq<Item> := [];
      var i := 0;
      while i < |items|
        invariant 0 <= i <= |items| && |moved| == i
        invariant forall k :: 0 <= k < i ==> moved[k] == items[k].(locationId := loc)
      {
        moved := moved + [items[i].(locationId := loc)];
        i := i + 1;
      }
      items := moved;
    }

    /** Inserts an entry into the asset's log. */
    method AddLog(e: LogEntry)
      modifies this
      ensures State() == old(State()).(log := old(log) + [e])
    {
      log := log + [e];
    }

    /** asset_onaccept, step by step, with the corrected kit branch (see SaveEffect). */
    method OnAccept(bulk: bool, form: AssetForm, sites: map<int, Option<int>>, now: int)
      returns (outcome: Outcome)
      modifies this
      ensures (outcome, State()) == SaveEffect(old(State()), bulk, form, sites, now)
    {
      if bulk {
        return Skipped;
      }
      var org, site := form.organisationId, form.siteId;
      if !IsSet(org) || !IsSet(site) {
        // read both back from the record
        org, site := organisationId, siteId;
      }
      if IsSet(site) && site != form.oldSiteId {
        if site.value !in sites {
          return Aborted;
        }
        var loc := sites[site.value];
        locationId := loc;
        if form.kit {
          MoveItems(loc);
        }
        AddLog(SetBaseEntry(org, site, now));
      }
      if form.kit {
        purchase := NoPurchase;
      } else {
        items := [];
      }
      outcome := Done;
    }

    /** asset_log_onaccept, step by step (see LogEffect for the parameters). */
    method LogOnAccept(action: string, isImport: bool, rowFound: bool, e: LogEntry,
                       sites: map<int, Option<int>>, tracked: Option<int>)
      returns (outcome: Outcome)
      modifies this
      ensures (outcome, State()) == LogEffect(old(State()), action, isImport, rowFound, e, sites, tracked)
    {
      var status := AcceptStatus(action);
      if status.None? {
        if !isImport {
          return Skipped;
        }
        if e.status.None? {
          return Aborted;
        }
        status := e.status;
      } else {
        status := Some(if IsSet(e.status) then e.status.value else status.value);
        if !rowFound {
          return Skipped;
        }
        var current := GetCurrentLog(log);
        if current.None? {
          return Aborted;
        }
        if !(current.value.date <= e.date) {
          return Superseded;
        }
      }
      outcome := ApplyEntry(action, status.value, e, sites, tracked);
    }

    /** The effect of an entry that has become current. */
    method ApplyEntry(action: string, status: int, e: LogEntry,
                      sites: map<int, Option<int>>, tracked: Option<int>)
      returns (outcome: Outcome)
      modifies this
      ensures (outcome, State()) == Apply(old(State()), action, status, e, sites, tracked)
    {
      if status == LogStatus.SetBase {
        if e.siteId.None? || e.siteId.value !in sites {
          return Aborted;
        }
        var loc := sites[e.siteId.value];
        locationId := loc;
        MoveItems(loc);
      } else if status == LogStatus.Assign {
        if action == "assignsite" || (action == "assignorg" && IsSet(e.siteId)) {
          presence := CheckedIn(SiteHolder(e.siteId));
          if tracked.Some? {
            MoveItems(tracked);
          }
        } else if action == "assignorg" {
          // the location can no longer be tracked
          presence := Untracked;
        } else {
          if e.checkInToPerson {
            presence := CheckedIn(PersonHolder(e.personId));
            if tracked.Some? {
              MoveItems(tracked);
            }
          } else {
            presence := Placed(tracked);
            MoveItems(tracked);
          }
          assignedToId := e.personId;
        }
      } else if status == LogStatus.Return {
        presence := Placed(tracked);
        MoveItems(tracked);
      }
      cond := e.cond;
      outcome := Done;
    }
  }
}
