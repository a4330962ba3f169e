/**
 * Preparation of the asset log form (asset_log_prep): a requested log action
 * fixes the status of the new entry and decides which fields of the
 * asset_log table the form shows and accepts.
 */
module LogPrep {
  import opened Common
  import LogStatus
  import opened AssetLog

  /** The three ways of assigning an asset. */
  const AssignMethods: set<string> := {"assignperson", "assignsite", "assignorg"}

  /** The actions whose status is fixed by the action itself. */
  const FixedStatusMethods: set<string> := AssignMethods + {"setbase", "return"}

  /** The statuses a plain "Update Status" entry may choose. */
  const PlainUpdateOptions: set<int> :=
    {LogStatus.Check, LogStatus.Repair, LogStatus.Donated, LogStatus.Lost, LogStatus.Stolen, LogStatus.Destroy}

  /** The fields of the asset_log table, in declaration order. */
  const LogFields: seq<string> :=
    ["asset_id", "status", "date", "date_until", "person_id", "check_in_to_person",
     "organisation_id", "site_id", "layout_id", "cancel", "cond", "by_person_id", "comments"]

  /** The fields whose access prep changes by name. */
  const ManagedFields: set<string> :=
    {"status", "date_until", "person_id", "check_in_to_person", "organisation_id",
     "site_id", "layout_id", "cancel"}

  /** The message shown once the new entry is saved. */
  datatype Message =
    | EntryAdded | BaseSet | Returned | AssignedToPerson | AssignedToSite
    | AssignedToOrganisation | StatusUpdated

  /** The status a requested action fixes for the new entry; 0 leaves it to the user. */
  function PrepStatus(action: string): (s: int)
    ensures s in {0, LogStatus.SetBase, LogStatus.Assign, LogStatus.Return}
    ensures s == LogStatus.SetBase <==> action == "setbase"
    ensures s == LogStatus.Assign <==> action in AssignMethods
    ensures s == LogStatus.Return <==> action == "return"
    ensures s == 0 <==> action !in FixedStatusMethods
  {
    if action == "setbase" then LogStatus.SetBase
    else if action in AssignMethods then LogStatus.Assign
    else if action == "return" then LogStatus.Return
    else 0
  }

  /** The REST method after prep: an action that fixes the status becomes a plain create. */
  function PrepMethod(action: string): (m: string)
    ensures action in FixedStatusMethods ==> m == "create"
    ensures action !in FixedStatusMethods ==> m == action
  {
    if PrepStatus(action) != 0 then "create" else action
  }

  /** The per-request configuration of the asset_log form. */
  datatype FormConfig = FormConfig(
    readable: map<string, bool>,
    writable: map<string, bool>,
    statusDefault: Option<int>,
    statusOptions: set<int>,
    byPersonDefault: Option<int>,
    created: Message)
  {
    /** Shows (and accepts) or hides field `f`. */
    function Access(f: string, on: bool): FormConfig
    {
      this.(readable := readable[f := on], writable := writable[f := on])
    }
  }

  /** Every field but `cancel` made read-only; `cancel` keeps what it had. */
  function Locked(writable: map<string, bool>): (w: map<string, bool>)
    ensures w.Keys == writable.Keys
    ensures forall f :: f in w && f != "cancel" ==> !w[f]
    ensures "cancel" in writable ==> w["cancel"] == writable["cancel"]
  {
    map f | f in writable :: if f == "cancel" then writable[f] else false
  }

  /** The status preset: fixed and hidden for a fixed-status action, else the current one. */
  function PresetStatus(c: FormConfig, action: string, current: Option<CurrentLog>): (r: FormConfig)
    ensures r.readable.Keys == c.readable.Keys + (if action in FixedStatusMethods then {"status"} else {})
    ensures r.writable.Keys == c.writable.Keys + (if action in FixedStatusMethods then {"status"} else {})
    ensures action in FixedStatusMethods ==>
              r.statusDefault == Some(PrepStatus(action)) && !r.readable["status"] && !r.writable["status"]
    ensures action !in FixedStatusMethods ==>
              r.readable == c.readable && r.writable == c.writable &&
              r.statusDefault == (if current.Some? then Some(current.value.status) else c.statusDefault)
    ensures forall f :: f in c.readable && f != "status" ==> r.readable[f] == c.readable[f]
    ensures forall f :: f in c.writable && f != "status" ==> r.writable[f] == c.writable[f]
    ensures r.statusOptions == c.statusOptions && r.byPersonDefault == c.byPersonDefault
  {
    var status := PrepStatus(action);
    if status != 0 then c.(statusDefault := Some(status)).Access("status", false)
    else if current.Some? then c.(statusDefault := Some(current.value.status))
    else c
  }

  /** Layout of a "Set Base" entry. */
  function SetBaseLayout(c: FormConfig): (r: FormConfig)
    ensures r.created == BaseSet && r.statusOptions == c.statusOptions
    ensures r.statusDefault == c.statusDefault && r.byPersonDefault == c.byPersonDefault
    ensures r.readable.Keys == c.readable.Keys + {"date_until", "person_id", "organisation_id"}
    ensures r.writable.Keys == c.writable.Keys + {"date_until", "person_id", "organisation_id"}
    // the end date and the assignee are hidden, the organisation is shown
    ensures !r.readable["date_until"] && !r.writable["date_until"]
    ensures !r.readable["person_id"] && !r.writable["person_id"]
    ensures r.readable["organisation_id"] && r.writable["organisation_id"]
    ensures forall f :: f in c.readable && f !in {"date_until", "person_id", "organisation_id"} ==> r.readable[f] == c.readable[f]
    ensures forall f :: f in c.writable && f !in {"date_until", "person_id", "organisation_id"} ==> r.writable[f] == c.writable[f]
  {
    c.(created := BaseSet)
     .Access("date_until", false).Access("person_id", false)
     .Access("organisation_id", true)
  }

  /** Layout of a "Return" entry: returned by the person of the current entry. */
  function ReturnLayout(c: FormConfig, current: Option<CurrentLog>): (r: FormConfig)
    ensures r.created == Returned && r.statusOptions == c.statusOptions && r.statusDefault == c.statusDefault
    ensures r.byPersonDefault == (if current.Some? then current.value.personId else None)
    ensures r.readable.Keys == c.readable.Keys + {"date_until", "person_id", "site_id", "layout_id"}
    ensures r.writable.Keys == c.writable.Keys + {"date_until", "person_id", "site_id", "layout_id"}
    ensures forall f :: f in c.readable && f !in {"date_until", "person_id", "site_id", "layout_id"} ==> r.readable[f] == c.readable[f]
    ensures forall f :: f in c.writable && f !in {"date_until", "person_id", "site_id", "layout_id"} ==> r.writable[f] == c.writable[f]
  {
    c.(created := Returned)
     .Access("date_until", false).Access("person_id", false)
     .(byPersonDefault := if current.Some? then current.value.personId else None)
     .Access("site_id", false).Access("layout_id", false)
  }

  /** A "Return" form hides the end date, the assignee, the site and the layout. */
  lemma ReturnLayoutHides(c: FormConfig, current: Option<CurrentLog>)
    ensures var r := ReturnLayout(c, current);
            && !r.readable["date_until"] && !r.writable["date_until"]
            && !r.readable["person_id"] && !r.writable["person_id"]
            && !r.readable["site_id"] && !r.writable["site_id"]
            && !r.readable["layout_id"] && !r.writable["layout_id"]
  {
  }

  /** Layout of an assignment entry, by kind of assignee. */
  function AssignLayout(c: FormConfig, action: string): (r: FormConfig)
    requires action in AssignMethods
    ensures r.statusOptions == c.statusOptions && r.statusDefault == c.statusDefault
    ensures r.byPersonDefault == c.byPersonDefault
    ensures action == "assignperson" ==>
              r.readable.Keys == c.readable.Keys + {"check_in_to_person"} &&
              r.writable.Keys == c.writable.Keys + {"check_in_to_person"} &&
              r.created == AssignedToPerson &&
              r.readable["check_in_to_person"] && r.writable["check_in_to_person"]
    ensures action == "assignsite" ==> r == c.(created := AssignedToSite)
    ensures action == "assignorg" ==>
              r.readable.Keys == c.readable.Keys + {"organisation_id"} &&
              r.writable.Keys == c.writable.Keys + {"organisation_id"} &&
              r.created == AssignedToOrganisation &&
              r.readable["organisation_id"] && r.writable["organisation_id"]
    ensures forall f :: f in c.readable && f !in {"check_in_to_person", "organisation_id"} ==> r.readable[f] == c.readable[f]
    ensures forall f :: f in c.writable && f !in {"check_in_to_person", "organisation_id"} ==> r.writable[f] == c.writable[f]
  {
    if action == "assignperson" then
      c.(created := AssignedToPerson).Access("check_in_to_person", true)
    else if action == "assignsite" then
      c.(created := AssignedToSite)
    else
      c.(created := AssignedToOrganisation).Access("organisation_id", true)
  }

  /** Layout of a plain "Update Status" entry: the status is chosen among the non-movement codes. */
  function PlainLayout(c: FormConfig): (r: FormConfig)
    ensures r.created == StatusUpdated && r.statusDefault == c.statusDefault
    ensures r.byPersonDefault == c.byPersonDefault
    ensures r.statusOptions == LogStatus.All - LogStatus.Movements
    ensures r.readable.Keys == c.readable.Keys + {"date_until", "person_id", "site_id", "layout_id", "status"}
    ensures r.writable.Keys == c.writable.Keys + {"date_until", "person_id", "site_id", "layout_id", "status"}
    // the status is shown; the end date, the assignee, the site and the layout are hidden
    ensures r.readable["status"] && r.writable["status"]
    ensures !r.readable["date_until"] && !r.writable["date_until"]
    ensures !r.readable["person_id"] && !r.writable["person_id"]
    ensures !r.readable["site_id"] && !r.writable["site_id"]
    ensures !r.readable["layout_id"] && !r.writable["layout_id"]
    ensures forall f :: f in c.readable && f !in {"date_until", "person_id", "site_id", "layout_id", "status"} ==> r.readable[f] == c.readable[f]
    ensures forall f :: f in c.writable && f !in {"date_until", "person_id", "site_id", "layout_id", "status"} ==> r.writable[f] == c.writable[f]
  {
    c.(created := StatusUpdated)
     .Access("date_until", false).Access("person_id", false)
     .Access("site_id", false).Access("layout_id", false)
     .Access("status", true)
     .(statusOptions := PlainUpdateOptions)
  }

  /** The form of a new entry for `action`, once `cancel` is hidden. */
  function CreateConfig(c: FormConfig, action: string, current: Option<CurrentLog>): (r: FormConfig)
    // only the fields prep names are added, and `cancel` is left as it was
    ensures c.readable.Keys <= r.readable.Keys <= c.readable.Keys + ManagedFields
    ensures c.writable.Keys <= r.writable.Keys <= c.writable.Keys + ManagedFields
    ensures "cancel" in c.readable ==> r.readable["cancel"] == c.readable["cancel"]
    ensures "cancel" in c.writable ==> r.writable["cancel"] == c.writable["cancel"]
    // a fixed status is preset and hidden
    ensures action in FixedStatusMethods ==>
              "status" in r.readable && "status" in r.writable &&
              r.statusDefault == Some(PrepStatus(action)) &&
              !r.readable["status"] && !r.writable["status"] &&
              r.statusOptions == c.statusOptions
    // a plain status update chooses among the non-movement codes, from the current one
    ensures action !in FixedStatusMethods ==>
              {"status", "site_id", "person_id"} <= r.readable.Keys * r.writable.Keys &&
              r.readable["status"] && r.writable["status"] &&
              r.statusOptions == LogStatus.All - LogStatus.Movements &&
              r.created == StatusUpdated &&
              !r.writable["site_id"] && !r.writable["person_id"] &&
              r.statusDefault == (if current.Some? then Some(current.value.status) else c.statusDefault)
    ensures action == "return" ==>
              r.byPersonDefault == (if current.Some? then current.value.personId else None) &&
              "site_id" in r.writable && "person_id" in r.writable &&
              !r.writable["site_id"] && !r.writable["person_id"]
    ensures action != "return" ==> r.byPersonDefault == c.byPersonDefault
    ensures action == "assignperson" ==>
              "check_in_to_person" in r.writable && r.writable["check_in_to_person"]
  {
    var c2 := PresetStatus(c, action, current);
    var status := PrepStatus(action);
    if status == LogStatus.SetBase then SetBaseLayout(c2)
    else if status == LogStatus.Return then ReturnLayout(c2, current)
    else if status == LogStatus.Assign then AssignLayout(c2, action)
    else PlainLayout(c2)
  }

  /**
   * asset_log_prep on an abstract form configuration: `action` is the
   * requested action and `log` the asset's log.
   */
  function PrepConfig(c: FormConfig, action: string, log: seq<LogEntry>): (r: FormConfig)
    ensures action == "read" ==> r == c
    // editing an existing entry: only the cancel flag stays writable
    ensures action == "update" ==>
              r == c.(writable := r.writable) && r.writable.Keys == c.writable.Keys &&
              (forall f :: f in r.writable && f != "cancel" ==> !r.writable[f]) &&
              ("cancel" in c.writable ==> r.writable["cancel"] == c.writable["cancel"])
    ensures action !in {"read", "update"} ==>
              c.readable.Keys + {"cancel"} <= r.readable.Keys <= c.readable.Keys + ManagedFields &&
              c.writable.Keys + {"cancel"} <= r.writable.Keys <= c.writable.Keys + ManagedFields &&
              !r.readable["cancel"] && !r.writable["cancel"]
    // an action that fixes the status: the status is preset and hidden
    ensures action in FixedStatusMethods ==>
              "status" in r.readable && "status" in r.writable &&
              r.statusDefault == Some(PrepStatus(action)) &&
              !r.readable["status"] && !r.writable["status"] &&
              r.statusOptions == c.statusOptions
    // a plain status update: the status is chosen among the non-movement codes,
    // preset to the current one
    ensures action !in FixedStatusMethods + {"read", "update"} ==>
              {"status", "site_id", "person_id"} <= r.readable.Keys * r.writable.Keys &&
              r.readable["status"] && r.writable["status"] &&
              r.statusOptions == LogStatus.All - LogStatus.Movements &&
              r.created == StatusUpdated &&
              !r.writable["site_id"] && !r.writable["person_id"] &&
              r.statusDefault == (match GetCurrentLog(log)
                                  case Some(cur) => Some(cur.status)
                                  case None => c.statusDefault)
    ensures action == "return" ==>
              r.byPersonDefault == (match GetCurrentLog(log)
                                    case Some(cur) => cur.personId
                                    case None => None) &&
              "site_id" in r.writable && "person_id" in r.writable &&
              !r.writable["site_id"] && !r.writable["person_id"]
    ensures action != "return" ==> r.byPersonDefault == c.byPersonDefault
    ensures action == "assignperson" ==>
              "check_in_to_person" in r.writable && r.writable["check_in_to_person"]
  {
    if action == "update" then
      c.(writable := Locked(c.writable))
    else if action == "read" then
      c
    else
      CreateConfig(c.Access("cancel", false), action, GetCurrentLog(log))
  }

  /** The plain update choices are exactly the codes that do not move the asset. */
  lemma PlainOptionsExcludeMovements()
    ensures PlainUpdateOptions == LogStatus.All - LogStatus.Movements
    ensures LogStatus.SetBase !in PlainUpdateOptions && LogStatus.Assign !in PlainUpdateOptions
    ensures LogStatus.Return !in PlainUpdateOptions
  {
  }

  /** The asset_log table's form settings for the current request. */
  class LogTable {
    const fields: seq<string>
    var readable: map<string, bool>
    var writable: map<string, bool>
    var statusDefault: Option<int>
    var statusOptions: set<int>
    var byPersonDefault: Option<int>
    var created: Message

    /** Every field has both flags, and the fields prep names are there. */
    ghost predicate Valid()
      reads this
    {
      && readable.Keys == writable.Keys == (set f | f in fields)
      && ManagedFields <= readable.Keys
    }

    function Config(): FormConfig
      reads this
    {
      FormConfig(readable, writable, statusDefault, statusOptions, byPersonDefault, created)
    }

    /** The table as declared: every status accepted, by_person_id defaulting to the user. */
    constructor (user: Option<int>)
      ensures Valid() && fields == LogFields
      ensures statusDefault == None && statusOptions == LogStatus.All
      ensures byPersonDefault == user && created == EntryAdded
      ensures forall f :: f in readable ==> readable[f] == writable[f]
      ensures forall f :: f in readable ==>
                (readable[f] <==> f !in {"check_in_to_person", "organisation_id"})
    {
      fields := LogFields;
      var hidden := {"check_in_to_person", "organisation_id"};
      readable := map f | f in LogFields :: f !in hidden;
      writable := map f | f in LogFields :: f !in hidden;
      statusDefault := None;
      statusOptions := LogStatus.All;
      byPersonDefault := user;
      created := EntryAdded;
    }

    /** Shows (and accepts) or hides field `f`. */
    method SetAccess(f: string, on: bool)
      modifies this
      ensures Config() == old(Config()).Access(f, on)
      ensures statusOptions == old(statusOptions)
    {
      readable := readable[f := on];
      writable := writable[f := on];
    }

    /**
     * asset_log_prep: configures the form for the requested action on an
     * asset whose log is `log`, and returns the REST method to run.
     */
    method Prep(action: string, log: seq<LogEntry>) returns (rMethod: string)
      requires Valid()
      modifies this
      ensures Valid()
      ensures Config() == PrepConfig(old(Config()), action, log)
      ensures rMethod == PrepMethod(action)
    {
      rMethod := action;
      if action == "update" {
        // only the cancel flag stays writable
        for i := 0 to |fields|
          invariant writable.Keys == old(writable).Keys
          invariant forall f :: f in writable ==>
                      writable[f] == if f != "cancel" && f in fields[..i] then false else old(writable)[f]
          invariant readable == old(readable) && statusDefault == old(statusDefault)
          invariant statusOptions == old(statusOptions) && byPersonDefault == old(byPersonDefault)
          invariant created == old(created)
        {
          if fields[i] != "cancel" {
            writable := writable[fields[i] := false];
          }
        }
        assert fields[..|fields|] == fields;
        return;
      } else if action == "read" {
        return;
      }
      SetAccess("cancel", false);
      var current := GetCurrentLog(log);
      rMethod := PrepMethod(action);
      CreateForm(action, current);
    }

    /** The form of a new entry for `action`, step by step. */
    method CreateForm(action: string, current: Option<CurrentLog>)
      modifies this
      ensures Config() == CreateConfig(old(Config()), action, current)
    {
      var status := PrepStatus(action);
      if status != 0 {
        statusDefault := Some(status);
        SetAccess("status", false);
      } else if current.Some? {
        statusDefault := Some(current.value.status);
      }
      assert Config() == PresetStatus(old(Config()), action, current);
      if status == LogStatus.SetBase {
        created := BaseSet;
        SetAccess("date_until", false);
        SetAccess("person_id", false);
        SetAccess("organisation_id", true);
      } else if status == LogStatus.Return {
        created := Returned;
        SetAccess("date_until", false);
        SetAccess("person_id", false);
        byPersonDefault := if current.Some? then current.value.personId else None;
        SetAccess("site_id", false);
        SetAccess("layout_id", false);
      } else if status == LogStatus.Assign {
        if action == "assignperson" {
          created := AssignedToPerson;
          SetAccess("check_in_to_person", true);
        } else if action == "assignsite" {
          created := AssignedToSite;
        } else {
          created := AssignedToOrganisation;
          SetAccess("organisation_id", true);
        }
      } else {
        created := StatusUpdated;
        SetAccess("date_until", false);
        SetAccess("person_id", false);
        SetAccess("site_id", false);
        SetAccess("layout_id", false);
        SetAccess("status", true);
        statusOptions := PlainUpdateOptions;
      }
    }
  }
}
