/**
 * The resource header of an asset page (asset_rheader): its tabs, and the
 * log actions offered under it, which depend on the current status.
 */
module AssetHeader {
  import opened Common
  import LogStatus
  import opened AssetLog

  const TypeVehicle: int := 1
  const TypeTelephone: int := 3

  /** The follow-up actions the header can offer. */
  datatype Action = SetBaseAction | ReturnAction | AssignPerson | AssignSite | AssignOrganisation | UpdateStatus

  /** The log method each action's link requests. */
  function ActionMethod(a: Action): (r: string)
    // only "Update Status" opens a plain form; the others name their action
    ensures r == "create" <==> a == UpdateStatus
    ensures a != UpdateStatus ==> r in {"setbase", "return", "assignperson", "assignsite", "assignorg"}
  {
    match a
    case SetBaseAction => "setbase"
    case ReturnAction => "return"
    case AssignPerson => "assignperson"
    case AssignSite => "assignsite"
    case AssignOrganisation => "assignorg"
    case UpdateStatus => "create"
  }

  /** Two actions never request the same method, so a button's link tells its action. */
  lemma ActionMethodIsInjective(a: Action, b: Action)
    ensures ActionMethod(a) == ActionMethod(b) ==> a == b
  {
  }

  /** A button linking to /<f>/<assetId>/log/<logMethod>. */
  datatype Button = Button(action: Action, f: string, assetId: int, logMethod: string)

  /** What the header produces. */
  datatype Header =
    | NoHeader                                      // not an HTML page of one record
    | Raised                                        // no current log: comparing NULL with a status fails
    | Header(tabs: seq<string>, buttons: seq<Button>)

  /** The tabs of the record, by component name ("" is the record itself). */
  function Tabs(assetType: int): (tabs: seq<string>)
    ensures |tabs| >= 3 && tabs[0] == "" && tabs[|tabs| - 2..] == ["log", "document"]
    ensures "telephone" in tabs <==> assetType == TypeTelephone
    ensures "vehicle" in tabs <==> assetType == TypeVehicle
  {
    var own :=
      if assetType == TypeTelephone then ["", "telephone", "telephone_usage"]
      else if assetType == TypeVehicle then
        ["", "vehicle", "human_resource", "assign", "check-in", "check-out", "presence"]
      else [""];
    own + ["log", "document"]
  }

  /** The actions of a list of buttons, in order. */
  function Actions(buttons: seq<Button>): (r: seq<Action>)
    ensures |r| == |buttons| && forall i :: 0 <= i < |r| ==> r[i] == buttons[i].action
  {
    seq(|buttons|, i requires 0 <= i < |buttons| => buttons[i].action)
  }

  /** Every button links to asset `assetId`'s log through `f`, with its action's own method. */
  predicate LinksTo(buttons: seq<Button>, f: string, assetId: int)
  {
    forall i :: 0 <= i < |buttons| ==>
      buttons[i].assetId == assetId && buttons[i].f == f &&
      buttons[i].logMethod == ActionMethod(buttons[i].action)
  }

  /** Appends the buttons of `actions` to `buttons` (one `append` or `+=`). */
  method AddButtons(buttons: seq<Button>, actions: seq<Action>, f: string, assetId: int)
    returns (r: seq<Button>)
    requires LinksTo(buttons, f, assetId)
    ensures LinksTo(r, f, assetId)
    ensures |r| == |buttons| + |actions| && r[..|buttons|] == buttons
    ensures Actions(r) == Actions(buttons) + actions
  {
    r := buttons;
    for k := 0 to |actions|
      invariant LinksTo(r, f, assetId)
      invariant |r| == |buttons| + k && r[..|buttons|] == buttons
      invariant Actions(r) == Actions(buttons) + actions[..k]
    {
      var b := Button(actions[k], f, assetId, ActionMethod(actions[k]));
      assert actions[..k + 1] == actions[..k] + [actions[k]];
      r := r + [b];
    }
    assert actions[..|actions|] == actions;
  }

  /** The actions offered for status `status`, in order. */
  function OfferedActions(status: int): seq<Action>
  {
    [SetBaseAction]
    + (if status == LogStatus.Assign then [ReturnAction] else [])
    + (if LogStatus.InService(status) then [AssignPerson, AssignSite, AssignOrganisation] else [])
    + [UpdateStatus]
  }

  /** What the offered list holds, action by action. */
  lemma OfferedActionsShape(status: int)
    ensures |OfferedActions(status)| >= 2 && OfferedActions(status)[0] == SetBaseAction
    ensures OfferedActions(status)[|OfferedActions(status)| - 1] == UpdateStatus
    ensures ReturnAction in OfferedActions(status) <==> status == LogStatus.Assign
    ensures AssignPerson in OfferedActions(status) <==> LogStatus.InService(status)
    ensures AssignSite in OfferedActions(status) <==> LogStatus.InService(status)
    ensures AssignOrganisation in OfferedActions(status) <==> LogStatus.InService(status)
    ensures |OfferedActions(status)| == 2 + (if status == LogStatus.Assign then 1 else 0)
                                          + (if LogStatus.InService(status) then 3 else 0)
  {
  }

  /**
   * The footer buttons for an asset whose current status is `status`
   * (asset_action_btns), linking through controller function `f`.
   */
  method ActionButtons(status: int, f: string, assetId: int) returns (buttons: seq<Button>)
    // every button links to this asset's log with its own method
    ensures LinksTo(buttons, f, assetId)
    // exactly the offered actions, in the header's order (see OfferedActionsShape)
    ensures Actions(buttons) == OfferedActions(status)
  {
    buttons := AddButtons([], [SetBaseAction], f, assetId);
    ghost var offered: seq<Action> := [SetBaseAction];
    ghost var returned: seq<Action> := [];
    ghost var assignments: seq<Action> := [];
    if status == LogStatus.Assign {
      buttons := AddButtons(buttons, [ReturnAction], f, assetId);
      returned := [ReturnAction];
    }
    assert Actions(buttons) == offered + returned;
    if status < LogStatus.Donated {
      buttons := AddButtons(buttons, [AssignPerson, AssignSite, AssignOrganisation], f, assetId);
      assignments := [AssignPerson, AssignSite, AssignOrganisation];
    }
    assert Actions(buttons) == offered + returned + assignments;
    buttons := AddButtons(buttons, [UpdateStatus], f, assetId);
  }

  /**
   * asset_rheader for an asset of type `assetType` whose log is `log`,
   * requested through `controller`: the tabs and the footer buttons.
   */
  method Rheader(html: bool, hasRecord: bool, controller: string, assetId: int, assetType: int,
                 log: seq<LogEntry>)
    returns (h: Header)
    ensures !html || !hasRecord ==> h == NoHeader
    ensures html && hasRecord && GetCurrentLog(log).None? ==> h == Raised
    ensures html && hasRecord && GetCurrentLog(log).Some? ==> h.Header?
    ensures h.Header? ==>
              GetCurrentLog(log).Some? && h.tabs == Tabs(assetType) &&
              LinksTo(h.buttons, if controller == "vehicle" then "vehicle" else "asset", assetId) &&
              Actions(h.buttons) == OfferedActions(GetCurrentLog(log).value.status)
  {
    if !html || !hasRecord {
      return NoHeader;
    }
    var tabs := Tabs(assetType);
    var current := GetCurrentLog(log);
    if current.None? {
      // comparing the missing status with Donated raises
      return Raised;
    }
    var f := if controller == "vehicle" then "vehicle" else "asset";
    var buttons := ActionButtons(current.value.status, f, assetId);
    h := Header(tabs, buttons);
  }
}
