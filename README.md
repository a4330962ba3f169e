# Asset log lifecycle (Sahana Eden, `modules/s3db/asset.py`)

This project models the state machine at the core of Sahana Eden's asset
module. An asset has a site, a base location, a tracked presence, an
assigned person, a condition and, if it is a kit, component items. Each
status change is recorded as an entry in the asset's log:

- **Status codes.** Base set (1), assigned (2), returned (3), checked (4)
  and repaired (5) mean the asset is in service. Donated (32), lost (33),
  stolen (34) and destroyed (35) mean it has been disposed of.
- **Current log.** The current entry is the latest-dated entry that is not
  cancelled. A NULL status or condition reads as 0.
- **Log form prep.** The requested action (`setbase`, `assignperson`,
  `assignsite`, `assignorg`, `return`, anything else) fixes the status of
  the new entry. It also decides which form fields are shown and which
  statuses a plain "Update Status" may choose. Editing an entry (`update`)
  leaves only its `cancel` flag writable.
- **Header.** The asset page's header has tabs. Under it are the log
  actions that the current status allows.
- **Asset save hook.** Saving an asset logs a "base set" entry when its site
  changes. A kit keeps its items and loses its purchase fields (see
  "Findings": as written, that step names a column the table does not
  have). Any other asset loses its component items.
- **Log save hook.** Saving a log entry updates the asset's base location,
  presence, assignee and condition. An interactive entry does so only when
  it is current and only for the actions the hook knows; an imported entry
  always does, whatever its date.
- **Display.** An asset is shown as "number (item, brand)". A link to it is
  built from a URL template.

The database is reduced to one asset (an `AssetRecord.Asset` object with
its items and its log). The tracker's internals are replaced by a record of
the last presence it was given (`Presence`). The location the tracker
reports back is a parameter (`tracked`), and so is the site-to-location
lookup (`sites`). The clock is a parameter (`now`), and so are the request's
flags: bulk import or sync, import, and whether the saved log row could be
read back. Each hook is a method on the object. The method's `ensures` ties
the new state to a function on `AssetState` values (`SaveEffect`,
`LogEffect`), and the hook's properties are stated on that function.

Modules: `Common` (nullable values), `LogStatus` (the codes), `AssetLog`
(entries and the current log), `LogPrep` (the log form), `AssetRecord`
(the asset and both save hooks), `AssetHeader` (tabs and action buttons),
`AssetRepresent` (display string and link), `Lifecycle` (how these fit
together).

## Model

| member | source | states |
|---|---|---|
| `LogStatus.DisposedIsNotInService` | modules/s3db/asset.py:64-72 | On the nine codes, "disposed" (32 to 35) is exactly "not in service" (below 32), and the in-service codes are 1 to 5 |
| `AssetLog.Summary` | modules/s3db/asset.py:1010-1018 | The summary keeps the entry's date, person, organisation and site, and its stored status and condition; a NULL status or condition reads as 0 |
| `AssetLog.CurrentIndex` | modules/s3db/asset.py:995-1009 | None exactly when every entry is cancelled; otherwise a non-cancelled entry whose date is at least that of every non-cancelled entry |
| `AssetLog.GetCurrentLog` | modules/s3db/asset.py:990-1020 | Empty exactly when every entry is cancelled; otherwise the summary of a non-cancelled entry with the greatest date |
| `AssetLog.CancelledEntryIsIgnored` | modules/s3db/asset.py:996-997 | Appending a cancelled entry does not change the current log |
| `AssetLog.AppendedEntryAndCurrentDate` | modules/s3db/asset.py:785-789 | After a non-cancelled entry is appended there is a current log, dated no earlier than the entry; it has the entry's date exactly when no earlier non-cancelled entry is later |
| `LogPrep.PrepStatus` | modules/s3db/asset.py:1055-1065 | `setbase` gives 1, the three assign actions give 2, `return` gives 3, and every other action gives 0 |
| `LogPrep.PrepMethod` | modules/s3db/asset.py:1055-1063 | The fixed-status actions are rewritten to `create`; any other method is kept |
| `LogPrep.Locked` | modules/s3db/asset.py:1038-1045 | Same fields; every field but `cancel` is read-only; `cancel` keeps its writability |
| `LogPrep.PresetStatus` | modules/s3db/asset.py:1067-1072 | A fixed status is preset and hidden; otherwise the preset becomes the current log's status when there is one |
| `LogPrep.SetBaseLayout` | modules/s3db/asset.py:1076-1083 | "Base set" message; the end date and the assignee are neither readable nor writable; the organisation is both; nothing else changes |
| `LogPrep.ReturnLayout` | modules/s3db/asset.py:1085-1094 | "Returned" message; "returned by" preset to the current entry's person (None if there is none); only the end date, assignee, site and layout flags change |
| `LogPrep.ReturnLayoutHides` | modules/s3db/asset.py:1087-1094 | In a "Return" form the end date, assignee, site and layout are neither readable nor writable |
| `LogPrep.AssignLayout` | modules/s3db/asset.py:1096-1117 | Assign to person makes "track with this person" readable and writable; assign to organisation does so for the organisation; assign to site changes only the message |
| `LogPrep.PlainLayout` | modules/s3db/asset.py:1118-1134 | "Status updated" message; the status is readable and writable and chosen among the codes other than base set, assign and return; end date, assignee, site and layout are neither readable nor writable |
| `LogPrep.CreateConfig` | modules/s3db/asset.py:1049-1134 | The form for a new entry adds only the fields prep names and leaves `cancel` alone; a fixed status is preset and hidden; otherwise the status is chosen among the non-movement codes from the current one; "returned by" changes only for `return` |
| `LogPrep.PrepConfig` | modules/s3db/asset.py:1023-1134 | `read` changes nothing; `update` leaves only `cancel` writable; every other action hides `cancel`; fixed-status actions preset and hide the status; the plain update offers exactly the six non-movement codes and presets the current status |
| `LogPrep.PlainOptionsExcludeMovements` | modules/s3db/asset.py:1128-1134 | The plain update choices are all codes minus base set, assign and return |
| `LogPrep.LogTable.constructor` | modules/s3db/asset.py:531-616 | The declared table: every code allowed, no preset status, `by_person_id` defaulting to the user, "track with this person" and organisation hidden |
| `LogPrep.LogTable.Prep` | modules/s3db/asset.py:1023-1134 | Changes the form exactly as `PrepConfig` says and returns the method `PrepMethod` gives; the `update` loop locks each field but `cancel` |
| `LogPrep.LogTable.CreateForm` | modules/s3db/asset.py:1049-1134 | The step-by-step form setup for a new entry equals the composed layout functions |
| `AssetRecord.SetBaseEntry` | modules/s3db/asset.py:719-724 | The entry a site change logs: base set, condition 1, not cancelled, dated now, with the given organisation and site and no assignee |
| `AssetRecord.SavedKeys` | modules/s3db/asset.py:680-693 | The form's organisation and site are used when both are set; otherwise both are read from the record, never one of each |
| `AssetRecord.SiteChanged` | modules/s3db/asset.py:701-702 | Only a set site counts as a change; a site equal to the stored one is no change; a new asset with a site always changes |
| `AssetRecord.ItemsAt` | modules/s3db/asset.py:714-715 | Same items, same order, same ids, each at the given location |
| `AssetRecord.SaveEffect` | modules/s3db/asset.py:668-741 | The hook with the kit branch clearing the declared purchase columns. A bulk save does nothing. Every other save completes, except that a site change to a site without a row aborts and changes nothing. Exactly one "base set" entry (condition 1, dated now, with the saved site and organisation) is logged, and only when the site changed. The base location then becomes the site's location and changes at no other time. A plain asset ends with no items. A kit keeps its items, all moved to the new base location if the site changed, and loses its purchase fields. Site, organisation, presence, assignee and condition never change |
| `AssetRecord.SaveEffectAsWritten` | modules/s3db/asset.py:668-741 | As written, every interactive kit save ends in an error with the asset unchanged; a save of a plain asset behaves as `SaveEffect` |
| `AssetRecord.KitSaveFailsAsWritten` | modules/s3db/asset.py:726-731 | An interactive kit save that the corrected hook completes, clearing all four purchase fields, fails as written |
| `AssetRecord.EffectiveStatus` | modules/s3db/asset.py:760-773 | Interactively the submitted status wins when set and the action's status is the fallback; on import the submitted status is used as it is; otherwise there is none |
| `AssetRecord.AcceptStatus` | modules/s3db/asset.py:752-758 | `setbase` gives base set, the assign actions give assign, and everything else (including `return`) gives none |
| `AssetRecord.Apply` | modules/s3db/asset.py:791-863 | The whole new state per status. Base set moves the base location and every item to the site's location, and aborts for a site without a row. Assignment to a site (or to an organisation with a site) checks the asset in there, and the items follow the tracker's location if it reports one. Assignment to an organisation without a site untracks the asset. Assignment to a person makes them the assignee and checks the asset in to them or places it, items included, at the tracker's location. Return places the asset and items at the tracker's location. Any other status changes nothing but the condition, which every applied entry sets |
| `AssetRecord.LogEffect` | modules/s3db/asset.py:745-863 | An interactive `return` or plain update changes nothing. An interactive set-base or assignment whose row is not found is skipped, aborts when there is no current log, is applied (as `Apply` with the effective status) when it is not older than the current log, and is superseded exactly when it is older. An import is applied with its submitted status, and aborts when none was submitted. The log, site, organisation and purchase never change |
| `AssetRecord.Asset.constructor` | modules/s3db/asset.py:243-257 | A new asset has no base location, no presence, no assignee, no condition, no items and no log |
| `AssetRecord.Asset.MoveItems` | modules/s3db/asset.py:714-715 | Only the items change, each moved to the location |
| `AssetRecord.Asset.AddLog` | modules/s3db/asset.py:718-724 | Only the log changes, by the one appended entry |
| `AssetRecord.Asset.OnAccept` | modules/s3db/asset.py:668-741 | The outcome and the new state are those that the corrected `SaveEffect` gives for the old state |
| `AssetRecord.Asset.LogOnAccept` | modules/s3db/asset.py:745-789 | The outcome and the new state are those that `LogEffect` gives for the old state |
| `AssetRecord.Asset.ApplyEntry` | modules/s3db/asset.py:791-863 | The outcome and the new state are those that `Apply` gives for the old state |
| `AssetHeader.Tabs` | modules/s3db/asset.py:1148-1173 | The record tab first, "log" and "document" last; telephone tabs only for telephones, vehicle tabs only for vehicles |
| `AssetHeader.ActionMethod` | modules/s3db/asset.py:1212-1254 | Only "Update Status" requests the plain `create` form; each other action requests its own method |
| `AssetHeader.ActionMethodIsInjective` | modules/s3db/asset.py:1212-1254 | No two actions request the same method |
| `AssetHeader.OfferedActionsShape` | modules/s3db/asset.py:1210-1257 | The offered list starts with "Set Base", ends with "Update Status", holds "Return" exactly for the assign status and the three assignments exactly below Donated, with nothing twice |
| `AssetHeader.AddButtons` | modules/s3db/asset.py:1222-1257 | Appending keeps the earlier buttons; the new ones carry the given actions, each linking to this asset's log with its own method |
| `AssetHeader.ActionButtons` | modules/s3db/asset.py:1210-1257 | The buttons' actions are exactly the offered list (`OfferedActions`) in the header's order: "Set Base", "Return" when the status is assign, the three assignments while the status is below Donated, "Update Status"; every link goes to this asset's log with the action's method |
| `AssetHeader.Rheader` | modules/s3db/asset.py:1137-1262 | No header outside an HTML page of a record. Without a current log the status comparison raises. Otherwise the tabs are those for the type, and the buttons are exactly the actions offered for the current status, in order, linking through the vehicle or asset controller |
| `AssetRepresent.RepresentRow` | modules/s3db/asset.py:1374-1394 | No number gives the default. Otherwise the text is the number, " (", the item, then ", brand)" when there is a brand or ")" when not |
| `AssetRepresent.BrandIsRecoverable` | modules/s3db/asset.py:1389-1393 | For one number and item, equal displays have the same brand (or none) |
| `AssetRepresent.Replace` | modules/s3db/asset.py:1419-1420 | A text shorter than the pattern is unchanged, and so is any text when the pattern is replaced by itself |
| `AssetRepresent.ReplaceAbsent` | modules/s3db/asset.py:1419-1420 | A template without the placeholder's first character is unchanged |
| `AssetRepresent.ReplaceSkips` | modules/s3db/asset.py:1419-1420 | Text before any possible placeholder is copied through unchanged |
| `AssetRepresent.ReplaceOne` | modules/s3db/asset.py:1419-1420 | The one placeholder is replaced and the text on either side kept |
| `AssetRepresent.DecimalString` | modules/s3db/asset.py:1417 | A key is written as a non-empty string of decimal digits whose value is the key |
| `AssetRepresent.AssetLink` | modules/s3db/asset.py:1397-1421 | A vehicle links to its vehicle page; any other asset to the template with both placeholder spellings replaced by the key; the link text is kept |
| `AssetRepresent.PlainPlaceholderIsFilled` | modules/s3db/asset.py:1417-1421 | A template with one "[id]" gets the key in its place |
| `AssetRepresent.EncodedPlaceholderIsFilled` | modules/s3db/asset.py:1417-1421 | A template with one "%5Bid%5D" gets the key in its place |
| `AssetRepresent.LinkIdentifiesRecord` | modules/s3db/asset.py:1417-1421 | Two keys filled into the same template give the same link only when they are equal |
| `Lifecycle.ButtonsOpenMatchingForms` | modules/s3db/asset.py:1210-1257 | Each header button's method makes prep fix the status that the button stands for, and run a create |
| `Lifecycle.AcceptStatusAgreesWithPrep` | modules/s3db/asset.py:753-758 | The save hook reads the same status as prep, except for `return`, which only prep knows |
| `Lifecycle.ReturnAndStatusUpdateChangeNothing` | modules/s3db/asset.py:760-763 | An interactive "Return" or "Update Status" entry leaves the asset unchanged |
| `Lifecycle.AppendedEntryTakesEffect` | modules/s3db/asset.py:785-789 | A just-appended interactive entry is superseded exactly when an earlier non-cancelled entry is dated later |
| `Lifecycle.SiteChangeBecomesCurrent` | modules/s3db/asset.py:701-724 | A site change saved later than every entry that is not cancelled makes its "base set" entry current, with condition 1, whatever order the database gives entries of equal date |
| `Lifecycle.HeaderAfterSiteChange` | modules/s3db/asset.py:1229-1250 | After such a site change the header offers exactly the list for "base set": the three assignments and no "Return" |

## Left out

- `modules/s3db/edu.py`: it only declares tables, validators and deduplication rules, and has no logic of its own.
- Table definitions, CRUD strings, labels, list, filter and report settings, and component wiring: these are framework metadata. The model keeps only the asset_log fields' readable/writable flags, the status default and choices, the "returned by" default and the "created" message.
- Prep's changes to validators (`requires`), field labels and the layout widget's filter: these are UI settings.
- The asset_log meta fields: they are absent from `LogPrep.LogFields`, and the `update` lock applies to them in the same way.
- S3Tracker internals (`check_in`, `check_out`, `set_location`, `get_location`, `set_base_location`): each becomes an update of `presence` or `locationId`. The location the tracker reports is the parameter `tracked`: an empty `get_location` result leaves the items where they were, and `set_location`'s result is used as it is.
- Database queries beyond one asset: the site table is the `sites` map, and other assets' rows are not modelled.
- `S3Resource.delete` of non-kit items: it becomes emptying `items`. Cascades and delete permissions are not modelled.
- Exceptions: an exception that the source does not catch becomes the `Aborted` outcome. This covers a missing site row, a NULL status on import, a NULL current date, and the kit branch's update as written (see "Findings"). The state is left as the hook found it. The request's rollback of the row that was just saved is not modelled.
- Dates: a log date is an integer timestamp. The time zone that the log hook strips with `replace(tzinfo = None)` is not modelled, nor are calendar rules.
- Comparisons with NULL follow Python 3: `None <= date` and `None < 32` raise an error.
- The current log among equal dates: the database's order is unspecified there, and the model keeps the later entry. `AssetLog.GetCurrentLog` promises only an entry of greatest date, and the `Lifecycle` lemmas that name the current entry require the other entries to be strictly earlier, so they do not depend on that choice.
- The header's HTML table of number, item, condition, status, person and site, and the translated labels: these are presentation.
- `asset_controller` (prep, postp and script injection), `lookup_rows` (an SQL join), `float_represent` and purchase prices (floating point): the price is an opaque value that is only ever cleared.
- `AssetRepresent.AssetLink`: the vehicle link's URL is given as a target, because `URL()` and the application prefix are framework code.
- Request state: the method that `asset_log_prep` stores for the save hook is passed as the hook's `action` parameter. An unset method is the empty string.

## Findings

| source | as written | input that shows it | evidently intended | confidence | as-written member | corrected member |
|---|---|---|---|---|---|---|
| modules/s3db/asset.py:726-731 | the kit branch updates `supplier_org_id`, a column the asset table does not declare (it declares `supply_org_id`, modules/s3db/asset.py:230) | any interactive save with `kit` set, e.g. a new kit asset at a site that has a row (`AssetRecord.KitSaveFailsAsWritten`) | clear `supply_org_id`, `purchase_date`, `purchase_price` and `purchase_currency` | not executed; relies on the database layer rejecting an update of an undeclared field | `AssetRecord.SaveEffectAsWritten` | `AssetRecord.SaveEffect` |
