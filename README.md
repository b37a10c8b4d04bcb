# Remote tabs panel, modelled in Dafny

This project models `RemoteTabsPanel`, the home panel of Firefox for iOS that lists the
tabs open on the user's other synced devices, grouped by device. The UIKit details are
stripped away. What remains is the panel's decision logic:

- **Hierarchy filter.** A successful fetch of `ClientAndTabs` records is reduced to the
  clients that have at least one tab, in fetch order (`RemoteTabs.ClientsWithTabs`).
- **Table lookups.** The table reads its section count, row counts, the tab at an index
  path and the section header from the stored list. Nothing stored (`None`) means no
  sections.
- **Header image.** A device type of exactly `"desktop"` gets the computer image. Any other
  type gets the mobile-device image.
- **Panel state.** The class `Panel.RemoteTabsPanel` holds six fields. Its methods update
  them the way the view controller's callbacks do:
  - `clientAndTabs`: the stored list.
  - `overlayPresent`: whether the sign-in overlay is shown.
  - `scrollEnabled`: the table's scrolling switch.
  - `separatorsShown` and `backgroundShown`: the table's separators and placeholder
    background.
  - `refreshing`: whether the refresh control is spinning.
- **Refresh.** The asynchronous fetch is split in two. `BeginRefresh` is the synchronous
  start of `SELrefresh`. `CompleteRefresh` is its completion block and receives the fetch
  outcome as a `Result`. A ghost trace, `indicatorEvents`, records every begin/end request
  to the refresh control. This lets the contracts state that each completion stops the
  control exactly once.
- **Account check.** `viewWillAppear` takes the account lookup as a `hasAccount` parameter.

Files:
- `wrappers.dfy`: `Option` and `Result`.
- `remote_tabs.dfy`: module `RemoteTabs`. The records, the filter, the lookups, the header
  classification and the lemmas about them.
- `remote_tabs_panel.dfy`: module `Panel`. The class and its invariant `Valid()`. The
  invariant holds that:
  - the overlay is up exactly when scrolling is off;
  - separators are shown exactly when there is no placeholder background;
  - the store holds only clients with tabs;
  - the control spins exactly when its last request was a begin;
  - the begin requests number the end requests plus the fetches still outstanding (a ghost
    counter `pending`). A completion needs an outstanding fetch, so start and stop stay
    paired one to one even when refreshes overlap.

The stored list stays `Option<seq<ClientAndTabs>>`, as in the code. "Not loaded yet" and
"loaded, none with tabs" are told apart only by `None` versus `Some([])`. No separate
presentation-state type is introduced, because the code has none. No guard against
overlapping refreshes is added either. A second `BeginRefresh` before a completion is
allowed, and each completion simply overwrites the state, as in the code.

## Model

| member | source | states |
|---|---|---|
| `RemoteTabs.ClientsWithTabs` | Client/Frontend/Home/RemoteTabsPanel.swift:184 | the result keeps exactly the fetched entries that have tabs (membership in both directions), every kept entry has a tab, it is no longer than the input, and it is the input itself when every entry has tabs |
| `RemoteTabs.ClientsWithTabsKeepsOrder` | Client/Frontend/Home/RemoteTabsPanel.swift:184 | the filtered list is a subsequence of the fetched list: fetch order is preserved |
| `RemoteTabs.ClientsWithTabsKeepsMultiplicity` | Client/Frontend/Home/RemoteTabsPanel.swift:184 | an entry with tabs occurs in the result as often as in the fetch; an entry without tabs never occurs |
| `RemoteTabs.ClientsWithTabsDistributes` | Client/Frontend/Home/RemoteTabsPanel.swift:184 | filtering a concatenation is the concatenation of the filtered parts, in order |
| `RemoteTabs.ClientsWithTabsKeepsEveryTab` | Client/Frontend/Home/RemoteTabsPanel.swift:184 | the filter drops no tab: the total number of tabs is unchanged |
| `RemoteTabs.NumberOfSections` | Client/Frontend/Home/RemoteTabsPanel.swift:211-214 | the section count is 0 exactly when nothing is stored or the stored list is empty, and otherwise the stored list's length |
| `RemoteTabs.NumberOfRows` | Client/Frontend/Home/RemoteTabsPanel.swift:216-219 | with nothing stored a section has 0 rows; otherwise one row per tab of that client; a stored list demands an in-range section |
| `RemoteTabs.TabAt` | Client/Frontend/Home/RemoteTabsPanel.swift:46-48 | a tab is returned exactly when a list is stored; it is the tab at position `item` of that section's client, and its index path is valid by the table's own counts |
| `RemoteTabs.StoredSectionsHaveRows` | Client/Frontend/Home/RemoteTabsPanel.swift:211-219 | in a store holding only clients with tabs, every section has at least one row |
| `RemoteTabs.FetchedStoreIsWellFormed` | Client/Frontend/Home/RemoteTabsPanel.swift:184-213 | storing a filtered fetch gives a well-formed store, with no more sections than fetched entries, and with zero sections exactly when no fetched entry has a tab |
| `RemoteTabs.EveryFetchedTabHasARow` | Client/Frontend/Home/RemoteTabsPanel.swift:46-48 | every tab of every fetched client is shown at some valid (section, item) of the stored list |
| `RemoteTabs.DeviceImageFor` | Client/Frontend/Home/RemoteTabsPanel.swift:250-257 | the desktop image and the "computer" label come exactly from the type "desktop"; every other type gives the mobile image and the "mobile device" label |
| `RemoteTabs.DeviceImageHasTwoBuckets` | Client/Frontend/Home/RemoteTabsPanel.swift:251-257 | every type falls into one of two distinct buckets; "mobile", "" and "tablet" all fall into the mobile one |
| `RemoteTabs.HeaderForSection` | Client/Frontend/Home/RemoteTabsPanel.swift:225-265 | a header exists exactly when a list is stored; its title is the client's name and its image and label are those of the client's device type (desktop exactly for "desktop", mobile otherwise) |
| `Panel.RemoteTabsPanel.constructor` | Client/Frontend/Home/RemoteTabsPanel.swift:50-61 | a freshly loaded panel stores nothing, shows no overlay, scrolls, shows separators without background and is not refreshing |
| `Panel.RemoteTabsPanel.ViewWillAppear` | Client/Frontend/Home/RemoteTabsPanel.swift:63-72 | without an account the overlay is up, scrolling is off and no refresh starts; with an account the overlay is gone, scrolling is on, exactly one begin request is made and one more fetch is outstanding; the stored list and visuals are untouched |
| `Panel.RemoteTabsPanel.SetupNoAccountOverlay` | Client/Frontend/Home/RemoteTabsPanel.swift:76-160 | afterwards the overlay is up and scrolling is off; when an overlay was already up nothing changes |
| `Panel.RemoteTabsPanel.RemoveNoAccountOverlay` | Client/Frontend/Home/RemoteTabsPanel.swift:162-167 | afterwards no overlay is up and scrolling is on; when none was up nothing changes |
| `Panel.RemoteTabsPanel.BeginRefresh` | Client/Frontend/Home/RemoteTabsPanel.swift:178-181 | the control spins, one begin request is appended and one more fetch is outstanding; nothing else changes |
| `Panel.RemoteTabsPanel.CompleteRefresh` | Client/Frontend/Home/RemoteTabsPanel.swift:181-208 | on success the store becomes the filtered fetch, with the background shown and separators hidden exactly when it is empty; on failure the store and the visuals are unchanged; in both cases exactly one end request is appended, the control stops and the outstanding fetch it completes is discharged; it demands a fetch outstanding, since a completion only runs after a refresh started it |
| `Panel.RemoteTabsPanel.Refresh` | Client/Frontend/Home/RemoteTabsPanel.swift:178-209 | a refresh that completes before the next one starts makes exactly one begin request followed by exactly one end request, on success and on failure, and leaves the overlay and scrolling alone |
| `Panel.RemoteTabsPanel.DidSelectRow` | Client/Frontend/Home/RemoteTabsPanel.swift:275-283 | a selection is emitted exactly when a list is stored, with the URL of the tab at (section, item) and visit type Typed |

## Left out

- Logging. The informational message on success, the error message on failure and the
  debug messages of the count lookups are not modelled.
- Localized strings and the relative "Last synced" time. `approximateLastSyncTime` and the
  relative-date formatting are calls whose code is not part of this model.
- `RemoteTabs.HeaderForSection`: does not carry the header's "Last synced" detail line,
  for the reason above.
- The overlay's construction: its views, labels, buttons, images and layout constraints.
  The overlay is one flag.
- The sign-in and create-account buttons. They only forward a parameterless event to the
  delegate.
- Cell and header rendering: reuse identifiers, heights, colours, accessibility-label
  merging and cell text. None of these makes a decision.
- The deferred-result mechanism and the profile's backend fetch. Only the outcome handed to
  the completion block is modelled.
- `Panel.RemoteTabsPanel.DidSelectRow`: the weak home-panel delegate is taken as attached.
  When it is nil, the code emits nothing, and the model does not capture that.
- Row deselection and table reloads, which are UIKit calls.
- Utils/AppConstants.swift holds only constants and a build-channel flag. It is not part of
  this model.
- Negative section or item indexes are excluded by the `nat` parameter types. When a list is
  stored they would trap in the code. When nothing is stored, the code returns 0 rows, no tab
  and no header for any index, negative ones included; the model gives that answer only for
  indexes of 0 and above.
- Out-of-range indexes into a stored list make Swift's array subscript trap. `NumberOfRows`,
  `TabAt`, `HeaderForSection` and `DidSelectRow` therefore require an in-range section (and
  item) whenever a list is stored. The trap itself is not modelled. The table view only asks
  about index paths within the counts it was given.
- `VisitType` has only the `Typed` case here. The other visit kinds of the storage layer are
  not part of this model.
