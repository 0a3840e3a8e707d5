# TodoList task-list edits and preference store, modelled in Dafny

This project models the two stateful parts of a SwiftUI to-do list app.

* **The task list screen** (`Views/ListView.swift`). Its context-menu actions
  edit the view model's `items` array in place. *Duplicate* inserts a copy of
  a task in front of the first task with the same id. *Delete* removes that
  task. Both then call `saveItems`. The screen also computes whether the list
  is empty, whether any task is checked off, and a navigation title that
  shows the count.
* **The preference store** (`Settings/SettingsStore.swift`). It holds seven
  typed settings in `UserDefaults`, one key per setting. At creation it
  registers a fallback for each key. Boolean getters read the stored
  Boolean. The two theme getters parse the stored string by raw value and
  fall back to `.system` and `.purple`.
* **The theme enumerations** `ThemeBackground` and `ThemeAccent`. These are
  string raw-value enums, declared identically in `Settings/ThemeOptions.swift`
  and `Settings/AppTheme.swift`.

Modules, one per file:

| file | module | models |
|---|---|---|
| optional.dfy | `Optional` | Swift's `T?` and `??` |
| theme_options.dfy | `ThemeOptions` | the enums of Settings/ThemeOptions.swift |
| app_theme.dfy | `AppTheme` | the duplicate enums of Settings/AppTheme.swift, proved to agree with `ThemeOptions` |
| defaults.dfy | `Defaults` | `UserDefaults`: a class with a registration map and a persisted map |
| settings.dfy | `Settings` | the `SettingsStore` class: keys, registration, seven getters and setters |
| task_model.dfy | `TaskModel` | `ItemModel`, the array operations the screen uses, and a stand-in for `ListViewModel` |
| list_view.dfy | `TaskListView` | the `ListView` class: title, `isEmpty`, `hasAnyCompleted`, `duplicateTask`, `deleteTask` |

How the collaborators are modelled:

* `ListViewModel` and `ItemModel` are not part of this model's sources.
  * An item is `Item(id, title, isCompleted)`. `Id` is a `nat` that stands
    for a UUID.
  * The view model is a class with an `items` sequence and a ghost log
    `saved` of the snapshots that `SaveItems` has persisted.
* The UUID that a new copy receives is a parameter, `newId`, of
  `DuplicateTask`. Its freshness is a hypothesis of the "ids stay distinct"
  guarantee, not a precondition.
* `UserDefaults` keeps two maps. A lookup returns the persisted value if
  there is one, else the registered value, else nothing.
  * `bool(forKey:)` yields `false` for anything but a stored Boolean.
  * `string(forKey:)` yields nothing for anything but a stored string.
* `SettingsStore` uses the `ThemeOptions` declaration of the enums.

Behaviour notes, as the code has it:

* Initialisation *registers* fallbacks; it does not write them into
  persisted storage. A persisted value therefore always wins.
* The setters are typed, so no invalid value can reach them. There is no
  "invalid value" error path.
* The store's change signal comes from the storage layer's notification.
  The setters do not publish it themselves (this part is left out, below).
* `addItem`, `updateItem`, `deleteItem` and `moveItem` are `ListViewModel`
  methods whose source is not part of this model.

## Model

| member | source | states |
|---|---|---|
| `Optional.Option.GetOr` | Settings/SettingsStore.swift:68 | Swift's `??` (here and at line 79): the wrapped value when there is one, the given default otherwise |
| `ThemeOptions.BackgroundRawValue` | Settings/ThemeOptions.swift:4-8 | `rawValue`: each case's own name, "dark", "system" or "light", and a different name for each case |
| `ThemeOptions.AccentRawValue` | Settings/ThemeOptions.swift:10-13 | `rawValue`: each case's own name, "purple" or "blue", and a different name for each case |
| `ThemeOptions.ParseBackground` | Settings/ThemeOptions.swift:4-8 | `ThemeBackground(rawValue:)`: a result's raw value is the input string; no result exactly when no case has that raw value |
| `ThemeOptions.ParseAccent` | Settings/ThemeOptions.swift:10-13 | `ThemeAccent(rawValue:)`: a result's raw value is the input string; no result exactly when no case has that raw value |
| `ThemeOptions.BackgroundCases` | Settings/ThemeOptions.swift:4-8 | `allCases` has exactly three distinct cases, containing every case, with raw values "dark", "system", "light" in that order |
| `ThemeOptions.AccentCases` | Settings/ThemeOptions.swift:10-13 | `allCases` has exactly two distinct cases, containing every case, with raw values "purple", "blue" in that order |
| `ThemeOptions.BackgroundRoundTrip` | Settings/ThemeOptions.swift:4-8 | parsing a background's raw value gives that background |
| `ThemeOptions.AccentRoundTrip` | Settings/ThemeOptions.swift:10-13 | parsing an accent's raw value gives that accent |
| `ThemeOptions.BackgroundRawValueInjective` | Settings/ThemeOptions.swift:4-8 | backgrounds with equal raw values are equal |
| `ThemeOptions.AccentRawValueInjective` | Settings/ThemeOptions.swift:10-13 | accents with equal raw values are equal |
| `ThemeOptions.ParseBackgroundExact` | Settings/ThemeOptions.swift:4-8 | a string parses as a background if and only if it is exactly "dark", "system" or "light" |
| `ThemeOptions.ParseAccentExact` | Settings/ThemeOptions.swift:10-13 | a string parses as an accent if and only if it is exactly "purple" or "blue" |
| `ThemeOptions.ParseIsCaseSensitive` | Settings/ThemeOptions.swift:4-13 | "Dark", "System", "Default", "", "Purple" and "BLUE" parse to no case |
| `AppTheme.BackgroundRawValue` | Settings/AppTheme.swift:14-18 | `rawValue`: each case's own name, "dark", "system" or "light", and a different name for each case |
| `AppTheme.AccentRawValue` | Settings/AppTheme.swift:20-23 | `rawValue`: each case's own name, "purple" or "blue", and a different name for each case |
| `AppTheme.ParseBackground` | Settings/AppTheme.swift:14-18 | same contract as the ThemeOptions parser, for this declaration |
| `AppTheme.ParseAccent` | Settings/AppTheme.swift:20-23 | same contract as the ThemeOptions parser, for this declaration |
| `AppTheme.BackgroundAsOption` | Settings/AppTheme.swift:14-18 | each case corresponds to the ThemeOptions case with the same raw value |
| `AppTheme.AccentAsOption` | Settings/AppTheme.swift:20-23 | each case corresponds to the ThemeOptions case with the same raw value |
| `AppTheme.BackgroundCases` | Settings/AppTheme.swift:14-18 | exactly `dark`, `system`, `light`, distinct, in that order, with those raw values |
| `AppTheme.AccentCases` | Settings/AppTheme.swift:20-23 | exactly `purple`, `blue`, distinct, in that order, with those raw values |
| `AppTheme.BackgroundCodec` | Settings/AppTheme.swift:14-18 | raw value then parse is the identity; the raw value is injective |
| `AppTheme.AccentCodec` | Settings/AppTheme.swift:20-23 | raw value then parse is the identity; the raw value is injective |
| `AppTheme.ParseExact` | Settings/AppTheme.swift:14-23 | only an exact case name parses, for either enumeration |
| `AppTheme.DeclarationsAgree` | Settings/AppTheme.swift:14-23 | the case correspondence maps `allCases` onto ThemeOptions' `allCases` position by position, and both declarations parse every string alike |
| `Settings.KeysDistinct` | Settings/SettingsStore.swift:6-14 | the seven keys are pairwise different strings, and they are exactly the keys that get fallbacks |
| `Settings.SettingsStore.constructor` | Settings/SettingsStore.swift:21-32 | registers the fallbacks (false, true, true, true, false, "system", "purple") into the registration layer only; persisted values stay and still win; with none of the seven keys persisted, every getter returns its fallback |
| `Settings.NothingPersistedGivesFallbacks` | Settings/SettingsStore.swift:24-32 | on a store whose fallbacks are registered and whose seven keys are not persisted, the getters return false, true, true, true, false, `.system`, `.purple` |
| `Settings.UnpersistedKeyFallsBack` | Settings/SettingsStore.swift:24-32 | on a store whose fallbacks are registered, each getter whose key is not persisted returns its own fallback, whatever the other keys hold |
| `Settings.SettingsStore.IsDebugEnabled` | Settings/SettingsStore.swift:42 | a persisted Boolean under "DebugEnabled" is what it reads, whatever is registered; with the key unset it reads the registered `false` |
| `Settings.SettingsStore.ShouldAlphabetizeList` | Settings/SettingsStore.swift:47 | reads the persisted Boolean under "AlphabetizeList"; with the key unset, the registered `true` |
| `Settings.SettingsStore.ShouldUseHaptics` | Settings/SettingsStore.swift:52 | reads the persisted Boolean under "UseHaptics"; with the key unset, the registered `true` |
| `Settings.SettingsStore.ShouldOpenSettingsOnLeftEdgeSlide` | Settings/SettingsStore.swift:57 | reads the persisted Boolean under "OpenSettingsOnLeftEdgeSlide"; with the key unset, the registered `true` |
| `Settings.SettingsStore.ShouldAutoDeleteTaskOnCheckoff` | Settings/SettingsStore.swift:62 | reads the persisted Boolean under "AutoDeleteTaskOnCheckoff"; with the key unset, the registered `false` |
| `Defaults.UserDefaults.ObjectForKey` | Settings/SettingsStore.swift:42-79 | the lookup behind every getter: a persisted value wins; a registered value fills the gap only when nothing is persisted; otherwise nothing |
| `Defaults.UserDefaults.BoolForKey` | Settings/SettingsStore.swift:42-62 | `bool(forKey:)`: true exactly when the lookup finds the Boolean `true` |
| `Defaults.UserDefaults.StringForKey` | Settings/SettingsStore.swift:67-78 | `string(forKey:)`: a result exactly when the lookup finds a string, and then that string |
| `Defaults.UserDefaults.Register` | Settings/SettingsStore.swift:24-32 | `register(defaults:)`: merges the given fallbacks into the registration layer; the persisted layer is untouched |
| `Defaults.UserDefaults.Set` | Settings/SettingsStore.swift:41-83 | `set(_:forKey:)`: writes exactly one key of the persisted layer; the registration layer is untouched |
| `Settings.SettingsStore.ThemeBg` | Settings/SettingsStore.swift:65-69 | yields the case whose raw value is the stored string; yields `.system` when no string is stored or the string is no raw value; as a function it only reads the store |
| `Settings.SettingsStore.ThemeAccent` | Settings/SettingsStore.swift:76-80 | yields the case whose raw value is the stored string; yields `.purple` when no string is stored or the string is no raw value; as a function it only reads the store |
| `Settings.SettingsStore.SetIsDebugEnabled` | Settings/SettingsStore.swift:40-43 | persists the Boolean under "DebugEnabled"; afterwards the getter returns it and the other six getters return what they did before |
| `Settings.SettingsStore.SetShouldAlphabetizeList` | Settings/SettingsStore.swift:45-48 | persists the Boolean under "AlphabetizeList"; the getter returns it; the other six getters are unchanged |
| `Settings.SettingsStore.SetShouldUseHaptics` | Settings/SettingsStore.swift:50-53 | persists the Boolean under "UseHaptics"; the getter returns it; the other six getters are unchanged |
| `Settings.SettingsStore.SetShouldOpenSettingsOnLeftEdgeSlide` | Settings/SettingsStore.swift:55-58 | persists the Boolean under "OpenSettingsOnLeftEdgeSlide"; the getter returns it; the other six getters are unchanged |
| `Settings.SettingsStore.SetShouldAutoDeleteTaskOnCheckoff` | Settings/SettingsStore.swift:60-63 | persists the Boolean under "AutoDeleteTaskOnCheckoff"; the getter returns it; the other six getters are unchanged |
| `Settings.SettingsStore.SetThemeBg` | Settings/SettingsStore.swift:71-73 | persists the case's raw value under "ThemeBackground"; the getter parses it back to the same case; the other six getters are unchanged |
| `Settings.SettingsStore.SetThemeAccent` | Settings/SettingsStore.swift:82-84 | persists the case's raw value under "ThemeAccent"; the getter parses it back to the same case; the other six getters are unchanged |
| `TaskModel.FirstIndexOf` | Views/ListView.swift:59 | `firstIndex(where:)` on the id: a found index holds the id and no earlier item does; nothing is found exactly when no item has the id |
| `TaskModel.InsertAt` | Views/ListView.swift:60-62 | `insert(_:at:)`: one longer; the new item at the index; the prefix unchanged; the old elements from the index onwards shifted back by one; same multiset plus the new item |
| `TaskModel.RemoveAt` | Views/ListView.swift:72 | `remove(at:)`: one shorter; the prefix unchanged; the elements after the index moved forward by one; the multiset loses exactly the removed item |
| `TaskModel.CopyOf` | Views/ListView.swift:61 | `ItemModel(title:isCompleted:)` on the argument: the new id with the argument's title and completion flag, hence different from the argument when the id is new |
| `TaskModel.Duplicated` | Views/ListView.swift:58-64 | no match: the list is unchanged; otherwise one longer, with the copy (new id, the argument's title and flag) at the first match's index, the prefix unchanged and the rest shifted back by one |
| `TaskModel.Deleted` | Views/ListView.swift:70-74 | the list is unchanged if and only if no item has the id; otherwise exactly the first match is removed and the others keep their order |
| `TaskModel.InsertFreshKeepsIdsDistinct` | Views/ListView.swift:60-62 | inserting an item with a fresh id into a list with distinct ids keeps them distinct |
| `TaskModel.RemoveKeepsIdsDistinct` | Views/ListView.swift:72 | removing an element keeps ids distinct |
| `TaskModel.DuplicateKeepsIdsDistinct` | Views/ListView.swift:59-62 | duplicating with a fresh id keeps ids distinct |
| `TaskModel.DeleteKeepsIdsDistinct` | Views/ListView.swift:71-72 | deleting keeps ids distinct, and afterwards no item has the deleted id |
| `TaskModel.DeleteUndoesDuplicate` | Views/ListView.swift:58-75 | deleting the copy that a duplicate made (fresh id) restores the original list |
| `TaskModel.ListViewModel.SaveItems` | Views/ListView.swift:63 | stand-in for `saveItems`: appends the current items to the log of saved snapshots and changes nothing else |
| `TaskListView.DecimalString` | Views/ListView.swift:11 | the count as interpolated: non-empty, all decimal digits, denotes the count, and starts with '0' only when it is the single digit for zero |
| `TaskListView.NavigationTitle` | Views/ListView.swift:10-11 | the title is "Tasks" for 0; otherwise "Tasks (", then digits without a leading zero that denote the count, then ")" |
| `TaskListView.TitleInjective` | Views/ListView.swift:10-11 | different counts give different titles |
| `TaskListView.ListView.Title` | Views/ListView.swift:10-11 | the title is "Tasks" exactly when the list is empty; otherwise "Tasks (", then the item count in decimal without a leading zero, then ")" |
| `TaskListView.ListView.IsEmpty` | Views/ListView.swift:34-36 | true exactly when there are no items |
| `TaskListView.ListView.HasAnyCompleted` | Views/ListView.swift:41-53 | true if and only if some item is completed, hence false on an empty list; the early-return scan changes nothing |
| `TaskListView.ListView.DuplicateTask` | Views/ListView.swift:58-65 | the items become `Duplicated(old items)`; on a match exactly one snapshot, equal to the new items, is saved after the change; without one nothing is saved; distinct ids stay distinct when the new id is fresh |
| `TaskListView.ListView.DeleteTask` | Views/ListView.swift:70-75 | the items become `Deleted(old items)`; on a match exactly one snapshot, equal to the new items, is saved after the change; without one nothing is saved; distinct ids stay distinct and the id is gone |

## Left out

- Change notification of SettingsStore (Settings/SettingsStore.swift:16, 19, 34-37): the NotificationCenter/Combine subscription forwarding `UserDefaults.didChangeNotification` to `objectWillChange` is framework plumbing with no state of its own.
- `ListViewModel` and `ItemModel` are not part of this model: `addItem`, `updateItem`, `deleteItem(IndexSet)`, `moveItem`, the encoding inside `saveItems` and the loading at launch are not modelled. `saveItems` is an abstract persist event, recorded in a ghost log.
- UUID generation: the copy's id is the parameter `newId`. That it is fresh is assumed by the ids-distinct guarantee of `DuplicateTask`, not proved.
- TaskListView.ListView.DuplicateTask: does not promise distinct ids when the supplied `newId` is not fresh, because freshness comes from UUID generation, which is outside the model.
- Foundation's type coercions: `bool(forKey:)` on a stored string and `string(forKey:)` on a stored number are modelled as `false` and nothing. For the theme getters the outcome would be the same, since "0" and "1" are not raw values.
- Cross-process synchronisation of `UserDefaults` and its on-disk format.
- The `Color(named:)` initialiser in Settings/AppTheme.swift: an asset lookup in UIKit.
- The SwiftUI bodies, animations, timers, haptics, clipboard and navigation of ListView, along with the other views, the haptics helpers and the app entry point: presentation.
- Swift's 64-bit `Int`: a list count cannot come near its bound, so counts are unbounded `nat`.
