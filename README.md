# PI Vision custom navbar, modelled in Dafny

This project models the core of a userscript that mounts a custom navigation bar on
PI Vision displays. There are four parts:

- **The menu renderer** (`menu.dfy`, module `Menu`). It covers the static navigation
  tree `menuData` and the settings table `utilityMenuItems`. It also covers the
  template functions that turn them into markup: `renderMenuItems`,
  `generateDropdownHTML`, `generateUtilityDropdown` and `generateCustomMenuHTML`. The
  templates are reproduced piece by piece, with their exact white space.
- **The user-interface logic** (`theme.dfy` and `ui.dfy`):
  - Module `Theme` holds the pure parts: `isColorDark` with the parts of JavaScript's
    `replace`, `substr` and `parseInt` it relies on, the text colour it selects, and
    the style text `applyPIBackgroundColor` writes.
  - Module `Ui` holds the page as a record (`PageState`) and as a class (`Page`).
    - The record covers the class sets of the body, the header and each dropdown
      container, each anchor's icon classes and label, the ids present, the style
      text, the location hash and the registered listeners.
    - Each handler is a function on the record: the icon and label swap, the
      full-screen and hide-navbar toggles, the utility-click dispatcher with its close
      rule, the navigation click, hover, and the guarded injections.
    - Each `Page` method updates the fields in place and is proved to end in the state
      that function gives.
- **The mount gate and `initializeMenu`** (`gate.dfy` and `main.dfy`):
  - Module `Gate` holds `DEV_MODE`, the `ALLOWED_VIEW_HASHES` prefix test and a proof
    that every view the menu links to passes it.
  - Module `Mount` holds the guarded sequence `initializeMenu` runs: the guard, Font
    Awesome, the markup, the three sets of listeners, then the saved theme. It is a
    function on the page and a method over `Ui.Page`. Beside it is the mount state
    machine `Unchecked | Ineligible | Mounted`.
- **The preference store** (`storage.dfy`, module `Storage`). The class `PivStorage`
  holds the `localStorage` table as a `map` from key to stored JSON text. Its methods
  are `set`, `get`, `remove`, `clear`, `has`, `saveTheme`, `getTheme` and
  `clearTheme`. An exception from the storage is a `fails` flag of the call it
  interrupts.

`common.dfy` (module `Common`) holds what the others share:

- `Option`;
- the `Completed | TypeError` outcome of a handler;
- the JSON values the store holds (`null`, booleans, strings);
- string predicates and the concatenation lemmas the templates need.

## Model

| member | source | states |
|---|---|---|
| Menu.RenderItemsAppend | menu.js:356-400 | rendering `a + b` is rendering `a` followed by rendering `b` (`map` then `join("")`) |
| Menu.RenderItem | menu.js:358-398 | the template of one item, chosen by `url`, then `children.length`. Its contract is carried by `Menu.RenderExternal`, `Menu.RenderSubmenu`, `Menu.RenderNavigation` and `Menu.EmptyChildrenFallsThrough` |
| Menu.RenderItems | menu.js:356-400 | `items.map(...).join("")`. Its contract is carried by `Menu.RenderItemsAppend` and `Menu.NavHashesRendered` |
| Menu.RenderExternal | menu.js:360-369 | an item whose `url` is set takes the external branch and opens with `href="url"`. Its markup carries `target="_blank"` and its label. It contributes no `data-hash` to the navigation hashes |
| Menu.RenderNavigation | menu.js:388-397 | an item with no url and no children opens with the navigation tag. `item.hash` is both its `href` and its `data-hash`. Its markup carries the label |
| Menu.RenderSubmenu | menu.js:371-386 | an item with no url and a non-empty `children` list renders the submenu template. Its children, rendered recursively, sit inside its single `piv-nested-submenu` container |
| Menu.EmptyChildrenFallsThrough | menu.js:372 | an empty `children` array fails the `children.length` test. Such an item renders exactly as if it had no children: as a navigation link |
| Menu.NavHashesRendered | menu.js:356-400 | every navigation target of a list of items, nested ones included, appears in the markup as `data-hash="..."` (one direction only: see "Left out") |
| Menu.ItemNavHashRendered | menu.js:358-397 | the same for one item, through the three branches |
| Menu.SanitizeId | menu.js:409 | the id has the title's length; each character stays if it is in `[A-Za-z0-9]` and becomes `_` otherwise |
| Menu.SanitizeIdProperties | menu.js:409 | the id holds only `[A-Za-z0-9_]` and keeps every alphanumeric in place. Sanitising twice is sanitising once |
| Menu.SanitizeAccentedTitle | menu.js:409 | "Station Tête" becomes "Station_T_te": the accented letter is not in the class |
| Menu.SanitizePunctuatedTitle | menu.js:409 | "PMS & S.V" becomes "PMS___S_V" |
| Menu.SanitizeTo | menu.js:409 | an id that agrees with the rule at every position is the sanitised title |
| Menu.DropdownHtml | menu.js:408-425 | the block of one group. Its contract is carried by `Menu.DropdownDivider` and `Menu.DropdownShape` |
| Menu.DropdownDivider | menu.js:423 | the group block ends with the divider iff `index < length - 1` |
| Menu.DropdownShape | menu.js:411-424 | the group block ends with its divider piece and a closing line; the piece before the divider ends in a space |
| Menu.DividersBetweenGroups | menu.js:423-528 | `n` groups yield exactly `n - 1` dividers, and none for no group |
| Menu.DividedGroupsFrom | menu.js:423-528 | the groups from position `from` on yield `n - 1 - from` dividers |
| Menu.UtilityItemHtml | menu.js:458-500 | the markup of one settings entry. Its contract is carried by `Menu.AnchorsRendered` and `Menu.NestedEntryRendered` |
| Menu.UtilityDropdownHtml | menu.js:455-513 | the settings dropdown around the joined entries. Its contract is carried by `Menu.EntryRendered` and `Menu.AnchorsRendered` |
| Menu.AnchorsOf | menu.js:459-499 | an item with a `submenu` gives one `piv-has-nested` anchor plus one anchor per submenu entry. Each entry anchor carries the entry's `data-action` and `data-mode`. An item without a submenu gives a single anchor with `data-action` and no mode |
| Menu.EntryAnchors | menu.js:461-470 | one anchor per submenu entry, in order, each with that entry's action and mode |
| Menu.AnchorsRendered | menu.js:459-499 | every anchor listed for an item appears in the item's markup with exactly the class and data attributes listed for it (one direction only: see "Left out") |
| Menu.NestedEntryRendered | menu.js:474-488 | every submenu entry's anchor appears in the markup of the item that holds it |
| Menu.EntryRendered | menu.js:461-471 | every submenu entry's anchor appears in the joined markup of the entries |
| Menu.CustomMenuHasRoot | menu.js:519-522 | the overlay markup holds `id="piv-custom-header"`, the element the mount guard looks up, whatever the logo and the rendered dropdowns |
| Menu.CustomMenuHtml | menu.js:519-535 | `generateCustomMenuHTML()` is the overlay markup around the rendered groups and the settings dropdown. Its contract is carried by `Menu.CustomMenuHasRoot` and `Mount.GeneratedMarkupMarksHeader` |
| Theme.RemoveFirstHash | ui.js:115 | `replace("#", "")` removes exactly the first `#`: the result is the string with the character at the first `#` position cut out. A string without `#` is unchanged; a leading `#` is dropped |
| Theme.Substr | ui.js:116-118 | `substr(start, 2)` gives the two characters at `start` when they exist, the tail from `start` when fewer remain, and nothing past the end |
| Theme.TrimStart | ui.js:116-118 | the leading white space `parseInt` skips: every dropped character is white space, and the rest does not start with white space |
| Theme.HexDigit | ui.js:116-118 | a base-16 digit has a value below 16 |
| Theme.HexRun | ui.js:116-118 | the longest prefix of base-16 digits: all digits, and the next character is not one |
| Theme.ParseTwoHexDigits | ui.js:116-118 | `parseInt` of two base-16 digits is `16 * high + low` |
| Theme.ParseIntHex | ui.js:116-118 | `parseInt(s, 16)`. Its contract is carried by `Theme.ParseTwoHexDigits` and `Theme.ChannelValue` (two digits give `16 * high + low`) and `Theme.ShorthandNeverDark` (no digit gives `NaN`) |
| Theme.ChannelValue | ui.js:116-118 | each two-digit channel of a six-digit colour parses to its value |
| Theme.DarkIffLuminance | ui.js:114-123 | a six-digit colour is dark iff `299r + 587g + 114b < 140000`, with or without its leading `#` |
| Theme.GreyDarkIffBelow140 | ui.js:114-123 | a grey `#vvvvvv` is dark iff `vv < 140` |
| Theme.BlackIsDarkWhiteIsNot | ui.js:114-123 | `#000000` is dark, `#ffffff` is not |
| Theme.GreyThreshold | ui.js:121-122 | `#8b8b8b` (luminance 139) is dark; `#8c8c8c` (luminance exactly 140) is not |
| Theme.ShorthandNeverDark | ui.js:114-123 | a three-digit colour leaves the blue channel `NaN`, so it is never dark |
| Theme.TextColor | ui.js:196-197 | the text colour is `#ffffffcc` iff the background is dark, and `#000000cc` otherwise. For `#` plus six hex digits, it is `#ffffffcc` iff `299r + 587g + 114b < 140000` over the three two-digit channels |
| Theme.StyleCarriesColors | ui.js:199-217 | the style text carries the background colour and the chosen text colour verbatim |
| Theme.HashStripped | ui.js:115 | a string of hex digits, with or without one leading `#`, loses exactly that `#` |
| Theme.ChannelsFromValues | ui.js:116-121 | three parsed channels give the luminance `299r + 587g + 114b` |
| Theme.ChannelsOfDigits | ui.js:115-121 | the luminance of six hex digits is `299r + 587g + 114b` over their three two-digit channels |
| Theme.IsColorDark | ui.js:114-123 | `isColorDark(hex)`. Its contract is carried by `Theme.DarkIffLuminance`, `Theme.GreyDarkIffBelow140`, `Theme.GreyThreshold`, `Theme.BlackIsDarkWhiteIsNot` and `Theme.ShorthandNeverDark` |
| Theme.StyleText | ui.js:199-217 | the style text for a colour. Its contract is carried by `Theme.StyleCarriesColors` and `Theme.TextColor` |
| Ui.Toggle | ui.js:80 | `classList.toggle`: the class is present afterwards iff it was absent; other classes are unchanged |
| Ui.ToggleTwice | ui.js:80 | toggling twice restores the class set |
| Ui.SwapControl | ui.js:15-24 | without both icon and label the anchor is unchanged. Otherwise the label takes the text of `stateOn` iff `condition`, `iconFrom` is removed and `iconTo` added |
| Ui.Page.UpdateIconAndLabel | ui.js:15-24 | the anchor becomes `SwapControl` of itself; nothing else changes |
| Ui.FullScreenOf | ui.js:58-92 | without the hide-all anchor, or for `custom-select`, nothing changes. Otherwise the full-screen class flips on the body. A missing icon or label throws after the flip. No other anchor changes |
| Ui.Page.ToggleFullScreenMode | ui.js:58-92 | the page ends in the state, and with the outcome, `FullScreenOf` gives |
| Ui.FullScreenTwice | ui.js:58-92 | two toggles restore the body classes. When the anchor showed the current mode, they restore the whole page |
| Ui.FullScreenLabel | ui.js:80-90 | after a toggle the label reads "Afficher Tout" iff the full-screen class is now set, else "Masquer Tout" |
| Ui.FullScreenNoOp | ui.js:60-67 | `custom-select` or a missing hide-all anchor leaves the page unchanged |
| Ui.HideNavbarOf | ui.js:320-328 | `piv-minimized` flips on the header and no other header class changes. An anchor with icon and label then shows the new state: the "show" icon and label when minimised, the "hide" ones otherwise. Without both it is unchanged. No other anchor and nothing else on the page changes |
| Ui.HideNavbarLabel | ui.js:320-328 | afterwards the label reads "Montrer la Barre" iff the header is minimised, else "Masquer la Barre" |
| Ui.CloseOf | ui.js:374 | `closest(container)?.classList.remove("active")`: the enclosing container loses `active` and no other class. Every other container, and the rest of the page, is unchanged; without a container nothing happens |
| Ui.Page.CloseDropdown | ui.js:374 | the page ends in `CloseOf` of the old state |
| Ui.HandlerOf | ui.js:319-370 | `UTILITY_ACTIONS[action]?.(...)`: an action without a handler changes nothing |
| Ui.UnknownActionOnlyCloses | ui.js:370-375 | a click on an anchor with an unknown action only closes its dropdown |
| Ui.CloseRule | ui.js:344-375 | after a completed click, the dropdown has lost `active` unless the action is `set-fullscreen-mode` with mode `custom-select`, or `refresh-page` |
| Ui.Page.UtilityClick | ui.js:361-376 | the page ends in the state, and with the outcome, `UtilityClickOf` gives |
| Ui.UtilityClickOf | ui.js:361-376 | the utility click listener. Its contract is carried by `Ui.CloseRule`, `Ui.UnknownActionOnlyCloses` and `Ui.HandlerOf` |
| Ui.HashAfterAssign | ui.js:308 | the hash after assigning `h` starts with `#` or is empty. A `#`-prefixed `h` of two or more characters is kept, and a bare `h` gains `#` |
| Ui.NavigationRule | ui.js:300-312 | without `data-hash`, or with an empty one, nothing changes and the default is not prevented. With any non-empty one (`"undefined"`, `"abc"` and `"#"` included), the hash is assigned as `location.hash` stores it, the default is prevented and the enclosing dropdown closes. A `#`-prefixed hash of two or more characters is stored as written |
| Ui.Page.NavigationClick | ui.js:300-313 | the page, and whether the default was prevented, are as `NavigationClickOf` gives |
| Ui.NavigationClickOf | ui.js:300-313 | the menu bar click listener. Its contract is carried by `Ui.NavigationRule` and `Ui.HashAfterAssign` |
| Ui.EnterOf | ui.js:283-285 | the container has `active` afterwards and no other class changes; every other container and the rest of the page are unchanged |
| Ui.LeaveOf | ui.js:286-288 | the container lacks `active` afterwards and no other class changes; every other container and the rest of the page are unchanged |
| Ui.HoverRoundTrip | ui.js:282-289 | leaving undoes entering iff the container was not active before |
| Ui.Page.MouseEnter | ui.js:283-285 | the page ends in `EnterOf` of the old state |
| Ui.Page.MouseLeave | ui.js:286-288 | the page ends in `LeaveOf` of the old state |
| Ui.LoadFontAwesomeOf | ui.js:97-107 | the link id is present afterwards. Nothing is added when it was already there, and nothing else changes |
| Ui.Page.LoadFontAwesome | ui.js:97-107 | the page ends in `LoadFontAwesomeOf` of the old state |
| Ui.InjectPopupOf | ui.js:128-178 | the popup id exists afterwards and no other id changes. With the id already present nothing changes; otherwise the new popup carries only its base class. Only the ids and the popup change |
| Ui.Page.InjectColorPickerPopup | ui.js:128-178 | the page ends in `InjectPopupOf` of the old state |
| Ui.OpenPickerOf | ui.js:330-333 | the popup exists and is shown (`active`), and no other id changes. An existing popup keeps its other classes; a new one has its base class and `active`. Only the ids and the popup change |
| Ui.InjectionsIdempotent | ui.js:97-178 | a second `loadFontAwesome`, `injectColorPickerPopup` or picker opening adds nothing |
| Ui.Page.ClosePopup | ui.js:335-336 | the popup loses `active`; nothing else changes |
| Ui.ApplyBackgroundOf | ui.js:184-217 | a style element exists afterwards. A string colour sets its whole text to the style text for that colour. Any other value throws `TypeError` after the element was created. Nothing else changes |
| Ui.ApplyLastWins | ui.js:184-217 | applying `a` then `b` is applying `b` |
| Ui.Page.ApplyPIBackgroundColor | ui.js:184-218 | the page and the outcome are as `ApplyBackgroundOf` gives |
| Ui.InsertMenuOf | main.user.js:137-138 | after the insertion the header exists iff it existed before or the markup carries `id="piv-custom-header"`, and no other id changes. The markup is first in the header pane, the header carries only `piv-custom-header-bar`, and the containers, anchors and hide-all anchor are the fragment's. The body, popup, style, hash, reload count and listeners are unchanged |
| Ui.Page.InsertMenu | main.user.js:138 | the page ends in `InsertMenuOf` of the old state |
| Ui.Page.AttachDropdownHoverListeners | ui.js:278-290 | a `mouseenter` and a `mouseleave` listener are appended for every container, in order |
| Ui.HoverListenersCover | ui.js:282-289 | the hover listeners are two per container, one enter and one leave for each container and for no other |
| Ui.Page.AttachNavigationListeners | ui.js:296-314 | one click listener goes on the menu bar; nothing is added without one |
| Ui.Page.AttachUtilityListeners | ui.js:357-378 | a click listener is appended for every utility anchor, in order |
| Ui.UtilityListenersCover | ui.js:360-361 | an anchor gets a click listener iff it is a utility anchor |
| Gate.ListedIsAllowed | main.user.js:49-114 | every allow-list entry admits its own view |
| Gate.IsAllowed | main.user.js:112-114 | the prefix test against `ALLOWED_VIEW_HASHES`. Its contract is carried by `Gate.ListedIsAllowed`, `Gate.ExtensionIsAllowed` and `Gate.MenuViewsAllowed` |
| Gate.ShouldMount | main.user.js:116-119 | the view is allowed or `DEV_MODE` holds. Its contract is carried by `Mount.MountIffEligible` and `Mount.RunAllMounts` |
| Gate.DevMode | main.user.js:33-36 | `DEV_MODE` from the host name and protocol. Its contract is carried by `Mount.DevModeMountsAnywhere` |
| Gate.ExtensionIsAllowed | main.user.js:112-114 | a hash that extends an allowed one is allowed, since the test is a prefix test |
| Gate.MenuViewsAllowed | main.user.js:49-100 | every navigation target of the menu (the `data-hash` of each navigation link), nested entries included, passes the allow-list |
| Gate.CommunAllowed | main.user.js:50-59 | the views of the "Commun" group pass the allow-list |
| Gate.StationTeteAllowed | main.user.js:61-72 | the views of the "Station Tête" group pass the allow-list |
| Gate.StationDaouiAllowed | main.user.js:74-80 | the views of the "Station Daoui" group pass the allow-list |
| Gate.StationMeaAllowed | main.user.js:82-84 | the views of the "Station MEA" group pass the allow-list |
| Gate.StationBeniAmirAllowed | main.user.js:86-92 | the views of the "Station Beni Amir" group pass the allow-list |
| Gate.PmsSvAllowed | main.user.js:94-96 | the views of the "PMS & S.V" group pass the allow-list |
| Gate.StationTerminalAllowed | main.user.js:98-99 | the views of the "Station Terminal" group pass the allow-list |
| Gate.NavHashesAllowed | main.user.js:112-114 | a list of items passes the allow-list when each of its items does |
| Mount.MountedIsNoOp | main.user.js:106-109 | when `#piv-custom-header` exists, `initializeMenu` changes nothing |
| Mount.InitializeOf | main.user.js:105-160 | one run of `initializeMenu` with the corrected restore. Its contract is carried by `Mount.MountedIsNoOp`, `Mount.MountIffEligible`, `Mount.InitializeOnce`, `Mount.MountOrder`, `Mount.SuspendedMountIsInert` and `Mount.MountRestoresTheme` |
| Mount.InitializeAsWrittenOf | main.user.js:105-160 | one run of `initializeMenu` as written, with its outcome. Its contract is carried by `Mount.FirstVisitAsWritten`, `Mount.AsWrittenDiffersOnlyInStyle` and `Mount.MountedIsNoOp` |
| Mount.GeneratedMarkupMarksHeader | main.user.js:138 | the markup `generateCustomMenuHTML()` inserts carries the header's id, whatever the logo and the rendered dropdowns, so the mount lemmas' condition on the markup holds of it |
| Mount.MountIffEligible | main.user.js:112-119 | from a page without the header, markup that carries the header's id is mounted iff the view is allowed or `DEV_MODE` holds. This agrees with one step of the mount state machine |
| Mount.InitializeOnce | main.user.js:106-176 | once a run with markup carrying the header's id has mounted the menu, any later run, on any hash, changes nothing, whether or not the first run got past its awaited injections |
| Mount.MountOf | main.user.js:125-150 | Font Awesome exists afterwards, the header exists iff it did or the markup carries its id, no other id changes, and the markup is first in the header pane. When the awaited host elements appear, the listeners are the hover pairs of the inserted containers, then the menu bar's click, then the utility anchors' clicks; when one never appears, no listener is added. The body, popup, style, hash and reload count are unchanged |
| Mount.MountOrder | main.user.js:125-150 | the markup is inserted before any listener is attached, so the listeners land on the inserted nodes in that order |
| Mount.SuspendedMountIsInert | main.user.js:141-150 | when one of the awaited host elements never appears, an eligible run inserts the header but attaches no listener and leaves the style alone; the guard then stops every later run |
| Mount.Mount | main.user.js:125-150 | the five mounting calls on the page end in `MountOf` of the old state |
| Mount.RestoreTheme | main.user.js:152-160 | restoring never throws. A saved non-empty colour sets the style text for it; anything else leaves the page unchanged |
| Mount.RestoreSavedTheme | main.user.js:152-160 | reading the theme from the store and restoring it ends in `RestoreTheme` of the old state |
| Mount.MountRestoresTheme | main.user.js:152-160 | after `saveTheme(c)` with a non-empty `c`, mounting sets the style text for `c`. With no colour saved, mounting leaves the style as it was |
| Mount.AsWrittenRestoreThrows | main.user.js:152-155 | as written, mounting with nothing saved passes `null` to `applyPIBackgroundColor`. That call leaves an empty style element and throws `TypeError` |
| Mount.RestoreAsWritten | main.user.js:152-155 | the restore step as written. Its contract is carried by `Mount.AsWrittenRestoreThrows` and `Mount.FirstVisitAsWritten` |
| Mount.FirstVisitAsWritten | main.user.js:152-155 | as written, a first eligible visit with nothing saved mounts the menu, leaves an empty style element and ends in `TypeError`; the corrected run leaves the page without a style element |
| Mount.AsWrittenDiffersOnlyInStyle | main.user.js:152-160 | the run as written and the corrected run end on the same page except for the style element, and agree entirely, outcome included, once a non-empty colour was read |
| Mount.InitializeMenu | main.user.js:105-166 | the page ends in `InitializeOf` of the old state, the store's table and whether the awaited hosts appear |
| Mount.MountedStays | main.user.js:106-176 | once mounted, the menu stays mounted through any series of `hashchange` runs |
| Mount.RunAllMounts | main.user.js:106-176 | after the load run and any `hashchange` runs, the menu is mounted iff it started mounted or one of the hashes was eligible |
| Mount.Run | main.user.js:106-119 | one run of the mount state machine. Its contract is carried by `Mount.MountIffEligible` and `Mount.MountedStays` |
| Mount.RunAll | main.user.js:168-176 | the load run and the `hashchange` runs, in order. Its contract is carried by `Mount.RunAllMounts`, `Mount.MountedStays` and `Mount.DevModeMountsAnywhere` |
| Mount.DevModeMountsAnywhere | main.user.js:33-36 | with `DEV_MODE` on (a `localhost` or `127.0.0.1` host, or a `file:` page), the first run mounts the menu whatever the view |
| Storage.Encode | storage.js:23 | the JSON text of a value is never empty, so `get` never mistakes it for an absent key |
| Storage.UnescapeEscape | storage.js:23-40 | reading back the escaped body of a string gives the string |
| Storage.DecodeEncode | storage.js:23-40 | `JSON.parse(JSON.stringify(v))` is `v` |
| Storage.EncodeInjective | storage.js:23 | distinct values are stored as distinct texts |
| Storage.Decode | storage.js:40 | `JSON.parse` of a stored text. Its contract is carried by `Storage.DecodeEncode` |
| Storage.ReadFrom | storage.js:37-45 | `get` on a table that does not throw. Its contract is carried by `Storage.ReadAfterWrite`, `Storage.ReadAbsent` and `Storage.PivStorage.Get` |
| Storage.PivStorage.Set | storage.js:21-29 | stores the value's JSON text under the key and answers true. On a storage exception it answers false and leaves the table unchanged |
| Storage.PivStorage.Get | storage.js:37-45 | gives the default on an exception or an absent key. Otherwise it gives the value `ReadFrom` reads |
| Storage.ReadAfterWrite | storage.js:21-45 | `set(k, v)` then `get(k, d)` gives `v`, whatever `d`; other keys read as before |
| Storage.ReadAbsent | storage.js:37-59 | `get(k, d)` on an absent key, or after `remove(k)`, gives `d` |
| Storage.PivStorage.Remove | storage.js:51-59 | removes the key and answers true. On an exception it answers false and leaves the table unchanged |
| Storage.PivStorage.Clear | storage.js:64-74 | removes the script's keys in order. It answers true when none throws. Otherwise it answers false, with the keys before the failing one already removed |
| Storage.ClearExactlyOwnKeys | storage.js:10-74 | a completed `clear` removes exactly the three keys and leaves every other entry as it was |
| Storage.PivStorage.SaveTheme | storage.js:86-89 | two independent writes: the colour, then the type, which defaults to "preset". Either may fail alone |
| Storage.PivStorage.GetTheme | storage.js:91-96 | always a record; its colour and type are read with defaults `null` and "preset" |
| Storage.ThemeRead | storage.js:91-96 | each field is read on its own: a failing colour read gives `null` and a failing type read gives "preset", while a field whose read succeeds is the one `ThemeFrom` reads from the table. Without failures the record is `ThemeFrom` of the table |
| Storage.ThemeRoundTrip | storage.js:86-96 | `saveTheme(c, t)` then `getTheme()` gives `{color: c, type: t}`, with "preset" for an omitted `t` |
| Storage.EmptyTheme | storage.js:91-96 | with nothing saved, `getTheme()` gives `{color: null, type: "preset"}` |
| Storage.PivStorage.ClearTheme | storage.js:98-101 | removes the colour key and the type key, each unless its removal throws |
| Storage.ClearThemeResets | storage.js:98-101 | after `clearTheme()` the theme reads as the defaults again, and the full-screen key is kept |
| Storage.PivStorage.Has | storage.js:81-83 | `has(key)` is `getItem(key) !== null`: the key is in the table |
| Storage.PivStorage.constructor | storage.js:8-14 | the store starts on the given table |

## Findings

| source | as written | input that shows it | evidently intended | confidence | as-written member | corrected member |
|---|---|---|---|---|---|---|
| main.user.js:152-155 | `if (savedTheme)` tests the object `getTheme()` returns, which always exists, so the branch always runs | a first visit with nothing saved: `getTheme()` gives `{color: null, type: "preset"}`. `applyPIBackgroundColor(null)` then creates an empty style element, and `isColorDark(null)` throws `TypeError` at `hex.replace` | apply the saved colour only when one was saved | high (not executed) | Mount.FirstVisitAsWritten | Mount.RestoreTheme |

`Mount.RestoreAsWritten` and `Mount.InitializeAsWrittenOf` are the restore step and the
run as written; `Mount.AsWrittenRestoreThrows` and `Mount.FirstVisitAsWritten` exhibit
the `TypeError`. `Mount.RestoreTheme` is the corrected step, and `Mount.InitializeOf`,
`Mount.InitializeMenu` and `Mount.RestoreSavedTheme` use it. `Mount.MountRestoresTheme`
proves the intended behaviour for it, and `Mount.AsWrittenDiffersOnlyInStyle` shows the
two runs differ only in the style element and the outcome.

## Left out

- `waitForElement` (ui.js:31-51). It is built on `MutationObserver` and promises and
  promises only that it eventually resolves. The model takes the header pane
  (`TARGET_CONTAINER_SELECTOR`) as present when a run gets past its guard.
- The asynchronous injections `injectSecondaryLogo`, `injectSidebarLogo` and
  `injectLiveDate` (ui.js:223-273). `initializeMenu` awaits all three before it attaches
  any listener or restores the theme, and each first waits for its host element. The
  model keeps only whether all three hosts appear (`hostsFound`); the logos and the
  live date they add to the page, and the `setInterval` that refreshes the date, are
  not tracked.
- Mount.MountOf: when a host never appears, the run is a suspended promise. The model
  ends it there, with the markup inserted and no listener attached; the promise that
  never settles is not modelled.
- Mount.InitializeMenu: follows the corrected restore step of "## Findings", not the
  restore as written. The run as written is `Mount.InitializeAsWrittenOf`, and
  `Mount.FirstVisitAsWritten` states where the two differ.
- Mount.RestoreSavedTheme: follows the corrected restore step of "## Findings". The step
  as written is `Mount.RestoreAsWritten`.
- Mount.InitializeMenu: the markup it inserts is a parameter (`html`), standing for
  `generateCustomMenuHTML()`, which `Menu.CustomMenuHtml` models. The mount lemmas
  require that the markup carry the header's id, which `Mount.GeneratedMarkupMarksHeader`
  proves of `Menu.CustomMenuHtmlOf` for any logo and any rendered groups. The logo
  markup is itself the `logoSVG` global, which is not part of this model.
- Ui.InsertMenuOf: whether the inserted markup creates `#piv-custom-header` is decided
  by `Ui.MarksHeader`, a substring test for `id="piv-custom-header"`. The HTML parser
  that turns markup into elements is not modelled.
- Gate.MenuViewsAllowed: proved for the navigation targets of the menu (the `data-hash`
  of each navigation link). That the rendered markup carries no other `data-hash` is
  not proved.
- Menu.AnchorsRendered: proved in one direction: every anchor listed for an item
  appears in its markup. That the markup holds no other `piv-utility-item` anchor is
  not proved; the templates interpolate the item's text and icon verbatim, so an
  arbitrary item could carry the marker in them.
- `formatFrenchDateTime`. It depends on `Intl`.
- The mount race. Two `hashchange` runs that both wait at main.user.js:137 before the
  header exists can both pass the guard. This is an event-loop interleaving, and every
  model run is atomic.
- Userscript and browser plumbing, and HTML parsing:
  - `GM_addStyle`, `GM_getResourceText` and the `window` globals;
  - `alert`, `location.reload` (`refresh-page` only counts a reload) and `console`;
  - the CDN link, the CSS, and the literal SVG and popup markup.
  - Turning markup into nodes is a parameter of the insertion (`Ui.Fragment`).
- Event dispatch. Listeners are recorded in registration order, and each handler is
  modelled as its own method. Duplicate registrations are not merged, because the
  guard prevents a second mount.
- Theme.DarkIffLuminance: compares exact thousandths (`299r + 587g + 114b < 140000`).
  The source compares a floating-point sum with 140, which may round differently at
  exactly 140.
- Theme.IsJsWhitespace: lists the white space of sections 7.2 and 7.3 of ECMA-262 by
  code point. Characters outside the Basic Multilingual Plane are one `char` each.
- Menu.SanitizeId: a character outside the Basic Multilingual Plane is one `char` and
  becomes one `_`. The source's regular expression, without the `u` flag, sees its two
  UTF-16 code units and writes two.
- Storage.Encode: escapes only `"` and `\`, as `JSON.stringify` does for the colours
  and types the script saves. The escapes of control characters are not modelled.
  Numbers, arrays and objects are not among the stored values, and a stored text
  that is none of `null`, `true`, `false` or a string literal reads as unparsable.
- Storage.PivStorage.Has: an exception from `getItem` inside `has` (storage.js:82) is
  not caught there and would propagate. The model's `has` does not fail.
- Ui.HandlerOf: an action named like an `Object.prototype` member (`toString`, say)
  finds an inherited function in `UTILITY_ACTIONS` and calls it. The model treats
  every name outside the four handlers as having none.
- Ui.HashAfterAssign: does not model percent-encoding of the assigned fragment.
- Ui.Toggle: class lists are sets of whole class names. Splitting a `className`
  string into tokens is not modelled.
- The colour picker's preset buttons and colour input (ui.js:337-341) call
  `applyPIBackgroundColor`, which is modelled. Building their handlers is not.
- The store holds each value's JSON text, as `localStorage` does, rather than an
  abstract value. Encoding and decoding are the concrete functions above, proved
  inverse.
