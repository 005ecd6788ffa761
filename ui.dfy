/** The page-changing half of ui.js: the icon and label swap, the full-screen and
    hide-navbar toggles, the utility click dispatcher with its close rule, the
    navigation click, hover, the guarded injections and the background colour.
    `PageState` is the part of the document these handlers read and write, and each
    handler is a function on it; `Page` holds the same state in fields and runs the
    handlers step by step, each method proved to end in the state its function gives. */
module Ui {
  import opened Common
  import Theme

  const FullscreenClass := "piv-fullscreen-active"
  const MinimizedClass := "piv-minimized"
  const ActiveClass := "active"
  const FontAwesomeId := "piv-fontawesome"
  const PopupId := "piv-bg-color-popup"
  const PopupClass := "piv-theme-popup"
  const CustomSelect := "custom-select"
  const HeaderId := "piv-custom-header"
  const HeaderBarClass := "piv-custom-header-bar"

  // ---------------------------------------------------------------------------
  // The part of the document the handlers touch
  // ---------------------------------------------------------------------------

  /** A menu or utility anchor: whether it carries `piv-utility-item`, its `data-hash`,
      `data-action` and `data-mode`, the index of the `.piv-dropdown-item-container`
      enclosing it, and the class list of its `<i>` and the text of its `<span>`
      (`None` when the anchor has no such child). */
  datatype Element = Element(
    utility: bool,
    hash: Option<string>,
    action: Option<string>,
    mode: Option<string>,
    container: Option<nat>,
    icon: Option<set<string>>,
    labelText: Option<string>)

  /** A registered event listener. */
  datatype Listener = OnMouseEnter(container: nat) | OnMouseLeave(container: nat) | OnMenuBarClick | OnUtilityClick(item: nat)

  /** The document as the handlers see it:
      body, header: the class lists of `document.body` and `#piv-custom-header`;
      containers: the class list of each `.piv-dropdown-item-container`;
      elements: the anchors; hideAll: the anchor `.piv-fullscreen-submenu a[data-mode="hide-all"]` finds;
      ids: the element ids present; popup: the class list of the colour popup;
      style: the text of `#piv-bg-color-style`, `None` while it does not exist;
      hash: `location.hash`; reloads: the calls to `location.reload()`;
      menuBar: whether `.piv-menu-bar` exists; listeners: the registered listeners, in order;
      headerPane: the markup inserted at the start of `.header-pane`, first fragment first. */
  datatype PageState = PageState(
    body: set<string>,
    header: set<string>,
    containers: seq<set<string>>,
    elements: seq<Element>,
    hideAll: Option<nat>,
    ids: set<string>,
    popup: set<string>,
    style: Option<string>,
    hash: string,
    reloads: nat,
    menuBar: bool,
    listeners: seq<Listener>,
    headerPane: seq<string>)

  /** `classList.toggle(name)`: the class is present afterwards exactly when it was not. */
  function Toggle(classes: set<string>, name: string): (r: set<string>)
    ensures name in r <==> name !in classes
    ensures r - {name} == classes - {name}
  {
    if name in classes then classes - {name} else classes + {name}
  }

  // ---------------------------------------------------------------------------
  // updateIconAndLabel (ui.js:15-24)
  // ---------------------------------------------------------------------------

  /** One of the two states of a two-state control: `[text, iconFrom, iconTo]`. */
  datatype Swap = Swap(text: string, iconFrom: string, iconTo: string)

  const HideNavbarOff := Swap("Masquer la Barre", "fa-eye", "fa-eye-slash")
  const HideNavbarOn := Swap("Montrer la Barre", "fa-eye-slash", "fa-eye")
  const FullscreenOff := Swap("Masquer Tout", "fa-eye-slash", "fa-eye")
  const FullscreenOn := Swap("Afficher Tout", "fa-eye", "fa-eye-slash")

  predicate HasIconAndLabel(e: Element)
  {
    e.icon.Some? && e.labelText.Some?
  }

  /** The label takes the chosen state's text, and its `iconFrom` class makes way for
      `iconTo`; an anchor missing its icon or its label is left alone. */
  function SwapControl(e: Element, condition: bool, off: Swap, on: Swap): (r: Element)
    ensures !HasIconAndLabel(e) ==> r == e
    ensures HasIconAndLabel(e) ==>
              var s := if condition then on else off;
              r.labelText == Some(s.text) && r.icon.Some? && s.iconTo in r.icon.value
              && (s.iconFrom != s.iconTo ==> s.iconFrom !in r.icon.value)
              && r.icon.value - {s.iconFrom, s.iconTo} == e.icon.value - {s.iconFrom, s.iconTo}
    ensures r.(icon := e.icon, labelText := e.labelText) == e
  {
    if !HasIconAndLabel(e) then e
    else
      var s := if condition then on else off;
      e.(labelText := Some(s.text), icon := Some(e.icon.value - {s.iconFrom} + {s.iconTo}))
  }

  /** Whether an anchor's icon and label show state `s` of a two-state control. */
  predicate Shows(e: Element, s: Swap, other: Swap)
  {
    HasIconAndLabel(e) && e.labelText == Some(s.text) && s.iconTo in e.icon.value && other.iconTo !in e.icon.value
  }

  // ---------------------------------------------------------------------------
  // toggleFullScreenMode (ui.js:58-92)
  // ---------------------------------------------------------------------------

  /** The hide-all anchor exists and the mode is not the `custom-select` placeholder. */
  predicate FullScreenApplies(p: PageState, mode: Option<string>)
  {
    p.hideAll.Some? && p.hideAll.value < |p.elements| && mode != Some(CustomSelect)
  }

  /** `toggleFullScreenMode(mode)`: flips the full-screen class on the body and shows
      the new state on the hide-all anchor. Its label and icon are used unchecked:
      without a label the call throws after the flip, without an icon after the new
      label is written. */
  function FullScreenOf(p: PageState, mode: Option<string>): (r: (PageState, Outcome))
    ensures !FullScreenApplies(p, mode) ==> r == (p, Completed)
    ensures FullScreenApplies(p, mode) ==> r.0.body == Toggle(p.body, FullscreenClass)
    ensures FullScreenApplies(p, mode) ==> (r.1 == Completed <==> HasIconAndLabel(p.elements[p.hideAll.value]))
    ensures |r.0.elements| == |p.elements|
    ensures forall i :: 0 <= i < |p.elements| && Some(i) != p.hideAll ==> r.0.elements[i] == p.elements[i]
    ensures r.0.(body := p.body, elements := p.elements) == p
  {
    if !FullScreenApplies(p, mode) then (p, Completed)
    else
      var k := p.hideAll.value;
      var e := p.elements[k];
      var body := Toggle(p.body, FullscreenClass);
      var s := if FullscreenClass in body then FullscreenOn else FullscreenOff;
      if e.labelText.None? then (p.(body := body), TypeError)
      else if e.icon.None? then (p.(body := body, elements := p.elements[k := e.(labelText := Some(s.text))]), TypeError)
      else (p.(body := body, elements := p.elements[k := SwapControl(e, FullscreenClass in body, FullscreenOff, FullscreenOn)]), Completed)
  }

  // ---------------------------------------------------------------------------
  // UTILITY_ACTIONS and the click listener of attachUtilityListeners (ui.js:319-376)
  // ---------------------------------------------------------------------------

  /** `item.closest(".piv-dropdown-item-container")?.classList.remove("active")`. */
  function CloseOf(p: PageState, item: nat): (r: PageState)
    requires item < |p.elements|
    ensures |r.containers| == |p.containers|
    ensures var c := p.elements[item].container;
            c.Some? && c.value < |p.containers| ==>
              ActiveClass !in r.containers[c.value]
              && r.containers[c.value] + {ActiveClass} == p.containers[c.value] + {ActiveClass}
    ensures forall i :: 0 <= i < |p.containers| && p.elements[item].container != Some(i) ==>
              r.containers[i] == p.containers[i]
    ensures r.(containers := p.containers) == p
  {
    var c := p.elements[item].container;
    if c.Some? && c.value < |p.containers| then
      p.(containers := p.containers[c.value := p.containers[c.value] - {ActiveClass}])
    else p
  }

  /** The `hide-navbar` handler: flips `piv-minimized` on the header and shows the new
      state on the clicked anchor. */
  function HideNavbarOf(p: PageState, item: nat): (r: PageState)
    requires item < |p.elements|
    ensures |r.elements| == |p.elements|
    ensures MinimizedClass in r.header <==> MinimizedClass !in p.header
    ensures r.header - {MinimizedClass} == p.header - {MinimizedClass}
    ensures HasIconAndLabel(p.elements[item]) ==>
              if MinimizedClass in r.header then Shows(r.elements[item], HideNavbarOn, HideNavbarOff)
              else Shows(r.elements[item], HideNavbarOff, HideNavbarOn)
    ensures !HasIconAndLabel(p.elements[item]) ==> r.elements == p.elements
    ensures forall i :: 0 <= i < |p.elements| && i != item ==> r.elements[i] == p.elements[i]
    ensures r.(header := p.header, elements := p.elements) == p
  {
    var header := Toggle(p.header, MinimizedClass);
    var isMinimized := MinimizedClass in header;
    p.(header := header, elements := p.elements[item := SwapControl(p.elements[item], isMinimized, HideNavbarOff, HideNavbarOn)])
  }

  /** `injectColorPickerPopup()`: adds the popup unless an element with its id exists. */
  function InjectPopupOf(p: PageState): (r: PageState)
    ensures PopupId in r.ids && r.ids - {PopupId} == p.ids - {PopupId}
    ensures PopupId in p.ids ==> r == p
    ensures PopupId !in p.ids ==> r.popup == {PopupClass}
    ensures r.(ids := p.ids, popup := p.popup) == p
  {
    if PopupId in p.ids then p else p.(ids := p.ids + {PopupId}, popup := {PopupClass})
  }

  /** The `open-bg-color-picker` handler: injects the popup if needed and shows it. */
  function OpenPickerOf(p: PageState): (r: PageState)
    ensures PopupId in r.ids && r.ids - {PopupId} == p.ids - {PopupId}
    ensures ActiveClass in r.popup
    ensures PopupId in p.ids ==> r.popup - {ActiveClass} == p.popup - {ActiveClass}
    ensures PopupId !in p.ids ==> r.popup == {PopupClass, ActiveClass}
    ensures r.(ids := p.ids, popup := p.popup) == p
  {
    var q := InjectPopupOf(p);
    q.(popup := q.popup + {ActiveClass})
  }

  /** Whether the click listener closes the enclosing dropdown after running the
      handler: always, except after `refresh-page`, and after `set-fullscreen-mode` in
      the `custom-select` mode. The handler of `set-fullscreen-mode` closes it itself. */
  predicate ClosesDropdown(action: Option<string>, mode: Option<string>)
  {
    action != Some("refresh-page") && (action != Some("set-fullscreen-mode") || mode != Some(CustomSelect))
  }

  /** The actions `UTILITY_ACTIONS` has a handler for. */
  predicate KnownAction(action: Option<string>)
  {
    action == Some("hide-navbar") || action == Some("open-bg-color-picker")
    || action == Some("set-fullscreen-mode") || action == Some("refresh-page")
  }

  /** The handler `UTILITY_ACTIONS[action]` runs for the clicked anchor, if any. */
  function HandlerOf(p: PageState, item: nat): (r: (PageState, Outcome))
    requires item < |p.elements|
    ensures !KnownAction(p.elements[item].action) ==> r == (p, Completed)
  {
    var e := p.elements[item];
    if e.action == Some("hide-navbar") then (HideNavbarOf(p, item), Completed)
    else if e.action == Some("open-bg-color-picker") then (OpenPickerOf(p), Completed)
    else if e.action == Some("set-fullscreen-mode") then
      var (q, outcome) := FullScreenOf(p, e.mode);
      if outcome == TypeError then (q, TypeError)
      else if e.mode != Some(CustomSelect) then (CloseOf(q, item), Completed)
      else (q, Completed)
    else if e.action == Some("refresh-page") then (p.(reloads := p.reloads + 1), Completed)
    else (p, Completed)
  }

  /** The click listener of a utility anchor: runs the handler, then applies the
      close rule of the listener. An exception in the handler ends the listener. */
  function UtilityClickOf(p: PageState, item: nat): (r: (PageState, Outcome))
    requires item < |p.elements|
  {
    var e := p.elements[item];
    var (q, outcome) := HandlerOf(p, item);
    if outcome == TypeError then (q, TypeError)
    else if e.action != Some("set-fullscreen-mode") && e.action != Some("refresh-page") then (CloseOf(q, item), Completed)
    else (q, Completed)
  }

  // ---------------------------------------------------------------------------
  // The click listener of attachNavigationListeners (ui.js:300-313)
  // ---------------------------------------------------------------------------

  /** `location.hash` after `location.hash = h`: one leading `#` is dropped and put
      back, and an empty fragment reads as the empty string. */
  function HashAfterAssign(h: string): (r: string)
    ensures r == "" || (|r| > 0 && r[0] == '#')
    ensures |h| > 0 && h[0] == '#' && |h| > 1 ==> r == h
    ensures |h| > 0 && h[0] != '#' ==> r == "#" + h
  {
    var fragment := if |h| > 0 && h[0] == '#' then h[1..] else h;
    if fragment == "" then "" else "#" + fragment
  }

  /** A click inside the menu bar, on the anchor `closest(".piv-menu-item")` finds
      (`None` when there is none). Answers whether `preventDefault` was called. */
  function NavigationClickOf(p: PageState, item: Option<nat>): (r: (PageState, bool))
    requires item.Some? ==> item.value < |p.elements|
  {
    if item.None? then (p, false)
    else
      var h := p.elements[item.value].hash;
      if h.None? || h.value == "" then (p, false)
      else (CloseOf(p.(hash := HashAfterAssign(h.value)), item.value), true)
  }

  // ---------------------------------------------------------------------------
  // Hover (ui.js:282-289), loadFontAwesome (ui.js:97-107)
  // ---------------------------------------------------------------------------

  /** The `mouseenter` listener: the container gains `active` and nothing else changes. */
  function EnterOf(p: PageState, c: nat): (r: PageState)
    requires c < |p.containers|
    ensures |r.containers| == |p.containers| && ActiveClass in r.containers[c]
    ensures r.containers[c] - {ActiveClass} == p.containers[c] - {ActiveClass}
    ensures forall i :: 0 <= i < |p.containers| && i != c ==> r.containers[i] == p.containers[i]
    ensures r.(containers := p.containers) == p
  {
    p.(containers := p.containers[c := p.containers[c] + {ActiveClass}])
  }

  /** The `mouseleave` listener: the container loses `active` and nothing else changes. */
  function LeaveOf(p: PageState, c: nat): (r: PageState)
    requires c < |p.containers|
    ensures |r.containers| == |p.containers| && ActiveClass !in r.containers[c]
    ensures r.containers[c] + {ActiveClass} == p.containers[c] + {ActiveClass}
    ensures forall i :: 0 <= i < |p.containers| && i != c ==> r.containers[i] == p.containers[i]
    ensures r.(containers := p.containers) == p
  {
    p.(containers := p.containers[c := p.containers[c] - {ActiveClass}])
  }

  /** `loadFontAwesome()`: adds the stylesheet link unless an element with its id exists. */
  function LoadFontAwesomeOf(p: PageState): (r: PageState)
    ensures FontAwesomeId in r.ids
    ensures FontAwesomeId in p.ids ==> r == p
    ensures r.(ids := p.ids) == p && r.ids - {FontAwesomeId} == p.ids - {FontAwesomeId}
  {
    if FontAwesomeId in p.ids then p else p.(ids := p.ids + {FontAwesomeId})
  }

  // ---------------------------------------------------------------------------
  // applyPIBackgroundColor (ui.js:184-218)
  // ---------------------------------------------------------------------------

  /** `applyPIBackgroundColor(color)`: creates the empty style element if it is
      missing, then replaces its whole text. Any value that is not a string has no
      `replace` method, so `isColorDark` throws after the element was created. */
  function ApplyBackgroundOf(p: PageState, color: Value): (r: (PageState, Outcome))
    ensures r.0.style.Some?
    ensures r.1 == Completed <==> color.Str?
    ensures color.Str? ==> r.0.style == Some(Theme.StyleText(color.s))
    ensures !color.Str? ==> r.0.style == if p.style.None? then Some("") else p.style
    ensures r.0.(style := p.style) == p
  {
    var q := if p.style.None? then p.(style := Some("")) else p;
    if color.Str? then (q.(style := Some(Theme.StyleText(color.s))), Completed)
    else (q, TypeError)
  }

  // ---------------------------------------------------------------------------
  // The listeners the attach functions register (ui.js:278-290, 296-314, 357-378)
  // ---------------------------------------------------------------------------

  /** `mouseenter` and `mouseleave` on each of the first `n` containers, in order. */
  function HoverListeners(n: nat): seq<Listener>
  {
    if n == 0 then [] else HoverListeners(n - 1) + [OnMouseEnter(n - 1), OnMouseLeave(n - 1)]
  }

  /** A click listener on each utility anchor among the first `n` elements, in order. */
  function UtilityListeners(elements: seq<Element>, n: nat): seq<Listener>
    requires n <= |elements|
  {
    if n == 0 then []
    else UtilityListeners(elements, n - 1) + (if elements[n - 1].utility then [OnUtilityClick(n - 1)] else [])
  }

  /** `attachDropdownHoverListeners()`: both hover listeners on every container. */
  function AttachHoverOf(p: PageState): PageState
  {
    p.(listeners := p.listeners + HoverListeners(|p.containers|))
  }

  /** `attachNavigationListeners()`: one click listener on the menu bar, none without one. */
  function AttachNavigationOf(p: PageState): PageState
  {
    p.(listeners := p.listeners + if p.menuBar then [OnMenuBarClick] else [])
  }

  /** `attachUtilityListeners()`: a click listener on every utility anchor. */
  function AttachUtilityOf(p: PageState): PageState
  {
    p.(listeners := p.listeners + UtilityListeners(p.elements, |p.elements|))
  }

  // ---------------------------------------------------------------------------
  // The menu markup inserted into the page (main.user.js:137-138)
  // ---------------------------------------------------------------------------

  /** The nodes the browser builds from the inserted menu markup: the dropdown
      containers, the anchors, and which anchor is the hide-all entry. */
  datatype Fragment = Fragment(containers: seq<set<string>>, elements: seq<Element>, hideAll: Option<nat>)

  /** The markup carries the id of the overlay's root element. */
  predicate MarksHeader(html: string)
  {
    Contains(html, "id=\"piv-custom-header\"")
  }

  /** The ids present once the markup is inserted. */
  function IdsAfterInsert(ids: set<string>, html: string): set<string>
  {
    if MarksHeader(html) then ids + {HeaderId} else ids
  }

  /** `container.insertAdjacentHTML("afterbegin", html)` for the menu markup on a page
      that holds none of the script's nodes yet: the markup goes first in the header
      pane, `#piv-custom-header` exists afterwards when the markup carries its id, and
      the containers, anchors and menu bar built from it now exist. */
  function InsertMenuOf(p: PageState, html: string, f: Fragment): (r: PageState)
    ensures HeaderId in r.ids <==> HeaderId in p.ids || MarksHeader(html)
    ensures r.ids - {HeaderId} == p.ids - {HeaderId}
    ensures r.menuBar && r.headerPane == [html] + p.headerPane
    ensures r.containers == f.containers && r.elements == f.elements
    ensures r.header == {HeaderBarClass} && r.hideAll == f.hideAll
    ensures r.(headerPane := p.headerPane, ids := p.ids, header := p.header, containers := p.containers,
               elements := p.elements, hideAll := p.hideAll, menuBar := p.menuBar) == p
  {
    p.(headerPane := [html] + p.headerPane, ids := IdsAfterInsert(p.ids, html),
       header := {HeaderBarClass}, containers := f.containers, elements := f.elements, hideAll := f.hideAll,
       menuBar := true)
  }

  // ---------------------------------------------------------------------------
  // The page, updated in place
  // ---------------------------------------------------------------------------

  class Page {
    var body: set<string>
    var header: set<string>
    var containers: seq<set<string>>
    var elements: seq<Element>
    var hideAll: Option<nat>
    var ids: set<string>
    var popup: set<string>
    var style: Option<string>
    var hash: string
    var reloads: nat
    var menuBar: bool
    var listeners: seq<Listener>
    var headerPane: seq<string>

    function State(): PageState
      reads this
    {
      PageState(body, header, containers, elements, hideAll, ids, popup, style, hash, reloads, menuBar, listeners, headerPane)
    }

    constructor (initial: PageState)
      ensures State() == initial
    {
      body, header, containers, elements, hideAll := initial.body, initial.header, initial.containers, initial.elements, initial.hideAll;
      ids, popup, style, hash, reloads := initial.ids, initial.popup, initial.style, initial.hash, initial.reloads;
      menuBar, listeners, headerPane := initial.menuBar, initial.listeners, initial.headerPane;
    }

    /** `updateIconAndLabel(item, condition, stateOff, stateOn)` (ui.js:15-24). */
    method UpdateIconAndLabel(item: nat, condition: bool, off: Swap, on: Swap)
      requires item < |elements|
      modifies this
      ensures State() == old(State()).(elements := old(elements)[item := SwapControl(old(elements)[item], condition, off, on)])
    {
      var e := elements[item];
      if e.icon.None? || e.labelText.None? {
        return;
      }
      var s := if condition then on else off;
      elements := elements[item := e.(labelText := Some(s.text))];
      elements := elements[item := elements[item].(icon := Some(e.icon.value - {s.iconFrom} + {s.iconTo}))];
    }

    /** `toggleFullScreenMode(mode)` (ui.js:58-92). */
    method ToggleFullScreenMode(mode: Option<string>) returns (outcome: Outcome)
      modifies this
      ensures (State(), outcome) == FullScreenOf(old(State()), mode)
    {
      if hideAll.None? || hideAll.value >= |elements| {
        return Completed;
      }
      var k := hideAll.value;
      if mode == Some(CustomSelect) {
        return Completed;
      }
      body := Toggle(body, FullscreenClass);
      var isActive := FullscreenClass in body;
      var s := if isActive then FullscreenOn else FullscreenOff;
      if elements[k].labelText.None? {
        return TypeError;
      }
      elements := elements[k := elements[k].(labelText := Some(s.text))];
      if elements[k].icon.None? {
        return TypeError;
      }
      elements := elements[k := elements[k].(icon := Some(elements[k].icon.value - {s.iconFrom} + {s.iconTo}))];
      assert elements == old(elements)[k := SwapControl(old(elements)[k], isActive, FullscreenOff, FullscreenOn)];
      outcome := Completed;
    }

    /** `item.closest(".piv-dropdown-item-container")?.classList.remove("active")`. */
    method CloseDropdown(item: nat)
      requires item < |elements|
      modifies this
      ensures State() == CloseOf(old(State()), item)
    {
      var c := elements[item].container;
      if c.Some? && c.value < |containers| {
        containers := containers[c.value := containers[c.value] - {ActiveClass}];
      }
    }

    /** `injectColorPickerPopup()` (ui.js:128-178). */
    method InjectColorPickerPopup()
      modifies this
      ensures State() == InjectPopupOf(old(State()))
    {
      if PopupId in ids {
        return;
      }
      ids := ids + {PopupId};
      popup := {PopupClass};
    }

    /** The `onclick` the picker gives the popup's close button (ui.js:335-336). */
    method ClosePopup()
      modifies this
      ensures State() == old(State()).(popup := old(popup) - {ActiveClass})
    {
      popup := popup - {ActiveClass};
    }

    /** The click listener of a utility anchor (ui.js:361-376) with the handlers of
        `UTILITY_ACTIONS` (ui.js:319-352). */
    method UtilityClick(item: nat) returns (outcome: Outcome)
      requires item < |elements|
      modifies this
      ensures (State(), outcome) == UtilityClickOf(old(State()), item)
    {
      var action := elements[item].action;
      var mode := elements[item].mode;
      outcome := Completed;
      if action == Some("hide-navbar") {
        header := Toggle(header, MinimizedClass);
        var isMinimized := MinimizedClass in header;
        UpdateIconAndLabel(item, isMinimized, HideNavbarOff, HideNavbarOn);
      } else if action == Some("open-bg-color-picker") {
        InjectColorPickerPopup();
        popup := popup + {ActiveClass};
      } else if action == Some("set-fullscreen-mode") {
        outcome := ToggleFullScreenMode(mode);
        if outcome == TypeError {
          return;
        }
        if mode != Some(CustomSelect) {
          CloseDropdown(item);
        }
      } else if action == Some("refresh-page") {
        reloads := reloads + 1;
      }
      if action != Some("set-fullscreen-mode") && action != Some("refresh-page") {
        CloseDropdown(item);
      }
    }

    /** The click listener of the menu bar (ui.js:300-313); `item` is the anchor
        `closest(".piv-menu-item")` finds. */
    method NavigationClick(item: Option<nat>) returns (prevented: bool)
      requires item.Some? ==> item.value < |elements|
      modifies this
      ensures (State(), prevented) == NavigationClickOf(old(State()), item)
    {
      if item.None? {
        return false;
      }
      var targetHash := elements[item.value].hash;
      if targetHash.None? || targetHash.value == "" {
        return false;
      }
      prevented := true;
      hash := HashAfterAssign(targetHash.value);
      CloseDropdown(item.value);
    }

    /** The `mouseenter` listener of a dropdown container (ui.js:283-285). */
    method MouseEnter(c: nat)
      requires c < |containers|
      modifies this
      ensures State() == EnterOf(old(State()), c)
    {
      containers := containers[c := containers[c] + {ActiveClass}];
    }

    /** The `mouseleave` listener of a dropdown container (ui.js:286-288). */
    method MouseLeave(c: nat)
      requires c < |containers|
      modifies this
      ensures State() == LeaveOf(old(State()), c)
    {
      containers := containers[c := containers[c] - {ActiveClass}];
    }

    /** `loadFontAwesome()` (ui.js:97-107). */
    method LoadFontAwesome()
      modifies this
      ensures State() == LoadFontAwesomeOf(old(State()))
    {
      if FontAwesomeId in ids {
        return;
      }
      ids := ids + {FontAwesomeId};
    }

    /** `applyPIBackgroundColor(color)` (ui.js:184-218). */
    method ApplyPIBackgroundColor(color: Value) returns (outcome: Outcome)
      modifies this
      ensures (State(), outcome) == ApplyBackgroundOf(old(State()), color)
    {
      if style.None? {
        style := Some("");
      }
      if !color.Str? {
        return TypeError;
      }
      style := Some(Theme.StyleText(color.s));
      outcome := Completed;
    }

    /** The insertion of the menu markup (main.user.js:138). */
    method InsertMenu(html: string, f: Fragment)
      modifies this
      ensures State() == InsertMenuOf(old(State()), html, f)
    {
      headerPane, ids, header := [html] + headerPane, IdsAfterInsert(ids, html), {HeaderBarClass};
      containers, elements, hideAll, menuBar := f.containers, f.elements, f.hideAll, true;
    }

    /** `attachDropdownHoverListeners()` (ui.js:278-290). */
    method AttachDropdownHoverListeners()
      modifies this
      ensures State() == AttachHoverOf(old(State()))
    {
      var i := 0;
      while i < |containers|
        invariant 0 <= i <= |containers|
        invariant State() == old(State()).(listeners := old(listeners) + HoverListeners(i))
      {
        listeners := listeners + [OnMouseEnter(i), OnMouseLeave(i)];
        i := i + 1;
      }
    }

    /** `attachNavigationListeners()` (ui.js:296-314): nothing without a menu bar. */
    method AttachNavigationListeners()
      modifies this
      ensures State() == AttachNavigationOf(old(State()))
    {
      if !menuBar {
        return;
      }
      listeners := listeners + [OnMenuBarClick];
    }

    /** `attachUtilityListeners()` (ui.js:357-378). */
    method AttachUtilityListeners()
      modifies this
      ensures State() == AttachUtilityOf(old(State()))
    {
      var i := 0;
      while i < |elements|
        invariant 0 <= i <= |elements|
        invariant State() == old(State()).(listeners := old(listeners) + UtilityListeners(elements, i))
      {
        if elements[i].utility {
          listeners := listeners + [OnUtilityClick(i)];
        }
        i := i + 1;
      }
    }
  }

  // ---------------------------------------------------------------------------
  // Properties
  // ---------------------------------------------------------------------------

  /** Two full-screen toggles restore the body classes; when the hide-all anchor
      showed the body's state, they restore the whole page. */
  lemma FullScreenTwice(p: PageState, mode: Option<string>)
    requires FullScreenApplies(p, mode) && HasIconAndLabel(p.elements[p.hideAll.value])
    ensures FullScreenOf(FullScreenOf(p, mode).0, mode).0.body == p.body
    ensures ShowsFullScreen(p) ==> FullScreenOf(FullScreenOf(p, mode).0, mode).0 == p
  {
    var q := FullScreenOf(p, mode).0;
    var k := p.hideAll.value;
    assert FullScreenApplies(q, mode) && HasIconAndLabel(q.elements[k]);
    var r := FullScreenOf(q, mode).0;
    assert r.body == p.body by {
      ToggleTwice(p.body, FullscreenClass);
    }
    if ShowsFullScreen(p) {
      var e := p.elements[k];
      assert r.elements[k].labelText == e.labelText;
      assert r.elements[k].icon.value == e.icon.value;
      assert r.elements[k] == e;
      assert r.elements == p.elements;
    }
  }

  lemma ToggleTwice(classes: set<string>, name: string)
    ensures Toggle(Toggle(classes, name), name) == classes
  {
  }

  /** The hide-all anchor shows "Afficher Tout" with `fa-eye-slash` while the body is
      in full-screen, and "Masquer Tout" with `fa-eye` otherwise. */
  predicate ShowsFullScreen(p: PageState)
  {
    p.hideAll.Some? && p.hideAll.value < |p.elements|
    && var e := p.elements[p.hideAll.value];
       if FullscreenClass in p.body then Shows(e, FullscreenOn, FullscreenOff) else Shows(e, FullscreenOff, FullscreenOn)
  }

  /** After a full-screen toggle the label reads "Afficher Tout" exactly when the
      body is in full-screen, and the anchor then shows the body's state. */
  lemma FullScreenLabel(p: PageState, mode: Option<string>)
    requires FullScreenApplies(p, mode) && HasIconAndLabel(p.elements[p.hideAll.value])
    ensures var q := FullScreenOf(p, mode).0;
            (q.elements[p.hideAll.value].labelText == Some("Afficher Tout") <==> FullscreenClass in q.body)
            && ShowsFullScreen(q)
  {
  }

  /** The `custom-select` mode and a page without the hide-all anchor leave the page
      as it is. */
  lemma FullScreenNoOp(p: PageState, mode: Option<string>)
    requires mode == Some(CustomSelect) || p.hideAll.None?
    ensures FullScreenOf(p, mode) == (p, Completed)
  {
  }

  /** After `hide-navbar` the label reads "Montrer la Barre" exactly when the header
      is minimised; two clicks restore the header. */
  lemma HideNavbarLabel(p: PageState, item: nat)
    requires item < |p.elements| && HasIconAndLabel(p.elements[item])
    ensures var q := HideNavbarOf(p, item);
            (q.elements[item].labelText == Some("Montrer la Barre") <==> MinimizedClass in q.header)
            && HideNavbarOf(q, item).header == p.header
  {
    ToggleTwice(p.header, MinimizedClass);
  }

  /** The close rule: after a click that runs to completion, the enclosing dropdown
      has lost `active` exactly when `ClosesDropdown` says so, and otherwise keeps its
      classes. */
  lemma CloseRule(p: PageState, item: nat)
    requires item < |p.elements|
    requires p.elements[item].container.Some? && p.elements[item].container.value < |p.containers|
    requires UtilityClickOf(p, item).1 == Completed
    ensures var c := p.elements[item].container.value;
            var e := p.elements[item];
            var q := UtilityClickOf(p, item).0;
            |q.containers| == |p.containers|
            && (ClosesDropdown(e.action, e.mode) ==> q.containers[c] == p.containers[c] - {ActiveClass})
            && (!ClosesDropdown(e.action, e.mode) ==> q.containers == p.containers)
  {
  }

  /** A click on an anchor whose action has no handler only closes its dropdown. */
  lemma UnknownActionOnlyCloses(p: PageState, item: nat)
    requires item < |p.elements| && !KnownAction(p.elements[item].action)
    ensures UtilityClickOf(p, item) == (CloseOf(p, item), Completed)
  {
  }

  /** A navigation click on an anchor without `data-hash` changes nothing and lets the
      event through; one with any non-empty hash (`"undefined"` and `"#"` included) is
      assigned to `location.hash`, prevents the default and closes its dropdown, and a
      `#`-prefixed hash is then read back as it was written. */
  lemma NavigationRule(p: PageState, item: nat)
    requires item < |p.elements|
    ensures var h := p.elements[item].hash;
            var r := NavigationClickOf(p, Some(item));
            (h.None? || h.value == "" ==> r == (p, false))
            && (h.Some? && h.value != "" ==> r == (CloseOf(p.(hash := HashAfterAssign(h.value)), item), true))
            && (h.Some? && |h.value| > 1 && h.value[0] == '#' ==>
                  r.1 && r.0.hash == h.value && r.0 == CloseOf(p.(hash := h.value), item))
  {
  }

  /** Leaving a container undoes entering it exactly when it was not already active. */
  lemma HoverRoundTrip(p: PageState, c: nat)
    requires c < |p.containers|
    ensures LeaveOf(EnterOf(p, c), c) == p <==> ActiveClass !in p.containers[c]
  {
    var q := LeaveOf(EnterOf(p, c), c);
    if ActiveClass !in p.containers[c] {
      assert p.containers[c] + {ActiveClass} - {ActiveClass} == p.containers[c];
      assert q.containers == p.containers;
    } else {
      assert ActiveClass !in q.containers[c];
    }
  }

  /** The guarded injections add nothing the second time. */
  lemma InjectionsIdempotent(p: PageState)
    ensures LoadFontAwesomeOf(LoadFontAwesomeOf(p)) == LoadFontAwesomeOf(p)
    ensures InjectPopupOf(InjectPopupOf(p)) == InjectPopupOf(p)
    ensures OpenPickerOf(OpenPickerOf(p)) == OpenPickerOf(p)
  {
  }

  /** Each colour replaces the whole style text: applying `a` then `b` is applying `b`,
      and the element is created once. */
  lemma ApplyLastWins(p: PageState, a: string, b: string)
    ensures ApplyBackgroundOf(ApplyBackgroundOf(p, Str(a)).0, Str(b)) == ApplyBackgroundOf(p, Str(b))
  {
  }

  /** The attached hover listeners are one `mouseenter` and one `mouseleave` per
      container. */
  lemma {:induction false} HoverListenersCover(n: nat, c: nat)
    ensures |HoverListeners(n)| == 2 * n
    ensures OnMouseEnter(c) in HoverListeners(n) <==> c < n
    ensures OnMouseLeave(c) in HoverListeners(n) <==> c < n
  {
    if n > 0 {
      HoverListenersCover(n - 1, c);
    }
  }

  /** A click listener is attached to an anchor exactly when it is a utility anchor. */
  lemma {:induction false} UtilityListenersCover(elements: seq<Element>, n: nat, i: nat)
    requires n <= |elements|
    ensures OnUtilityClick(i) in UtilityListeners(elements, n) <==> i < n && elements[i].utility
  {
    if n > 0 {
      UtilityListenersCover(elements, n - 1, i);
    }
  }
}
