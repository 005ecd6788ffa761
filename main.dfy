/** `initializeMenu` of main.user.js: the guarded sequence that mounts the menu on page
    load and on every `hashchange`, and the saved theme it restores. */
module Mount {
  import opened Common
  import Menu
  import Ui
  import Storage
  import Theme
  import opened Gate

  // ---------------------------------------------------------------------------
  // Restoring the saved theme (main.user.js:153-160)
  // ---------------------------------------------------------------------------

  /** The restore step as written: `getTheme()` always returns an object, so the guard
      `if (savedTheme)` always holds and the saved colour, whatever it is, goes to
      `applyPIBackgroundColor`. */
  function RestoreAsWritten(p: Ui.PageState, theme: Storage.ThemeRecord): (Ui.PageState, Outcome)
  {
    Ui.ApplyBackgroundOf(p, theme.color)
  }

  /** The restore step as intended: a colour is applied only when one was saved. */
  function RestoreTheme(p: Ui.PageState, theme: Storage.ThemeRecord): (r: (Ui.PageState, Outcome))
    ensures r.1 == Completed && r.0.(style := p.style) == p
    ensures theme.color.Str? && theme.color.s != "" ==> r.0.style == Some(Theme.StyleText(theme.color.s))
    ensures !(theme.color.Str? && theme.color.s != "") ==> r.0 == p
  {
    if theme.color.Str? && theme.color.s != "" then Ui.ApplyBackgroundOf(p, theme.color) else (p, Completed)
  }

  // ---------------------------------------------------------------------------
  // initializeMenu (main.user.js:105-166)
  // ---------------------------------------------------------------------------

  /** The mounting steps of `initializeMenu()` once it has decided to mount: Font
      Awesome, then the markup, then the three sets of listeners, which land on the
      nodes the markup created. Before the listeners the run awaits the three
      injections, each of which waits for its host element (`.c-app-logo`,
      `#sidebar-pane`, `.c-header`) to appear; `hostsFound` says whether all three do.
      When one never appears the run stays suspended with the markup in place and no
      listener attached. */
  function MountOf(p: Ui.PageState, html: string, f: Ui.Fragment, hostsFound: bool): (r: Ui.PageState)
    ensures Ui.FontAwesomeId in r.ids
    ensures Ui.HeaderId in r.ids <==> Ui.HeaderId in p.ids || Ui.MarksHeader(html)
    ensures r.headerPane == [html] + p.headerPane
    ensures r.containers == f.containers && r.elements == f.elements
    ensures hostsFound ==>
              r.listeners == p.listeners + Ui.HoverListeners(|f.containers|) + [Ui.OnMenuBarClick]
                             + Ui.UtilityListeners(f.elements, |f.elements|)
    ensures !hostsFound ==> r.listeners == p.listeners
    ensures r.style == p.style
    ensures r.ids - {Ui.HeaderId, Ui.FontAwesomeId} == p.ids - {Ui.HeaderId, Ui.FontAwesomeId}
    ensures r.header == {Ui.HeaderBarClass} && r.hideAll == f.hideAll && r.menuBar
    ensures r.(headerPane := p.headerPane, ids := p.ids, header := p.header, containers := p.containers,
               elements := p.elements, hideAll := p.hideAll, menuBar := p.menuBar, listeners := p.listeners) == p
  {
    var inserted := Ui.InsertMenuOf(Ui.LoadFontAwesomeOf(p), html, f);
    if hostsFound then Ui.AttachUtilityOf(Ui.AttachNavigationOf(Ui.AttachHoverOf(inserted))) else inserted
  }

  /** Whether a run stops at its guard: the header is already there, or the view is
      not eligible. */
  predicate Skips(p: Ui.PageState, devMode: bool, hash: string)
  {
    Ui.HeaderId in p.ids || !ShouldMount(devMode, hash)
  }

  /** The page after `initializeMenu()`, with the corrected restore step: nothing when
      the run stops at its guard; otherwise the menu is mounted and, once the awaited
      injections settle, the saved theme is restored over it. */
  function InitializeOf(p: Ui.PageState, table: map<string, string>, devMode: bool, hash: string, html: string,
                        f: Ui.Fragment, hostsFound: bool, colorFails: bool, kindFails: bool): Ui.PageState
  {
    if Skips(p, devMode, hash) then p
    else
      var mounted := MountOf(p, html, f, hostsFound);
      if hostsFound then RestoreTheme(mounted, Storage.ThemeRead(table, colorFails, kindFails)).0 else mounted
  }

  /** `initializeMenu()` as written, with the outcome of the run: the restore step
      passes whatever colour was read to `applyPIBackgroundColor`. A suspended run
      has thrown nothing. */
  function InitializeAsWrittenOf(p: Ui.PageState, table: map<string, string>, devMode: bool, hash: string,
                                 html: string, f: Ui.Fragment, hostsFound: bool, colorFails: bool,
                                 kindFails: bool): (Ui.PageState, Outcome)
  {
    if Skips(p, devMode, hash) then (p, Completed)
    else
      var mounted := MountOf(p, html, f, hostsFound);
      if hostsFound then RestoreAsWritten(mounted, Storage.ThemeRead(table, colorFails, kindFails))
      else (mounted, Completed)
  }

  /** The mounting steps on the page, one call per step. */
  method Mount(page: Ui.Page, html: string, f: Ui.Fragment, hostsFound: bool)
    modifies page
    ensures page.State() == MountOf(old(page.State()), html, f, hostsFound)
  {
    page.LoadFontAwesome();
    page.InsertMenu(html, f);
    if !hostsFound {
      return;
    }
    page.AttachDropdownHoverListeners();
    page.AttachNavigationListeners();
    page.AttachUtilityListeners();
  }

  /** `initializeMenu()` on the page and the preference store, with the corrected
      restore step. `devMode` is `DEV_MODE`, fixed when the script loads, and `hash` is
      `location.hash` when the run starts; `html` stands for the markup
      `generateCustomMenuHTML()` returns (`Menu.CustomMenuHtml` of the logo) and `f` for
      the nodes the browser builds from it. */
  method InitializeMenu(page: Ui.Page, store: Storage.PivStorage, devMode: bool, hash: string, html: string,
                        f: Ui.Fragment, hostsFound: bool, colorFails: bool, kindFails: bool)
    modifies page
    ensures page.State()
              == InitializeOf(old(page.State()), store.table, devMode, hash, html, f, hostsFound, colorFails, kindFails)
  {
    if Ui.HeaderId in page.ids {
      return;
    }
    var isAllowed := IsAllowed(hash);
    if !isAllowed && !devMode {
      return;
    }
    Mount(page, html, f, hostsFound);
    if !hostsFound {
      return;
    }
    RestoreSavedTheme(page, store, colorFails, kindFails);
  }

  /** The last step of `initializeMenu()`: read the saved theme and apply its colour
      when there is one. */
  method RestoreSavedTheme(page: Ui.Page, store: Storage.PivStorage, colorFails: bool, kindFails: bool)
    modifies page
    ensures page.State() == RestoreTheme(old(page.State()), Storage.ThemeRead(store.table, colorFails, kindFails)).0
  {
    var savedTheme := store.GetTheme(colorFails, kindFails);
    if savedTheme.color.Str? && savedTheme.color.s != "" {
      var _ := page.ApplyPIBackgroundColor(savedTheme.color);
    }
  }

  // ---------------------------------------------------------------------------
  // The mount state machine
  // ---------------------------------------------------------------------------

  /** What a run of `initializeMenu` leaves behind: not run yet, run on a view that was
      not eligible, or the menu in place. */
  datatype MountState = Unchecked | Ineligible | Mounted

  /** One run of `initializeMenu` with the page at `hash`. */
  function Run(s: MountState, devMode: bool, hash: string): MountState
  {
    if s == Mounted then Mounted else if ShouldMount(devMode, hash) then Mounted else Ineligible
  }

  /** The runs on page load and on each later `hashchange`, in order. */
  function RunAll(s: MountState, devMode: bool, hashes: seq<string>): MountState
    decreases hashes
  {
    if hashes == [] then s else RunAll(Run(s, devMode, hashes[0]), devMode, hashes[1..])
  }

  /** The state the page itself records: the header is there or it is not. */
  function MountStateOf(p: Ui.PageState, ran: bool): MountState
  {
    if Ui.HeaderId in p.ids then Mounted else if ran then Ineligible else Unchecked
  }

  // ---------------------------------------------------------------------------
  // Properties
  // ---------------------------------------------------------------------------

  /** The header's presence stops `initializeMenu` before it changes anything. */
  lemma MountedIsNoOp(p: Ui.PageState, table: map<string, string>, devMode: bool, hash: string, html: string,
                      f: Ui.Fragment, hostsFound: bool, colorFails: bool, kindFails: bool)
    requires Ui.HeaderId in p.ids
    ensures InitializeOf(p, table, devMode, hash, html, f, hostsFound, colorFails, kindFails) == p
    ensures InitializeAsWrittenOf(p, table, devMode, hash, html, f, hostsFound, colorFails, kindFails) == (p, Completed)
  {
  }

  /** The markup `generateCustomMenuHTML()` returns carries the header's id, whatever
      the logo and the rendered dropdowns, so inserting it creates the element the
      guard looks up. */
  lemma GeneratedMarkupMarksHeader(logo: string, dropdowns: string, utility: string)
    ensures Ui.MarksHeader(Menu.CustomMenuHtmlOf(logo, dropdowns, utility))
  {
    Menu.CustomMenuHasRoot(logo, dropdowns, utility);
  }

  /** From a page without the header, markup that carries the header's id is mounted
      exactly when the view is eligible, and the run then agrees with one step of the
      state machine. */
  lemma MountIffEligible(p: Ui.PageState, table: map<string, string>, devMode: bool, hash: string, html: string,
                         f: Ui.Fragment, hostsFound: bool, colorFails: bool, kindFails: bool, ran: bool)
    requires Ui.MarksHeader(html)
    ensures var q := InitializeOf(p, table, devMode, hash, html, f, hostsFound, colorFails, kindFails);
            Ui.HeaderId !in p.ids ==> (Ui.HeaderId in q.ids <==> ShouldMount(devMode, hash))
    ensures var q := InitializeOf(p, table, devMode, hash, html, f, hostsFound, colorFails, kindFails);
            (MountStateOf(q, true) == Mounted) == (Run(MountStateOf(p, ran), devMode, hash) == Mounted)
  {
    var q := InitializeOf(p, table, devMode, hash, html, f, hostsFound, colorFails, kindFails);
    if !Skips(p, devMode, hash) {
      assert Ui.HeaderId in MountOf(p, html, f, hostsFound).ids;
      assert Ui.HeaderId in q.ids;
    }
  }

  /** A run after one that mounted the menu changes nothing, whatever the view and
      whether or not the first run went past its awaited injections. */
  lemma InitializeOnce(p: Ui.PageState, table: map<string, string>, devMode: bool, hash: string, html: string,
                       f: Ui.Fragment, hostsFound: bool, colorFails: bool, kindFails: bool,
                       table2: map<string, string>, hash2: string, f2: Ui.Fragment, hostsFound2: bool,
                       colorFails2: bool, kindFails2: bool)
    requires ShouldMount(devMode, hash) && Ui.MarksHeader(html)
    ensures var q := InitializeOf(p, table, devMode, hash, html, f, hostsFound, colorFails, kindFails);
            InitializeOf(q, table2, devMode, hash2, html, f2, hostsFound2, colorFails2, kindFails2) == q
  {
    var q := InitializeOf(p, table, devMode, hash, html, f, hostsFound, colorFails, kindFails);
    if !Skips(p, devMode, hash) {
      assert Ui.HeaderId in MountOf(p, html, f, hostsFound).ids;
    }
    assert Ui.HeaderId in q.ids;
  }

  /** When one of the awaited host elements never appears, the run mounts the markup
      but attaches no listener and restores no theme; the guard then stops every later
      run, so the menu stays inert. */
  lemma SuspendedMountIsInert(p: Ui.PageState, table: map<string, string>, devMode: bool, hash: string, html: string,
                              f: Ui.Fragment, colorFails: bool, kindFails: bool)
    requires Ui.HeaderId !in p.ids && ShouldMount(devMode, hash) && Ui.MarksHeader(html)
    ensures var q := InitializeOf(p, table, devMode, hash, html, f, false, colorFails, kindFails);
            Ui.HeaderId in q.ids && q.listeners == p.listeners && q.style == p.style
  {
    assert Ui.HeaderId in MountOf(p, html, f, false).ids;
  }

  /** The order of the steps: the markup is inserted before any listener is attached,
      so the listeners land on the inserted containers, menu bar and utility anchors, in
      that order, and the theme is restored last, over the mounted page. */
  lemma MountOrder(p: Ui.PageState, table: map<string, string>, devMode: bool, hash: string, html: string,
                   f: Ui.Fragment, colorFails: bool, kindFails: bool)
    requires Ui.HeaderId !in p.ids && ShouldMount(devMode, hash)
    ensures var q := InitializeOf(p, table, devMode, hash, html, f, true, colorFails, kindFails);
            q.listeners == p.listeners + Ui.HoverListeners(|f.containers|) + [Ui.OnMenuBarClick]
                           + Ui.UtilityListeners(f.elements, |f.elements|)
            && q.headerPane == [html] + p.headerPane
            && q.containers == f.containers && q.elements == f.elements
            && Ui.FontAwesomeId in q.ids
  {
  }

  /** A colour saved with `saveTheme` is put back on mount; with nothing saved the
      page keeps its style. */
  lemma MountRestoresTheme(p: Ui.PageState, table: map<string, string>, devMode: bool, hash: string, html: string,
                           f: Ui.Fragment, color: string, kind: Option<Value>)
    requires Ui.HeaderId !in p.ids && ShouldMount(devMode, hash) && color != ""
    ensures InitializeOf(p, Storage.SavedTheme(table, Str(color), kind), devMode, hash, html, f, true, false, false).style
              == Some(Theme.StyleText(color))
    ensures Storage.ThemeColorKey !in table ==>
              InitializeOf(p, table, devMode, hash, html, f, true, false, false).style == p.style
  {
    Storage.ThemeRoundTrip(table, Str(color), kind);
  }

  /** As written, mounting with no colour saved throws in `applyPIBackgroundColor`,
      after creating an empty style element. */
  lemma AsWrittenRestoreThrows(p: Ui.PageState, table: map<string, string>)
    requires Storage.ThemeColorKey !in table && p.style.None?
    ensures RestoreAsWritten(p, Storage.ThemeFrom(table)) == (p.(style := Some("")), TypeError)
  {
  }

  /** The first visit as written: nothing saved, so the run mounts the menu, leaves an
      empty style element and ends in `TypeError`, where the corrected run leaves the
      style alone. */
  lemma FirstVisitAsWritten(p: Ui.PageState, table: map<string, string>, devMode: bool, hash: string, html: string,
                            f: Ui.Fragment)
    requires Ui.HeaderId !in p.ids && ShouldMount(devMode, hash)
    requires Storage.ThemeColorKey !in table && p.style.None?
    ensures var corrected := InitializeOf(p, table, devMode, hash, html, f, true, false, false);
            InitializeAsWrittenOf(p, table, devMode, hash, html, f, true, false, false)
              == (corrected.(style := Some("")), TypeError)
            && corrected.style.None?
  {
    var mounted := MountOf(p, html, f, true);
    assert Storage.ThemeRead(table, false, false) == Storage.ThemeFrom(table);
    AsWrittenRestoreThrows(mounted, table);
  }

  /** The corrected run differs from the run as written only in the style element and
      the outcome, and not at all once a non-empty colour was read. */
  lemma AsWrittenDiffersOnlyInStyle(p: Ui.PageState, table: map<string, string>, devMode: bool, hash: string,
                                    html: string, f: Ui.Fragment, hostsFound: bool, colorFails: bool, kindFails: bool)
    ensures var corrected := InitializeOf(p, table, devMode, hash, html, f, hostsFound, colorFails, kindFails);
            var asWritten := InitializeAsWrittenOf(p, table, devMode, hash, html, f, hostsFound, colorFails, kindFails);
            asWritten.0.(style := corrected.style) == corrected
            && (var color := Storage.ThemeRead(table, colorFails, kindFails).color;
                color.Str? && color.s != "" ==> asWritten == (corrected, Completed))
  {
  }

  /** In developer mode the first run mounts the menu, whatever the view. */
  lemma DevModeMountsAnywhere(loc: Location, hashes: seq<string>)
    requires DevMode(loc) && hashes != []
    ensures RunAll(Unchecked, DevMode(loc), hashes) == Mounted
  {
    RunAllMounts(Unchecked, DevMode(loc), hashes);
    assert ShouldMount(DevMode(loc), hashes[0]);
  }

  /** Once the menu is mounted it stays mounted through any later runs. */
  lemma {:induction false} MountedStays(devMode: bool, hashes: seq<string>)
    ensures RunAll(Mounted, devMode, hashes) == Mounted
  {
    if hashes != [] {
      MountedStays(devMode, hashes[1..]);
    }
  }

  /** Over a series of runs the menu ends up mounted exactly when it started mounted or
      one of the views was eligible. */
  lemma {:induction false} RunAllMounts(s: MountState, devMode: bool, hashes: seq<string>)
    ensures RunAll(s, devMode, hashes) == Mounted <==>
              s == Mounted || exists i :: 0 <= i < |hashes| && ShouldMount(devMode, hashes[i])
    decreases hashes
  {
    if hashes != [] {
      var rest := hashes[1..];
      RunAllMounts(Run(s, devMode, hashes[0]), devMode, rest);
      if Run(s, devMode, hashes[0]) == Mounted {
        MountedStays(devMode, rest);
      }
      if exists i :: 0 <= i < |hashes| && ShouldMount(devMode, hashes[i]) {
        var i :| 0 <= i < |hashes| && ShouldMount(devMode, hashes[i]);
        if i > 0 {
          assert ShouldMount(devMode, rest[i - 1]);
        }
      }
      if exists i :: 0 <= i < |rest| && ShouldMount(devMode, rest[i]) {
        var i :| 0 <= i < |rest| && ShouldMount(devMode, rest[i]);
        assert ShouldMount(devMode, hashes[i + 1]);
      }
    }
  }
}
