/** The menu renderer of menu.js: the static navigation and settings tables and the
    pure functions that turn them into the overlay's markup text. Every template is
    reproduced character for character as the list of its pieces, fixed text and
    interpolated values alternating; values are inserted verbatim, without escaping. */
module Menu {
  import opened Common

  /** One entry of the navigation tree. Only `hash`, `url` and `children` are
      optional in the source data, and the renderer tests exactly these fields. */
  datatype MenuItem = MenuItem(
    text: string,
    icon: string,
    hash: Option<string>,
    url: Option<string>,
    children: ChildList)

  /** The optional `children` array of a menu entry. */
  datatype ChildList = Absent | Listed(entries: seq<MenuItem>)

  /** A top-level dropdown: its title and its entries. */
  datatype MenuGroup = MenuGroup(title: string, items: seq<MenuItem>)

  /** One entry of the settings dropdown; the entries of a `submenu` are rendered flat. */
  datatype UtilityItem = UtilityItem(
    text: string,
    icon: string,
    action: Option<string>,
    mode: Option<string>,
    submenu: Option<seq<UtilityItem>>)

  /** The text `${x}` produces for a property that may be undefined. */
  function Interp(o: Option<string>): string
  {
    if o.Some? then o.value else "undefined"
  }

  /** `if (item.url)`: present and not the empty string. */
  predicate IsSet(o: Option<string>)
  {
    o.Some? && o.value != ""
  }

  /** `item.children && item.children.length`. */
  predicate HasChildren(item: MenuItem)
  {
    item.children.Listed? && |item.children.entries| > 0
  }

  /** The three shapes a menu entry can take, discriminated in the renderer's order:
      a set url first, then a non-empty child list, and otherwise a navigation link. */
  datatype Variant = External | Submenu | Navigation

  function VariantOf(item: MenuItem): Variant
  {
    if IsSet(item.url) then External
    else if HasChildren(item) then Submenu
    else Navigation
  }

  /** The icon element every entry starts with. */
  function IconTag(icon: string): string
  {
    "<i class=\"fa-solid " + icon + " piv-icon\"></i>"
  }

  /** The label element every entry carries. */
  function Label(text: string): string
  {
    "<span>" + text + "</span>"
  }

  // ---------------------------------------------------------------------------
  // renderMenuItems (menu.js:356-400)
  // ---------------------------------------------------------------------------

  /** The opening tag of an external link: the url is its only interpolated attribute. */
  function ExternalOpenTag(url: string): seq<string>
  {
    [ Line(10, "<a "),
      "href=\"" + url + "\"",
      Line(13, ""),
      "target=\"_blank\"",
      Line(13, "rel=\"noopener noreferrer\"") +
        Line(13, "class=\"piv-menu-item\">") ]
  }

  /** The external-link template (menu.js:361-369). */
  function ExternalParts(url: string, icon: string, text: string): seq<string>
  {
    ExternalOpenTag(url) +
    [ Line(12, IconTag(icon)) +
        Line(12, ""),
      Label(text),
      Line(10, "</a>") +
        Line(8, "") ]
  }

  /** The nested-submenu template (menu.js:374-386): a title block, which is a
      `piv-menu-item` without `data-hash`, then the one `piv-nested-submenu`
      container, which holds the children's rendering. */
  function SubmenuParts(icon: string, text: string, children: string): seq<string>
  {
    [ Line(10, "<div class=\"piv-menu-wrapper\">") +
        Line(12, "<div class=\"piv-menu-item piv-submenu-title\">") +
        Line(14, IconTag(icon)) +
        Line(14, ""),
      Label(text),
      Line(14, "<i class=\"fa-solid fa-chevron-right piv-arrow-right\"></i>") +
        Line(12, "</div>") +
        Line(0, "") +
        Line(12, ""),
      "<div class=\"piv-nested-submenu\">" +
        Line(14, ""),
      children,
      Line(12, "</div>") +
        Line(10, "</div>") +
        Line(8, "") ]
  }

  /** The opening tag of a navigation link: the hash is both `href` and `data-hash`. */
  function NavigationOpenTag(hash: string): seq<string>
  {
    [ Line(8, "<a "),
      "href=\"" + hash + "\"",
      Line(11, ""),
      "data-hash=\"" + hash + "\"",
      Line(11, "class=\"piv-menu-item\">") ]
  }

  /** The internal-link template (menu.js:390-397). */
  function NavigationParts(hash: string, icon: string, text: string): seq<string>
  {
    NavigationOpenTag(hash) +
    [ Line(10, IconTag(icon)) +
        Line(10, ""),
      Label(text),
      Line(8, "</a>") +
        Line(6, "") ]
  }

  /** One entry, dispatched in the source's order (menu.js:358-397). */
  function RenderItem(item: MenuItem): string
    decreases item, 1
  {
    if IsSet(item.url) then
      Concat(ExternalParts(item.url.value, item.icon, item.text))
    else if item.children.Listed? && |item.children.entries| > 0 then
      Concat(SubmenuParts(item.icon, item.text, RenderItems(item.children.entries)))
    else
      Concat(NavigationParts(Interp(item.hash), item.icon, item.text))
  }

  /** `renderMenuItems(items)`: `items.map(...).join("")`. */
  function RenderItems(items: seq<MenuItem>): string
    decreases items, 0
  {
    if items == [] then "" else RenderItem(items[0]) + RenderItems(items[1..])
  }

  // ---------------------------------------------------------------------------
  // generateDropdownHTML (menu.js:408-425)
  // ---------------------------------------------------------------------------

  /** The characters `/[^a-zA-Z0-9]/` leaves alone. */
  predicate IsAlphanumeric(c: char)
  {
    'a' <= c <= 'z' || 'A' <= c <= 'Z' || '0' <= c <= '9'
  }

  /** `title.replace(/[^a-zA-Z0-9]/g, "_")`: each character either stays or becomes `_`.
      A `char` is one character here; the source's pattern, without the `u` flag, sees a
      character outside the Basic Multilingual Plane as two code units. */
  function SanitizeId(title: string): (id: string)
    ensures |id| == |title|
    ensures forall i :: 0 <= i < |title| ==> id[i] == (if IsAlphanumeric(title[i]) then title[i] else '_')
  {
    if title == [] then []
    else [if IsAlphanumeric(title[0]) then title[0] else '_'] + SanitizeId(title[1..])
  }

  const Divider := "<div class=\"piv-menu-divider\"></div>"

  /** `index < menuData.length - 1`: a divider follows every group but the last. */
  predicate HasDivider(index: nat, total: nat)
  {
    index < total - 1
  }

  /** The dropdown template of the group at `index` among `total` groups; the
      divider, or nothing, is its second-last piece. */
  function DropdownParts(menu: MenuGroup, index: nat, total: nat): seq<string>
  {
    [ Line(4, "<div class=\"piv-dropdown-item-container\" data-id=\""),
      SanitizeId(menu.title),
      "\">" +
        Line(6, "<button class=\"piv-dropbtn\">") +
        Line(8, ""),
      menu.title,
      Line(8, "<i class=\"fa-solid fa-chevron-down piv-arrow\"></i>") +
        Line(6, "</button>") +
        Line(0, "") +
        Line(6, "<div class=\"piv-dropdown-content\">") +
        Line(8, ""),
      RenderItems(menu.items),
      Line(6, "</div>") +
        Line(4, "</div>") +
        Line(0, "") +
        Line(4, ""),
      if HasDivider(index, total) then Divider else "",
      Line(2, "") ]
  }

  function DropdownHtml(menu: MenuGroup, index: nat, total: nat): string
  {
    Concat(DropdownParts(menu, index, total))
  }

  /** `groups.map(generateDropdownHTML).join("")`, from position `from` on. */
  function DropdownsFrom(groups: seq<MenuGroup>, from: nat): string
    decreases |groups| - from
  {
    if from >= |groups| then "" else DropdownHtml(groups[from], from, |groups|) + DropdownsFrom(groups, from + 1)
  }

  // ---------------------------------------------------------------------------
  // generateUtilityDropdown (menu.js:455-513)
  // ---------------------------------------------------------------------------

  /** The three kinds of `.piv-utility-item` anchor the settings markup holds. */
  datatype AnchorKind = Flat | HasNested | SubmenuEntry

  /** The class and data attributes that close the opening tag of a utility anchor:
      flat and has-nested anchors end with `data-action`, submenu entries carry
      `data-action` and then `data-mode`. */
  function UtilityAttributes(kind: AnchorKind, action: string, mode: string): string
  {
    match kind
    case Flat =>
      "class=\"piv-utility-item\"" + Line(15, "data-action=\"" + action + "\">")
    case HasNested =>
      "class=\"piv-utility-item piv-has-nested\"" + Line(23, "data-action=\"" + action + "\">")
    case SubmenuEntry =>
      "class=\"piv-utility-item piv-submenu-item\"" + Line(23, "data-action=\"" + action + "\"")
        + Line(23, "data-mode=\"" + mode + "\">")
  }

  /** One entry of a utility submenu (menu.js:462-470). */
  function SubmenuEntryParts(sub: UtilityItem): seq<string>
  {
    [ Line(20, "<a href=\"#\"") +
        Line(23, ""),
      UtilityAttributes(SubmenuEntry, Interp(sub.action), Interp(sub.mode)),
      Line(24, IconTag(sub.icon)) +
        Line(24, ""),
      Label(sub.text),
      Line(20, "</a>") +
        Line(16, "") ]
  }

  function SubmenuEntriesHtml(subs: seq<UtilityItem>): string
  {
    if subs == [] then "" else Concat(SubmenuEntryParts(subs[0])) + SubmenuEntriesHtml(subs[1..])
  }

  /** An item with a submenu (menu.js:474-488): a `piv-has-nested` anchor, then the
      entries inside the `piv-fullscreen-submenu` container. */
  function NestedUtilityParts(item: UtilityItem, entries: string): seq<string>
  {
    [ Line(16, "<div class=\"piv-utility-menu-wrapper\">") +
        Line(20, "<a href=\"#\"") +
        Line(23, ""),
      UtilityAttributes(HasNested, Interp(item.action), ""),
      Line(24, IconTag(item.icon)) +
        Line(24, ""),
      Label(item.text),
      Line(24, "<i class=\"fa-solid fa-chevron-right piv-arrow-right\"></i>") +
        Line(20, "</a>") +
        Line(0, "") +
        Line(20, "<div class=\"piv-fullscreen-submenu\">") +
        Line(24, ""),
      entries,
      Line(20, "</div>") +
        Line(16, "</div>") +
        Line(12, "") ]
  }

  /** A standard utility item (menu.js:492-499): one anchor with `data-action` only. */
  function FlatUtilityParts(item: UtilityItem): seq<string>
  {
    [ Line(12, "<a href=\"#\"") +
        Line(15, ""),
      UtilityAttributes(Flat, Interp(item.action), ""),
      Line(16, IconTag(item.icon)) +
        Line(16, ""),
      Label(item.text),
      Line(12, "</a>") +
        Line(8, "") ]
  }

  /** `if (item.submenu)`: any array, even an empty one, selects the nested form. */
  function UtilityItemHtml(item: UtilityItem): string
  {
    if item.submenu.Some? then Concat(NestedUtilityParts(item, SubmenuEntriesHtml(item.submenu.value)))
    else Concat(FlatUtilityParts(item))
  }

  function UtilityItemsHtml(items: seq<UtilityItem>): string
  {
    if items == [] then "" else UtilityItemHtml(items[0]) + UtilityItemsHtml(items[1..])
  }

  /** The settings dropdown around the rendered items (menu.js:502-512). */
  function UtilityDropdownParts(items: string): seq<string>
  {
    [ Line(8, "<div class=\"piv-dropdown-item-container piv-utility-container\">") +
        Line(12, "<button class=\"piv-dropbtn piv-utility-btn\">") +
        Line(16, "<img class=\"piv-btn-cog\" src=\"/PIVision/Images/Settings64x64.png\"/>") +
        Line(12, "</button>") +
        Line(12, "<div class=\"piv-dropdown-content piv-utility-content\">") +
        Line(16, ""),
      items,
      Line(12, "</div>") +
        Line(8, "</div>") +
        Line(4, "") ]
  }

  function UtilityDropdownHtml(items: seq<UtilityItem>): string
  {
    Concat(UtilityDropdownParts(UtilityItemsHtml(items)))
  }

  // ---------------------------------------------------------------------------
  // generateCustomMenuHTML (menu.js:519-535); the logo markup is a parameter
  // ---------------------------------------------------------------------------

  /** The overlay template around the logo, the group dropdowns and the settings
      dropdown; its first two pieces open the root element the mount guard looks up. */
  function CustomMenuParts(logo: string, dropdowns: string, utility: string): seq<string>
  {
    [ Line(8, "<div "),
      "id=\"piv-custom-header\"",
      " class=\"piv-custom-header-bar\">" +
        Line(12, "<div class=\"piv-logo-container\">") +
        Line(15, "<a class=\"piv-ocp-logo\" href=\"https://pimining.ocpgroup.ma/PIVision/#/\">") +
        Line(18, ""),
      logo,
      Line(17, "</a>") +
        Line(11, "</div>") +
        Line(12, "<div class=\"piv-menu-bar\">") +
        Line(16, ""),
      dropdowns,
      Line(12, "</div>") +
        Line(12, "<div class=\"piv-utility-wrapper\">") +
        Line(16, ""),
      utility,
      Line(12, "</div>") +
        Line(8, "</div>") +
        Line(4, "") ]
  }

  function CustomMenuHtml(logo: string): string
  {
    CustomMenuHtmlOf(logo, DropdownsFrom(MenuData, 0), UtilityDropdownHtml(UtilityMenuItems))
  }

  /** The overlay markup around any rendered dropdowns and settings dropdown. */
  function CustomMenuHtmlOf(logo: string, dropdowns: string, utility: string): string
  {
    Concat(CustomMenuParts(logo, dropdowns, utility))
  }

  // ---------------------------------------------------------------------------
  // What the listeners of ui.js find in the markup
  // ---------------------------------------------------------------------------

  /** The `data-hash` values of the navigation anchors rendered for `items`, at any
      depth and in document order. */
  function NavHashes(items: seq<MenuItem>): seq<string>
    decreases items, 0
  {
    if items == [] then [] else ItemNavHashes(items[0]) + NavHashes(items[1..])
  }

  function ItemNavHashes(item: MenuItem): seq<string>
    decreases item, 1
  {
    match VariantOf(item)
    case External => []
    case Submenu => NavHashes(item.children.entries)
    case Navigation => [Interp(item.hash)]
  }

  /** A `.piv-utility-item` anchor as the utility listener reads it: `data-action`,
      `data-mode` when the anchor has that attribute, and its icon and label. */
  datatype UtilityAnchor = UtilityAnchor(action: string, mode: Option<string>, icon: string, text: string, kind: AnchorKind)

  /** The anchors rendered for one settings entry, in document order: one for a flat
      entry; for an entry with a submenu, its `piv-has-nested` anchor and one per entry. */
  function AnchorsOf(item: UtilityItem): (r: seq<UtilityAnchor>)
    ensures |r| == if item.submenu.Some? then 1 + |item.submenu.value| else 1
    ensures r[0].kind == (if item.submenu.Some? then HasNested else Flat) && r[0].mode == None
    ensures r[0].action == Interp(item.action)
    ensures item.submenu.Some? ==> forall j :: 1 <= j < |r| ==>
              r[j].kind == SubmenuEntry && r[j].mode == Some(Interp(item.submenu.value[j - 1].mode))
                && r[j].action == Interp(item.submenu.value[j - 1].action)
  {
    if item.submenu.None? then
      [UtilityAnchor(Interp(item.action), None, item.icon, item.text, Flat)]
    else
      [UtilityAnchor(Interp(item.action), None, item.icon, item.text, HasNested)] + EntryAnchors(item.submenu.value)
  }

  function EntryAnchors(subs: seq<UtilityItem>): (r: seq<UtilityAnchor>)
    ensures |r| == |subs|
    ensures forall j :: 0 <= j < |subs| ==>
              r[j] == UtilityAnchor(Interp(subs[j].action), Some(Interp(subs[j].mode)), subs[j].icon, subs[j].text, SubmenuEntry)
  {
    if subs == [] then []
    else [UtilityAnchor(Interp(subs[0].action), Some(Interp(subs[0].mode)), subs[0].icon, subs[0].text, SubmenuEntry)]
         + EntryAnchors(subs[1..])
  }

  /** Every `.piv-utility-item` anchor of the settings dropdown, in document order. */
  function UtilityAnchors(items: seq<UtilityItem>): seq<UtilityAnchor>
  {
    if items == [] then [] else AnchorsOf(items[0]) + UtilityAnchors(items[1..])
  }

  /** The attribute run an anchor carries in the markup. */
  function AnchorAttributes(a: UtilityAnchor): string
  {
    UtilityAttributes(a.kind, a.action, if a.mode.Some? then a.mode.value else "")
  }

  // ---------------------------------------------------------------------------
  // Properties of the renderer
  // ---------------------------------------------------------------------------

  /** Rendering a list is the concatenation of the renderings of its parts. */
  lemma {:induction false} RenderItemsAppend(a: seq<MenuItem>, b: seq<MenuItem>)
    ensures RenderItems(a + b) == RenderItems(a) + RenderItems(b)
  {
    if a == [] {
      assert a + b == b;
    } else {
      assert (a + b)[0] == a[0];
      assert (a + b)[1..] == a[1..] + b;
      RenderItemsAppend(a[1..], b);
    }
  }

  /** An entry with a set url renders as a link that opens a new browsing context: its
      opening tag has the url, verbatim, as its only interpolated attribute, and the entry
      contributes no navigation target. */
  lemma RenderExternal(item: MenuItem)
    requires IsSet(item.url)
    ensures VariantOf(item) == External && ItemNavHashes(item) == []
    ensures StartsWith(RenderItem(item), Concat(ExternalOpenTag(item.url.value)))
    ensures Contains(RenderItem(item), "href=\"" + item.url.value + "\"")
    ensures Contains(RenderItem(item), "target=\"_blank\"")
    ensures Contains(RenderItem(item), Label(item.text))
  {
    var parts := ExternalParts(item.url.value, item.icon, item.text);
    assert parts[..5] == ExternalOpenTag(item.url.value);
    ConcatPrefix(parts, 5);
    ConcatContains(parts, 1);
    ConcatContains(parts, 3);
    ConcatContains(parts, 6);
  }

  /** An entry without a url and without children renders as a navigation link whose
      opening tag carries the hash, verbatim, both as `href` and as `data-hash`. */
  lemma RenderNavigation(item: MenuItem)
    requires VariantOf(item) == Navigation
    ensures ItemNavHashes(item) == [Interp(item.hash)]
    ensures StartsWith(RenderItem(item), Concat(NavigationOpenTag(Interp(item.hash))))
    ensures Contains(RenderItem(item), "href=\"" + Interp(item.hash) + "\"")
    ensures Contains(RenderItem(item), "data-hash=\"" + Interp(item.hash) + "\"")
    ensures Contains(RenderItem(item), Label(item.text))
  {
    var parts := NavigationParts(Interp(item.hash), item.icon, item.text);
    assert parts[..5] == NavigationOpenTag(Interp(item.hash));
    ConcatPrefix(parts, 5);
    ConcatContains(parts, 1);
    ConcatContains(parts, 3);
    ConcatContains(parts, 6);
  }

  /** An entry without a url and with children renders its title block and then its
      children's rendering, whole and unchanged, directly inside its one nested container. */
  lemma RenderSubmenu(item: MenuItem)
    requires VariantOf(item) == Submenu
    ensures !IsSet(item.url) && HasChildren(item)
    ensures RenderItem(item) == Concat(SubmenuParts(item.icon, item.text, RenderItems(item.children.entries)))
    ensures Contains(RenderItem(item), "<div class=\"piv-nested-submenu\">" + Line(14, "") + RenderItems(item.children.entries))
    ensures Contains(RenderItem(item), Label(item.text))
  {
    var parts := SubmenuParts(item.icon, item.text, RenderItems(item.children.entries));
    ConcatContains(parts, 1);
    ConcatContainsPair(parts, 3);
  }

  /** An entry whose `children` list is empty and whose url is unset is rendered as a
      navigation link, exactly as if it had no `children` at all. */
  lemma EmptyChildrenFallsThrough(item: MenuItem)
    requires !IsSet(item.url) && item.children == Listed([])
    ensures VariantOf(item) == Navigation
    ensures RenderItem(item) == RenderItem(item.(children := Absent))
    ensures StartsWith(RenderItem(item), Concat(NavigationOpenTag(Interp(item.hash))))
  {
    RenderNavigation(item);
  }

  /** Every navigation target listed by `NavHashes` appears in the markup as a `data-hash`
      attribute, however deeply it is nested. */
  lemma {:induction false} NavHashesRendered(items: seq<MenuItem>, h: string)
    requires h in NavHashes(items)
    ensures Contains(RenderItems(items), "data-hash=\"" + h + "\"")
    decreases items, 0
  {
    var attr := "data-hash=\"" + h + "\"";
    if h in ItemNavHashes(items[0]) {
      ItemNavHashRendered(items[0], h);
      ContainsLeft(RenderItem(items[0]), RenderItems(items[1..]), attr);
    } else {
      NavHashesRendered(items[1..], h);
      ContainsRight(RenderItem(items[0]), RenderItems(items[1..]), attr);
    }
  }

  lemma {:induction false} ItemNavHashRendered(item: MenuItem, h: string)
    requires h in ItemNavHashes(item)
    ensures Contains(RenderItem(item), "data-hash=\"" + h + "\"")
    decreases item, 1
  {
    match VariantOf(item)
    case Navigation =>
      RenderNavigation(item);
    case Submenu =>
      var children := item.children.entries;
      NavHashesRendered(children, h);
      var parts := SubmenuParts(item.icon, item.text, RenderItems(children));
      ConcatContains(parts, 4);
      ContainsTransitive(RenderItem(item), RenderItems(children), "data-hash=\"" + h + "\"");
  }

  /** The sanitised id holds only `[A-Za-z0-9_]`, keeps every alphanumeric in place,
      and sanitising it again changes nothing. */
  lemma SanitizeIdProperties(title: string)
    ensures forall i :: 0 <= i < |title| ==> IsAlphanumeric(SanitizeId(title)[i]) || SanitizeId(title)[i] == '_'
    ensures forall i :: 0 <= i < |title| && IsAlphanumeric(title[i]) ==> SanitizeId(title)[i] == title[i]
    ensures SanitizeId(SanitizeId(title)) == SanitizeId(title)
  {
    var id := SanitizeId(title);
    assert forall i :: 0 <= i < |id| ==> SanitizeId(id)[i] == id[i];
  }

  /** A group title of the navigation table: an accented letter and a space each
      become one underscore. */
  lemma SanitizeAccentedTitle()
    ensures SanitizeId("Station Tête") == "Station_T_te"
  {
    SanitizeTo("Station Tête", "Station_T_te");
  }

  /** A group title of the navigation table: spaces and punctuation each become one
      underscore, so a run of them becomes a run of underscores. */
  lemma SanitizePunctuatedTitle()
    ensures SanitizeId("PMS & S.V") == "PMS___S_V"
  {
    SanitizeTo("PMS & S.V", "PMS___S_V");
  }

  lemma SanitizeTo(title: string, id: string)
    requires |id| == |title|
    requires forall i :: 0 <= i < |title| ==> id[i] == (if IsAlphanumeric(title[i]) then title[i] else '_')
    ensures SanitizeId(title) == id
  {
  }

  /** The markup of a group block ends with a divider. */
  predicate EndsWithDivider(html: string)
  {
    EndsWith(html, Divider + Line(2, ""))
  }

  /** A group's block ends with a divider iff it is not the last of the `total` groups. */
  lemma DropdownDivider(menu: MenuGroup, index: nat, total: nat)
    ensures EndsWithDivider(DropdownHtml(menu, index, total)) <==> HasDivider(index, total)
  {
    DropdownShape(menu, index, total);
    var parts := DropdownParts(menu, index, total);
    var head := Concat(parts[..7]);
    var tail := Divider + Line(2, "");
    var r := DropdownHtml(menu, index, total);
    if HasDivider(index, total) {
      assert r == head + tail;
      assert r[|head|..] == tail;
    } else {
      assert r == head + Line(2, "");
      assert r[|r| - 4] == ' ';
      assert tail[|tail| - 4] == '>';
    }
  }

  /** A group's block is its first seven pieces, which end in a space, then the
      divider piece and the closing line break. */
  lemma DropdownShape(menu: MenuGroup, index: nat, total: nat)
    ensures var parts := DropdownParts(menu, index, total);
            var head := Concat(parts[..7]);
            DropdownHtml(menu, index, total) == head + parts[7] + Line(2, "")
            && |head| > 0 && head[|head| - 1] == ' '
  {
    var parts := DropdownParts(menu, index, total);
    assert parts[..8] + [parts[8]] == parts;
    assert parts[..7] + [parts[7]] == parts[..8];
    assert parts[..6] + [parts[6]] == parts[..7];
    ConcatSnoc(parts[..6], parts[6]);
    ConcatSnoc(parts[..7], parts[7]);
    ConcatSnoc(parts[..8], parts[8]);
    assert parts[6][|parts[6]| - 1] == ' ';
  }


  /** How many of the groups from `from` on end with a divider. */
  function DividedGroups(groups: seq<MenuGroup>, from: nat): nat
    decreases |groups| - from
  {
    if from >= |groups| then 0
    else (if EndsWithDivider(DropdownHtml(groups[from], from, |groups|)) then 1 else 0)
         + DividedGroups(groups, from + 1)
  }

  /** `n` groups are separated by exactly `n - 1` dividers. */
  lemma DividersBetweenGroups(groups: seq<MenuGroup>)
    ensures DividedGroups(groups, 0) == if |groups| == 0 then 0 else |groups| - 1
  {
    if |groups| > 0 {
      DividedGroupsFrom(groups, 0);
    }
  }

  lemma {:induction false} DividedGroupsFrom(groups: seq<MenuGroup>, from: nat)
    requires from < |groups|
    ensures DividedGroups(groups, from) == |groups| - 1 - from
    decreases |groups| - from
  {
    DropdownDivider(groups[from], from, |groups|);
    if from + 1 < |groups| {
      DividedGroupsFrom(groups, from + 1);
    }
  }

  /** Each anchor listed for a settings entry appears in that entry's markup with exactly
      the class and data attributes `AnchorAttributes` gives it. */
  lemma AnchorsRendered(item: UtilityItem, j: nat)
    requires j < |AnchorsOf(item)|
    ensures Contains(UtilityItemHtml(item), AnchorAttributes(AnchorsOf(item)[j]))
  {
    if item.submenu.None? {
      ConcatContains(FlatUtilityParts(item), 1);
    } else if j == 0 {
      ConcatContains(NestedUtilityParts(item, SubmenuEntriesHtml(item.submenu.value)), 1);
    } else {
      NestedEntryRendered(item, j - 1);
    }
  }

  lemma NestedEntryRendered(item: UtilityItem, j: nat)
    requires item.submenu.Some? && j < |item.submenu.value|
    ensures Contains(UtilityItemHtml(item), AnchorAttributes(EntryAnchors(item.submenu.value)[j]))
  {
    var entries := SubmenuEntriesHtml(item.submenu.value);
    EntryRendered(item.submenu.value, j);
    ConcatContains(NestedUtilityParts(item, entries), 5);
    ContainsTransitive(UtilityItemHtml(item), entries, AnchorAttributes(EntryAnchors(item.submenu.value)[j]));
  }

  lemma {:induction false} EntryRendered(subs: seq<UtilityItem>, j: nat)
    requires j < |subs|
    ensures Contains(SubmenuEntriesHtml(subs), AnchorAttributes(EntryAnchors(subs)[j]))
  {
    var attrs := AnchorAttributes(EntryAnchors(subs)[j]);
    var head := Concat(SubmenuEntryParts(subs[0]));
    if j == 0 {
      ConcatContains(SubmenuEntryParts(subs[0]), 1);
      ContainsLeft(head, SubmenuEntriesHtml(subs[1..]), attrs);
    } else {
      EntryRendered(subs[1..], j - 1);
      ContainsRight(head, SubmenuEntriesHtml(subs[1..]), attrs);
    }
  }

  /** The overlay markup holds the root element whose id the mount guard looks up. */
  lemma CustomMenuHasRoot(logo: string, dropdowns: string, utility: string)
    ensures Contains(CustomMenuHtmlOf(logo, dropdowns, utility), "id=\"piv-custom-header\"")
  {
    ConcatContains(CustomMenuParts(logo, dropdowns, utility), 1);
  }

  // ---------------------------------------------------------------------------
  // Static configuration
  // ---------------------------------------------------------------------------

  // The PI Vision displays the menu links to, one constant per display hash; the
  // allow-list of the mount gate names the same constants.
  const PipelineOverviewKhJorfView := "#/Displays/11134/Pipeline-Overview_KH-JORF"
  const EtatShuntGlobaleView := "#/Displays/10955/Etat-SHUNT-Globale"
  const VueGlobaleSupplyChainView := "#/Displays/11150/Vue-Globale-Supply-Chain"
  const VueGlobalePipelineView := "#/Displays/305/Vue-Globale-Pipeline"
  const EtatMarcheGlobalePipelineView := "#/Displays/10953/Etat-Marche-Globale-Pipeline"
  const SuiviDesBatchsPipelineView := "#/Displays/10949/Suivi-des-Batchs-Pipeline"
  const PipeConsommationElectriqueView := "#/Displays/11149/Pipe-Consommation-Electrique"
  const TonnageView := "#/Displays/10938/Tonnage"
  const HeureDeMarchePipeView := "#/Displays/11164/Heure-de-Marche_PIPE"
  const HsMainlineOverviewView := "#/Displays/11151/HS-Mainline-Overview"
  const VueOperationnelleHsView := "#/Displays/10961/Vue-Operationnelle_HS"
  const FeedersStorageTanksHsView := "#/Displays/11188/Feeders_Storage-Tanks_HS"
  const HsPompeEtanchiteGswView := "#/Displays/10947/HS-Pompe-Etanchite-(GSW)"
  const StationTetePeroniGswView := "#/Displays/10947/Station-Tete-PERONI-(GSW)"
  const HsGswView := "#/Displays/11156/HS-GSW"
  const EtatSimulationHeadStationView := "#/Displays/11101/Etat-Simulation_Head-Station"
  const MaintenanceHsTrainAView := "#/Displays/11157/Maintenance_HS-Train-A"
  const MaintenanceHsTrainBView := "#/Displays/10928/Maintenance_HS-Train-B"
  const MaintenanceHsReceptionView := "#/Displays/11158/Maintenance_HS-Reception"
  const ControleEnergieHsView := "#/Displays/11192/Controle-Energie_HS"
  const DaouiOverviewView := "#/Displays/11023/Daoui-overview"
  const DaouiGswView := "#/Displays/11051/DAOUI-GSW"
  const MaintenanceDaouiView := "#/Displays/621/Maintenance-DAOUI"
  const DaouiStationOverviewView := "#/Displays/11163/DAOUI-Station_Overview"
  const StationDaouiPompesPeroniGswView := "#/Displays/10936/Station-DAOUI-Pompes-PERONI-(GSW)"
  const ControleEnergieDaView := "#/Displays/11203/Controle-Energie_DA"
  const MeaOverviewView := "#/Displays/10960/MEA-Overview"
  const MeaFeederLinesView := "#/Displays/11160/MEA-Feeder-Lines"
  const BaOverviewView := "#/Displays/11008/BA-Overview"
  const BeniAmirGswView := "#/Displays/11155/BENI-AMIR_GSW"
  const MaintenanceBeniAmirView := "#/Displays/10944/Maintenance-BENI-AMIR"
  const BeniAmirOverviewView := "#/Displays/11154/Beni-Amir_Overview"
  const StationBeniAmirPompesGswView := "#/Displays/10946/Station-BENI-AMIR-Pompes_GSW"
  const ControleEnergieBaView := "#/Displays/11197/Controle-Energie_BA"
  const PmsEtStationVanneView := "#/Displays/11043/PMS-et-station-vanne"
  const SvVibrationsView := "#/Displays/60002/SV-Vibrations"
  const TerminalOverviewView := "#/Displays/11038/Terminal-Overview"

  /** The items of the group "Commun". */
  const CommunItems: seq<MenuItem> := [
    MenuItem("Supply Chain Overview", "fa-solid fa-diagram-project", Some(VueGlobaleSupplyChainView), None, Absent),
    MenuItem("Vue Globale Pipeline", "fa-solid fa-route", Some(VueGlobalePipelineView), None, Absent),
    MenuItem("Etat de marche globale", "fa-solid fa-gauge-high", Some(EtatMarcheGlobalePipelineView), None, Absent),
    MenuItem("Pipeline Overview", "fa-solid fa-network-wired", Some(PipelineOverviewKhJorfView), None, Absent),
    MenuItem("Pipeline Consommation Electrique", "fa-solid fa-bolt", Some(PipeConsommationElectriqueView), None, Absent),
    MenuItem("Suivi des Batchs Pipeline", "fa-solid fa-layer-group", Some(SuiviDesBatchsPipelineView), None, Absent),
    MenuItem("Tonnage", "fa-solid fa-weight-scale", Some(TonnageView), None, Absent),
    MenuItem("Heure de marche", "fa-solid fa-clock", Some(HeureDeMarchePipeView), None, Absent),
    MenuItem("Etat shunt globale", "fa-solid fa-toggle-on", Some(EtatShuntGlobaleView), None, Absent),
    MenuItem("Liens Utiles", "fa-paperclip", None, None, Listed([
      MenuItem("Intranet", "fa-building", None, Some("http://intranet/"), Absent),
      MenuItem("MyDev", "fa-code", None, Some("https://mydev.ocpgroup.ma/my.policy"), Absent),
      MenuItem("Salamaty", "fa-heart-pulse", None, Some("https://salamaty.ocpgroup.ma/"), Absent),
      MenuItem("ISE", "fa-flask", None, Some("https://ise.ocpgroup.ma/SitePages/ISE.aspx"), Absent),
      MenuItem("SAP Fiori", "fa-boxes-stacked", None, Some("https://prods4fiori.ocpgroup.ma/sap/bc/ui2/flp#Shell-home"), Absent),
      MenuItem("HSE", "fa-helmet-safety", None, Some("https://myops.ocpgroup.ma/HSE/CODIR/Index"), Absent),
      MenuItem("SharePoint Pipeline", "fa-cloud", None, Some("https://eocp.sharepoint.com/sites/IAMaintenancePipeline/SitePages/CollabHome.aspx?market=fr-FR"), Absent)
    ]))
  ]

  /** The items of the group "Station Tête". */
  const StationTeteItems: seq<MenuItem> := [
    MenuItem("Mainline Overview", "fa-solid fa-road", Some(HsMainlineOverviewView), None, Absent),
    MenuItem("Vue Opérationnelle", "fa-solid fa-eye", Some(VueOperationnelleHsView), None, Absent),
    MenuItem("Etat de simulation", "fa-solid fa-flask", Some(EtatSimulationHeadStationView), None, Absent),
    MenuItem("Feeders & Storage Tanks", "fa-solid fa-warehouse", Some(FeedersStorageTanksHsView), None, Absent),
    MenuItem("Courbes courant/debits", "fa-solid fa-chart-column", Some(HsPompeEtanchiteGswView), None, Absent),
    MenuItem("Contrôle D'énergie", "fa-solid fa-bolt", Some(ControleEnergieHsView), None, Absent),
    MenuItem("Pompes d'étanchité", "fa-solid fa-water", None, None, Listed([
      MenuItem("Etat de marche GSW", "fa-solid fa-power-off", Some(HsGswView), None, Absent),
      MenuItem("Courbes Pompe GSW", "fa-solid fa-chart-line", Some(StationTetePeroniGswView), None, Absent),
      MenuItem("Maintenance prédictive", "fa-solid fa-brain", None, Some("https://maintenance-pompes-stg.apps.techlab.ocpgroup.ma/"), Absent)
    ])),
    MenuItem("Maintenance", "fa-solid fa-screwdriver-wrench", None, None, Listed([
      MenuItem("Train A", "fa-solid fa-train", Some(MaintenanceHsTrainAView), None, Absent),
      MenuItem("Train B", "fa-solid fa-train", Some(MaintenanceHsTrainBView), None, Absent),
      MenuItem("Reception & Stockage", "fa-solid fa-warehouse", Some(MaintenanceHsReceptionView), None, Absent)
    ]))
  ]

  /** The items of the group "Station Daoui". */
  const StationDaouiItems: seq<MenuItem> := [
    MenuItem("Daoui Overview", "fa-solid fa-road", Some(DaouiStationOverviewView), None, Absent),
    MenuItem("Vue Opérationnelle", "fa-solid fa-eye", Some(DaouiOverviewView), None, Absent),
    MenuItem("Maintenance", "fa-solid fa-check-double", Some(MaintenanceDaouiView), None, Absent),
    MenuItem("Contrôle D'énergie", "fa-solid fa-bolt", Some(ControleEnergieDaView), None, Absent),
    MenuItem("Courbes courant/debits", "fa-solid fa-chart-column", Some(StationDaouiPompesPeroniGswView), None, Absent),
    MenuItem("Détails des Pompes", "fa-solid fa-water", None, None, Listed([
      MenuItem("Etat de marche GSW", "fa-solid fa-fan", Some(DaouiGswView), None, Absent),
      MenuItem("Maintenance prédictive GSW", "fa-solid fa-bars-progress", None, Some("https://maintenance-pompes-stg.apps.techlab.ocpgroup.ma/"), Absent)
    ]))
  ]

  /** The items of the group "Station Beni Amir". */
  const StationBeniAmirItems: seq<MenuItem> := [
    MenuItem("Beni Amir Overview", "fa-solid fa-road", Some(BeniAmirOverviewView), None, Absent),
    MenuItem("Vue Opérationnelle", "fa-solid fa-eye", Some(BaOverviewView), None, Absent),
    MenuItem("Maintenance", "fa-solid fa-screwdriver-wrench", Some(MaintenanceBeniAmirView), None, Absent),
    MenuItem("Courbes courant/debits", "fa-solid fa-chart-column", Some(StationBeniAmirPompesGswView), None, Absent),
    MenuItem("Contrôle D'énergie", "fa-solid fa-bolt", Some(ControleEnergieBaView), None, Absent),
    MenuItem("Détails des Pompes", "fa-solid fa-water", None, None, Listed([
      MenuItem("Etat de marche GSW", "fa-solid fa-fan", Some(BeniAmirGswView), None, Absent),
      MenuItem("Maintenance prédictive GSW", "fa-solid fa-bars-progress", None, Some("https://maintenance-pompes-stg.apps.techlab.ocpgroup.ma/"), Absent)
    ]))
  ]

  /** The items of the group "Station MEA". */
  const StationMeaItems: seq<MenuItem> := [
    MenuItem("Vue Opérationnelle", "fa-solid fa-eye", Some(MeaOverviewView), None, Absent),
    MenuItem("Feeder Lines", "fa-solid fa-plug-circle-bolt", Some(MeaFeederLinesView), None, Absent)
  ]

  /** The items of the group "PMS & S.V". */
  const PmsSvItems: seq<MenuItem> := [
    MenuItem("Vue Opérationnelle", "fa-solid fa-sliders", Some(PmsEtStationVanneView), None, Absent),
    MenuItem("Vibrations et CVM", "fa-solid fa-wave-square", Some(SvVibrationsView), None, Absent)
  ]

  /** The items of the group "Station Terminal". */
  const StationTerminalItems: seq<MenuItem> := [
    MenuItem("Vue Opérationnelle", "fa-solid fa-eye", Some(TerminalOverviewView), None, Absent),
    MenuItem("Clients", "fa-solid fa-users", Some(VueGlobaleSupplyChainView), None, Absent)
  ]

  /** The navigation tree `menuData`, group by group (menu.js:6-312). */
  const MenuData: seq<MenuGroup> := [
    MenuGroup("Commun", CommunItems),
    MenuGroup("Station Tête", StationTeteItems),
    MenuGroup("Station Daoui", StationDaouiItems),
    MenuGroup("Station Beni Amir", StationBeniAmirItems),
    MenuGroup("Station MEA", StationMeaItems),
    MenuGroup("PMS & S.V", PmsSvItems),
    MenuGroup("Station Terminal", StationTerminalItems)
  ]

  /** The settings dropdown table `utilityMenuItems` (menu.js:315-349). */
  const UtilityMenuItems: seq<UtilityItem> := [
    UtilityItem("Masquer la Barre", "fa-eye-slash", Some("hide-navbar"), None, None),
    UtilityItem("Mode plein écran", "fa-expand", None, None, Some([
      UtilityItem("Masquer Tout", "fa-eye", Some("set-fullscreen-mode"), Some("hide-all"), None),
      UtilityItem("Selection Personnalisée", "fa-sliders", Some("set-fullscreen-mode"), Some("custom-select"), None)
    ])),
    UtilityItem("Couleur de fond", "fa-palette", Some("open-bg-color-picker"), None, None),
    UtilityItem("Rafraichir la page", "fa-arrows-rotate", Some("refresh-page"), None, None)
  ]
}
