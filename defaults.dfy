/**
 * `createDefaults`: the HUD's default layout and group list, localised.
 * Every layout section and every group keeps its other fields, gets its
 * name localised and gains a `listName` of the form
 * "<localised 'tokenActionHud.group'>: <localised name>".
 *
 * Localisation (`Utils.i18n`) is a function parameter.
 */
module Defaults {
  import opened Wrappers
  import opened Constants

  /** A group once localised: `{ ...g, listName, name }`. */
  datatype ListedGroup = ListedGroup(id: string, nestId: string, name: string, groupType: string, listName: string)

  /** A layout section once localised, its groups localised too. */
  datatype ListedLayout = ListedLayout(id: string, nestId: string, name: string, listName: string,
                                       groups: seq<ListedGroup>, customWidth: Option<int>)

  /** What `createDefaults` returns. */
  datatype HudDefaults = HudDefaults(layout: seq<ListedLayout>, groups: seq<ListedGroup>)

  /** `${i18n("tokenActionHud.group")}: ${i18n(name)}`. */
  function ListName(i18n: string -> string, name: string): (r: string)
    ensures |r| == |i18n("tokenActionHud.group")| + 2 + |i18n(name)|
    ensures r[..|i18n("tokenActionHud.group")|] == i18n("tokenActionHud.group")
    ensures r[|i18n("tokenActionHud.group")|..|i18n("tokenActionHud.group")| + 2] == ": "
    ensures r[|i18n("tokenActionHud.group")| + 2..] == i18n(name)
  {
    i18n("tokenActionHud.group") + ": " + i18n(name)
  }

  /** The localised name a list name carries: what follows the localised group label and ": ". */
  function NameOfListName(i18n: string -> string, listName: string): (r: Option<string>)
    ensures r.Some? ==> listName == i18n("tokenActionHud.group") + ": " + r.value
  {
    var lead := i18n("tokenActionHud.group") + ": ";
    if lead <= listName then Some(listName[|lead|..]) else None
  }

  /** A list name gives back the localised name it was built from. */
  lemma ListNameReadBack(i18n: string -> string, name: string)
    ensures NameOfListName(i18n, ListName(i18n, name)) == Some(i18n(name))
  {
    var lead := i18n("tokenActionHud.group") + ": ";
    assert ListName(i18n, name) == lead + i18n(name);
  }

  /** Two names get the same list name exactly when they localise alike. */
  lemma ListNameDeterminesName(i18n: string -> string, a: string, b: string)
    ensures ListName(i18n, a) == ListName(i18n, b) <==> i18n(a) == i18n(b)
  {
    ListNameReadBack(i18n, a);
    ListNameReadBack(i18n, b);
  }

  function LocalizeGroup(i18n: string -> string, g: Group): ListedGroup {
    ListedGroup(g.id, g.nestId, i18n(g.name), g.groupType, ListName(i18n, g.name))
  }

  /** `groups.map(...)`: one localised group per group, in order. */
  function LocalizeGroups(i18n: string -> string, groups: seq<Group>): (r: seq<ListedGroup>)
    ensures |r| == |groups|
    ensures forall i :: 0 <= i < |groups| ==> r[i] == LocalizeGroup(i18n, groups[i])
    decreases |groups|
  {
    if groups == [] then []
    else [LocalizeGroup(i18n, groups[0])] + LocalizeGroups(i18n, groups[1..])
  }

  function LocalizeLayout(i18n: string -> string, l: Layout): ListedLayout {
    ListedLayout(l.id, l.nestId, i18n(l.name), ListName(i18n, l.name), LocalizeGroups(i18n, l.groups), l.customWidth)
  }

  /** `layout.map(...)`: one localised section per section, in order. */
  function LocalizeLayouts(i18n: string -> string, layout: seq<Layout>): (r: seq<ListedLayout>)
    ensures |r| == |layout|
    ensures forall i :: 0 <= i < |layout| ==> r[i] == LocalizeLayout(i18n, layout[i])
    decreases |layout|
  {
    if layout == [] then []
    else [LocalizeLayout(i18n, layout[0])] + LocalizeLayouts(i18n, layout[1..])
  }

  /** The defaults built from a layout (the one `createLayout` returns) and the static group table. */
  function DefaultsOf(i18n: string -> string, layout: seq<Layout>): HudDefaults {
    HudDefaults(LocalizeLayouts(i18n, layout), LocalizeGroups(i18n, Groups))
  }

  /** The fields a localised group took unchanged from its group. */
  function Unlisted(g: ListedGroup, name: string): Group {
    Group(g.id, g.nestId, name, g.groupType)
  }

  /**
   * Localising a group keeps its id, `nestId` and type, and nothing else is
   * lost: putting the original name back gives the group again.
   */
  lemma LocalizeGroupKeepsFields(i18n: string -> string, g: Group)
    ensures Unlisted(LocalizeGroup(i18n, g), g.name) == g
    ensures LocalizeGroup(i18n, g).name == i18n(g.name)
    ensures LocalizeGroup(i18n, g).listName == i18n("tokenActionHud.group") + ": " + i18n(g.name)
  {
  }

  /**
   * Every section of the result comes from the section at the same place:
   * same id, `nestId` and width, localised name and `listName`, and its
   * groups mapped one to one, in order, keeping id and `nestId`.
   */
  lemma LocalizedLayoutShape(i18n: string -> string, layout: seq<Layout>, i: nat, j: nat)
    requires i < |layout|
    ensures var d := DefaultsOf(i18n, layout).layout;
      |d| == |layout| &&
      d[i].id == layout[i].id && d[i].nestId == layout[i].nestId && d[i].customWidth == layout[i].customWidth &&
      d[i].name == i18n(layout[i].name) && d[i].listName == ListName(i18n, layout[i].name) &&
      |d[i].groups| == |layout[i].groups| &&
      (j < |layout[i].groups| ==>
        d[i].groups[j].id == layout[i].groups[j].id && d[i].groups[j].nestId == layout[i].groups[j].nestId &&
        d[i].groups[j].name == i18n(layout[i].groups[j].name) &&
        d[i].groups[j].listName == ListName(i18n, layout[i].groups[j].name))
  {
  }

  /** The top-level groups are the static table, localised one to one, in table order. */
  lemma DefaultGroupsFromTable(i18n: string -> string, layout: seq<Layout>, i: nat)
    requires i < |Groups|
    ensures |DefaultsOf(i18n, layout).groups| == |Groups|
    ensures Unlisted(DefaultsOf(i18n, layout).groups[i], Groups[i].name) == Groups[i]
    ensures DefaultsOf(i18n, layout).groups[i].name == i18n(Groups[i].name)
  {
  }

  /** Localisation keeps the section ids, so the defaults' sections are in the layout's order. */
  lemma {:induction false} LocalizedIds(i18n: string -> string, layout: seq<Layout>)
    ensures ListedIds(LocalizeLayouts(i18n, layout)) == Ids(layout)
    decreases |layout|
  {
    if layout != [] {
      LocalizedIds(i18n, layout[1..]);
      assert LocalizeLayouts(i18n, layout)[1..] == LocalizeLayouts(i18n, layout[1..]);
      assert Ids(layout) == [layout[0].id] + Ids(layout[1..]);
    }
  }

  function ListedIds(layout: seq<ListedLayout>): seq<string>
    decreases |layout|
  {
    if layout == [] then [] else [layout[0].id] + ListedIds(layout[1..])
  }

  /**
   * `createDefaults`: rebuild the paths section from the world's items (the
   * `createLayout` call), then localise the layout and the static groups.
   * The sections come out as stats, actions, inventory, paths, effects,
   * utility, the paths section holding the localised path groups.
   */
  method CreateDefaults(store: LayoutStore, i18n: string -> string, items: seq<WorldItem>) returns (d: HudDefaults)
    requires store.Valid()
    modifies store
    ensures store.Valid() && store.layout == WithPaths(old(store.layout), items)
    ensures d == DefaultsOf(i18n, store.layout)
    ensures ListedIds(d.layout) == SectionIds
    ensures d.layout[3].groups == LocalizeGroups(i18n, PathsSection(items))
  {
    var layout := store.CreateLayout(items);
    d := DefaultsOf(i18n, layout);
    LocalizedIds(i18n, layout);
    ValidPathsAt3(old(store.layout), items);
  }
}
