/**
 * The HUD's static tables: the group list, the layout sections that take
 * their groups from it by `nestId` prefix, and `createLayout`, which rebuilds
 * the paths section from the world's path items.
 */
module Constants {
  import opened Wrappers

  /** A HUD group: `type` is always "system" here. */
  datatype Group = Group(id: string, nestId: string, name: string, groupType: string)

  /** A layout section and the groups it shows. */
  datatype Layout = Layout(id: string, nestId: string, name: string, groups: seq<Group>, customWidth: Option<int>)

  /** An item of the world, as far as `createLayout` reads it. */
  datatype WorldItem = WorldItem(itemType: string, name: string, slug: string)

  /** The static groups, in order of appearance. */
  const Groups: seq<Group> := [
    Group("abilities", "stats_abilities", "CO2.Groups.Abilities", "system"),
    Group("resources", "stats_resources", "CO2.Groups.Resources", "system"),
    Group("defense", "actions_defense", "CO2.Groups.Defense", "system"),
    Group("attacks", "actions_attacks", "CO2.Groups.Attacks", "system"),
    Group("actions", "actions_others", "CO2.Groups.Actions", "system"),
    Group("weapon", "inventory_weapon", "CO2.Groups.Weapons", "system"),
    Group("armor", "inventory_armor", "CO2.Groups.Armors", "system"),
    Group("shield", "inventory_shield", "CO2.Groups.Shields", "system"),
    Group("consumable", "inventory_consumable", "CO2.Groups.Consumables", "system"),
    Group("misc", "inventory_misc", "CO2.Groups.Misc", "system"),
    Group("temporary_effects", "effects_temporary", "CO2.Groups.TemporaryEffects", "system"),
    Group("permanent_effects", "effects_permanent", "CO2.Groups.PermanentEffects", "system"),
    Group("recovery", "utility_recovery", "CO2.Groups.Recovery", "system"),
    Group("token", "utility_token", "tokenActionHud.token", "system")
  ]

  /**
   * `s.startsWith(p)`, compared character by character from the front;
   * `StartsWithIsPrefix` shows it is exactly Dafny's prefix relation.
   */
  predicate StartsWith(s: string, p: string) {
    |p| <= |s| && MatchesFrom(s, p, 0)
  }

  /** The characters of `p` from position `k` on match those of `s`. */
  predicate MatchesFrom(s: string, p: string, k: nat)
    requires |p| <= |s|
    decreases |p| - k
  {
    k >= |p| || (s[k] == p[k] && MatchesFrom(s, p, k + 1))
  }

  lemma {:induction false} MatchesFromSlices(s: string, p: string, k: nat)
    requires |p| <= |s| && k <= |p|
    ensures MatchesFrom(s, p, k) <==> p[k..] == s[k..|p|]
    decreases |p| - k
  {
    if k < |p| {
      MatchesFromSlices(s, p, k + 1);
      assert p[k..] == [p[k]] + p[k + 1..];
      assert s[k..|p|] == [s[k]] + s[k + 1..|p|];
    }
  }

  /** `StartsWith` is the prefix relation on strings. */
  lemma StartsWithIsPrefix(s: string, p: string)
    ensures StartsWith(s, p) <==> p <= s
  {
    if |p| <= |s| {
      MatchesFromSlices(s, p, 0);
      assert p[0..] == p;
    }
  }

  /** A text that starts with a non-empty prefix has that prefix's first character first. */
  lemma StartsWithHead(s: string, p: string)
    requires p != []
    ensures StartsWith(s, p) ==> |s| > 0 && s[0] == p[0]
  {
  }

  /** `groups.filter((g) => g.nestId.startsWith(prefix))`. */
  function WithPrefix(groups: seq<Group>, prefix: string): seq<Group>
    decreases |groups|
  {
    if groups == [] then []
    else (if StartsWith(groups[0].nestId, prefix) then [groups[0]] else []) + WithPrefix(groups[1..], prefix)
  }

  /** The filter keeps exactly the groups that pass it. */
  lemma {:induction false} WithPrefixMembers(groups: seq<Group>, prefix: string, g: Group)
    ensures g in WithPrefix(groups, prefix) <==> g in groups && StartsWith(g.nestId, prefix)
    decreases |groups|
  {
    if groups != [] {
      WithPrefixMembers(groups[1..], prefix, g);
      assert groups == [groups[0]] + groups[1..];
    }
  }

  /** Filtering distributes over concatenation and keeps the order. */
  lemma {:induction false} WithPrefixAppend(a: seq<Group>, b: seq<Group>, p: string)
    ensures WithPrefix(a + b, p) == WithPrefix(a, p) + WithPrefix(b, p)
    decreases |a|
  {
    if a == [] {
      assert a + b == b;
    } else {
      assert (a + b)[0] == a[0] && (a + b)[1..] == a[1..] + b;
      WithPrefixAppend(a[1..], b, p);
    }
  }

  /** A filter that every group passes keeps them all, in order. */
  lemma {:induction false} WithPrefixAll(groups: seq<Group>, p: string)
    requires forall i :: 0 <= i < |groups| ==> StartsWith(groups[i].nestId, p)
    ensures WithPrefix(groups, p) == groups
    decreases |groups|
  {
    if groups != [] {
      WithPrefixAll(groups[1..], p);
      assert [groups[0]] + groups[1..] == groups;
    }
  }

  /** A filter that no group passes keeps none. */
  lemma {:induction false} WithPrefixNone(groups: seq<Group>, p: string)
    requires forall i :: 0 <= i < |groups| ==> !StartsWith(groups[i].nestId, p)
    ensures WithPrefix(groups, p) == []
    decreases |groups|
  {
    if groups != [] {
      WithPrefixNone(groups[1..], p);
    }
  }

  /**
   * The static layout built from a group list, in order of appearance: every
   * section but "paths" takes the groups whose `nestId` starts with its
   * prefix; the paths section starts empty.
   */
  function LayoutOf(groups: seq<Group>): (r: seq<Layout>)
    ensures |r| == 6
  {
    [
      Layout("stats", "stats", "CO2.Groups.Stats", WithPrefix(groups, "stats_"), Some(800)),
      Layout("actions", "actions", "CO2.Groups.Actions", WithPrefix(groups, "actions_"), Some(400)),
      Layout("inventory", "inventory", "CO2.Groups.Inventory", WithPrefix(groups, "inventory_"), Some(1200)),
      Layout("paths", "paths", "CO2.Groups.Paths", [], Some(800)),
      Layout("effects", "effects", "CO2.Groups.Effects", WithPrefix(groups, "effects_"), None),
      Layout("utility", "utility", "tokenActionHud.utility", WithPrefix(groups, "utility_"), None)
    ]
  }

  /** The module-level `layout` as the module defines it. */
  const StaticLayout := LayoutOf(Groups)

  const SectionIds: seq<string> := ["stats", "actions", "inventory", "paths", "effects", "utility"]

  /** The prefix each non-paths section filters on. */
  const SectionPrefixes: seq<string> := ["stats_", "actions_", "inventory_", "effects_", "utility_"]

  /** The group that always closes the paths section. */
  const CapacitiesGroup := Group("capacities", "paths_capacities", "CO2.Groups.OffPathCapacities", "system")

  /** `game.items.filter((i) => i.type === "path")`. */
  function PathItems(items: seq<WorldItem>): (r: seq<WorldItem>)
    ensures forall x :: x in r <==> x in items && x.itemType == "path"
    ensures |r| <= |items|
    decreases |items|
  {
    if items == [] then []
    else (if items[0].itemType == "path" then [items[0]] else []) + PathItems(items[1..])
  }

  function PathGroup(path: WorldItem): Group {
    Group(path.slug, "paths_" + path.slug, path.name, "system")
  }

  /** The paths section `createLayout` builds: one group per path item, in order, then the capacities group. */
  function PathsSection(items: seq<WorldItem>): (r: seq<Group>)
    ensures |r| == |PathItems(items)| + 1
    ensures r[|r| - 1] == CapacitiesGroup
    ensures forall i :: 0 <= i < |PathItems(items)| ==> r[i] == PathGroup(PathItems(items)[i])
  {
    var paths := PathItems(items);
    seq(|paths|, i requires 0 <= i < |paths| => PathGroup(paths[i])) + [CapacitiesGroup]
  }

  /** `layout.find((l) => l.id === id)`: the index of the first section with that id. */
  function FindSection(layout: seq<Layout>, id: string): (r: Option<nat>)
    ensures r.Some? ==> r.value < |layout| && layout[r.value].id == id
    ensures r.Some? ==> forall j :: 0 <= j < r.value ==> layout[j].id != id
    ensures r.None? ==> forall j :: 0 <= j < |layout| ==> layout[j].id != id
    decreases |layout|
  {
    if layout == [] then None
    else if layout[0].id == id then Some(0)
    else match FindSection(layout[1..], id)
      case None => None
      case Some(k) => Some(k + 1)
  }

  function Ids(layout: seq<Layout>): seq<string> {
    seq(|layout|, i requires 0 <= i < |layout| => layout[i].id)
  }

  /** `createLayout`'s update: the first "paths" section gets `PathsSection(items)` as its groups. */
  function WithPaths(layout: seq<Layout>, items: seq<WorldItem>): (r: seq<Layout>)
    requires "paths" in Ids(layout)
    ensures |r| == |layout| && Ids(r) == Ids(layout)
  {
    var k := FindSection(layout, "paths");
    assert k.Some? by {
      var j :| 0 <= j < |layout| && Ids(layout)[j] == "paths";
    }
    var r := layout[k.value := layout[k.value].(groups := PathsSection(items))];
    assert Ids(r) == Ids(layout);
    r
  }

  /**
   * `createLayout` changes the paths section only: that section keeps every
   * field but its groups, which become the path groups and the capacities
   * group; every other section is left as it was.
   */
  lemma WithPathsChangesOnlyPaths(layout: seq<Layout>, items: seq<WorldItem>, i: nat)
    requires "paths" in Ids(layout)
    requires i < |layout|
    ensures var k := FindSection(layout, "paths").value;
      WithPaths(layout, items)[i] == if i == k then layout[i].(groups := PathsSection(items)) else layout[i]
  {
  }

  /** Because the paths groups are replaced, not appended to, running `createLayout` again with the same items changes nothing. */
  lemma WithPathsIdempotent(layout: seq<Layout>, items: seq<WorldItem>)
    requires "paths" in Ids(layout)
    ensures WithPaths(WithPaths(layout, items), items) == WithPaths(layout, items)
  {
    var once := WithPaths(layout, items);
    var k := FindSection(layout, "paths").value;
    assert FindSection(once, "paths") == Some(k) by {
      FindSectionByIds(layout, once, "paths");
    }
  }

  /** In a layout with the static section ids, the paths section is the fourth, and `createLayout` fills it with the path groups. */
  lemma ValidPathsAt3(layout: seq<Layout>, items: seq<WorldItem>)
    requires Ids(layout) == SectionIds
    ensures "paths" in Ids(layout)
    ensures FindSection(layout, "paths") == Some(3)
    ensures WithPaths(layout, items)[3].groups == PathsSection(items)
  {
    assert Ids(layout)[3] == "paths";
    assert forall j :: 0 <= j < 3 ==> layout[j].id == Ids(layout)[j] == SectionIds[j] != "paths";
  }

  /** Sections with the same ids are searched alike. */
  lemma {:induction false} FindSectionByIds(a: seq<Layout>, b: seq<Layout>, id: string)
    requires Ids(a) == Ids(b)
    ensures FindSection(a, id) == FindSection(b, id)
    decreases |a|
  {
    assert |a| == |Ids(a)| == |Ids(b)| == |b|;
    if a != [] {
      assert a[0].id == Ids(a)[0] == Ids(b)[0] == b[0].id;
      assert Ids(a[1..]) == Ids(a)[1..];
      assert Ids(b[1..]) == Ids(b)[1..];
      FindSectionByIds(a[1..], b[1..], id);
    }
  }

  /** The sections, in order: stats, actions, inventory, paths, effects, utility, whatever the groups. */
  lemma LayoutOfIds(groups: seq<Group>)
    ensures Ids(LayoutOf(groups)) == SectionIds
  {
  }

  // ---------------------------------------------------------------------------
  // The static groups are partitioned among the sections
  // ---------------------------------------------------------------------------

  /** Where each section's groups start and end in `Groups`. */
  const Bounds: seq<nat> := [0, 2, 5, 10, 12, 14]

  /** The index in `SectionPrefixes` of the section a static group belongs to, by position. */
  function SectionOf(i: nat): (q: nat)
    ensures q < 5
  {
    if i < 2 then 0 else if i < 5 then 1 else if i < 10 then 2 else if i < 12 then 3 else 4
  }

  /** The groups of the table between two bounds, as slices. */
  const Blocks: seq<seq<Group>> := [Groups[..2], Groups[2..5], Groups[5..10], Groups[10..12], Groups[12..]]

  lemma BlockIsRun(q: nat)
    requires q < 5
    ensures Blocks[q] == Groups[Bounds[q]..Bounds[q + 1]]
  {
  }

  function Flatten(blocks: seq<seq<Group>>): seq<Group>
    decreases |blocks|
  {
    if blocks == [] then [] else blocks[0] + Flatten(blocks[1..])
  }

  function FilterEach(blocks: seq<seq<Group>>, p: string): (r: seq<seq<Group>>)
    ensures |r| == |blocks|
    ensures forall i :: 0 <= i < |r| ==> r[i] == WithPrefix(blocks[i], p)
  {
    seq(|blocks|, i requires 0 <= i < |blocks| => WithPrefix(blocks[i], p))
  }

  lemma GroupsAreBlocks()
    ensures Flatten(Blocks) == Groups
  {
    assert Flatten(Blocks[4..]) == Groups[12..];
    assert Flatten(Blocks[3..]) == Groups[10..12] + Groups[12..];
    assert Flatten(Blocks[2..]) == Groups[5..10] + Groups[10..12] + Groups[12..];
    assert Flatten(Blocks[1..]) == Groups[2..5] + Groups[5..10] + Groups[10..12] + Groups[12..];
    assert Groups == Groups[..2] + Groups[2..5] + Groups[5..10] + Groups[10..12] + Groups[12..];
  }

  lemma {:induction false} WithPrefixOfBlocks(blocks: seq<seq<Group>>, p: string)
    ensures WithPrefix(Flatten(blocks), p) == Flatten(FilterEach(blocks, p))
    decreases |blocks|
  {
    if blocks != [] {
      WithPrefixAppend(blocks[0], Flatten(blocks[1..]), p);
      WithPrefixOfBlocks(blocks[1..], p);
      assert FilterEach(blocks, p)[1..] == FilterEach(blocks[1..], p);
    }
  }

  lemma {:induction false} FlattenEmpty(blocks: seq<seq<Group>>)
    requires forall i :: 0 <= i < |blocks| ==> blocks[i] == []
    ensures Flatten(blocks) == []
    decreases |blocks|
  {
    if blocks != [] {
      FlattenEmpty(blocks[1..]);
    }
  }

  lemma {:induction false} FlattenOne(blocks: seq<seq<Group>>, q: nat)
    requires q < |blocks|
    requires forall i :: 0 <= i < |blocks| && i != q ==> blocks[i] == []
    ensures Flatten(blocks) == blocks[q]
    decreases |blocks|
  {
    if q == 0 {
      FlattenEmpty(blocks[1..]);
      assert blocks[q] + [] == blocks[q];
    } else {
      FlattenOne(blocks[1..], q - 1);
    }
  }

  /** Every static group's `nestId` starts with the prefix of its section. */
  lemma GroupPrefix(i: nat)
    requires i < |Groups|
    ensures StartsWith(Groups[i].nestId, SectionPrefixes[SectionOf(i)])
  {
    if i < 7 {
      GroupPrefixFirst(i);
    } else {
      GroupPrefixRest(i);
    }
  }

  /** `GroupPrefix` for the first seven groups. */
  lemma GroupPrefixFirst(i: nat)
    requires i < 7
    ensures StartsWith(Groups[i].nestId, SectionPrefixes[SectionOf(i)])
  {
    if i == 0 {} else if i == 1 {} else if i == 2 {} else if i == 3 {} else if i == 4 {}
    else if i == 5 {} else {}
  }

  /** `GroupPrefix` for the remaining groups. */
  lemma GroupPrefixRest(i: nat)
    requires 7 <= i < |Groups|
    ensures StartsWith(Groups[i].nestId, SectionPrefixes[SectionOf(i)])
  {
    if i == 7 {} else if i == 8 {} else if i == 9 {} else if i == 10 {} else if i == 11 {} else {}
  }

  /** The section prefixes begin with distinct letters, so no text starts with two of them. */
  lemma PrefixesExclusive(s: string, a: nat, b: nat)
    requires a < 5 && b < 5 && a != b
    requires StartsWith(s, SectionPrefixes[a])
    ensures !StartsWith(s, SectionPrefixes[b])
  {
    StartsWithHead(s, SectionPrefixes[a]);
    StartsWithHead(s, SectionPrefixes[b]);
    assert SectionPrefixes[a][0] != SectionPrefixes[b][0];
  }

  /** Each static group has exactly one of the section prefixes: that of its own section. */
  lemma GroupHasOnePrefix(i: nat, q: nat)
    requires i < |Groups| && q < 5
    ensures StartsWith(Groups[i].nestId, SectionPrefixes[q]) <==> q == SectionOf(i)
  {
    GroupPrefix(i);
    if q != SectionOf(i) {
      PrefixesExclusive(Groups[i].nestId, SectionOf(i), q);
    }
  }

  lemma BlockFilter(b: nat, q: nat)
    requires b < 5 && q < 5
    ensures WithPrefix(Blocks[b], SectionPrefixes[q]) == if b == q then Blocks[b] else []
  {
    var blk := Blocks[b];
    var p := SectionPrefixes[q];
    assert blk == Groups[Bounds[b]..Bounds[b + 1]];
    forall k | 0 <= k < |blk|
      ensures StartsWith(blk[k].nestId, p) <==> b == q
    {
      assert SectionOf(Bounds[b] + k) == b && blk[k] == Groups[Bounds[b] + k];
      GroupHasOnePrefix(Bounds[b] + k, q);
    }
    if b == q {
      WithPrefixAll(blk, p);
    } else {
      WithPrefixNone(blk, p);
    }
  }

  /** Filtering the static groups on a section prefix gives exactly that section's run of the table, in order. */
  lemma SectionRun(q: nat)
    requires q < 5
    ensures WithPrefix(Groups, SectionPrefixes[q]) == Blocks[q]
  {
    var p := SectionPrefixes[q];
    GroupsAreBlocks();
    WithPrefixOfBlocks(Blocks, p);
    var filtered := FilterEach(Blocks, p);
    forall i | 0 <= i < |filtered| && i != q
      ensures filtered[i] == []
    {
      BlockFilter(i, q);
    }
    BlockFilter(q, q);
    FlattenOne(filtered, q);
  }

  /** The position in the layout of the section filtering on `SectionPrefixes[q]`: the paths section sits at 3. */
  function SectionIndex(q: nat): (k: nat)
    requires q < 5
    ensures k < 6 && k != 3
  {
    if q < 3 then q else q + 1
  }

  /** The groups of the five sections that filter the table, in layout order. */
  function FilteredSections(layout: seq<Layout>): (r: seq<seq<Group>>)
    requires |layout| == 6
    ensures |r| == 5
    ensures forall q :: 0 <= q < 5 ==> r[q] == layout[SectionIndex(q)].groups
  {
    [layout[0].groups, layout[1].groups, layout[2].groups, layout[4].groups, layout[5].groups]
  }

  /** Whatever the table, each filtering section holds the groups whose `nestId` starts with its prefix. */
  lemma LayoutOfSection(groups: seq<Group>, q: nat)
    requires q < 5
    ensures LayoutOf(groups)[SectionIndex(q)].groups == WithPrefix(groups, SectionPrefixes[q])
    ensures LayoutOf(groups)[3].groups == []
  {
  }

  /**
   * Each non-paths section of the static layout holds exactly the static
   * groups whose `nestId` starts with its prefix, and these are one run of
   * the table, in table order.
   */
  lemma StaticSection(q: nat)
    requires q < 5
    ensures StaticLayout[SectionIndex(q)].groups == WithPrefix(Groups, SectionPrefixes[q]) == Blocks[q]
  {
    LayoutOfSection(Groups, q);
    SectionRun(q);
  }

  /** The non-paths sections of the static layout, read in order, are the whole table: they partition it. */
  lemma StaticLayoutPartitionsGroups()
    ensures Flatten(FilteredSections(StaticLayout)) == Groups
  {
    var sections := FilteredSections(StaticLayout);
    forall q | 0 <= q < 5
      ensures sections[q] == Blocks[q]
    {
      StaticSection(q);
    }
    assert sections == Blocks;
    GroupsAreBlocks();
  }

  /** No two static groups share an id. */
  lemma GroupIdsDistinct()
    ensures forall i, j :: 0 <= i < j < |Groups| ==> Groups[i].id != Groups[j].id
  {
  }

  /**
   * The module-level `layout` that `createLayout` updates in place. Its
   * sections keep their ids, so the paths section is always found.
   */
  class LayoutStore {
    var layout: seq<Layout>

    ghost predicate Valid()
      reads this
    {
      Ids(layout) == SectionIds
    }

    constructor ()
      ensures Valid() && layout == StaticLayout
    {
      layout := StaticLayout;
      LayoutOfIds(Groups);
    }

    /** `createLayout`: rebuild the paths section from the world's items and return the whole layout. */
    method CreateLayout(items: seq<WorldItem>) returns (r: seq<Layout>)
      requires Valid()
      modifies this
      ensures Valid()
      ensures layout == WithPaths(old(layout), items) && r == layout
    {
      assert Ids(layout)[3] == "paths";
      var k := FindSection(layout, "paths");
      var paths := PathItems(items);
      var section := layout[k.value];
      layout := layout[k.value := section.(groups := seq(|paths|, i requires 0 <= i < |paths| => PathGroup(paths[i])))];
      layout := layout[k.value := layout[k.value].(groups := layout[k.value].groups + [CapacitiesGroup])];
      r := layout;
    }
  }
}
