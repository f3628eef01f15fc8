/**
 * The action handler's `buildSystemActions`: which actors get groups and
 * actions at all, the custom path groups added under the "paths" section,
 * and the groups of actions for a "character" and for an "encounter", in
 * their fixed order.
 *
 * The HUD's own `addGroup` and `addActions` are recorded in the handler's
 * logs. Of the group producers only the abilities one is modelled; the
 * others are given as the groups they produce for the actor (`Producers`).
 */
module ActionHandling {
  import opened Wrappers
  import opened Builder
  import opened Helpers

  /** A path of the actor: its name and its slug. */
  datatype PathData = PathData(name: string, slug: string)

  /** The actor as the handler reads it. */
  datatype ActorData = ActorData(actorType: string, paths: seq<PathData>, abilities: seq<(string, AbilityValue)>)

  /** What each opaque `build*Actions` producer gives for the actor. */
  datatype Producers = Producers(
    resources: ActionGroup, recovery: ActionGroup, defense: ActionGroup, actions: ActionGroup,
    attacks: ActionGroup, offPathCapacities: ActionGroup,
    inventory: seq<ActionGroup>, capacities: seq<ActionGroup>, effects: seq<ActionGroup>)

  /** A group handed to `addGroup`; `nestId` is absent for the path groups. */
  datatype HudGroup = HudGroup(id: string, nestId: Option<string>, name: string, groupType: string)

  /** One `addGroup(group, { id: parentId })` call. */
  datatype AddedGroup = AddedGroup(group: HudGroup, parentId: string)

  /** One `addActions(actions, { id: groupId, type: groupType })` call. */
  datatype AddedActions = AddedActions(actions: seq<Action>, groupId: string, groupType: string)

  const KnownActors: seq<string> := ["character", "encounter"]

  /** `this.actor?.type`. */
  function ActorType(actor: Option<ActorData>): (t: Option<string>)
    ensures t.Some? <==> actor.Some?
  {
    match actor
    case None => None
    case Some(a) => Some(a.actorType)
  }

  /** The early return: a type that is truthy (not absent, not "") and not a known one. */
  predicate Skipped(actorType: Option<string>) {
    actorType.Some? && actorType.value != "" && actorType.value !in KnownActors
  }

  /** Exactly the absent type, the empty type, "character" and "encounter" go past the early return. */
  lemma SkippedSpec(actorType: Option<string>)
    ensures !Skipped(actorType) <==>
      actorType.None? || actorType.value == "" || actorType.value == "character" || actorType.value == "encounter"
  {
  }

  // ---------------------------------------------------------------------------
  // Custom path groups
  // ---------------------------------------------------------------------------

  /** The group `#prepareCustomPaths` adds for one path. */
  function PathHudGroup(path: PathData): HudGroup {
    HudGroup(path.slug, None, path.name, "system")
  }

  /** The group that closes the custom path groups. */
  function CapacitiesHudGroup(i18n: string -> string): HudGroup {
    HudGroup("capacities", Some("paths_capacities"), i18n("CO2.Groups.OffPathCapacities"), "system")
  }

  /**
   * The `addGroup` calls of `#prepareCustomPaths`: one group per path of the
   * actor, in order, under "paths", and then the capacities group, once, last.
   */
  function PathGroups(paths: seq<PathData>, i18n: string -> string): (r: seq<AddedGroup>)
    ensures |r| == |paths| + 1
    ensures forall i :: 0 <= i < |paths| ==>
      (r[i].parentId == "paths" && r[i].group.id == paths[i].slug && r[i].group.name == paths[i].name &&
       r[i].group.nestId.None? && r[i].group.groupType == "system")
    ensures r[|paths|] == AddedGroup(CapacitiesHudGroup(i18n), "paths")
    decreases |paths|
  {
    if paths == [] then [AddedGroup(CapacitiesHudGroup(i18n), "paths")]
    else [AddedGroup(PathHudGroup(paths[0]), "paths")] + PathGroups(paths[1..], i18n)
  }

  /** The custom path groups `buildSystemActions` adds: none without an actor. */
  function CustomPathGroups(actor: Option<ActorData>, i18n: string -> string): (r: seq<AddedGroup>)
    ensures actor.None? <==> r == []
  {
    match actor
    case None => []
    case Some(a) => PathGroups(a.paths, i18n)
  }

  // ---------------------------------------------------------------------------
  // The groups of actions per actor type
  // ---------------------------------------------------------------------------

  /** The abilities group `buildAbilitiesActions` builds for the actor. */
  function AbilitiesGroup(i18n: string -> string, abilityLabel: string -> string, actor: ActorData): ActionGroup {
    ActionGroup("abilities", AbilityActions(i18n, abilityLabel, actor.abilities))
  }

  /** `#buildCharacterGroups`. */
  function CharacterGroups(abilities: ActionGroup, p: Producers): seq<ActionGroup> {
    [abilities, p.resources, p.recovery, p.defense, p.actions] + p.inventory + p.capacities
      + [p.offPathCapacities] + p.effects
  }

  /** `#buildEncounterGroups`. */
  function EncounterGroups(abilities: ActionGroup, p: Producers): seq<ActionGroup> {
    [abilities, p.recovery, p.defense, p.attacks, p.actions, p.offPathCapacities] + p.effects
  }

  /** `#getAvailableActions` for the actor's type; `#buildTokensGroups` gives none. */
  function AvailableGroups(i18n: string -> string, abilityLabel: string -> string,
                           actor: Option<ActorData>, p: Producers): (r: seq<ActionGroup>)
    ensures ActorType(actor) != Some("character") && ActorType(actor) != Some("encounter") ==> r == []
  {
    match actor
    case None => []
    case Some(a) =>
      if a.actorType == "character" then CharacterGroups(AbilitiesGroup(i18n, abilityLabel, a), p)
      else if a.actorType == "encounter" then EncounterGroups(AbilitiesGroup(i18n, abilityLabel, a), p)
      else []
  }

  /** The kinds of group, each standing for what its producer gives. */
  datatype Kind = Abilities | Resources | Recovery | Defense | Attacks | Actions
                | Inventory | Capacities | OffPathCapacities | Effects

  /** The groups one kind contributes. */
  function KindGroups(k: Kind, abilities: ActionGroup, p: Producers): seq<ActionGroup> {
    match k
    case Abilities => [abilities]
    case Resources => [p.resources]
    case Recovery => [p.recovery]
    case Defense => [p.defense]
    case Attacks => [p.attacks]
    case Actions => [p.actions]
    case Inventory => p.inventory
    case Capacities => p.capacities
    case OffPathCapacities => [p.offPathCapacities]
    case Effects => p.effects
  }

  /** The groups of a list of kinds, kind after kind. */
  function Expand(kinds: seq<Kind>, abilities: ActionGroup, p: Producers): seq<ActionGroup>
    decreases |kinds|
  {
    if kinds == [] then [] else KindGroups(kinds[0], abilities, p) + Expand(kinds[1..], abilities, p)
  }

  const CharacterOrder: seq<Kind> :=
    [Abilities, Resources, Recovery, Defense, Actions, Inventory, Capacities, OffPathCapacities, Effects]

  const EncounterOrder: seq<Kind> := [Abilities, Recovery, Defense, Attacks, Actions, OffPathCapacities, Effects]

  /** A character's groups come kind by kind in the order abilities, resources, recovery, defense, actions, inventory, capacities, off-path capacities, effects. */
  lemma CharacterGroupsOrder(abilities: ActionGroup, p: Producers)
    ensures CharacterGroups(abilities, p) == Expand(CharacterOrder, abilities, p)
  {
    ExpandSplit([Abilities, Resources, Recovery, Defense, Actions], [Inventory, Capacities, OffPathCapacities, Effects], abilities, p);
    assert CharacterOrder == [Abilities, Resources, Recovery, Defense, Actions] + [Inventory, Capacities, OffPathCapacities, Effects];
  }

  /** An encounter's groups come kind by kind in the order abilities, recovery, defense, attacks, actions, off-path capacities, effects. */
  lemma EncounterGroupsOrder(abilities: ActionGroup, p: Producers)
    ensures EncounterGroups(abilities, p) == Expand(EncounterOrder, abilities, p)
  {
    ExpandSplit([Abilities, Recovery, Defense, Attacks, Actions, OffPathCapacities], [Effects], abilities, p);
    assert EncounterOrder == [Abilities, Recovery, Defense, Attacks, Actions, OffPathCapacities] + [Effects];
  }

  lemma {:induction false} ExpandSplit(a: seq<Kind>, b: seq<Kind>, abilities: ActionGroup, p: Producers)
    ensures Expand(a + b, abilities, p) == Expand(a, abilities, p) + Expand(b, abilities, p)
    decreases |a|
  {
    if a == [] {
      assert a + b == b;
    } else {
      assert (a + b)[0] == a[0] && (a + b)[1..] == a[1..] + b;
      ExpandSplit(a[1..], b, abilities, p);
    }
  }

  /**
   * An encounter shows no resources, inventory or path capacities: its groups
   * do not depend on what those producers give. A character shows no attacks.
   */
  lemma GroupsIgnoreProducers(abilities: ActionGroup, p: Producers, q: Producers)
    requires q.recovery == p.recovery && q.defense == p.defense && q.actions == p.actions
    requires q.offPathCapacities == p.offPathCapacities && q.effects == p.effects
    ensures q.attacks == p.attacks ==> EncounterGroups(abilities, q) == EncounterGroups(abilities, p)
    ensures q.resources == p.resources && q.inventory == p.inventory && q.capacities == p.capacities ==>
      CharacterGroups(abilities, q) == CharacterGroups(abilities, p)
  {
  }

  /** The `addActions` calls for a list of groups: each under its own `groupId`, with type "system", in list order. */
  function Batches(groups: seq<ActionGroup>): (r: seq<AddedActions>)
    ensures |r| == |groups|
    ensures forall i :: 0 <= i < |groups| ==>
      r[i].actions == groups[i].actions && r[i].groupId == groups[i].groupId && r[i].groupType == "system"
    decreases |groups|
  {
    if groups == [] then [] else [AddedActions(groups[0].actions, groups[0].groupId, "system")] + Batches(groups[1..])
  }

  lemma {:induction false} BatchesAppend(a: seq<ActionGroup>, b: seq<ActionGroup>)
    ensures Batches(a + b) == Batches(a) + Batches(b)
    decreases |a|
  {
    if a == [] {
      assert a + b == b;
    } else {
      assert (a + b)[0] == a[0] && (a + b)[1..] == a[1..] + b;
      BatchesAppend(a[1..], b);
    }
  }

  /**
   * The whole of `buildSystemActions` for an actor: an actor of an unknown,
   * non-empty type adds nothing; without an actor nothing is added either;
   * an actor of empty type gets its path groups and no actions.
   */
  lemma BuildSystemActionsCases(i18n: string -> string, abilityLabel: string -> string,
                                actor: Option<ActorData>, p: Producers)
    ensures actor.None? ==> CustomPathGroups(actor, i18n) == [] && AvailableGroups(i18n, abilityLabel, actor, p) == []
    ensures actor.Some? && actor.value.actorType == "" ==>
      !Skipped(ActorType(actor)) && |CustomPathGroups(actor, i18n)| == |actor.value.paths| + 1 &&
      AvailableGroups(i18n, abilityLabel, actor, p) == []
    ensures actor.Some? && actor.value.actorType == "character" ==>
      AvailableGroups(i18n, abilityLabel, actor, p) == Expand(CharacterOrder, AbilitiesGroup(i18n, abilityLabel, actor.value), p)
    ensures actor.Some? && actor.value.actorType == "encounter" ==>
      AvailableGroups(i18n, abilityLabel, actor, p) == Expand(EncounterOrder, AbilitiesGroup(i18n, abilityLabel, actor.value), p)
  {
    if actor.Some? {
      CharacterGroupsOrder(AbilitiesGroup(i18n, abilityLabel, actor.value), p);
      EncounterGroupsOrder(AbilitiesGroup(i18n, abilityLabel, actor.value), p);
    }
  }

  // ---------------------------------------------------------------------------
  // The handler
  // ---------------------------------------------------------------------------

  /**
   * The action handler for one actor (or none). `groups` and `batches` log
   * the HUD's `addGroup` and `addActions` calls in the order they are made.
   */
  class ActionHandler {
    const actor: Option<ActorData>
    const i18n: string -> string
    const abilityLabel: string -> string
    const producers: Producers
    var groups: seq<AddedGroup>
    var batches: seq<AddedActions>

    constructor (actor: Option<ActorData>, i18n: string -> string, abilityLabel: string -> string, producers: Producers)
      ensures this.actor == actor && this.i18n == i18n && this.abilityLabel == abilityLabel
      ensures this.producers == producers
      ensures groups == [] && batches == []
    {
      this.actor := actor;
      this.i18n := i18n;
      this.abilityLabel := abilityLabel;
      this.producers := producers;
      groups := [];
      batches := [];
    }

    /** The HUD's `addGroup`. */
    method AddGroup(group: HudGroup, parentId: string)
      modifies this
      ensures groups == old(groups) + [AddedGroup(group, parentId)]
      ensures batches == old(batches)
    {
      groups := groups + [AddedGroup(group, parentId)];
    }

    /** The HUD's `addActions`. */
    method AddActions(actions: seq<Action>, groupId: string, groupType: string)
      modifies this
      ensures batches == old(batches) + [AddedActions(actions, groupId, groupType)]
      ensures groups == old(groups)
    {
      batches := batches + [AddedActions(actions, groupId, groupType)];
    }

    /** `buildSystemActions`. */
    method BuildSystemActions()
      modifies this
      ensures Skipped(ActorType(actor)) ==> groups == old(groups) && batches == old(batches)
      ensures !Skipped(ActorType(actor)) ==>
        groups == old(groups) + CustomPathGroups(actor, i18n) &&
        batches == old(batches) + Batches(AvailableGroups(i18n, abilityLabel, actor, producers))
    {
      var actorType := ActorType(actor);
      if actorType.Some? && actorType.value != "" && actorType.value !in KnownActors {
        return;
      }
      if actor.Some? {
        PrepareCustomPaths();
      }
      var available := GetAvailableActions(actorType);
      ghost var before := batches;
      for i := 0 to |available|
        invariant groups == old(groups) + CustomPathGroups(actor, i18n)
        invariant batches == before + Batches(available[..i])
      {
        AddActions(available[i].actions, available[i].groupId, "system");
        BatchesAppend(available[..i], [available[i]]);
        assert available[..i + 1] == available[..i] + [available[i]];
      }
      assert available[..|available|] == available;
    }

    /** `#prepareCustomPaths`. */
    method PrepareCustomPaths()
      requires actor.Some?
      modifies this
      ensures groups == old(groups) + PathGroups(actor.value.paths, i18n)
      ensures batches == old(batches)
    {
      var paths := actor.value.paths;
      for i := 0 to |paths|
        invariant groups == old(groups) + seq(i, j requires 0 <= j < i => AddedGroup(PathHudGroup(paths[j]), "paths"))
        invariant batches == old(batches)
      {
        AddGroup(PathHudGroup(paths[i]), "paths");
      }
      AddGroup(CapacitiesHudGroup(i18n), "paths");
      PathGroupsAsSeq(paths, i18n);
    }

    /** `#getAvailableActions`, building the abilities group with `buildAbilitiesActions`. */
    method GetAvailableActions(actorType: Option<string>) returns (r: seq<ActionGroup>)
      requires actorType == ActorType(actor)
      ensures r == AvailableGroups(i18n, abilityLabel, actor, producers)
    {
      if actorType == Some("character") {
        var abilities := BuildAbilitiesActions(i18n, abilityLabel, actor.value.abilities);
        r := CharacterGroups(abilities, producers);
      } else if actorType == Some("encounter") {
        var abilities := BuildAbilitiesActions(i18n, abilityLabel, actor.value.abilities);
        r := EncounterGroups(abilities, producers);
      } else {
        r := [];
      }
    }
  }

  /** `PathGroups` is the per-path groups followed by the capacities group. */
  lemma {:induction false} PathGroupsAsSeq(paths: seq<PathData>, i18n: string -> string)
    ensures PathGroups(paths, i18n) ==
      seq(|paths|, j requires 0 <= j < |paths| => AddedGroup(PathHudGroup(paths[j]), "paths"))
        + [AddedGroup(CapacitiesHudGroup(i18n), "paths")]
    decreases |paths|
  {
    if paths != [] {
      PathGroupsAsSeq(paths[1..], i18n);
    }
  }
}
