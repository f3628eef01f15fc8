/**
 * The roll handler: how a click on a HUD action is routed by its modifier
 * keys, and what each action type then asks of the host (roll a skill,
 * toggle a status effect, activate an item action, ...).
 *
 * Host calls are not executed: an `Actor` records, in order, every call made
 * on it, and keeps the one piece of host state the handler itself reads back,
 * the set of active status effects. `fromUuid` is a lookup in `world` that
 * may fail. Messages to chat and sheet renders go to the handler's `ui` log.
 */
module RollHandling {
  import opened Wrappers
  import opened Text

  const FULL_DEF := "fullDef"
  const PARTIAL_DEF := "partialDef"
  const CONSUMABLE := "consumable"

  // ---------------------------------------------------------------------------
  // Host documents
  // ---------------------------------------------------------------------------

  datatype Resolver = Resolver(kind: string, id: string)

  /** An item's action: whether it is currently enabled, and its resolvers. */
  datatype ItemAction = ItemAction(enabled: bool, resolvers: seq<Resolver>)

  /** An item or a capacity, as far as the handler looks into it; `hasSheet` is whether its `sheet` is set. */
  datatype Item = Item(uuid: string, id: string, name: string, isConsumable: bool, actions: seq<ItemAction>, hasSheet: bool)

  /** A call the handler makes on an actor. */
  datatype ActorCall =
    | RollSkill(skill: string, withDialog: bool)
    | RollFortune
    | UseRecovery(full: bool)
    | ToggleStatusEffect(effect: string, active: Option<bool>)
    | ActivateAction(state: bool, source: string, indice: JsNumber)
    | ToggleEquipmentEquipped(itemId: string)
    | Consume(resolver: Resolver, itemUuid: string)
    | RollAttack(itemUuid: string)

  /** A call the handler makes outside any actor: to the chat, or to a sheet. */
  datatype UiCall =
    | SendToChat(source: string, itemName: string, indice: Option<string>)
    | RenderSheet(itemUuid: string)

  /**
   * `toggleStatusEffect(effect, { active })`: with no `active` the effect is
   * flipped, otherwise it is set to `active`. No other effect changes.
   */
  function Toggled(effects: set<string>, effect: string, active: Option<bool>): (r: set<string>)
    ensures effect in r <==> (if active.Some? then active.value else effect !in effects)
    ensures r - {effect} == effects - {effect}
  {
    var on := if active.Some? then active.value else effect !in effects;
    if on then effects + {effect} else effects - {effect}
  }

  /** The active effects after the host has carried out `calls` in order. */
  function Replay(effects: set<string>, calls: seq<ActorCall>): set<string>
    decreases |calls|
  {
    if calls == [] then effects
    else
      var next := if calls[0].ToggleStatusEffect? then Toggled(effects, calls[0].effect, calls[0].active) else effects;
      Replay(next, calls[1..])
  }

  class Actor {
    var effects: set<string>
    var calls: seq<ActorCall>

    constructor (effects: set<string>)
      ensures this.effects == effects && calls == []
    {
      this.effects := effects;
      calls := [];
    }

    predicate HasEffect(effect: string)
      reads this
    {
      effect in effects
    }

    method ToggleStatusEffect(effect: string, active: Option<bool>)
      modifies this
      ensures effects == Toggled(old(effects), effect, active)
      ensures calls == old(calls) + [ActorCall.ToggleStatusEffect(effect, active)]
    {
      effects := Toggled(effects, effect, active);
      calls := calls + [ActorCall.ToggleStatusEffect(effect, active)];
    }

    /** Any call other than a status toggle: recorded, effects left alone. */
    method Call(c: ActorCall)
      requires !c.ToggleStatusEffect?
      modifies this
      ensures effects == old(effects)
      ensures calls == old(calls) + [c]
    {
      calls := calls + [c];
    }
  }

  datatype Token = Token(actor: Actor?)

  // ---------------------------------------------------------------------------
  // Click routing
  // ---------------------------------------------------------------------------

  /** The four handlers `#getAction` can pick, and the default that does nothing. */
  datatype ClickHandler = Primary | AlternatePrimary | SendToChatHandler | ShowSheetHandler | NoOp

  function BoolText(b: bool): string {
    if b then "true" else "false"
  }

  /** `[isRightClick, isShift, isCtrl].join(",")`, the key `#getAction` switches on. */
  function ModifierKey(rightClick: bool, shift: bool, ctrl: bool): string {
    BoolText(rightClick) + "," + BoolText(shift) + "," + BoolText(ctrl)
  }

  /** What tells the keys apart: the first letter of each of the three words. */
  lemma ModifierKeyLetters(rightClick: bool, shift: bool, ctrl: bool)
    ensures var key := ModifierKey(rightClick, shift, ctrl);
      var n1 := |BoolText(rightClick)| + 1;
      var n2 := n1 + |BoolText(shift)| + 1;
      && |key| == n2 + |BoolText(ctrl)|
      && key[0] == (if rightClick then 't' else 'f')
      && key[n1] == (if shift then 't' else 'f')
      && key[n2] == (if ctrl then 't' else 'f')
  {
  }

  /** `#getAction`: which handler a click runs, from the key its modifiers join to. */
  function GetAction(rightClick: bool, shift: bool, ctrl: bool): ClickHandler {
    match ModifierKey(rightClick, shift, ctrl)
    case "false,false,false" => Primary
    case "false,true,false" => AlternatePrimary
    case "true,false,false" => SendToChatHandler
    case "true,true,false" => ShowSheetHandler
    case _ => NoOp
  }

  /** The dispatch `#getAction` intends: ctrl disables, then right click and shift choose among the four handlers. */
  function DispatchTable(rightClick: bool, shift: bool, ctrl: bool): ClickHandler {
    if ctrl then NoOp
    else if rightClick then (if shift then ShowSheetHandler else SendToChatHandler)
    else if shift then AlternatePrimary
    else Primary
  }

  /** Switching on the joined key is the dispatch table. */
  lemma GetActionIsTable(rightClick: bool, shift: bool, ctrl: bool)
    ensures GetAction(rightClick, shift, ctrl) == DispatchTable(rightClick, shift, ctrl)
  {
    GetActionTable(rightClick, shift, ctrl);
  }

  /**
   * The dispatch table: left click runs the primary action, shift + left
   * click the alternate one, right click sends to chat, shift + right click
   * shows the sheet, and any click with ctrl does nothing. Alt plays no part.
   */
  lemma GetActionTable(rightClick: bool, shift: bool, ctrl: bool)
    ensures var h := GetAction(rightClick, shift, ctrl);
      && (h == Primary <==> !rightClick && !shift && !ctrl)
      && (h == AlternatePrimary <==> !rightClick && shift && !ctrl)
      && (h == SendToChatHandler <==> rightClick && !shift && !ctrl)
      && (h == ShowSheetHandler <==> rightClick && shift && !ctrl)
      && (h == NoOp <==> ctrl)
  {
    var key := ModifierKey(rightClick, shift, ctrl);
    ModifierKeyLetters(rightClick, shift, ctrl);
    var n1 := |BoolText(rightClick)| + 1;
    var n2 := n1 + |BoolText(shift)| + 1;
    if ctrl {
      assert key[n2] == 't';
      assert key != "false,false,false" by { assert "false,false,false"[12] == 'f'; }
      assert key != "false,true,false" by { assert "false,true,false"[11] == 'f'; }
      assert key != "true,false,false" by { assert "true,false,false"[11] == 'f'; }
      assert key != "true,true,false" by { assert "true,true,false"[10] == 'f'; }
    } else if !rightClick && !shift {
      assert key == "false,false,false";
    } else if !rightClick {
      assert key == "false,true,false";
    } else if !shift {
      assert key == "true,false,false";
    } else {
      assert key == "true,true,false";
    }
  }

  /** The actors `handleActionClick` runs the action for: the selected one alone, or else each token's actor in order. */
  function Targets(selected: Actor?, tokens: seq<Token>): seq<Actor> {
    if selected != null then [selected] else TokenActors(tokens)
  }

  /** The actors of the tokens that have one, in token order. */
  function TokenActors(tokens: seq<Token>): (r: seq<Actor>)
    ensures |r| <= |tokens|
    decreases |tokens|
  {
    if tokens == [] then []
    else if tokens[0].actor == null then TokenActors(tokens[1..])
    else [tokens[0].actor] + TokenActors(tokens[1..])
  }

  /** The actors taken from the tokens are exactly the actors some token has. */
  lemma {:induction false} TokenActorsMembers(tokens: seq<Token>)
    ensures forall a :: a in TokenActors(tokens) ==> exists t :: t in tokens && t.actor == a
    ensures forall t :: t in tokens && t.actor != null ==> t.actor in TokenActors(tokens)
    decreases |tokens|
  {
    if tokens != [] {
      TokenActorsMembers(tokens[1..]);
      forall a | a in TokenActors(tokens[1..]) ensures exists t :: t in tokens && t.actor == a {
        var t :| t in tokens[1..] && t.actor == a;
        assert t in tokens;
      }
      forall t | t in tokens && t != tokens[0] ensures t in tokens[1..] {
        var i :| 0 <= i < |tokens| && tokens[i] == t;
        assert tokens[1..][i - 1] == t;
      }
    }
  }

  /** The targets are the selected actor alone, or else exactly the actors of the controlled tokens. */
  lemma TargetsMembers(selected: Actor?, tokens: seq<Token>)
    ensures selected != null ==> Targets(selected, tokens) == [selected]
    ensures selected == null ==> forall t :: t in tokens && t.actor != null ==> t.actor in Targets(selected, tokens)
    ensures forall a :: a in Targets(selected, tokens) ==> a == selected || exists t :: t in tokens && t.actor == a
  {
    TokenActorsMembers(tokens);
  }

  /** When every token has an actor, the action runs once per token, in token order. */
  lemma {:induction false} TokenActorsAll(tokens: seq<Token>)
    requires forall i :: 0 <= i < |tokens| ==> tokens[i].actor != null
    ensures |TokenActors(tokens)| == |tokens|
    ensures forall i :: 0 <= i < |tokens| ==> TokenActors(tokens)[i] == tokens[i].actor
    decreases |tokens|
  {
    if tokens != [] {
      TokenActorsAll(tokens[1..]);
    }
  }

  // ---------------------------------------------------------------------------
  // Defence toggling
  // ---------------------------------------------------------------------------

  /** The status toggles `useDefense` asks for: first switch the other defence off if needed, then flip the requested one. */
  function DefenseCalls(effects: set<string>, effect: string): seq<ActorCall> {
    DefensePrefix(effects, effect) + [ActorCall.ToggleStatusEffect(effect, None)]
  }

  /** The switch-off `useDefense` makes before the toggle, if any. */
  function DefensePrefix(effects: set<string>, effect: string): seq<ActorCall> {
    if effect == FULL_DEF && FULL_DEF !in effects && PARTIAL_DEF in effects
    then [ActorCall.ToggleStatusEffect(PARTIAL_DEF, Some(false))]
    else if effect == PARTIAL_DEF && PARTIAL_DEF !in effects && FULL_DEF in effects
    then [ActorCall.ToggleStatusEffect(FULL_DEF, Some(false))]
    else []
  }

  /** Replaying one more status toggle toggles the replayed state. */
  lemma {:induction false} ReplayAppend(effects: set<string>, calls: seq<ActorCall>, effect: string, active: Option<bool>)
    ensures Replay(effects, calls + [ActorCall.ToggleStatusEffect(effect, active)]) ==
            Toggled(Replay(effects, calls), effect, active)
    decreases |calls|
  {
    var c := ActorCall.ToggleStatusEffect(effect, active);
    if calls == [] {
      assert Replay(Toggled(effects, effect, active), []) == Toggled(effects, effect, active);
    } else {
      assert (calls + [c])[1..] == calls[1..] + [c];
      var next := if calls[0].ToggleStatusEffect? then Toggled(effects, calls[0].effect, calls[0].active) else effects;
      ReplayAppend(next, calls[1..], effect, active);
    }
  }

  function DefenseAfter(effects: set<string>, effect: string): set<string> {
    Replay(effects, DefenseCalls(effects, effect))
  }

  predicate BothDefenses(effects: set<string>) {
    FULL_DEF in effects && PARTIAL_DEF in effects
  }

  /** `useDefense`'s effect on the active effects: the optional switch-off, then the toggle. */
  lemma DefenseAfterIs(effects: set<string>, effect: string)
    ensures DefenseAfter(effects, effect) == Toggled(Replay(effects, DefensePrefix(effects, effect)), effect, None)
  {
    ReplayAppend(effects, DefensePrefix(effects, effect), effect, None);
  }

  /** Turning one defence on while the other is active switches the other off first. */
  lemma DefenseSwitchesOtherOff(effects: set<string>, effect: string, other: string)
    requires (effect == FULL_DEF && other == PARTIAL_DEF) || (effect == PARTIAL_DEF && other == FULL_DEF)
    requires effect !in effects && other in effects
    ensures DefenseCalls(effects, effect) == [ActorCall.ToggleStatusEffect(other, Some(false)), ActorCall.ToggleStatusEffect(effect, None)]
    ensures DefenseAfter(effects, effect) == effects - {other} + {effect}
  {
    DefenseAfterIs(effects, effect);
    var prefix := DefensePrefix(effects, effect);
    assert Replay(effects, prefix) == Replay(Toggled(effects, other, Some(false)), []);
  }

  /** Clicking a defence that is already active only switches it off. */
  lemma DefenseActiveSwitchesOff(effects: set<string>, effect: string)
    requires effect == FULL_DEF || effect == PARTIAL_DEF
    requires effect in effects
    ensures DefenseCalls(effects, effect) == [ActorCall.ToggleStatusEffect(effect, None)]
    ensures DefenseAfter(effects, effect) == effects - {effect}
  {
    DefenseAfterIs(effects, effect);
  }

  /** If the two defences were not both active, they are not both active after `useDefense`, whatever was clicked. */
  lemma DefenseKeepsExclusive(effects: set<string>, effect: string)
    requires !BothDefenses(effects)
    ensures !BothDefenses(DefenseAfter(effects, effect))
  {
    DefenseAfterIs(effects, effect);
    var prefix := DefensePrefix(effects, effect);
    if prefix != [] {
      assert Replay(effects, prefix) == Replay(Toggled(effects, prefix[0].effect, prefix[0].active), []);
    }
  }

  /** The active effects after a run of `useDefense` clicks. */
  function DefenseAfterAll(effects: set<string>, clicks: seq<string>): set<string>
    decreases |clicks|
  {
    if clicks == [] then effects else DefenseAfterAll(DefenseAfter(effects, clicks[0]), clicks[1..])
  }

  /** Starting without both defences, no run of `useDefense` clicks ever activates both. */
  lemma {:induction false} DefensesStayExclusive(effects: set<string>, clicks: seq<string>)
    requires !BothDefenses(effects)
    ensures !BothDefenses(DefenseAfterAll(effects, clicks))
    decreases |clicks|
  {
    if clicks != [] {
      DefenseKeepsExclusive(effects, clicks[0]);
      DefensesStayExclusive(DefenseAfter(effects, clicks[0]), clicks[1..]);
    }
  }

  // ---------------------------------------------------------------------------
  // Action ids
  // ---------------------------------------------------------------------------

  /**
   * The `[sourceUuid, indice]` of `actionId.split(":")` when both are
   * present and non-empty, which is what `useAction` and `toggleEffect`
   * need before they do anything; `None` otherwise.
   */
  function PrimarySourceIndex(actionId: string): (r: Option<(string, string)>)
    ensures r.Some? ==> r.value.0 != "" && r.value.1 != ""
  {
    var fields := Split(actionId, ':');
    var indice := Field(fields, 1);
    if fields[0] == "" || indice.None? || indice.value == "" then None else Some((fields[0], indice.value))
  }

  /** `actionId` is `source:index` or `source:index:...` with both parts non-empty. */
  predicate HasSourceAndIndex(actionId: string, source: string, index: string) {
    source != "" && index != "" && ':' !in source && ':' !in index &&
    var head := source + ":" + index;
    head <= actionId && (|head| == |actionId| || actionId[|head|] == ':')
  }

  /** The first two fields of a text holding `:`, and where they sit in it. */
  lemma FirstTwoFields(s: string)
    requires ':' in s
    ensures |Split(s, ':')| >= 2
    ensures var head := Split(s, ':')[0] + ":" + Split(s, ':')[1];
      head <= s && (|head| == |s| || s[|head|] == ':')
  {
    var fields := Split(s, ':');
    var k := FirstIndex(s, ':');
    var rest := s[k + 1..];
    var k2 := FirstIndex(rest, ':');
    SecondField(s);
    var head := fields[0] + ":" + fields[1];
    assert head == s[..k] + [':'] + rest[..k2];
    PrefixJoin(s, k, k2);
    assert |head| < |s| ==> s[|head|] == rest[k2];
  }

  /** The second field of a text holding `:` runs from its first `:` to the next one (or the end). */
  lemma SecondField(s: string)
    requires ':' in s
    ensures |Split(s, ':')| >= 2
    ensures var k := FirstIndex(s, ':');
      Split(s, ':')[0] == s[..k] &&
      Split(s, ':')[1] == s[k + 1..][..FirstIndex(s[k + 1..], ':')]
  {
    SplitHasSep(s, ':');
    var k := FirstIndex(s, ':');
    var rest := s[k + 1..];
    if ':' in rest {
      SplitHasSep(rest, ':');
    } else {
      SplitWithoutSep(rest, ':');
    }
  }

  lemma PrefixJoin(s: string, k: nat, k2: nat)
    requires k < |s| && s[k] == ':' && k + 1 + k2 <= |s|
    ensures s[..k] + [':'] + s[k + 1..][..k2] == s[..k + 1 + k2]
  {
  }

  /** A text that starts with `source:index` holds a `:`. */
  lemma HeadHasColon(actionId: string, source: string, index: string)
    requires HasSourceAndIndex(actionId, source, index)
    ensures ':' in actionId
  {
    assert actionId[|source|] == (source + ":" + index)[|source|];
  }

  /** A prefix without `:` that is followed by `:` (or is everything) is the text before the first `:`. */
  lemma FirstFieldUnique(s: string, a: string)
    requires ':' !in a && a <= s && (|a| == |s| || s[|a|] == ':')
    ensures FirstIndex(s, ':') == |a|
  {
    var k := FirstIndex(s, ':');
    assert forall i :: 0 <= i < |a| ==> s[i] == a[i];
  }

  /** `PrimarySourceIndex` finds `source` and `index` exactly when `actionId` starts with `source:index` (then `:` or the end). */
  lemma PrimarySourceIndexSpec(actionId: string, source: string, index: string)
    ensures PrimarySourceIndex(actionId) == Some((source, index)) <==> HasSourceAndIndex(actionId, source, index)
  {
    var fields := Split(actionId, ':');
    if HasSourceAndIndex(actionId, source, index) {
      HeadHasColon(actionId, source, index);
    }
    if ':' !in actionId {
      SplitWithoutSep(actionId, ':');
    } else {
      FirstTwoFields(actionId);
      if HasSourceAndIndex(actionId, source, index) {
        FirstFieldUnique(actionId, source);
        SplitHasSep(actionId, ':');
        var rest := actionId[|source| + 1..];
        assert fields[0] == source;
        FirstFieldUnique(rest, index);
        if ':' in rest {
          SplitHasSep(rest, ':');
        } else {
          SplitWithoutSep(rest, ':');
        }
        assert fields[1] == index;
      }
    }
  }

  /**
   * The `[source, indice]` that send-to-chat and show-sheet take from
   * `actionId`: the whole id and `null` when it holds no `:`, otherwise the
   * first two `:`-separated fields.
   */
  function ChatTarget(actionId: string): (r: (string, Option<string>))
    ensures r.1.None? <==> ':' !in actionId
    ensures r.1.None? ==> r.0 == actionId
  {
    if FirstIndex(actionId, ':') == |actionId| then (actionId, None)
    else
      var fields := Split(actionId, ':');
      SplitHasSep(actionId, ':');
      (fields[0], Some(fields[1]))
  }

  /** With a `:`, send-to-chat's source and index are the text up to the first `:` and the text from it to the next one. */
  lemma ChatTargetSpec(actionId: string)
    requires ':' in actionId
    ensures var (source, index) := ChatTarget(actionId);
      index.Some? && ':' !in source && ':' !in index.value &&
      var head := source + ":" + index.value;
      head <= actionId && (|head| == |actionId| || actionId[|head|] == ':')
  {
    FirstTwoFields(actionId);
  }

  /** The second field of `actionId.split(":")` as `Number(indice)` sees it; `undefined` when there is none. */
  function AlternateIndex(actionId: string): (r: JsNumber)
    ensures ':' !in actionId ==> r == NaN
  {
    if ':' !in actionId then
      SplitWithoutSep(actionId, ':');
      ToNumberOpt(Field(Split(actionId, ':'), 1))
    else ToNumberOpt(Field(Split(actionId, ':'), 1))
  }

  /**
   * `#toggleActionOrEffect`'s requested state: the negation of the indexed
   * action's `enabled` flag, and `true` when there is no such action.
   */
  function ActivationState(source: Item, indice: JsNumber): (state: bool)
    ensures !state <==>
      indice.Num? && 0 <= indice.value < |source.actions| && source.actions[indice.value].enabled
  {
    if indice.Num? && 0 <= indice.value < |source.actions| then !source.actions[indice.value].enabled else true
  }

  function Activation(source: Item, indice: JsNumber): ActorCall {
    ActivateAction(ActivationState(source, indice), source.uuid, indice)
  }

  // ---------------------------------------------------------------------------
  // Consumables
  // ---------------------------------------------------------------------------

  /** `resolvers.filter((r) => r.type === "consumable")`. */
  function ConsumableOf(resolvers: seq<Resolver>): (r: seq<Resolver>)
    ensures forall x :: x in r <==> x in resolvers && x.kind == CONSUMABLE
    decreases |resolvers|
  {
    if resolvers == [] then []
    else (if resolvers[0].kind == CONSUMABLE then [resolvers[0]] else []) + ConsumableOf(resolvers[1..])
  }

  /** `actions.flatMap((a) => a.resolvers.filter(...))`: the consumable resolvers of every action, in order. */
  function ConsumableResolvers(actions: seq<ItemAction>): (r: seq<Resolver>)
    ensures forall x :: x in r ==> x.kind == CONSUMABLE
    decreases |actions|
  {
    if actions == [] then [] else ConsumableOf(actions[0].resolvers) + ConsumableResolvers(actions[1..])
  }

  /** A resolver is consumed exactly when some action of the item holds it and it is of type "consumable". */
  lemma {:induction false} ConsumableResolversMembers(actions: seq<ItemAction>, x: Resolver)
    ensures x in ConsumableResolvers(actions) <==>
      x.kind == CONSUMABLE && exists i :: 0 <= i < |actions| && x in actions[i].resolvers
    decreases |actions|
  {
    if actions != [] {
      ConsumableResolversMembers(actions[1..], x);
      if x.kind == CONSUMABLE && x !in actions[0].resolvers && exists i :: 0 <= i < |actions| && x in actions[i].resolvers {
        var i :| 0 <= i < |actions| && x in actions[i].resolvers;
        assert x in actions[1..][i - 1].resolvers;
      }
      if exists i :: 0 <= i < |actions[1..]| && x in actions[1..][i].resolvers {
        var i :| 0 <= i < |actions[1..]| && x in actions[1..][i].resolvers;
        assert x in actions[i + 1].resolvers;
      }
    }
  }

  function ConsumeCalls(resolvers: seq<Resolver>, itemUuid: string): (r: seq<ActorCall>)
    ensures |r| == |resolvers|
    ensures forall i :: 0 <= i < |r| ==> r[i] == Consume(resolvers[i], itemUuid)
  {
    seq(|resolvers|, i requires 0 <= i < |resolvers| => Consume(resolvers[i], itemUuid))
  }

  /** What `toggleEquipmentOrUseConsumable` asks of the actor once the item is found. */
  function EquipOrConsume(item: Item): (r: seq<ActorCall>)
    ensures item.isConsumable ==> r == ConsumeCalls(ConsumableResolvers(item.actions), item.uuid)
    ensures !item.isConsumable ==> r == [ToggleEquipmentEquipped(item.id)]
    ensures forall c :: c in r ==> (!c.ToggleEquipmentEquipped? <==> item.isConsumable)
  {
    if item.isConsumable then ConsumeCalls(ConsumableResolvers(item.actions), item.uuid)
    else [ToggleEquipmentEquipped(item.id)]
  }

  // ---------------------------------------------------------------------------
  // What one click does
  // ---------------------------------------------------------------------------

  /** A click as `#handleAction` sees it: the handler its modifier keys pick, the action, and the documents `fromUuid` can find. */
  datatype Click = Click(handler: ClickHandler, actionType: string, actionId: string, world: map<string, Item>)

  /** The activation `useAction` and `toggleEffect` ask for: none unless both parts are there and the source is found. */
  function IndexedActivation(actionId: string, world: map<string, Item>): seq<ActorCall> {
    match PrimarySourceIndex(actionId)
    case None => []
    case Some(si) => if si.0 in world then [Activation(world[si.0], ToNumber(si.1))] else []
  }

  /** The host calls a left click makes on the actor it runs for, whose active effects are `effects`. */
  function PrimaryCalls(actionType: string, actionId: string, world: map<string, Item>, effects: set<string>): seq<ActorCall> {
    match actionType
    case "rollAbility" => [RollSkill(actionId, true)]
    case "rollFortune" => [RollFortune]
    case "useRecovery" => [UseRecovery(actionId == "full")]
    case "useDefense" => DefenseCalls(effects, actionId)
    case "useAttack" => if actionId in world then [Activation(world[actionId], Num(0))] else []
    case "useAction" => IndexedActivation(actionId, world)
    case "toggleEquipmentOrUseConsumable" => if actionId in world then EquipOrConsume(world[actionId]) else []
    case "useCapacity" => if actionId in world then [Activation(world[actionId], Num(0))] else []
    case "toggleEffect" => IndexedActivation(actionId, world)
    case _ => []
  }

  /** The host calls a shift + left click makes on the actor it runs for. */
  function AlternateCalls(actionType: string, actionId: string, world: map<string, Item>): seq<ActorCall> {
    match actionType
    case "rollAbility" => [RollSkill(actionId, false)]
    case "useAttack" => if actionId in world then [RollAttack(world[actionId].uuid)] else []
    case "useAction" =>
      var source := Split(actionId, ':')[0];
      if source in world then [Activation(world[source], AlternateIndex(actionId))] else []
    case _ => []
  }

  /** The chat message a right click posts: none when the lookup fails. */
  function ChatUi(actionId: string, world: map<string, Item>): seq<UiCall> {
    var (source, indice) := ChatTarget(actionId);
    if source in world then [SendToChat(source, world[source].name, indice)] else []
  }

  /** The sheet a shift + right click renders: none when the lookup fails or the document has no sheet. */
  function SheetUi(actionId: string, world: map<string, Item>): seq<UiCall> {
    var source := ChatTarget(actionId).0;
    if source in world && world[source].hasSheet then [RenderSheet(world[source].uuid)] else []
  }

  /** The host calls one run of a click makes on its actor. */
  function ClickCalls(c: Click, effects: set<string>): seq<ActorCall> {
    match c.handler
    case Primary => PrimaryCalls(c.actionType, c.actionId, c.world, effects)
    case AlternatePrimary => AlternateCalls(c.actionType, c.actionId, c.world)
    case _ => []
  }

  /** The actor's active effects after one run of a click. */
  function ClickEffects(c: Click, effects: set<string>): set<string> {
    if c.handler == Primary && c.actionType == "useDefense" then DefenseAfter(effects, c.actionId) else effects
  }

  /** The chat messages and sheet renders one run of a click makes. */
  function ClickUi(c: Click): seq<UiCall> {
    match c.handler
    case SendToChatHandler => ChatUi(c.actionId, c.world)
    case ShowSheetHandler => SheetUi(c.actionId, c.world)
    case _ => []
  }

  /** Whether a run throws: a right click whose lookup fails reads the name of a missing item. */
  predicate ClickThrows(c: Click) {
    c.handler == SendToChatHandler && ChatTarget(c.actionId).0 !in c.world
  }

  /** Replaying calls one after the other. */
  lemma {:induction false} ReplayConcat(effects: set<string>, a: seq<ActorCall>, b: seq<ActorCall>)
    ensures Replay(effects, a + b) == Replay(Replay(effects, a), b)
    decreases |a|
  {
    if a == [] {
      assert a + b == b;
    } else {
      assert (a + b)[1..] == a[1..] + b;
      var next := if a[0].ToggleStatusEffect? then Toggled(effects, a[0].effect, a[0].active) else effects;
      ReplayConcat(next, a[1..], b);
    }
  }

  /** Calls that toggle no status effect leave the effects as they are. */
  lemma {:induction false} ReplayWithoutToggles(effects: set<string>, calls: seq<ActorCall>)
    requires forall i :: 0 <= i < |calls| ==> !calls[i].ToggleStatusEffect?
    ensures Replay(effects, calls) == effects
    decreases |calls|
  {
    if calls != [] {
      ReplayWithoutToggles(effects, calls[1..]);
    }
  }

  /**
   * The effects a click leaves are exactly what the host makes of the calls
   * it records: status effects change only through recorded toggles.
   */
  lemma ClickEffectsReplayCalls(c: Click, effects: set<string>)
    ensures ClickEffects(c, effects) == Replay(effects, ClickCalls(c, effects))
  {
    var calls := ClickCalls(c, effects);
    if !(c.handler == Primary && c.actionType == "useDefense") {
      forall i | 0 <= i < |calls| ensures !calls[i].ToggleStatusEffect? {
        if c.handler == Primary && c.actionType == "toggleEquipmentOrUseConsumable" &&
           c.actionId in c.world && c.world[c.actionId].isConsumable {
          assert calls[i] in calls;
        }
      }
      ReplayWithoutToggles(effects, calls);
    }
  }

  /** The calls `k` runs of the same click make on one actor whose effects start as `effects`. */
  function RunCalls(c: Click, effects: set<string>, k: nat): seq<ActorCall> {
    if k == 0 then [] else RunCalls(c, effects, k - 1) + ClickCalls(c, RunEffects(c, effects, k - 1))
  }

  /** That actor's effects after `k` runs of the same click. */
  function RunEffects(c: Click, effects: set<string>, k: nat): set<string> {
    if k == 0 then effects else ClickEffects(c, RunEffects(c, effects, k - 1))
  }

  /** After any number of runs, the actor's effects are still the host's replay of all the calls it received. */
  lemma {:induction false} RunEffectsReplayCalls(c: Click, effects: set<string>, k: nat)
    ensures RunEffects(c, effects, k) == Replay(effects, RunCalls(c, effects, k))
  {
    if k > 0 {
      RunEffectsReplayCalls(c, effects, k - 1);
      var before := RunEffects(c, effects, k - 1);
      ClickEffectsReplayCalls(c, before);
      ReplayConcat(effects, RunCalls(c, effects, k - 1), ClickCalls(c, before));
    }
  }

  /** An actor's recorded calls and active effects. */
  datatype ActorState = ActorState(calls: seq<ActorCall>, effects: set<string>)

  /** Each actor's state once the runs `runs` of `c` have been made on them, in order, from `start`. */
  function Replayed(c: Click, start: map<Actor, ActorState>, runs: seq<Actor>): (r: map<Actor, ActorState>)
    ensures r.Keys == start.Keys
    decreases |runs|
  {
    if runs == [] then start
    else
      var before := Replayed(c, start, runs[..|runs| - 1]);
      var t := runs[|runs| - 1];
      if t in before then before[t := ActorState(before[t].calls + ClickCalls(c, before[t].effects), ClickEffects(c, before[t].effects))]
      else before
  }

  /**
   * Replaying runs one after the other: an actor targeted `k` times has the
   * calls of `k` runs appended, each run seeing the effects the previous one
   * left, and an actor never targeted keeps its state.
   */
  lemma {:induction false} ReplayedIsRuns(c: Click, start: map<Actor, ActorState>, runs: seq<Actor>)
    ensures forall a :: a in start ==>
      Replayed(c, start, runs)[a] ==
        ActorState(start[a].calls + RunCalls(c, start[a].effects, multiset(runs)[a]),
                   RunEffects(c, start[a].effects, multiset(runs)[a]))
    decreases |runs|
  {
    if runs != [] {
      var init := runs[..|runs| - 1];
      var t := runs[|runs| - 1];
      assert runs == init + [t];
      assert multiset(runs) == multiset(init) + multiset{t};
      ReplayedIsRuns(c, start, init);
      forall a | a in start
        ensures Replayed(c, start, runs)[a] ==
          ActorState(start[a].calls + RunCalls(c, start[a].effects, multiset(runs)[a]),
                     RunEffects(c, start[a].effects, multiset(runs)[a]))
      {
        var before := Replayed(c, start, init);
        if a == t {
          assert multiset(runs)[a] == multiset(init)[a] + 1;
          assert Replayed(c, start, runs)[a] == ActorState(before[a].calls + ClickCalls(c, before[a].effects), ClickEffects(c, before[a].effects));
          RunsStep(c, start[a], multiset(init)[a]);
        } else {
          assert multiset(runs)[a] == multiset(init)[a];
          assert Replayed(c, start, runs)[a] == before[a];
        }
      }
    }
  }

  /** One more run after `k` appends that run's calls and applies its effects. */
  lemma RunsStep(c: Click, s: ActorState, k: nat)
    ensures var e := RunEffects(c, s.effects, k);
      ActorState(s.calls + RunCalls(c, s.effects, k + 1), RunEffects(c, s.effects, k + 1)) ==
      ActorState((s.calls + RunCalls(c, s.effects, k)) + ClickCalls(c, e), ClickEffects(c, e))
  {
    AppendAssoc(s.calls, RunCalls(c, s.effects, k), ClickCalls(c, RunEffects(c, s.effects, k)));
  }

  /** `s` repeated `n` times. */
  function Repeat<T>(s: seq<T>, n: nat): (r: seq<T>)
    ensures |r| == n * |s|
  {
    if n == 0 then [] else Repeat(s, n - 1) + s
  }

  /**
   * The runs a click gets through: every target in order, or only the first
   * when a run throws, since the awaited rejection ends the token loop. Every
   * run of a click throws alike.
   */
  function Entered(targets: seq<Actor>, c: Click): (r: seq<Actor>)
    ensures r <= targets
    ensures |r| == if ClickThrows(c) && targets != [] then 1 else |targets|
  {
    if ClickThrows(c) && targets != [] then targets[..1] else targets
  }

  // ---------------------------------------------------------------------------
  // The token path as written
  // ---------------------------------------------------------------------------

  /**
   * One run of `#handleAction` on the token path, where `this.actor` is
   * missing: whether it throws, the chat messages and sheet renders it makes,
   * and the resolver `consume` calls it makes while handing them no actor.
   */
  datatype UnboundRun = UnboundRun(thrown: bool, ui: seq<UiCall>, unbound: seq<ActorCall>)

  /** A run that stops with a `TypeError` at its first read of the missing `this.actor`. */
  const READS_MISSING_ACTOR := UnboundRun(true, [], [])

  /** A run that returns before reading `this.actor`. */
  const RETURNS_EARLY := UnboundRun(false, [], [])

  /** A left click with `this.actor` missing, branch by branch. */
  function PrimaryWithoutActor(actionType: string, actionId: string, world: map<string, Item>): UnboundRun {
    match actionType
    case "rollAbility" => READS_MISSING_ACTOR
    case "rollFortune" => READS_MISSING_ACTOR
    case "useRecovery" => READS_MISSING_ACTOR
    case "useDefense" => READS_MISSING_ACTOR
    case "useAttack" => if actionId in world then READS_MISSING_ACTOR else RETURNS_EARLY
    case "useAction" =>
      (match PrimarySourceIndex(actionId)
       case None => RETURNS_EARLY
       case Some(si) => if si.0 in world then READS_MISSING_ACTOR else RETURNS_EARLY)
    case "toggleEquipmentOrUseConsumable" =>
      if actionId !in world then RETURNS_EARLY
      else if world[actionId].isConsumable
      then UnboundRun(false, [], ConsumeCalls(ConsumableResolvers(world[actionId].actions), world[actionId].uuid))
      else READS_MISSING_ACTOR
    case "useCapacity" => if actionId in world then READS_MISSING_ACTOR else RETURNS_EARLY
    case "toggleEffect" =>
      (match PrimarySourceIndex(actionId)
       case None => RETURNS_EARLY
       case Some(si) => if si.0 in world then READS_MISSING_ACTOR else RETURNS_EARLY)
    case _ => RETURNS_EARLY
  }

  /** A shift + left click with `this.actor` missing, branch by branch. */
  function AlternateWithoutActor(actionType: string, actionId: string, world: map<string, Item>): UnboundRun {
    match actionType
    case "rollAbility" => READS_MISSING_ACTOR
    case "useAttack" => if actionId in world then READS_MISSING_ACTOR else RETURNS_EARLY
    case "useAction" => if Split(actionId, ':')[0] in world then READS_MISSING_ACTOR else RETURNS_EARLY
    case _ => RETURNS_EARLY
  }

  /** One run of a click with `this.actor` missing. Chat and sheet never read the actor. */
  function RunWithoutActor(c: Click): UnboundRun {
    match c.handler
    case Primary => PrimaryWithoutActor(c.actionType, c.actionId, c.world)
    case AlternatePrimary => AlternateWithoutActor(c.actionType, c.actionId, c.world)
    case SendToChatHandler => UnboundRun(ClickThrows(c), ChatUi(c.actionId, c.world), [])
    case ShowSheetHandler => UnboundRun(false, SheetUi(c.actionId, c.world), [])
    case NoOp => RETURNS_EARLY
  }

  /** Whether a call is made on the actor itself; a resolver's `consume` is handed the actor instead. */
  predicate OnActor(x: ActorCall) {
    !x.Consume?
  }

  /**
   * A left click without its actor throws exactly when, with the actor, it
   * would call the actor; otherwise it makes the same `consume` calls.
   */
  lemma PrimaryWithoutActorSpec(actionType: string, actionId: string, world: map<string, Item>, effects: set<string>)
    ensures var run := PrimaryWithoutActor(actionType, actionId, world);
      var calls := PrimaryCalls(actionType, actionId, world, effects);
      && (run.thrown <==> exists x :: x in calls && OnActor(x))
      && run.ui == []
      && run.unbound == if run.thrown then [] else calls
  {
    var calls := PrimaryCalls(actionType, actionId, world, effects);
    var run := PrimaryWithoutActor(actionType, actionId, world);
    if actionType == "useDefense" {
      assert calls[|calls| - 1] in calls;
    } else if actionType == "toggleEquipmentOrUseConsumable" && actionId in world && world[actionId].isConsumable {
      forall x | x in calls
        ensures !OnActor(x)
      {
        var i :| 0 <= i < |calls| && calls[i] == x;
      }
      assert !run.thrown;
    } else if calls != [] {
      assert calls[0] in calls && OnActor(calls[0]);
    }
  }

  /** The same for a shift + left click. */
  lemma AlternateWithoutActorSpec(actionType: string, actionId: string, world: map<string, Item>)
    ensures var run := AlternateWithoutActor(actionType, actionId, world);
      var calls := AlternateCalls(actionType, actionId, world);
      && (run.thrown <==> exists x :: x in calls && OnActor(x))
      && run.ui == []
      && run.unbound == []
  {
    var calls := AlternateCalls(actionType, actionId, world);
    if calls != [] {
      assert OnActor(calls[0]);
    }
  }

  /**
   * Without its actor, a run throws exactly when the run with its actor
   * throws or calls the actor; it makes the same chat messages and sheet
   * renders, and, when it does not throw, the same `consume` calls.
   */
  lemma RunWithoutActorSpec(c: Click, effects: set<string>)
    ensures RunWithoutActor(c).thrown <==> ClickThrows(c) || exists x :: x in ClickCalls(c, effects) && OnActor(x)
    ensures RunWithoutActor(c).ui == ClickUi(c)
    ensures RunWithoutActor(c).unbound == if RunWithoutActor(c).thrown then [] else ClickCalls(c, effects)
  {
    match c.handler
    case Primary => PrimaryWithoutActorSpec(c.actionType, c.actionId, c.world, effects);
    case AlternatePrimary => AlternateWithoutActorSpec(c.actionType, c.actionId, c.world);
    case SendToChatHandler =>
    case ShowSheetHandler =>
    case NoOp =>
  }

  /** The token loop as written: how many runs it entered, whether it threw, and what the runs made. */
  datatype UnboundLoop = UnboundLoop(entered: nat, thrown: bool, ui: seq<UiCall>, unbound: seq<ActorCall>)

  /**
   * The token loop as written: a run per target, none of them on its
   * target, until a run throws. Every run is the same actor-less run.
   */
  function TokenLoopAsWritten(c: Click, targets: seq<Actor>): (r: UnboundLoop)
    ensures r.thrown == (targets != [] && RunWithoutActor(c).thrown)
    ensures r.entered == if r.thrown then 1 else |targets|
    ensures r.ui == Repeat(RunWithoutActor(c).ui, r.entered)
    ensures r.unbound == Repeat(RunWithoutActor(c).unbound, r.entered)
    decreases |targets|
  {
    if targets == [] then UnboundLoop(0, false, [], [])
    else
      var before := TokenLoopAsWritten(c, targets[..|targets| - 1]);
      if before.thrown then before
      else
        var run := RunWithoutActor(c);
        UnboundLoop(before.entered + 1, run.thrown, before.ui + run.ui, before.unbound + run.unbound)
  }

  /**
   * The token path as written loses its actors: with two or more controlled
   * tokens and a click whose run calls the actor, the first run throws and
   * ends the loop having made nothing, where each run on its own token's actor
   * would go through and make that click's calls on every actor.
   */
  lemma TokenRunsLoseTheirActor(c: Click, tokens: seq<Token>, effects: set<string>)
    requires |TokenActors(tokens)| >= 2
    requires exists x :: x in ClickCalls(c, effects) && OnActor(x)
    ensures TokenLoopAsWritten(c, TokenActors(tokens)) == UnboundLoop(1, true, [], [])
    ensures Entered(Targets(null, tokens), c) == TokenActors(tokens)
    ensures !ClickThrows(c)
  {
    RunWithoutActorSpec(c, effects);
  }

  // ---------------------------------------------------------------------------
  // The handler
  // ---------------------------------------------------------------------------

  class RollHandler {
    const rightClick: bool
    const shift: bool
    const ctrl: bool
    const alt: bool
    /** `this.action.system.actionType` and `.actionId`. */
    const actionType: string
    const actionId: string
    /** The documents `fromUuid` can resolve. */
    const world: map<string, Item>
    /** `this.actor`: the selected actor, if any. */
    const actor: Actor?
    /** `this.tokens`: the controlled tokens. */
    const tokens: seq<Token>
    var ui: seq<UiCall>
    /** The actors `#handleAction` was entered for, in order: the runs a click made. */
    var handled: seq<Actor>

    constructor (rightClick: bool, shift: bool, ctrl: bool, alt: bool, actionType: string, actionId: string,
                 world: map<string, Item>, actor: Actor?, tokens: seq<Token>)
      ensures this.rightClick == rightClick && this.shift == shift && this.ctrl == ctrl && this.alt == alt
      ensures this.actionType == actionType && this.actionId == actionId
      ensures this.world == world && this.actor == actor && this.tokens == tokens
      ensures ui == [] && handled == []
    {
      this.rightClick, this.shift, this.ctrl, this.alt := rightClick, shift, ctrl, alt;
      this.actionType, this.actionId := actionType, actionId;
      this.world, this.actor, this.tokens := world, actor, tokens;
      ui, handled := [], [];
    }

    /** `fromUuid(uuid)`: the document, or nothing. */
    function FromUuid(uuid: string): (r: Option<Item>)
      ensures r.Some? <==> uuid in world
      ensures r.Some? ==> r.value == world[uuid]
    {
      if uuid in world then Some(world[uuid]) else None
    }

    function Actors(): set<Actor> {
      (if actor != null then {actor} else {}) + set t | t in tokens && t.actor != null :: t.actor
    }

    /** The click this handler is handling. */
    function Request(): Click {
      Click(DispatchTable(rightClick, shift, ctrl), actionType, actionId, world)
    }

    /**
     * `handleActionClick`: with a selected actor the action runs once, for
     * it; otherwise once per controlled token that has an actor, in token
     * order, until a run throws. Each actor receives the calls of as many
     * runs as it was targeted, each run seeing the effects the previous one
     * left; an actor that was not targeted is left alone.
     */
    method HandleActionClick() returns (thrown: bool)
      modifies this, Actors()
      ensures var runs := Entered(Targets(actor, tokens), Request());
        && thrown == (runs != [] && ClickThrows(Request()))
        && handled == old(handled) + runs
        && ui == old(ui) + Repeat(ClickUi(Request()), |runs|)
        && forall a: Actor :: a in Actors() ==>
             && a.calls == old(a.calls) + RunCalls(Request(), old(a.effects), multiset(runs)[a])
             && a.effects == RunEffects(Request(), old(a.effects), multiset(runs)[a])
    {
      ghost var start := States();
      ghost var runs: seq<Actor>;
      if actor != null {
        thrown := RunOn(actor, [], start, old(handled), old(ui));
        runs := [actor];
        assert [] + [actor] == runs;
      } else {
        thrown, runs := HandleTokens(start);
      }
      ReplayedIsRuns(Request(), start, runs);
    }

    /**
     * The token branch: one run per controlled token with an actor, in token
     * order, until a run throws. `runs` are the actors the runs were for.
     */
    method HandleTokens(ghost start: map<Actor, ActorState>) returns (thrown: bool, ghost runs: seq<Actor>)
      requires actor == null
      requires Matches(start)
      modifies this, Actors()
      ensures runs == Entered(Targets(actor, tokens), Request())
      ensures thrown == (runs != [] && ClickThrows(Request()))
      ensures handled == old(handled) + runs
      ensures ui == old(ui) + Repeat(ClickUi(Request()), |runs|)
      ensures Matches(Replayed(Request(), start, runs))
    {
      thrown := false;
      var i := 0;
      runs := [];
      while i < |tokens| && !thrown
        invariant 0 <= i <= |tokens|
        invariant runs == TokenActors(tokens[..i])
        invariant thrown == (runs != [] && ClickThrows(Request()))
        invariant thrown ==> |runs| == 1
        invariant handled == old(handled) + runs
        invariant ui == old(ui) + Repeat(ClickUi(Request()), |runs|)
        invariant Matches(Replayed(Request(), start, runs))
      {
        assert tokens[..i + 1] == tokens[..i] + [tokens[i]];
        TokenActorsAppend(tokens[..i], tokens[i]);
        if tokens[i].actor != null {
          var target: Actor := tokens[i].actor;
          assert target in Actors();
          thrown := RunOn(target, runs, start, old(handled), old(ui));
          runs := runs + [target];
        }
        i := i + 1;
      }
      TokenLoopEnd(tokens, i, Request(), thrown);
    }

    /** The actors' calls and effects, as they are now. */
    ghost function States(): (m: map<Actor, ActorState>)
      reads Actors()
      ensures m.Keys == Actors()
    {
      map a | a in Actors() :: ActorState(a.calls, a.effects)
    }

    /** Every actor holds the calls and effects `m` gives it. */
    ghost predicate Matches(m: map<Actor, ActorState>)
      reads Actors()
    {
      forall a :: a in Actors() ==> a in m && m[a] == ActorState(a.calls, a.effects)
    }

    /** One more run of the click, for `target`, after the runs `runs`. */
    method RunOn(target: Actor, ghost runs: seq<Actor>, ghost start: map<Actor, ActorState>,
                 ghost handled0: seq<Actor>, ghost ui0: seq<UiCall>)
      returns (thrown: bool)
      requires target in Actors()
      requires handled == handled0 + runs
      requires ui == ui0 + Repeat(ClickUi(Request()), |runs|)
      requires Matches(Replayed(Request(), start, runs))
      modifies this, target
      ensures thrown == ClickThrows(Request())
      ensures handled == handled0 + (runs + [target])
      ensures ui == ui0 + Repeat(ClickUi(Request()), |runs + [target]|)
      ensures Matches(Replayed(Request(), start, runs + [target]))
    {
      ghost var before := Replayed(Request(), start, runs);
      thrown := HandleAction(target);
      AppendAssoc(ui0, Repeat(ClickUi(Request()), |runs|), ClickUi(Request()));
      AppendAssoc(handled0, runs, [target]);
      assert (runs + [target])[..|runs|] == runs;
      assert |runs + [target]| == |runs| + 1;
    }

    /** `#handleAction`: pick the handler from the modifier keys and run it on `target`. */
    method HandleAction(target: Actor) returns (thrown: bool)
      modifies this, target
      ensures thrown == ClickThrows(Request())
      ensures handled == old(handled) + [target]
      ensures ui == old(ui) + ClickUi(Request())
      ensures target.calls == old(target.calls) + ClickCalls(Request(), old(target.effects))
      ensures target.effects == ClickEffects(Request(), old(target.effects))
    {
      handled := handled + [target];
      var handler := GetAction(rightClick, shift, ctrl);
      GetActionIsTable(rightClick, shift, ctrl);
      assert handler == Request().handler;
      match handler
      case Primary =>
        ExecutePrimaryAction(target);
        thrown := false;
      case AlternatePrimary =>
        ExecuteAlternatePrimaryAction(target);
        thrown := false;
      case SendToChatHandler =>
        thrown := SendActionToChat();
      case ShowSheetHandler =>
        ShowItem();
        thrown := false;
      case NoOp =>
        thrown := false;
    }

    /** `#executePrimaryAction` (left click), switching on the action type. */
    method ExecutePrimaryAction(target: Actor)
      modifies target
      ensures actionType != "useDefense" ==> target.effects == old(target.effects)
      ensures actionType == "rollAbility" ==> target.calls == old(target.calls) + [RollSkill(actionId, true)]
      ensures actionType == "rollFortune" ==> target.calls == old(target.calls) + [RollFortune]
      ensures actionType == "useRecovery" ==> target.calls == old(target.calls) + [UseRecovery(actionId == "full")]
      ensures actionType == "useDefense" ==>
        target.calls == old(target.calls) + DefenseCalls(old(target.effects), actionId) &&
        target.effects == DefenseAfter(old(target.effects), actionId)
      ensures actionType == "useAttack" || actionType == "useCapacity" ==>
        target.calls == old(target.calls) + (if actionId in world then [Activation(world[actionId], Num(0))] else [])
      ensures actionType == "useAction" || actionType == "toggleEffect" ==>
        target.calls == old(target.calls) +
          (match PrimarySourceIndex(actionId)
           case None => []
           case Some(si) => if si.0 in world then [Activation(world[si.0], ToNumber(si.1))] else [])
      ensures actionType == "toggleEquipmentOrUseConsumable" ==>
        target.calls == old(target.calls) + (if actionId in world then EquipOrConsume(world[actionId]) else [])
      ensures actionType !in PRIMARY_TYPES ==> target.calls == old(target.calls)
      ensures target.calls == old(target.calls) + PrimaryCalls(actionType, actionId, world, old(target.effects))
    {
      match actionType
      case "rollAbility" => target.Call(RollSkill(actionId, true));
      case "rollFortune" => target.Call(RollFortune);
      case "useRecovery" => target.Call(UseRecovery(actionId == "full"));
      case "useDefense" => UseDefense(target, actionId);
      case "useAttack" =>
        var item := FromUuid(actionId);
        if item.Some? { ToggleActionOrEffect(target, item.value, Num(0)); }
      case "useAction" => UseIndexedSource(target);
      case "toggleEquipmentOrUseConsumable" =>
        var item := FromUuid(actionId);
        if item.Some? {
          if item.value.isConsumable {
            ConsumeAll(target, item.value);
          } else {
            target.Call(ToggleEquipmentEquipped(item.value.id));
          }
        }
      case "useCapacity" =>
        var capacity := FromUuid(actionId);
        if capacity.Some? { ToggleActionOrEffect(target, capacity.value, Num(0)); }
      case "toggleEffect" => UseIndexedSource(target);
      case _ =>
    }

    /** The `useAction` / `toggleEffect` branch of a left click: nothing unless both parts of `source:index` are there. */
    method UseIndexedSource(target: Actor)
      modifies target
      ensures target.effects == old(target.effects)
      ensures target.calls == old(target.calls) + IndexedActivation(actionId, world)
    {
      var si := PrimarySourceIndex(actionId);
      if si.None? { return; }
      var source := FromUuid(si.value.0);
      if source.None? { return; }
      ToggleActionOrEffect(target, source.value, ToNumber(si.value.1));
    }

    /** The `useDefense` branch: keeps full and partial defence from both being switched on. */
    method UseDefense(target: Actor, effect: string)
      modifies target
      ensures target.calls == old(target.calls) + DefenseCalls(old(target.effects), effect)
      ensures target.effects == DefenseAfter(old(target.effects), effect)
    {
      ghost var before := target.effects;
      var hasFullDef := target.HasEffect(FULL_DEF);
      var hasPartialDef := target.HasEffect(PARTIAL_DEF);
      if effect == FULL_DEF && !hasFullDef && hasPartialDef {
        target.ToggleStatusEffect(PARTIAL_DEF, Some(false));
      }
      if effect == PARTIAL_DEF && !hasPartialDef && hasFullDef {
        target.ToggleStatusEffect(FULL_DEF, Some(false));
      }
      ghost var prefix := DefensePrefix(before, effect);
      assert target.effects == Replay(before, prefix) by {
        if prefix != [] {
          assert Replay(before, prefix) == Replay(Toggled(before, prefix[0].effect, prefix[0].active), []);
        }
      }
      target.ToggleStatusEffect(effect, None);
      DefenseAfterIs(before, effect);
    }

    /** The consumable branch: every consumable resolver of every action of the item is consumed, in order. */
    method ConsumeAll(target: Actor, item: Item)
      modifies target
      ensures target.effects == old(target.effects)
      ensures target.calls == old(target.calls) + ConsumeCalls(ConsumableResolvers(item.actions), item.uuid)
    {
      var resolvers := ConsumableResolvers(item.actions);
      for i := 0 to |resolvers|
        invariant target.effects == old(target.effects)
        invariant target.calls == old(target.calls) + ConsumeCalls(resolvers[..i], item.uuid)
      {
        target.Call(Consume(resolvers[i], item.uuid));
      }
      assert resolvers[..|resolvers|] == resolvers;
    }

    /** `#executeAlternatePrimaryAction` (shift + left click). */
    method ExecuteAlternatePrimaryAction(target: Actor)
      modifies target
      ensures target.effects == old(target.effects)
      ensures actionType == "rollAbility" ==> target.calls == old(target.calls) + [RollSkill(actionId, false)]
      ensures actionType == "useAttack" ==>
        target.calls == old(target.calls) + (if actionId in world then [RollAttack(world[actionId].uuid)] else [])
      ensures actionType == "useAction" ==>
        (var source := Split(actionId, ':')[0];
         target.calls == old(target.calls) +
           (if source in world then [Activation(world[source], AlternateIndex(actionId))] else []))
      ensures actionType !in {"rollAbility", "useAttack", "useAction"} ==> target.calls == old(target.calls)
      ensures target.calls == old(target.calls) + AlternateCalls(actionType, actionId, world)
    {
      match actionType
      case "rollAbility" => target.Call(RollSkill(actionId, false));
      case "useAttack" =>
        var item := FromUuid(actionId);
        if item.Some? { target.Call(RollAttack(item.value.uuid)); }
      case "useAction" =>
        var fields := Split(actionId, ':');
        var source := FromUuid(fields[0]);
        if source.Some? {
          if ':' !in actionId { SplitWithoutSep(actionId, ':'); }
          ToggleActionOrEffect(target, source.value, ToNumberOpt(Field(fields, 1)));
        }
      case _ =>
    }

    /**
     * `#sendToChat` (right click), whatever the action type. When the lookup
     * fails the source dereferences a missing item and throws: no message.
     */
    method SendActionToChat() returns (thrown: bool)
      modifies this`ui
      ensures var (source, indice) := ChatTarget(actionId);
        thrown == (source !in world) &&
        ui == old(ui) + (if thrown then [] else [SendToChat(source, world[source].name, indice)])
    {
      var (source, indice) := ChatTarget(actionId);
      var item := FromUuid(source);
      if item.None? {
        return true;
      }
      ui := ui + [SendToChat(source, item.value.name, indice)];
      return false;
    }

    /** `#showItem` (shift + right click): render the sheet of the document, if it is found and has one. */
    method ShowItem()
      modifies this`ui
      ensures var source := ChatTarget(actionId).0;
        ui == old(ui) + (if source in world && world[source].hasSheet then [RenderSheet(world[source].uuid)] else [])
    {
      var (source, _) := ChatTarget(actionId);
      var item := FromUuid(source);
      if item.Some? && item.value.hasSheet {
        ui := ui + [RenderSheet(item.value.uuid)];
      }
    }

    /** `#toggleActionOrEffect`: ask the host to set the indexed action to the negation of its `enabled` flag. */
    method ToggleActionOrEffect(target: Actor, source: Item, indice: JsNumber)
      modifies target
      ensures target.effects == old(target.effects)
      ensures target.calls == old(target.calls) + [ActivateAction(ActivationState(source, indice), source.uuid, indice)]
    {
      var state := ActivationState(source, indice);
      target.Call(ActivateAction(state, source.uuid, indice));
    }
  }

  /** The action types a left click knows. */
  const PRIMARY_TYPES := {"rollAbility", "rollFortune", "useRecovery", "useDefense", "useAttack", "useAction",
                          "toggleEquipmentOrUseConsumable", "useCapacity", "toggleEffect"}

  lemma TokenActorsAppend(tokens: seq<Token>, t: Token)
    ensures TokenActors(tokens + [t]) == TokenActors(tokens) + (if t.actor != null then [t.actor] else [])
    decreases |tokens|
  {
    if tokens != [] {
      assert (tokens + [t])[1..] == tokens[1..] + [t];
      TokenActorsAppend(tokens[1..], t);
    }
  }

  /** The actors of two runs of tokens are the actors of the first, then those of the second. */
  lemma {:induction false} TokenActorsConcat(a: seq<Token>, b: seq<Token>)
    ensures TokenActors(a + b) == TokenActors(a) + TokenActors(b)
    decreases |a|
  {
    if a == [] {
      assert a + b == b;
    } else {
      assert (a + b)[1..] == a[1..] + b;
      TokenActorsConcat(a[1..], b);
    }
  }

  /** Where the token loop stops: after every token, or after the first run when runs throw. */
  lemma TokenLoopEnd(tokens: seq<Token>, i: nat, c: Click, thrown: bool)
    requires i <= |tokens| && (i == |tokens| || thrown)
    requires thrown == (TokenActors(tokens[..i]) != [] && ClickThrows(c))
    requires thrown ==> |TokenActors(tokens[..i])| == 1
    ensures Entered(TokenActors(tokens), c) == TokenActors(tokens[..i])
  {
    TokenActorsConcat(tokens[..i], tokens[i..]);
    assert tokens[..i] + tokens[i..] == tokens;
    if i == |tokens| {
      assert tokens[i..] == [];
    }
  }

  lemma AppendAssoc<X>(a: seq<X>, b: seq<X>, d: seq<X>)
    ensures (a + b) + d == a + (b + d)
  {
  }
}
