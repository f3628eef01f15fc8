/**
 * The fluent builders the plugin assembles HUD action groups with: a group
 * builder that accumulates one action per entry of a keyed record, and the
 * per-action builder whose setters a configuration callback calls.
 *
 * Localisation (`Utils.i18n`) is a function parameter. A configuration
 * callback is modelled by the setter calls it makes on the builder it is
 * given, in order.
 */
module Builder {
  import opened Wrappers

  /** The fields of a HUD action descriptor this plugin fills in. */
  datatype Action = Action(id: string, name: string, info1: Option<string>, actionType: Option<string>, actionId: string)

  /** What `GroupBuilder.build` returns. */
  datatype ActionGroup = ActionGroup(groupId: string, actions: seq<Action>)

  /** One fluent setter call on an `ActionBuilder`. */
  datatype Setter = WithLabel(labelKey: string) | WithInfo1(info: string) | WithActionType(actionType: string)

  /** The three settable fields of an `ActionBuilder`; `None` is a field never assigned. */
  datatype Settings = Settings(labelKey: string, info1: Option<string>, actionType: Option<string>)

  /** A new builder's settings: the label starts as "", the others unassigned. */
  const Unset := Settings("", None, None)

  function SetOne(st: Settings, setter: Setter): Settings {
    match setter
    case WithLabel(l) => st.(labelKey := l)
    case WithInfo1(i) => st.(info1 := Some(i))
    case WithActionType(t) => st.(actionType := Some(t))
  }

  /** The settings after the setter calls, made one after another. */
  function Applied(st: Settings, setters: seq<Setter>): Settings
    decreases |setters|
  {
    if setters == [] then st else Applied(SetOne(st, setters[0]), setters[1..])
  }

  datatype Field = Label | Info1 | ActionType

  /** The value the last call to the setter of `f` gave, looking from the end. */
  function LastWrite(setters: seq<Setter>, f: Field): Option<string>
    decreases |setters|
  {
    if setters == [] then None
    else
      var last := setters[|setters| - 1];
      match (f, last)
      case (Label, WithLabel(l)) => Some(l)
      case (Info1, WithInfo1(i)) => Some(i)
      case (ActionType, WithActionType(t)) => Some(t)
      case _ => LastWrite(setters[..|setters| - 1], f)
  }

  /** Applying one more setter. */
  lemma {:induction false} AppliedAppend(st: Settings, setters: seq<Setter>, setter: Setter)
    ensures Applied(st, setters + [setter]) == SetOne(Applied(st, setters), setter)
    decreases |setters|
  {
    if setters == [] {
      assert Applied(SetOne(st, setter), []) == SetOne(st, setter);
    } else {
      assert (setters + [setter])[1..] == setters[1..] + [setter];
      AppliedAppend(SetOne(st, setters[0]), setters[1..], setter);
    }
  }

  /** Setters are last-write-wins: each field holds the value of its last setter call, or what it held before. */
  lemma {:induction false} AppliedIsLastWrite(st: Settings, setters: seq<Setter>)
    ensures Applied(st, setters).labelKey == LastWrite(setters, Label).GetOr(st.labelKey)
    ensures Applied(st, setters).info1 == (if LastWrite(setters, Info1).Some? then LastWrite(setters, Info1) else st.info1)
    ensures Applied(st, setters).actionType ==
      (if LastWrite(setters, ActionType).Some? then LastWrite(setters, ActionType) else st.actionType)
    decreases |setters|
  {
    if setters != [] {
      var init := setters[..|setters| - 1];
      assert setters == init + [setters[|setters| - 1]];
      AppliedAppend(st, init, setters[|setters| - 1]);
      AppliedIsLastWrite(st, init);
    }
  }

  /** The action `ActionBuilder.build` makes for `key` in `groupId` from its settings. */
  function BuiltAction(i18n: string -> string, groupId: string, key: string, st: Settings): Action {
    Action(groupId + "-" + key, i18n(st.labelKey), st.info1, st.actionType, key)
  }

  /** The actions `GroupBuilder.with` adds: one per entry, in entry order. */
  function EntryActions<V>(i18n: string -> string, groupId: string, values: seq<(string, V)>,
                           configure: (string, V) -> seq<Setter>): seq<Action>
    decreases |values|
  {
    if values == [] then []
    else
      var n := |values| - 1;
      EntryActions(i18n, groupId, values[..n], configure) +
      [BuiltAction(i18n, groupId, values[n].0, Applied(Unset, configure(values[n].0, values[n].1)))]
  }

  /**
   * `with` adds exactly one action per entry, in entry order: the `j`-th has
   * id `groupId-key`, payload `actionId = key`, and the label and type the
   * callback's last setter calls chose.
   */
  lemma {:induction false} EntryActionsAt<V>(i18n: string -> string, groupId: string, values: seq<(string, V)>,
                                             configure: (string, V) -> seq<Setter>)
    ensures |EntryActions(i18n, groupId, values, configure)| == |values|
    ensures forall j :: 0 <= j < |values| ==>
      var a := EntryActions(i18n, groupId, values, configure)[j];
      var st := Applied(Unset, configure(values[j].0, values[j].1));
      && a.id == groupId + "-" + values[j].0
      && a.actionId == values[j].0
      && a.name == i18n(LastWrite(configure(values[j].0, values[j].1), Label).GetOr(""))
      && a.actionType == LastWrite(configure(values[j].0, values[j].1), ActionType)
      && a.info1 == LastWrite(configure(values[j].0, values[j].1), Info1)
    decreases |values|
  {
    if values != [] {
      var n := |values| - 1;
      EntryActionsAt(i18n, groupId, values[..n], configure);
      forall j | 0 <= j < |values| ensures AppliedIsLastWriteAt(configure(values[j].0, values[j].1)) {
        AppliedIsLastWrite(Unset, configure(values[j].0, values[j].1));
      }
    }
  }

  predicate AppliedIsLastWriteAt(setters: seq<Setter>) {
    && Applied(Unset, setters).labelKey == LastWrite(setters, Label).GetOr("")
    && Applied(Unset, setters).info1 == LastWrite(setters, Info1)
    && Applied(Unset, setters).actionType == LastWrite(setters, ActionType)
  }

  /** Within one `with` call, distinct keys give distinct action ids. */
  lemma EntryIdsDistinct(groupId: string, key1: string, key2: string)
    requires groupId + "-" + key1 == groupId + "-" + key2
    ensures key1 == key2
  {
    var n := |groupId| + 1;
    assert (groupId + "-" + key1)[n..] == key1;
    assert (groupId + "-" + key2)[n..] == key2;
  }

  class ActionBuilder {
    const i18n: string -> string
    const groupId: string
    const key: string
    var labelKey: string
    var info1: Option<string>
    var actionType: Option<string>

    ghost function Current(): Settings
      reads this
    {
      Settings(labelKey, info1, actionType)
    }

    constructor (i18n: string -> string, groupId: string, key: string)
      ensures this.i18n == i18n && this.groupId == groupId && this.key == key
      ensures Current() == Unset
    {
      this.i18n, this.groupId, this.key := i18n, groupId, key;
      labelKey, info1, actionType := "", None, None;
    }

    method WithLabel(labelKey: string) returns (self: ActionBuilder)
      modifies this
      ensures self == this
      ensures Current() == SetOne(old(Current()), Setter.WithLabel(labelKey))
    {
      this.labelKey := labelKey;
      return this;
    }

    method WithInfo1(info: string) returns (self: ActionBuilder)
      modifies this
      ensures self == this
      ensures Current() == SetOne(old(Current()), Setter.WithInfo1(info))
    {
      info1 := Some(info);
      return this;
    }

    method WithActionType(actionType: string) returns (self: ActionBuilder)
      modifies this
      ensures self == this
      ensures Current() == SetOne(old(Current()), Setter.WithActionType(actionType))
    {
      this.actionType := Some(actionType);
      return this;
    }

    /** A configuration callback's chain of setter calls, each on the builder the previous one returned. */
    method Configure(setters: seq<Setter>) returns (self: ActionBuilder)
      modifies this
      ensures self == this
      ensures Current() == Applied(old(Current()), setters)
    {
      self := this;
      for i := 0 to |setters|
        invariant self == this
        invariant Current() == Applied(old(Current()), setters[..i])
      {
        assert setters[..i + 1] == setters[..i] + [setters[i]];
        AppliedAppend(old(Current()), setters[..i], setters[i]);
        match setters[i]
        case WithLabel(l) => self := self.WithLabel(l);
        case WithInfo1(info) => self := self.WithInfo1(info);
        case WithActionType(t) => self := self.WithActionType(t);
      }
      assert setters[..|setters|] == setters;
    }

    method Build() returns (a: Action)
      ensures a == BuiltAction(i18n, groupId, key, Current())
      ensures a.id == groupId + "-" + key && a.actionId == key && a.name == i18n(labelKey)
    {
      a := Action(groupId + "-" + key, i18n(labelKey), info1, actionType, key);
    }
  }

  class GroupBuilder {
    const groupId: string
    const i18n: string -> string
    var actions: seq<Action>

    constructor (groupId: string, i18n: string -> string)
      ensures this.groupId == groupId && this.i18n == i18n && actions == []
    {
      this.groupId, this.i18n := groupId, i18n;
      actions := [];
    }

    /**
     * `with`: for each entry of `values`, in order, configure a fresh action
     * builder for `groupId` and the entry's key, and append what it builds.
     */
    method With<V>(groupId: string, values: seq<(string, V)>, configure: (string, V) -> seq<Setter>)
      returns (self: GroupBuilder)
      modifies this
      ensures self == this
      ensures actions == old(actions) + EntryActions(i18n, groupId, values, configure)
    {
      for i := 0 to |values|
        invariant actions == old(actions) + EntryActions(i18n, groupId, values[..i], configure)
      {
        var (key, value) := values[i];
        var builder := new ActionBuilder(i18n, groupId, key);
        builder := builder.Configure(configure(key, value));
        var action := builder.Build();
        actions := actions + [action];
        assert values[..i + 1][..i] == values[..i];
      }
      assert values[..|values|] == values;
      return this;
    }

    /** `build`: the constructor's group id with every action accumulated so far, which stay accumulated. */
    method Build() returns (g: ActionGroup)
      ensures g.groupId == groupId && g.actions == actions
    {
      g := ActionGroup(groupId, actions);
    }
  }
}
