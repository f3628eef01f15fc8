/**
 * The abilities group: one roll action per ability of the actor, labelled
 * with the system's ability label and showing the ability's signed value.
 */
module Helpers {
  import opened Wrappers
  import opened Text
  import opened Builder

  /** An ability as the actor's data holds it. */
  datatype AbilityValue = AbilityValue(base: int, modifiers: int, value: int, superior: bool)

  /** `value > 0 ? `+${value}` : `${value}``. */
  function SignedText(value: int): string {
    if value > 0 then "+" + IntText(value) else IntText(value)
  }

  /** The signed text starts with "+" for a bonus, "-" for a malus, and is "0" for neither; it reads back as the value. */
  lemma SignedTextSpec(value: int)
    ensures SignedText(value)[0] == '+' <==> value > 0
    ensures SignedText(value)[0] == '-' <==> value < 0
    ensures value == 0 ==> SignedText(value) == "0"
    ensures ToNumber(SignedText(value)) == Num(value)
  {
    IntTextRoundTrip(value);
    if value > 0 {
      var t := SignedText(value);
      assert t[1..] == IntText(value);
      assert !AllDigits(t) by { assert !IsDigit(t[0]); }
      assert AllDigits(t[1..]);
    }
  }

  /** The setter calls the abilities callback makes for one ability; `abilityLabel` stands for `SYSTEM.ABILITIES[key].label`. */
  function AbilityConfigure(abilityLabel: string -> string): (string, AbilityValue) -> seq<Setter> {
    (key: string, ability: AbilityValue) =>
      [WithLabel(abilityLabel(key)), WithInfo1(SignedText(ability.value)), WithActionType("rollAbility")]
  }

  /** The abilities group's actions. */
  function AbilityActions(i18n: string -> string, abilityLabel: string -> string,
                          abilities: seq<(string, AbilityValue)>): seq<Action> {
    EntryActions(i18n, "stats_abilities", abilities, AbilityConfigure(abilityLabel))
  }

  /** `buildAbilitiesActions`: the group builder for "abilities", given one entry per ability. */
  method BuildAbilitiesActions(i18n: string -> string, abilityLabel: string -> string,
                               abilities: seq<(string, AbilityValue)>) returns (g: ActionGroup)
    ensures g == ActionGroup("abilities", AbilityActions(i18n, abilityLabel, abilities))
  {
    var builder := new GroupBuilder("abilities", i18n);
    builder := builder.With("stats_abilities", abilities, AbilityConfigure(abilityLabel));
    g := builder.Build();
  }

  /**
   * Exactly one action per ability, in the actor's ability order: id
   * "stats_abilities-<key>", name the localised ability label, type
   * "rollAbility", payload the ability key, and the signed value as info.
   */
  lemma {:induction false} AbilityActionsSpec(i18n: string -> string, abilityLabel: string -> string,
                                              abilities: seq<(string, AbilityValue)>)
    ensures |AbilityActions(i18n, abilityLabel, abilities)| == |abilities|
    ensures forall j :: 0 <= j < |abilities| ==>
      AbilityActions(i18n, abilityLabel, abilities)[j] ==
        Action("stats_abilities-" + abilities[j].0, i18n(abilityLabel(abilities[j].0)),
               Some(SignedText(abilities[j].1.value)), Some("rollAbility"), abilities[j].0)
  {
    var configure := AbilityConfigure(abilityLabel);
    EntryActionsAt(i18n, "stats_abilities", abilities, configure);
    forall j | 0 <= j < |abilities|
      ensures AbilityActions(i18n, abilityLabel, abilities)[j] ==
        Action("stats_abilities-" + abilities[j].0, i18n(abilityLabel(abilities[j].0)),
               Some(SignedText(abilities[j].1.value)), Some("rollAbility"), abilities[j].0)
    {
      var setters := configure(abilities[j].0, abilities[j].1);
      assert setters[..2][..1] == setters[..1];
      assert LastWrite(setters[..1], Label) == Some(abilityLabel(abilities[j].0));
      assert LastWrite(setters[..2], Label) == LastWrite(setters[..1], Label);
      assert LastWrite(setters, Label) == LastWrite(setters[..2], Label);
      assert LastWrite(setters, Info1) == Some(SignedText(abilities[j].1.value));
    }
  }
}
