# Token Action HUD for Chroniques Oubliées 2e édition — a Dafny model

This project models the core of `fvtt-token-action-hud-co2e`. The plugin adapts the
Chroniques Oubliées 2e édition (CO2e) system of a virtual tabletop to the Token Action HUD
add-on. It decides:

- which groups of actions the HUD shows for the selected actor;
- how those groups and actions are built;
- what a click on an action does, given its modifier keys and its action type.

The model has one module per source file:

- `RollHandling` (`roll_handler.dfy`) is the roll handler.
  - Clicks are routed by their modifier keys.
  - Each action type becomes a call on the actor.
  - Full and partial defence are kept apart.
  - Action ids of the form `source:index` are parsed.
  - `Actor` objects record the host calls made on them and keep their active status effects.
  - The handler logs its chat messages and sheet renders.
- `Builder` (`builder.dfy`) holds the fluent `GroupBuilder` and `ActionBuilder` classes, with last-write-wins setters.
- `Helpers` (`helpers.dfy`) builds the abilities group: one roll action per ability, with the ability's signed value.
- `Constants` (`constants.dfy`) holds:
  - the static group table;
  - the layout, whose sections take their groups by `nestId` prefix;
  - `createLayout`, which rebuilds the paths section in place.
- `Defaults` (`defaults.dfy`) is `createDefaults`. It localises the layout and the groups and adds their `listName`.
- `ActionHandling` (`action_handler.dfy`) is the action handler's `buildSystemActions`. It covers:
  - the actor-type gate;
  - the custom path groups;
  - the fixed order of group kinds for a character and for an encounter.
- `Text` (`text.dfy`) holds the JavaScript string behaviour the plugin relies on: `split(":")`, `Number(...)` and integer-to-text.
- `Wrappers` (`wrappers.dfy`) holds `Option`.

Host calls are not executed. Each one is recorded in a log, in call order:

- calls on an actor go to that actor's `calls`;
- chat messages and sheet renders go to the roll handler's `ui`;
- `addGroup` and `addActions` go to the action handler's `groups` and `batches`.

`fromUuid` is a lookup in a map that may fail. Localisation (`Utils.i18n`) and the system's ability labels are function parameters.

## Model

| member | source | states |
|---|---|---|
| RollHandling.GetActionTable | src/co2e/createDefaultRollHandler.ts:39-68 | The handler a click runs, as an if-and-only-if for each handler. Left click runs the primary action. Shift + left click runs the alternate one. Right click sends to chat. Shift + right click shows the sheet. Any click with ctrl does nothing. Alt plays no part. |
| RollHandling.ModifierKeyLetters | src/co2e/createDefaultRollHandler.ts:40 | The joined `rightClick,shift,ctrl` key carries each flag as the first letter of its word, at known positions. |
| RollHandling.RollHandler.HandleActionClick | src/co2e/createDefaultRollHandler.ts:14-24 | The runs are the targets that `Entered` keeps: the selected actor alone, or each controlled token's actor in token order. The click stops after the first run that throws, and it throws exactly when a run did. Each run adds its actor to `handled` and logs its chat messages and sheet renders. An actor targeted `k` times receives the calls of `k` runs (`RunCalls`). Each of those runs sees the effects the previous one left (`RunEffects`). An actor that is never targeted is unchanged. |
| RollHandling.RollHandler.HandleTokens | src/co2e/createDefaultRollHandler.ts:20-23 | The token loop enters one run per token that has an actor, in token order, and stops after a run that throws. The actors' states are the runs replayed in order. |
| RollHandling.RollHandler.RunOn | src/co2e/createDefaultRollHandler.ts:17-22 | One more run for a target extends the handled runs and the UI log by that run. It replays that run on the target's state only. |
| RollHandling.ReplayedIsRuns | src/co2e/createDefaultRollHandler.ts:14-24 | Making runs one after the other gives each actor the calls and effects of as many runs as it was targeted, each run seeing the effects the previous one left. An actor that is never targeted keeps its state. |
| RollHandling.RunEffectsReplayCalls | src/co2e/createDefaultRollHandler.ts:20-23 | After any number of runs, an actor's effects are the host's replay of all the calls it received. |
| RollHandling.Entered | src/co2e/createDefaultRollHandler.ts:20-23 | The runs a click gets through are a prefix of its targets. There is one run when a run throws and there is a target; otherwise every target gets a run. |
| RollHandling.TokenLoopEnd | src/co2e/createDefaultRollHandler.ts:20-23 | When the token loop stops, the actors it entered are exactly `Entered` of all the token actors. |
| RollHandling.TargetsMembers | src/co2e/createDefaultRollHandler.ts:16-23 | With a selected actor, that actor is the only target. Without one, every token's actor is a target. Every target is the selected actor or the actor of some token. |
| RollHandling.TokenActors | src/co2e/createDefaultRollHandler.ts:20-23 | There are no more actors taken from tokens than there are tokens. |
| RollHandling.TokenActorsMembers | src/co2e/createDefaultRollHandler.ts:20-23 | An actor is taken from the tokens exactly when it is the actor of some token. |
| RollHandling.TokenActorsConcat | src/co2e/createDefaultRollHandler.ts:20-23 | The actors of two runs of tokens are those of the first run, then those of the second. |
| RollHandling.TokenActorsAll | src/co2e/createDefaultRollHandler.ts:20-23 | When every token has an actor, the action runs once per token, in token order, for that token's actor. |
| RollHandling.TokenActorsAppend | src/co2e/createDefaultRollHandler.ts:20-23 | One more token adds its actor at the end, or nothing if it has none. |
| RollHandling.TokenRunsLoseTheirActor | src/co2e/createDefaultRollHandler.ts:14-37 | As written, take two or more token actors and a click whose run calls the actor. The token loop enters one run, which throws and makes nothing. The corrected click runs for every token actor and does not throw. See Findings. |
| RollHandling.TokenLoopAsWritten | src/co2e/createDefaultRollHandler.ts:14-24 | As written, the token loop enters one run per target until a run throws. It throws exactly when there is a target and the actor-less run throws. Each run it enters makes the same chat messages, sheet renders and `consume` calls. |
| RollHandling.RunWithoutActorSpec | src/co2e/createDefaultRollHandler.ts:70-200 | With `this.actor` missing, a run throws exactly when the run with its actor would throw or would call the actor. It makes the same chat messages and sheet renders. When it does not throw, it makes the same `consume` calls, handed no actor. |
| RollHandling.PrimaryWithoutActorSpec | src/co2e/createDefaultRollHandler.ts:71-140 | A left click with `this.actor` missing throws exactly when the click with its actor would call the actor. Otherwise it makes the same `consume` calls. |
| RollHandling.AlternateWithoutActorSpec | src/co2e/createDefaultRollHandler.ts:143-166 | A shift + left click with `this.actor` missing throws exactly when the click with its actor would call the actor. Otherwise it makes no call. |
| RollHandling.RollHandler.HandleAction | src/co2e/createDefaultRollHandler.ts:33-37 | One run throws exactly when `ClickThrows` says so, which is a right click whose lookup fails. The run adds the target to `handled` and logs `ClickUi`. The target gets exactly `ClickCalls` appended, and its effects become `ClickEffects`. |
| RollHandling.GetActionIsTable | src/co2e/createDefaultRollHandler.ts:39-68 | The switch on the joined key agrees with the boolean dispatch table for every combination of flags. |
| RollHandling.ClickEffectsReplayCalls | src/co2e/createDefaultRollHandler.ts:71-140 | After one run, the actor's effects are the host's replay of the calls the run made on it. Only recorded status toggles change effects. |
| RollHandling.ReplayConcat | src/co2e/createDefaultRollHandler.ts:86-90 | Replaying two lists of calls one after the other is the same as replaying their concatenation. |
| RollHandling.ReplayWithoutToggles | src/co2e/createDefaultRollHandler.ts:71-166 | Calls that toggle no status effect leave the effects unchanged. |
| RollHandling.RollHandler.ExecutePrimaryAction | src/co2e/createDefaultRollHandler.ts:71-140 | The host calls for each action type: `rollSkill` with a dialog, `rollFortune`, `useRecovery(actionId === "full")`, defence toggling, activation for attacks, capacities, actions and effects, and equip-or-consume. Nothing happens when a lookup fails or the action type is unknown. Only `useDefense` changes status effects. The calls are exactly `PrimaryCalls`. |
| RollHandling.Toggled | src/co2e/createDefaultRollHandler.ts:87-90 | `toggleStatusEffect` with no `active` flips the effect, and with `active` sets it. No other effect changes. |
| RollHandling.RollHandler.UseDefense | src/co2e/createDefaultRollHandler.ts:79-91 | Makes exactly the status toggles `DefenseCalls` lists, in order. The new effects are `DefenseAfter` of the old ones. |
| RollHandling.ReplayAppend | src/co2e/createDefaultRollHandler.ts:86-90 | Replaying one more status toggle applies that toggle to the replayed state. |
| RollHandling.DefenseAfterIs | src/co2e/createDefaultRollHandler.ts:86-90 | `useDefense` applies the optional switch-off first, then the toggle. |
| RollHandling.DefenseSwitchesOtherOff | src/co2e/createDefaultRollHandler.ts:86-90 | Turning one defence on while the other is active first switches the other off with `active: false`. Afterwards only the requested one is active. |
| RollHandling.DefenseActiveSwitchesOff | src/co2e/createDefaultRollHandler.ts:86-90 | Clicking an active defence only toggles it, and so switches it off. |
| RollHandling.DefenseKeepsExclusive | src/co2e/createDefaultRollHandler.ts:84-90 | If both defences were not active together before a click, they are not active together after it. |
| RollHandling.DefensesStayExclusive | src/co2e/createDefaultRollHandler.ts:84-90 | No sequence of defence clicks ever activates both defences, starting from a state where they are not both active. |
| RollHandling.PrimarySourceIndexSpec | src/co2e/createDefaultRollHandler.ts:101-102 | The parse yields `(source, index)` if and only if `actionId` starts with `source:index`, both non-empty and free of `:`, followed by `:` or the end. |
| RollHandling.PrimarySourceIndex | src/co2e/createDefaultRollHandler.ts:101-102 | A parse that succeeds has a non-empty source and a non-empty index. |
| RollHandling.RollHandler.UseIndexedSource | src/co2e/createDefaultRollHandler.ts:99-107 | `useAction` and `toggleEffect` activate the indexed action of the found source. They do nothing when a part is missing or the lookup fails. |
| RollHandling.ActivationState | src/co2e/createDefaultRollHandler.ts:198 | The requested state is false exactly when the indexed action exists and is enabled. A missing or NaN index requests true. |
| RollHandling.RollHandler.ToggleActionOrEffect | src/co2e/createDefaultRollHandler.ts:197-200 | Makes one `activateAction` call with that state, the source's uuid and the index. |
| RollHandling.ConsumableOf | src/co2e/createDefaultRollHandler.ts:115 | Keeps exactly the resolvers of type "consumable". |
| RollHandling.ConsumableResolvers | src/co2e/createDefaultRollHandler.ts:114-116 | Every resolver it collects is of type "consumable". |
| RollHandling.ConsumableResolversMembers | src/co2e/createDefaultRollHandler.ts:114-116 | A resolver is collected if and only if it is consumable and belongs to some action of the item. |
| RollHandling.RollHandler.ConsumeAll | src/co2e/createDefaultRollHandler.ts:117 | Consumes every consumable resolver of the item, in order, and changes no status effect. |
| RollHandling.EquipOrConsume | src/co2e/createDefaultRollHandler.ts:113-119 | A consumable item is consumed and never equipped. Any other item is toggled equipped, exactly once. |
| RollHandling.RollHandler.ExecuteAlternatePrimaryAction | src/co2e/createDefaultRollHandler.ts:143-166 | Shift + click rolls without a dialog, rolls the attack of a found item, or activates the indexed action of a found source with no guard on the parts. Other types do nothing. Status effects never change. The calls are exactly `AlternateCalls`. |
| RollHandling.AlternateIndex | src/co2e/createDefaultRollHandler.ts:157-161 | Without a `:`, the index is `Number(undefined)`, which is NaN. |
| RollHandling.ChatTarget | src/co2e/createDefaultRollHandler.ts:173-174 | Without a `:`, the source is the whole id and the index is null. Otherwise the index is present. |
| RollHandling.ChatTargetSpec | src/co2e/createDefaultRollHandler.ts:173-174 | With a `:`, the source and index are the text before the first `:` and the text up to the next one. |
| RollHandling.RollHandler.SendActionToChat | src/co2e/createDefaultRollHandler.ts:169-181 | Exactly one chat message carrying the found item's name, whatever the action type. When the lookup fails, the source throws and no message is sent. |
| RollHandling.RollHandler.ShowItem | src/co2e/createDefaultRollHandler.ts:184-195 | Renders the sheet of the found document once if it has a sheet. It does nothing when the lookup fails or the document has no sheet. |
| RollHandling.Actor.ToggleStatusEffect | src/co2e/createDefaultRollHandler.ts:87-90 | The effects become `Toggled` of the old ones, and the call is recorded last. |
| Text.JoinSplit | src/co2e/createDefaultRollHandler.ts:101 | Joining the fields of `split(":")` gives back the text. |
| Text.SplitWithoutSep | src/co2e/createDefaultRollHandler.ts:174 | A text without `:` splits into itself alone. |
| Text.SplitHasSep | src/co2e/createDefaultRollHandler.ts:174 | A text with `:` splits into at least two fields, the first being the text before the first `:`. |
| Text.FirstIndex | src/co2e/createDefaultRollHandler.ts:174 | `indexOf(":")` gives the position of the first `:`, or the length when there is none. |
| Text.ToNumber | src/co2e/createDefaultRollHandler.ts:106 | `Number("")` is 0, and a run of decimal digits is its value. Any other text that yields a number is a signed run of digits. |
| Text.IntTextRoundTrip | src/co2e/helpers.ts:18 | `Number(`${v}`)` is `v` for every integer `v`. |
| Text.NatTextValue | src/co2e/helpers.ts:18 | The decimal digits of a natural number read back as that number. |
| Builder.AppliedIsLastWrite | src/co2e/builder.ts:91-114 | The setters are last-write-wins. Each field holds the value of its last setter call, or its initial value if there was none. |
| Builder.AppliedAppend | src/co2e/builder.ts:91-114 | One more setter call updates only its own field. |
| Builder.ActionBuilder.Configure | src/co2e/builder.ts:38-42 | A configuration callback's setter calls leave the builder's settings at `Applied` of them. |
| Builder.ActionBuilder.Build | src/co2e/builder.ts:120-127 | The action has id `groupId-key`, the localised label as name, the info and type as set, and the key as `actionId`. |
| Builder.EntryActionsAt | src/co2e/builder.ts:35-46 | `with` adds exactly one action per entry, in entry order. Each has id `groupId-key` and `actionId` key, and its name, type and info come from the callback's last setter calls. |
| Builder.EntryIdsDistinct | src/co2e/builder.ts:122 | Within one group, distinct keys give distinct action ids. |
| Builder.GroupBuilder.With | src/co2e/builder.ts:35-46 | Appends `EntryActions` to the accumulated actions and returns the same builder. |
| Builder.GroupBuilder.Build | src/co2e/builder.ts:52-60 | The group carries the builder's own `groupId` and every accumulated action, in order. |
| Helpers.BuildAbilitiesActions | src/co2e/helpers.ts:12-22 | The "abilities" group is the group builder's result for the actor's abilities. |
| Helpers.AbilityActionsSpec | src/co2e/helpers.ts:14-21 | One action per ability, in order. Each has id `stats_abilities-<key>`, the localised system label as name, type "rollAbility", the ability key as `actionId`, and the signed value as info. |
| Helpers.SignedTextSpec | src/co2e/helpers.ts:18 | The info starts with "+" exactly for a positive value and "-" exactly for a negative one. It is "0" for zero, and it reads back as the value. |
| Constants.StartsWithIsPrefix | src/co2e/constants.ts:96 | The character-by-character `startsWith` is exactly the prefix relation. |
| Constants.WithPrefixMembers | src/co2e/constants.ts:96 | The filter keeps exactly the groups whose `nestId` starts with the prefix. |
| Constants.WithPrefixAppend | src/co2e/constants.ts:96 | Filtering distributes over concatenation, keeping order. |
| Constants.LayoutOfIds | src/co2e/constants.ts:90-140 | The sections come in the order stats, actions, inventory, paths, effects, utility. |
| Constants.LayoutOfSection | src/co2e/constants.ts:90-140 | Each non-paths section holds the groups filtered on its prefix. The paths section starts empty. |
| Constants.GroupHasOnePrefix | src/co2e/constants.ts:1-88 | Each static group's `nestId` starts with exactly one section prefix, the one of its own section. |
| Constants.PrefixesExclusive | src/co2e/constants.ts:96-138 | No text starts with two different section prefixes. |
| Constants.SectionRun | src/co2e/constants.ts:96-138 | Filtering the table on a section prefix gives one contiguous run of the table, in table order. |
| Constants.StaticSection | src/co2e/constants.ts:96-138 | Each non-paths section of the static layout holds exactly the groups whose `nestId` starts with its prefix, in table order. |
| Constants.StaticLayoutPartitionsGroups | src/co2e/constants.ts:1-140 | Read in order, the non-paths sections are the whole table, so they partition it. |
| Constants.GroupIdsDistinct | src/co2e/constants.ts:1-88 | No two static groups share an id. |
| Constants.PathItems | src/co2e/constants.ts:143 | Keeps exactly the world items of type "path". |
| Constants.PathsSection | src/co2e/constants.ts:145-156 | One group per path item, in order, with id the slug, `nestId` `paths_<slug>` and the item's name, followed by exactly one capacities group. |
| Constants.FindSection | src/co2e/constants.ts:144 | `find` returns the first section with the id, or none when no section has it. |
| Constants.WithPaths | src/co2e/constants.ts:144-157 | The update keeps the number of sections and their ids. |
| Constants.WithPathsChangesOnlyPaths | src/co2e/constants.ts:144-151 | Only the paths section's groups change, and they become `PathsSection`. Every other section is left as it was. |
| Constants.WithPathsIdempotent | src/co2e/constants.ts:145-151 | The paths groups are replaced, not appended to, so running `createLayout` twice with the same items gives the same layout. |
| Constants.ValidPathsAt3 | src/co2e/constants.ts:144-151 | In a layout with the static ids, the paths section is the fourth, and it receives the path groups. |
| Constants.FindSectionByIds | src/co2e/constants.ts:144 | Layouts with the same ids are searched alike. |
| Constants.LayoutStore.constructor | src/co2e/constants.ts:90-140 | The module's layout starts as the static layout, with the static section ids. |
| Constants.LayoutStore.CreateLayout | src/co2e/constants.ts:142-158 | Assigns the path groups, pushes the capacities group, and returns the whole updated layout. The section ids are kept. |
| Defaults.NameOfListName | src/co2e/createDefaults.ts:17 | A localised name read back from a list name is what follows the localised "tokenActionHud.group" and ": ". |
| Defaults.ListNameReadBack | src/co2e/createDefaults.ts:17 | A list name gives back the localised name it was built from. |
| Defaults.ListNameDeterminesName | src/co2e/createDefaults.ts:17 | Two names get the same list name exactly when they localise alike. |
| Defaults.LocalizeGroups | src/co2e/createDefaults.ts:19-23 | One localised group per group, in order. |
| Defaults.LocalizeLayouts | src/co2e/createDefaults.ts:14-25 | One localised section per section, in order. |
| Defaults.LocalizeGroupKeepsFields | src/co2e/createDefaults.ts:19-29 | A localised group keeps its id, `nestId` and type, and gets a localised name and `listName`. Putting its name back gives the original group. |
| Defaults.LocalizedLayoutShape | src/co2e/createDefaults.ts:14-25 | Same length and order as the layout. Each section keeps its id, `nestId` and width, and has a localised name and `listName`. Its groups are mapped one to one, in order, keeping id and `nestId`. |
| Defaults.DefaultGroupsFromTable | src/co2e/createDefaults.ts:26-30 | The top-level groups are the static table localised one to one, in table order. |
| Defaults.LocalizedIds | src/co2e/createDefaults.ts:14-25 | Localisation keeps the section ids in order. |
| Defaults.CreateDefaults | src/co2e/createDefaults.ts:11-32 | Rebuilds the paths section, then localises. The result's sections are stats, actions, inventory, paths, effects, utility, and the paths section holds the localised path groups. |
| ActionHandling.SkippedSpec | src/co2e/createActionHandler.ts:31-32 | Exactly an absent type, the empty type, "character" and "encounter" pass the early return. |
| ActionHandling.ActorType | src/co2e/createActionHandler.ts:28 | There is a type exactly when there is an actor. |
| ActionHandling.ActionHandler.BuildSystemActions | src/co2e/createActionHandler.ts:27-41 | An actor of a non-empty unknown type adds no groups and no actions. Otherwise the handler adds the custom path groups when there is an actor, then one `addActions` per available group, in list order, with type "system". |
| ActionHandling.ActionHandler.PrepareCustomPaths | src/co2e/createActionHandler.ts:43-63 | Adds exactly the `PathGroups` of the actor's paths, in order. |
| ActionHandling.PathGroups | src/co2e/createActionHandler.ts:43-63 | One group per path under "paths", with id the slug, the path's name, no `nestId` and type "system". Then exactly one capacities group with `nestId` "paths_capacities" and the localised name, last. |
| ActionHandling.PathGroupsAsSeq | src/co2e/createActionHandler.ts:45-62 | The path groups are the per-path groups followed by the capacities group. |
| ActionHandling.CustomPathGroups | src/co2e/createActionHandler.ts:34 | Without an actor, there are no custom path groups. |
| ActionHandling.ActionHandler.GetAvailableActions | src/co2e/createActionHandler.ts:70-84 | Builds the abilities group and returns `AvailableGroups` for the actor's type. |
| ActionHandling.AvailableGroups | src/co2e/createActionHandler.ts:76-83 | An actor that is neither a "character" nor an "encounter" gets no groups. |
| ActionHandling.BuildSystemActionsCases | src/co2e/createActionHandler.ts:27-41 | Without an actor, nothing is added. An actor of empty type gets its path groups and no actions. A character and an encounter get their groups in their fixed kind orders. |
| ActionHandling.CharacterGroupsOrder | src/co2e/createActionHandler.ts:92-109 | A character's groups come in the order abilities, resources, recovery, defense, actions, inventory, capacities, off-path capacities, effects. |
| ActionHandling.EncounterGroupsOrder | src/co2e/createActionHandler.ts:115-130 | An encounter's groups come in the order abilities, recovery, defense, attacks, actions, off-path capacities, effects. |
| ActionHandling.GroupsIgnoreProducers | src/co2e/createActionHandler.ts:92-130 | An encounter's groups do not depend on the resources, inventory or path-capacities producers. A character's groups do not depend on the attacks producer. |
| ActionHandling.Batches | src/co2e/createActionHandler.ts:38-40 | One `addActions` per group, in list order, under the group's own `groupId`, with type "system". |
| ActionHandling.BatchesAppend | src/co2e/createActionHandler.ts:38-40 | The calls for a concatenation are the calls for each part, in order. |

## Left out

- Host engine effects are recorded, not carried out. This covers `rollSkill`, `rollFortune`, `useRecovery`, `activateAction`, `toggleEquipmentEquipped`, `rollAttack`, `resolver.consume`, `sheet.render` and `sendToChat`. The one exception is `toggleStatusEffect`, which the model applies to the actor's effect set because `useDefense` reads that set back.
- `async`/`await` is treated as sequential execution. There is no concurrency. A rejected promise is a `thrown` result. Because each run is awaited, it ends the token loop.
- `fromUuid`'s `{ relative: this.actor }` option (src/co2e/createDefaultRollHandler.ts:95-191) is dropped. One map of documents serves every actor, so a relative uuid resolves the same way for all of them.
- `Utils.i18n` and `SYSTEM.ABILITIES[key].label` are uninterpreted function parameters. Their content is not modelled.
- The `build*Actions` producers imported at src/co2e/createActionHandler.ts:2-13, other than `buildAbilitiesActions`, are not part of this model. They are outside this model and given as the groups they return (`ActionHandling.Producers`).
- The text of the `console.debug` call in `#handleAction` is left out. `RollHandling.RollHandler.handled` records each run that call marks. Also left out are `createUtils`, `createSystemManager`, hook registration, the logger, re-exports, type declarations, tests and build configuration.
- `Number(...)` is modelled for the empty text, optional-sign decimal integers and NaN. Whitespace, decimal points, exponents and hexadecimal forms are not modelled. A fractional index can never select an action, so it behaves like NaN here.
- Ability values are integers. `Helpers.SignedText` does not model non-integer values.
- `Builder.GroupBuilder.Build` returns the accumulated actions as a value. The source returns its own array, so later `with` calls would show through an earlier result. That aliasing is not modelled.
- A configuration callback is modelled by the setter calls it makes on the builder it receives, and is assumed to return that builder.
- `Builder.Action` has `info1` as the text alone. The source wraps it in `{ text }`.
- `Constants.LayoutStore.CreateLayout` returns the layout as a value. The source returns the module-level array itself, so later calls also change a layout returned earlier.
- The layout's `settings` object is reduced to its `customWidth`.
- `Constants.Groups` is proved partitioned through its five runs (`Constants.Blocks`). The layout itself is built with the filters, as in the source.
- `RollHandling.RollHandler.SendActionToChat` models the `TypeError` of a failed lookup as `thrown`, with no message. JavaScript's `split(...) ?? [...]` fallback can never apply, because `split` always returns an array.
- In `RollHandling.RollHandler.ExecutePrimaryAction`, the unknown-type branch returns a function that is never called. It is modelled as doing nothing.
- `RollHandling.RollHandler.HandleActionClick` models the corrected behaviour: each run acts on the actor it was given. `RollHandling.TokenLoopAsWritten` models the token path as written; see Findings.
- On the token path as written, a consumable resolver's `consume` is handed `undefined` for the actor. What it then does is up to the host, and the model only records the call.

## Findings

| source | as written | input that shows it | evidently intended | confidence | as-written member | corrected member |
|---|---|---|---|---|---|---|
| src/co2e/createDefaultRollHandler.ts:14-37 | `#handleAction(actor, ...)` ignores its `actor` argument. Every branch that calls the actor uses `this.actor` (lines 74, 76, 78, 82, 119, 146, 153, 199), and `this.actor` is missing on the token path guarded at line 16. The first such read throws a `TypeError`, and the awaited rejection (lines 36 and 22) ends the loop. | No selected actor, and controlled tokens with actors A and B. A left click on a "rollAbility" action enters `#handleAction` once. Reading `this.actor.rollSkill` throws, so neither A nor B rolls. | Each run acts on the actor it was given, so A and B each roll. | not executed | RollHandling.TokenRunsLoseTheirActor | RollHandling.RollHandler.HandleActionClick |
