/**
 * The crafting-entry rule element. Constructed from its source data, it
 * records a selector (a missing one is a validation failure); when its item
 * is added to a character it writes a crafting-entry record into the shared
 * actor-update accumulator; during active-effect application it announces an
 * existing entry through a roll option; when its item is removed it writes a
 * deletion marker for the entry.
 *
 * The host machinery the element relies on is passed in: the outcome of
 * `test()`, `resolveValue`, `sluggify` and `PredicatePF2e.validate`.
 */
module CraftingEntry {
  import opened Wrappers
  import opened JsValues

  /**
   * The untyped source of the rule element, as game content supplies it. Its
   * `priority` is superseded: the constructor sets the element's own
   * `priority` field to 5, and that field is the priority in effect.
   */
  datatype CraftingEntryRuleSource = CraftingEntryRuleSource(
    name: Value,
    selector: Value,
    priority: Value,
    isAlchemical: Value,
    isDailyPrep: Value,
    isPrepared: Value,
    maxItemLevel: Value,
    maxSlots: Value,
    craftableItems: Value)

  /** A crafting entry as the actor stores it. */
  datatype CraftingEntryData = CraftingEntryData(
    actorPreparedFormulas: seq<Value>,
    selector: string,
    name: string,
    isAlchemical: Value,
    isDailyPrep: Value,
    isPrepared: Value,
    craftableItems: Value,
    maxItemLevel: Value,
    maxSlots: Value)

  /** A value in the actor-update accumulator: an entry record, `null`, or what other elements wrote. */
  datatype UpdateValue = EntryUpdate(entry: CraftingEntryData) | NullMarker | OtherUpdate(value: Value)

  const CraftingPriority: int := 5
  const MissingSelector: string := "Required selector not found"
  const EntriesPath: string := "system.crafting.entries."
  const EntryOptionPrefix: string := "crafting:entry:"

  /** The shared accumulator of property-path writes for one actor. */
  class ActorUpdates {
    var updates: map<string, UpdateValue>

    constructor (updates: map<string, UpdateValue>)
      ensures this.updates == updates
    {
      this.updates := updates;
    }
  }

  /** The parts of the character the element reads and writes. */
  class CharacterActor {
    var craftingEntries: map<string, CraftingEntryData>
    var rollOptions: map<string, bool>

    constructor (craftingEntries: map<string, CraftingEntryData>, rollOptions: map<string, bool>)
      ensures this.craftingEntries == craftingEntries && this.rollOptions == rollOptions
    {
      this.craftingEntries := craftingEntries;
      this.rollOptions := rollOptions;
    }
  }

  /** `data.selector && typeof data.selector === "string"`: a non-empty string selector. */
  function SelectorOf(selector: Value): (r: Option<string>)
    ensures r.Some? <==> selector.Str? && selector.s != ""
    ensures r.Some? ==> r.value == selector.s && r.value != ""
  {
    if selector.Str? && Truthy(selector) then Some(selector.s) else None
  }

  /** `String(data.name || ruleLabel)` */
  function ElementName(name: Value, ruleLabel: string): (r: string)
    ensures !Truthy(name) ==> r == ruleLabel
    ensures name.Str? && name.s != "" ==> r == name.s
  {
    if Truthy(name) then ToString(name) else ruleLabel
  }

  /** The accumulator path of the entry with the given selector. */
  function EntryKey(selector: string): string {
    EntriesPath + selector
  }

  /** The accumulator path that tells the persistence layer to remove the entry. */
  function DeletionKey(selector: string): string {
    EntriesPath + "-=" + selector
  }

  /** The roll option that announces the entry. */
  function EntryOption(sluggify: string -> string, selector: string): string {
    EntryOptionPrefix + sluggify(selector)
  }

  /** `String(this.resolveValue(this.selector))` */
  function ResolvedSelector(resolveValue: Value -> Value, selector: string): (r: string)
    ensures resolveValue(Str(selector)).Str? ==> r == resolveValue(Str(selector)).s
  {
    ToString(resolveValue(Str(selector)))
  }

  class CraftingEntryRuleElement {
    const data: CraftingEntryRuleSource
    const ruleLabel: string
    const actor: CharacterActor
    var priority: int
    var name: string
    var selector: string
    /** The reasons recorded by `failValidation`, in order. */
    var validationErrors: seq<string>

    /**
     * The constructor. `ruleLabel` is the label the base class derived for
     * the element. The base class's priority is overridden with 5, so that the
     * roll option is set before the elements that test for it.
     */
    constructor (data: CraftingEntryRuleSource, ruleLabel: string, actor: CharacterActor)
      ensures this.data == data && this.ruleLabel == ruleLabel && this.actor == actor
      ensures priority == CraftingPriority
      ensures name == ElementName(data.name, ruleLabel)
      ensures SelectorOf(data.selector).Some? ==>
        selector == SelectorOf(data.selector).value && validationErrors == []
      ensures SelectorOf(data.selector).None? ==>
        selector == "" && validationErrors == [MissingSelector]
    {
      this.data := data;
      this.ruleLabel := ruleLabel;
      this.actor := actor;
      validationErrors := [];
      priority := CraftingPriority;
      name := ElementName(data.name, ruleLabel);
      if data.selector.Str? && Truthy(data.selector) {
        selector := data.selector.s;
      } else {
        validationErrors := validationErrors + [MissingSelector];
        selector := "";
      }
    }

    /**
     * `onCreate`: when the predicate test passes, write the entry record
     * under the resolved selector, overwriting whatever was there; the record
     * starts with no prepared formulas and takes the craftable-items
     * predicate only when it validates.
     */
    method OnCreate(actorUpdates: ActorUpdates, testPasses: bool,
                    resolveValue: Value -> Value, validate: Value -> bool)
      modifies actorUpdates
      ensures !testPasses ==> actorUpdates.updates == old(actorUpdates.updates)
      ensures testPasses ==>
        var resolved := ResolvedSelector(resolveValue, selector);
        actorUpdates.updates == old(actorUpdates.updates)[EntryKey(resolved) := EntryUpdate(CraftingEntryData(
          actorPreparedFormulas := [],
          selector := resolved,
          name := name,
          isAlchemical := data.isAlchemical,
          isDailyPrep := data.isDailyPrep,
          isPrepared := data.isPrepared,
          craftableItems := if validate(data.craftableItems) then data.craftableItems else Obj(map[]),
          maxItemLevel := data.maxItemLevel,
          maxSlots := data.maxSlots))]
    {
      if !testPasses {
        return;
      }
      var resolved := ToString(resolveValue(Str(selector)));
      var entry := CraftingEntryData(
        actorPreparedFormulas := [],
        selector := resolved,
        name := name,
        isAlchemical := data.isAlchemical,
        isDailyPrep := data.isDailyPrep,
        isPrepared := data.isPrepared,
        craftableItems := if validate(data.craftableItems) then data.craftableItems else Obj(map[]),
        maxItemLevel := data.maxItemLevel,
        maxSlots := data.maxSlots);
      actorUpdates.updates := actorUpdates.updates[EntriesPath + resolved := EntryUpdate(entry)];
    }

    /**
     * `onApplyActiveEffects`: when the test passes and the actor already has
     * an entry under the (unresolved) selector, set the entry's roll option.
     */
    method OnApplyActiveEffects(testPasses: bool, sluggify: string -> string)
      modifies actor`rollOptions
      ensures testPasses && selector in actor.craftingEntries ==>
        actor.rollOptions == old(actor.rollOptions)[EntryOption(sluggify, selector) := true]
      ensures !(testPasses && selector in actor.craftingEntries) ==>
        actor.rollOptions == old(actor.rollOptions)
    {
      if !testPasses {
        return;
      }
      if selector !in actor.craftingEntries {
        return;
      }
      var option := sluggify(selector);
      actor.rollOptions := actor.rollOptions[EntryOptionPrefix + option := true];
    }

    /** `onDelete`: always write the deletion marker for the selector; no test is made. */
    method OnDelete(actorUpdates: ActorUpdates)
      modifies actorUpdates
      ensures actorUpdates.updates == old(actorUpdates.updates)[DeletionKey(selector) := NullMarker]
    {
      actorUpdates.updates := actorUpdates.updates[EntriesPath + "-=" + selector := NullMarker];
    }
  }

  // ---------------------------------------------------------------------
  // Properties of the keys the element writes
  // ---------------------------------------------------------------------

  /** Distinct selectors write distinct entry paths. */
  lemma EntryKeyInjective(a: string, b: string)
    requires EntryKey(a) == EntryKey(b)
    ensures a == b
  {
    assert a == EntryKey(a)[|EntriesPath|..];
  }

  /** For one selector, the deletion path is never the entry path, so deleting does not clobber a creation. */
  lemma DeletionKeyDiffers(selector: string)
    ensures DeletionKey(selector) != EntryKey(selector)
  {
    assert |DeletionKey(selector)| == |EntryKey(selector)| + 2;
  }

  /** A selector that resolves to itself is written at `system.crafting.entries.<selector>`. */
  lemma CreatedEntryAnnounced(resolveValue: Value -> Value, selector: string)
    requires resolveValue(Str(selector)) == Str(selector)
    ensures ResolvedSelector(resolveValue, selector) == selector
    ensures EntryKey(ResolvedSelector(resolveValue, selector)) == EntriesPath + selector
  {
  }

  /** The lifecycle of an element for the selector "alchemy" with two slots. */
  method AlchemyScenario(validate: Value -> bool, sluggify: string -> string)
  {
    var actor := new CharacterActor(map[], map[]);
    var source := CraftingEntryRuleSource(Str("Alchemy"), Str("alchemy"), Number(50), Bool(true), Bool(true),
                                          Bool(true), Number(1), Number(2), Obj(map[]));
    var element := new CraftingEntryRuleElement(source, "Alchemist", actor);
    assert element.priority == 5 && element.validationErrors == [];
    var updates := new ActorUpdates(map[]);
    element.OnCreate(updates, true, (v: Value) => v, validate);
    assert EntryKey("alchemy") in updates.updates;
    var written := updates.updates[EntryKey("alchemy")];
    assert written.entry.maxSlots == Number(2) && written.entry.actorPreparedFormulas == [];
    element.OnDelete(updates);
    assert updates.updates[DeletionKey("alchemy")] == NullMarker;
    element.OnApplyActiveEffects(true, sluggify);
    assert actor.rollOptions == map[];
  }

  /** An element without a selector fails validation, yet its `onDelete` still writes a marker. */
  method MissingSelectorScenario()
  {
    var actor := new CharacterActor(map[], map[]);
    var source := CraftingEntryRuleSource(Undefined, Undefined, Undefined, Undefined, Undefined,
                                          Undefined, Undefined, Undefined, Undefined);
    var element := new CraftingEntryRuleElement(source, "Crafting", actor);
    assert element.selector == "" && element.validationErrors == [MissingSelector];
    assert element.name == "Crafting";
    var updates := new ActorUpdates(map[]);
    element.OnDelete(updates);
    assert DeletionKey("") == EntriesPath + "-=";
    assert updates.updates == map[EntriesPath + "-=" := NullMarker];
  }
}
