/**
 * The description-adjustment rule element: before the owning item's data is
 * prepared, it either overwrites the item's description text with its
 * resolved value or appends that value to it.
 */
module AdjustDescription {
  import opened JsValues

  /** The owning item; `description` is its `description.value` text. */
  class Item {
    var name: string
    var description: string

    constructor (name: string, description: string)
      ensures this.name == name && this.description == description
    {
      this.name := name;
      this.description := description;
    }
  }

  /** The rule element's data: the value to resolve and the optional `replace` flag. */
  datatype AdjustDescriptionData = AdjustDescriptionData(value: Value, replace: Value)

  /** The description after the hook, from the one before it, the flag and the resolved value. */
  function AdjustedDescription(current: string, replace: bool, resolved: Value): (r: string)
    ensures replace && !Truthy(resolved) ==> r == ""
    ensures replace && resolved.Str? ==> r == resolved.s
    ensures !replace ==> current <= r && r[|current|..] == TextOrEmpty(resolved)
  {
    var text := TextOrEmpty(resolved);
    if replace then text else current + text
  }

  class AdjustDescriptionRuleElement {
    const data: AdjustDescriptionData
    const item: Item

    constructor (data: AdjustDescriptionData, item: Item)
      ensures this.data == data && this.item == item
    {
      this.data := data;
      this.item := item;
    }

    /**
     * `beforePrepareData`. `resolveValue` is the host's value resolution
     * against the actor's roll data. Only the item's description is written.
     */
    method BeforePrepareData(resolveValue: Value -> Value)
      modifies item`description
      ensures item.description ==
        AdjustedDescription(old(item.description), Truthy(data.replace), resolveValue(data.value))
    {
      var value := resolveValue(data.value);
      var text := if Truthy(value) then ToString(value) else "";
      if Truthy(data.replace) {
        item.description := text;
      } else {
        item.description := item.description + text;
      }
    }
  }

  // ---------------------------------------------------------------------
  // Properties of the adjustment
  // ---------------------------------------------------------------------

  /** Replacing gives the text of the resolved value, whatever the description was. */
  lemma ReplaceOverwrites(current: string, other: string, resolved: Value)
    ensures AdjustedDescription(current, true, resolved) == AdjustedDescription(other, true, resolved)
    ensures AdjustedDescription(current, true, resolved) == if Truthy(resolved) then ToString(resolved) else ""
  {
  }

  /** Appending keeps the old description as a prefix and adds exactly the resolved text after it. */
  lemma AppendExtends(current: string, resolved: Value)
    ensures var r := AdjustedDescription(current, false, resolved);
      && current <= r
      && r[|current|..] == TextOrEmpty(resolved)
  {
  }

  /** Appending a falsy value changes nothing. */
  lemma AppendFalsyUnchanged(current: string, resolved: Value)
    requires !Truthy(resolved)
    ensures AdjustedDescription(current, false, resolved) == current
  {
  }

  /** Replacing twice with the same value is the same as replacing once. */
  lemma ReplaceIdempotent(current: string, resolved: Value)
    ensures var once := AdjustedDescription(current, true, resolved);
      AdjustedDescription(once, true, resolved) == once
  {
  }

  /** Appending is not idempotent: every run adds the text once more. */
  lemma AppendRepeats(current: string, resolved: Value)
    ensures var once := AdjustedDescription(current, false, resolved);
      AdjustedDescription(once, false, resolved) == current + TextOrEmpty(resolved) + TextOrEmpty(resolved)
  {
  }

  /** A run of the hook on an item whose description is "A" and whose value resolves to "B". */
  method AppendAndReplaceScenario()
  {
    var resolve := (v: Value) => Str("B");
    var item := new Item("Shield Block", "A");
    var append := new AdjustDescriptionRuleElement(AdjustDescriptionData(Str("{item|name}"), Undefined), item);
    append.BeforePrepareData(resolve);
    assert item.description == "AB";
    var replace := new AdjustDescriptionRuleElement(AdjustDescriptionData(Str("{item|name}"), Bool(true)), item);
    replace.BeforePrepareData(resolve);
    assert item.description == "B";
    assert item.name == "Shield Block";
  }
}
