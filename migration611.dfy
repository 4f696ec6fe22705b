/**
 * Data migration 0.611: on every character, the feats Toughness and
 * Mountain's Stoutness (also found under the misspelled slug
 * `mountain-s-stoutness`) are swapped, in place, for the current version of
 * the feat from the feats compendium, keeping the slot (`location`) the old
 * feat occupied. A missing compendium feat is a hard error.
 */
module Migration611 {
  import opened Wrappers

  /** The part of an item's source data the migration reads or writes. */
  datatype Item = Item(id: string, itemType: string, slug: Option<string>, location: Option<string>)

  /** The outcome of a migration together with the item list it leaves behind. */
  datatype MigrationResult = MigrationResult(items: seq<Item>, outcome: Outcome<string>)

  const FeatSlugs: seq<string> := ["mountains-stoutness", "mountain-s-stoutness", "toughness"]
  const MisspelledSlug: string := "mountain-s-stoutness"
  const StoutnessSlug: string := "mountains-stoutness"
  const ToughnessSlug: string := "toughness"
  const NotFoundMessage: string := "PF2E System | Expected item not found in Compendium"

  /** `slug ?? ''` */
  function SlugOrEmpty(item: Item): string {
    match item.slug
    case Some(s) => s
    case None => ""
  }

  /** The filter of the migration: a feat under one of the three slugs. */
  predicate IsOldFeat(item: Item): (r: bool)
    ensures r ==> item.itemType == "feat" && item.slug.Some?
    ensures r <==>
      && item.itemType == "feat"
      && (item.slug == Some(StoutnessSlug) || item.slug == Some(MisspelledSlug) || item.slug == Some(ToughnessSlug))
  {
    SlugOrEmpty(item) in FeatSlugs && item.itemType == "feat"
  }

  /** The misspelled slug is rewritten on the old feat before anything else is done with it. */
  function Normalised(item: Item): (r: Item)
    ensures r.slug != Some(MisspelledSlug)
    ensures r.id == item.id && r.itemType == item.itemType && r.location == item.location
    ensures item.slug != Some(MisspelledSlug) ==> r == item
    ensures IsOldFeat(item) ==> IsOldFeat(r) && (r.slug == Some(ToughnessSlug) || r.slug == Some(StoutnessSlug))
  {
    if item.slug == Some(MisspelledSlug) then item.(slug := Some(StoutnessSlug)) else item
  }

  /** The compendium slug an old feat is replaced by. */
  function TargetSlug(item: Item): string {
    if Normalised(item).slug == Some(ToughnessSlug) then ToughnessSlug else StoutnessSlug
  }

  /** `Array.prototype.find`: the first compendium entry with the given slug. */
  function Find(compendium: seq<Item>, slug: string): (found: Option<Item>)
    ensures found.Some? ==> found.value in compendium && found.value.slug == Some(slug)
    ensures found.None? <==> forall j :: 0 <= j < |compendium| ==> compendium[j].slug != Some(slug)
    ensures found.Some? ==>
      exists j :: 0 <= j < |compendium| && compendium[j] == found.value &&
        forall k :: 0 <= k < j ==> compendium[k].slug != Some(slug)
  {
    if compendium == [] then None
    else if compendium[0].slug == Some(slug) then Some(compendium[0])
    else
      var found := Find(compendium[1..], slug);
      FirstShifted(compendium, slug, found);
      found
  }

  /** A first match in the tail of the compendium is a first match in the whole when the head does not match. */
  lemma FirstShifted(compendium: seq<Item>, slug: string, found: Option<Item>)
    requires |compendium| > 0 && compendium[0].slug != Some(slug)
    requires found.Some? ==>
      exists j :: 0 <= j < |compendium[1..]| && compendium[1..][j] == found.value &&
        forall k :: 0 <= k < j ==> compendium[1..][k].slug != Some(slug)
    ensures found.Some? ==>
      exists j :: 0 <= j < |compendium| && compendium[j] == found.value &&
        forall k :: 0 <= k < j ==> compendium[k].slug != Some(slug)
  {
    if found.Some? {
      var j :| 0 <= j < |compendium[1..]| && compendium[1..][j] == found.value &&
        forall k :: 0 <= k < j ==> compendium[1..][k].slug != Some(slug);
      assert compendium[j + 1] == found.value;
      forall k | 0 <= k < j + 1
        ensures compendium[k].slug != Some(slug)
      {
        if k > 0 {
          assert compendium[k] == compendium[1..][k - 1];
        }
      }
    }
  }

  /** The entry `find` returns, provided it is a feat (`instanceof FeatPF2e`). */
  function CompendiumFeat(compendium: seq<Item>, slug: string): (r: Option<Item>)
    ensures r.Some? ==> r.value.itemType == "feat" && Find(compendium, slug) == r
    ensures r.None? <==> Find(compendium, slug).None? || Find(compendium, slug).value.itemType != "feat"
  {
    match Find(compendium, slug)
    case Some(f) => if f.itemType == "feat" then Some(f) else None
    case None => None
  }

  /** What an old feat is replaced by: the compendium feat, carrying the old feat's location. */
  function Replacement(item: Item, compendium: seq<Item>): (r: Option<Item>)
    ensures r.Some? <==> CompendiumFeat(compendium, TargetSlug(item)).Some?
    ensures r.Some? ==>
      r.value.location == item.location && r.value.itemType == "feat" && r.value.slug == Some(TargetSlug(item))
  {
    match CompendiumFeat(compendium, TargetSlug(item))
    case Some(f) => Some(f.(location := item.location))
    case None => None
  }

  /**
   * The migration of one character's item list, item by item from the front:
   * old feats are replaced one for one, everything else is kept; the first old
   * feat whose compendium feat is missing stops the migration with an error,
   * leaving that feat with its slug normalised and the rest untouched.
   */
  function Migrate(items: seq<Item>, compendium: seq<Item>): (r: MigrationResult)
    ensures |r.items| == |items|
    decreases |items|
  {
    if items == [] then MigrationResult([], Pass)
    else if !IsOldFeat(items[0]) then
      var rest := Migrate(items[1..], compendium);
      MigrationResult([items[0]] + rest.items, rest.outcome)
    else
      match Replacement(items[0], compendium)
      case None => MigrationResult([Normalised(items[0])] + items[1..], Fail(NotFoundMessage))
      case Some(feat) =>
        var rest := Migrate(items[1..], compendium);
        MigrationResult([feat] + rest.items, rest.outcome)
  }

  /**
   * `updateActor`: non-characters are left alone; on a character the items
   * array is rewritten in place. The filter and the loop over the filtered
   * feats are fused into one pass over the array: when the loop reaches an
   * index, the item there is still the one the filter saw, and the position
   * `indexOf` finds for an old feat is the index it was filtered at.
   */
  method UpdateActor(actorType: string, items: array<Item>, compendium: seq<Item>) returns (outcome: Outcome<string>)
    modifies items
    ensures actorType != "character" ==> outcome == Pass && items[..] == old(items[..])
    ensures actorType == "character" ==>
      MigrationResult(items[..], outcome) == Migrate(old(items[..]), compendium)
  {
    if actorType != "character" {
      return Pass;
    }
    ghost var original := items[..];
    var i := 0;
    while i < items.Length
      invariant 0 <= i <= items.Length
      invariant forall k :: i <= k < items.Length ==> items[k] == original[k]
      invariant Migrate(original, compendium) == After(items[..i], Migrate(original[i..], compendium))
    {
      ghost var done := items[..i];
      var replaced := ReplaceOldFeat(items, i, compendium);
      assert items[..i] == done;
      if !replaced {
        MigrateStops(original, compendium, done, i);
        FailedAt(items[..], original, done, i);
        return Fail(NotFoundMessage);
      }
      MigrateAdvances(original, compendium, done, i, items[i]);
      assert items[..i + 1] == done + [items[i]];
      i := i + 1;
    }
    assert items[..i] == items[..];
    return Pass;
  }

  /**
   * One iteration of the loop, at index `i`: an old feat has its slug
   * normalised and is then overwritten by its compendium feat carrying its
   * location; `false` when that compendium feat is missing.
   */
  method ReplaceOldFeat(items: array<Item>, i: nat, compendium: seq<Item>) returns (replaced: bool)
    requires i < items.Length
    modifies items
    ensures replaced <==> !IsOldFeat(old(items[i])) || Replacement(old(items[i]), compendium).Some?
    ensures items[i] ==
      if !IsOldFeat(old(items[i])) then old(items[i])
      else if replaced then Replacement(old(items[i]), compendium).value
      else Normalised(old(items[i]))
    ensures forall k :: 0 <= k < items.Length && k != i ==> items[k] == old(items[k])
  {
    if !IsOldFeat(items[i]) {
      return true;
    }
    items[i] := Normalised(items[i]);
    var slug := if items[i].slug == Some(ToughnessSlug) then ToughnessSlug else StoutnessSlug;
    var newFeat := CompendiumFeat(compendium, slug);
    if newFeat.None? {
      return false;
    }
    items[i] := newFeat.value.(location := items[i].location);
    return true;
  }

  /** The items `done` followed by what is left to migrate. */
  function After(done: seq<Item>, rest: MigrationResult): MigrationResult {
    MigrationResult(done + rest.items, rest.outcome)
  }

  /** The array after the loop throws at index `i`. */
  lemma FailedAt(now: seq<Item>, original: seq<Item>, done: seq<Item>, i: nat)
    requires i < |now| == |original|
    requires now[..i] == done
    requires forall k :: i < k < |now| ==> now[k] == original[k]
    ensures now == done + [now[i]] + original[i + 1..]
  {
  }

  /** One iteration of the loop that replaces or keeps the item at `i`. */
  lemma MigrateAdvances(items: seq<Item>, compendium: seq<Item>, done: seq<Item>, i: nat, item: Item)
    requires i < |items|
    requires Migrate(items, compendium) == After(done, Migrate(items[i..], compendium))
    requires IsOldFeat(items[i]) ==> Replacement(items[i], compendium) == Some(item)
    requires !IsOldFeat(items[i]) ==> item == items[i]
    ensures Migrate(items, compendium) == After(done + [item], Migrate(items[i + 1..], compendium))
  {
    assert items[i..][1..] == items[i + 1..];
    assert [items[i..][0]] == [items[i]];
  }

  /** The iteration of the loop that throws at `i`. */
  lemma MigrateStops(items: seq<Item>, compendium: seq<Item>, done: seq<Item>, i: nat)
    requires i < |items|
    requires Migrate(items, compendium) == After(done, Migrate(items[i..], compendium))
    requires IsOldFeat(items[i]) && Replacement(items[i], compendium).None?
    ensures Migrate(items, compendium) ==
      MigrationResult(done + [Normalised(items[i])] + items[i + 1..], Fail(NotFoundMessage))
  {
    assert items[i..][1..] == items[i + 1..];
  }

  // ---------------------------------------------------------------------
  // Properties of the migration
  // ---------------------------------------------------------------------

  /** The two spellings of Mountain's Stoutness go to the same feat; Toughness goes to Toughness. */
  lemma TargetOfOldFeat(item: Item)
    requires IsOldFeat(item)
    ensures TargetSlug(item) == ToughnessSlug <==> item.slug == Some(ToughnessSlug)
    ensures TargetSlug(item) == StoutnessSlug <==>
      item.slug == Some(StoutnessSlug) || item.slug == Some(MisspelledSlug)
  {
  }

  /** A replacement is a compendium feat under the target slug, in the old feat's slot. */
  lemma ReplacementIsCompendiumFeat(item: Item, compendium: seq<Item>)
    requires Replacement(item, compendium).Some?
    ensures var feat := Replacement(item, compendium).value;
      && feat.itemType == "feat"
      && feat.slug == Some(TargetSlug(item))
      && feat.location == item.location
      && feat.(location := Find(compendium, TargetSlug(item)).value.location) in compendium
  {
  }

  /**
   * Only the first compendium entry with the slug is considered: when it is
   * not a feat, a feat further on with the same slug is never reached and the
   * old feat has no replacement.
   */
  lemma FirstEntryShadows(compendium: seq<Item>, slug: string, j: nat)
    requires j < |compendium| && compendium[j].slug == Some(slug) && compendium[j].itemType != "feat"
    requires forall k :: 0 <= k < j ==> compendium[k].slug != Some(slug)
    ensures Find(compendium, slug) == Some(compendium[j])
    ensures CompendiumFeat(compendium, slug).None?
  {
    var found := Find(compendium, slug);
    var i :| 0 <= i < |compendium| && compendium[i] == found.value &&
      forall k :: 0 <= k < i ==> compendium[k].slug != Some(slug);
    assert compendium[i].slug == Some(slug);
    assert i == j;
  }

  /** The migration fails exactly when some old feat has no feat to be replaced by. */
  lemma {:induction false} MigrateFailsIff(items: seq<Item>, compendium: seq<Item>)
    ensures Migrate(items, compendium).outcome.Fail? <==>
      exists i :: 0 <= i < |items| && IsOldFeat(items[i]) && Replacement(items[i], compendium).None?
    ensures Migrate(items, compendium).outcome.Fail? ==>
      Migrate(items, compendium).outcome.error == NotFoundMessage
    decreases |items|
  {
    if items != [] {
      MigrateFailsIff(items[1..], compendium);
      if !(IsOldFeat(items[0]) && Replacement(items[0], compendium).None?) {
        if exists i :: 0 <= i < |items| && IsOldFeat(items[i]) && Replacement(items[i], compendium).None? {
          var i :| 0 <= i < |items| && IsOldFeat(items[i]) && Replacement(items[i], compendium).None?;
          assert items[1..][i - 1] == items[i];
        }
      }
    }
  }

  /** Whatever the outcome, every item that is not an old feat keeps its value and its position. */
  lemma {:induction false} OtherItemsUnchanged(items: seq<Item>, compendium: seq<Item>, i: nat)
    requires i < |items| && !IsOldFeat(items[i])
    ensures Migrate(items, compendium).items[i] == items[i]
    decreases |items|
  {
    if i > 0 && (!IsOldFeat(items[0]) || Replacement(items[0], compendium).Some?) {
      OtherItemsUnchanged(items[1..], compendium, i - 1);
    }
  }

  /**
   * On success every old feat has been replaced by its compendium feat, and
   * each replacement carries the location of the very feat it replaced.
   */
  lemma {:induction false} OldFeatsReplaced(items: seq<Item>, compendium: seq<Item>, i: nat)
    requires i < |items| && IsOldFeat(items[i])
    requires Migrate(items, compendium).outcome == Pass
    ensures Replacement(items[i], compendium).Some?
    ensures Migrate(items, compendium).items[i] == Replacement(items[i], compendium).value
    ensures Migrate(items, compendium).items[i].location == items[i].location
    decreases |items|
  {
    var rest := Migrate(items[1..], compendium);
    if i > 0 {
      if IsOldFeat(items[0]) {
        assert Replacement(items[0], compendium).Some?;
      }
      assert rest.outcome == Pass;
      assert items[1..][i - 1] == items[i];
      OldFeatsReplaced(items[1..], compendium, i - 1);
      assert Migrate(items, compendium).items[i] == rest.items[i - 1];
    }
  }

  /** A replacement is itself an old feat, and migrating it again gives the same feat back. */
  lemma ReplacementIsStable(item: Item, compendium: seq<Item>)
    requires Replacement(item, compendium).Some?
    ensures IsOldFeat(Replacement(item, compendium).value)
    ensures Replacement(Replacement(item, compendium).value, compendium) == Replacement(item, compendium)
  {
    var feat := Replacement(item, compendium).value;
    assert TargetSlug(feat) == TargetSlug(item);
  }

  /** A migration that succeeded can be run again: it succeeds and changes nothing more. */
  lemma {:induction false} MigrateIdempotent(items: seq<Item>, compendium: seq<Item>)
    requires Migrate(items, compendium).outcome == Pass
    ensures Migrate(Migrate(items, compendium).items, compendium) == Migrate(items, compendium)
    decreases |items|
  {
    if items != [] {
      var rest := Migrate(items[1..], compendium);
      MigrateIdempotent(items[1..], compendium);
      var once := Migrate(items, compendium).items;
      assert once[1..] == rest.items;
      if IsOldFeat(items[0]) {
        ReplacementIsStable(items[0], compendium);
      }
    }
  }

  // ---------------------------------------------------------------------
  // The migration as written: one shared compendium object per feat
  // ---------------------------------------------------------------------

  /**
   * The number of items the loop gets through before it throws: the index of
   * the first old feat without a compendium feat, or the whole list.
   */
  function ProcessedCount(items: seq<Item>, compendium: seq<Item>): (n: nat)
    ensures n <= |items|
    decreases |items|
  {
    if items == [] then 0
    else if IsOldFeat(items[0]) && Replacement(items[0], compendium).None? then 0
    else 1 + ProcessedCount(items[1..], compendium)
  }

  /** The location of the last old feat in `items` that is replaced by the feat under `target`. */
  function LastLocation(items: seq<Item>, target: string): Option<string>
    decreases |items|
  {
    if items == [] then None
    else
      var last := items[|items| - 1];
      if IsOldFeat(last) && TargetSlug(last) == target then last.location
      else LastLocation(items[..|items| - 1], target)
  }

  /**
   * What the loop as written leaves behind. `find` returns the same compendium
   * document every time it is asked for the same slug, the loop writes the
   * old location into that one document, and `splice` inserts that document's
   * data object itself. Every slot filled from the same compendium feat
   * therefore holds one and the same object, whose `location` is the one the
   * last such replacement wrote.
   */
  function MigrateAsWritten(items: seq<Item>, compendium: seq<Item>): (r: MigrationResult)
    ensures |r.items| == |items|
    ensures r.outcome == Migrate(items, compendium).outcome
  {
    var r := Migrate(items, compendium);
    var n := ProcessedCount(items, compendium);
    MigrationResult(
      seq(|items|, i requires 0 <= i < |items| =>
        if i < n && IsOldFeat(items[i])
        then r.items[i].(location := LastLocation(items[..n], TargetSlug(items[i])))
        else r.items[i]),
      r.outcome)
  }

  /** Every old feat ahead of the failing position has a replacement, and `Migrate` puts it in its slot. */
  lemma {:induction false} ProcessedReplaced(items: seq<Item>, compendium: seq<Item>, k: nat)
    requires k < ProcessedCount(items, compendium) && IsOldFeat(items[k])
    ensures Replacement(items[k], compendium).Some?
    ensures Migrate(items, compendium).items[k] == Replacement(items[k], compendium).value
    decreases |items|
  {
    var rest := Migrate(items[1..], compendium);
    if k > 0 {
      if IsOldFeat(items[0]) {
        assert Replacement(items[0], compendium).Some?;
      }
      assert items[1..][k - 1] == items[k];
      ProcessedReplaced(items[1..], compendium, k - 1);
      assert Migrate(items, compendium).items[k] == rest.items[k - 1];
    }
  }

  /**
   * As written, any two processed slots whose old feats are replaced from the
   * same compendium feat end up holding the same item, locations included.
   */
  lemma SharedSlotsCoincide(items: seq<Item>, compendium: seq<Item>, i: nat, j: nat)
    requires i < j < ProcessedCount(items, compendium)
    requires IsOldFeat(items[i]) && IsOldFeat(items[j]) && TargetSlug(items[i]) == TargetSlug(items[j])
    ensures MigrateAsWritten(items, compendium).items[i] == MigrateAsWritten(items, compendium).items[j]
  {
    ProcessedReplaced(items, compendium, i);
    ProcessedReplaced(items, compendium, j);
  }

  /**
   * A character with two Toughness feats in different slots: as written both
   * slots end with the second slot's location, while each replacement was
   * meant to keep its own.
   */
  lemma SharedFeatLosesLocation()
    ensures var compendium := [Item("pack-toughness", "feat", Some(ToughnessSlug), None)];
      var items := [Item("a", "feat", Some(ToughnessSlug), Some("general-3")),
                    Item("b", "feat", Some(ToughnessSlug), Some("skill-2"))];
      && MigrateAsWritten(items, compendium).items[0].location == Some("skill-2")
      && Migrate(items, compendium).items[0].location == Some("general-3")
  {
    var compendium := [Item("pack-toughness", "feat", Some(ToughnessSlug), None)];
    var items := [Item("a", "feat", Some(ToughnessSlug), Some("general-3")),
                  Item("b", "feat", Some(ToughnessSlug), Some("skill-2"))];
    assert Find(compendium, ToughnessSlug) == Some(compendium[0]);
    assert items[1..][1..] == [];
    assert ProcessedCount(items, compendium) == 2;
    assert items[..2] == items;
    assert items[..1] == [items[0]];
    assert LastLocation(items, ToughnessSlug) == Some("skill-2");
  }
}
