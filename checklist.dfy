/**
 * The checklist panel: the merged template for a sector, the toggle that
 * flips an item's completion flag, and the card that holds the list, resetting
 * it to the fresh template whenever its sector changes.
 */
module Checklist {
  import opened MockData
  import UiHelpers

  /**
   * The template stored under `key`, or the empty list when there is none.
   * Exactly the four keys of the table have a template, each of at most three items.
   */
  function Template(key: string): (r: seq<ChecklistItem>)
    ensures r != [] <==> key in {"food", "textile", "it", "general"}
    ensures |r| <= 3
  {
    if key in MockChecklists then MockChecklists[key] else []
  }

  /** The sector's own items followed by the general items. */
  function Merge(sector: string): (r: seq<ChecklistItem>)
    ensures |r| == |Template(sector)| + |GeneralChecklist|
    ensures r[..|Template(sector)|] == Template(sector)
    ensures r[|Template(sector)|..] == GeneralChecklist
    ensures r[|r| - 2].id == "c8" && r[|r| - 1].id == "c9"
  {
    Template(sector) + Template("general")
  }

  /** The merged list for every sector the page offers. */
  lemma MergeForKnownSectors()
    ensures Merge("food") == FoodChecklist + GeneralChecklist
    ensures Merge("textile") == TextileChecklist + GeneralChecklist
    ensures Merge("it") == ItChecklist + GeneralChecklist
    ensures Merge("manufacturing") == GeneralChecklist
    ensures Merge("all") == GeneralChecklist
  {
  }

  /** A sector without a template of its own gets the general items alone. */
  lemma MergeWithoutTemplate(sector: string)
    requires sector !in MockChecklists
    ensures Merge(sector) == GeneralChecklist
  {
  }

  /**
   * The key "general" is a template too, so a sector prop of "general" would
   * list the general items twice. Neither selector offers that key, so the page
   * never reaches this input; the lemma records what the lookup does with it.
   */
  lemma MergeForGeneralKey()
    ensures Merge("general") == GeneralChecklist + GeneralChecklist
    ensures ToggleItems(Merge("general"), "c8")[0].done == ToggleItems(Merge("general"), "c8")[2].done == false
  {
  }

  /** The identifiers of a checklist, in order. */
  function ItemIds(list: seq<ChecklistItem>): (ids: seq<string>)
    ensures |ids| == |list|
    ensures forall i :: 0 <= i < |list| ==> ids[i] == list[i].id
  {
    if list == [] then [] else [list[0].id] + ItemIds(list[1..])
  }

  /** The identifiers of the merged list for each sector the page offers. */
  lemma MergedIdsForKnownSectors()
    ensures ItemIds(Merge("food")) == ["c1", "c2", "c3", "c8", "c9"]
    ensures ItemIds(Merge("textile")) == ["c4", "c5", "c8", "c9"]
    ensures ItemIds(Merge("it")) == ["c6", "c7", "c8", "c9"]
    ensures ItemIds(Merge("manufacturing")) == ["c8", "c9"]
    ensures ItemIds(Merge("all")) == ["c8", "c9"]
  {
    FoodMergedIds();
    TextileMergedIds();
    ItMergedIds();
    GeneralOnlyMergedIds();
  }

  lemma FoodMergedIds()
    ensures ItemIds(Merge("food")) == ["c1", "c2", "c3", "c8", "c9"]
  {
    assert Merge("food") == FoodChecklist + GeneralChecklist;
    IdsAre(FoodChecklist + GeneralChecklist, ["c1", "c2", "c3", "c8", "c9"]);
  }

  lemma TextileMergedIds()
    ensures ItemIds(Merge("textile")) == ["c4", "c5", "c8", "c9"]
  {
    assert Merge("textile") == TextileChecklist + GeneralChecklist;
    IdsAre(TextileChecklist + GeneralChecklist, ["c4", "c5", "c8", "c9"]);
  }

  lemma ItMergedIds()
    ensures ItemIds(Merge("it")) == ["c6", "c7", "c8", "c9"]
  {
    assert Merge("it") == ItChecklist + GeneralChecklist;
    IdsAre(ItChecklist + GeneralChecklist, ["c6", "c7", "c8", "c9"]);
  }

  lemma GeneralOnlyMergedIds()
    ensures ItemIds(Merge("manufacturing")) == ["c8", "c9"]
    ensures ItemIds(Merge("all")) == ["c8", "c9"]
  {
    assert Merge("manufacturing") == GeneralChecklist;
    assert Merge("all") == GeneralChecklist;
    IdsAre(GeneralChecklist, ["c8", "c9"]);
  }

  lemma IdsAre(list: seq<ChecklistItem>, expected: seq<string>)
    requires |list| == |expected|
    requires forall i :: 0 <= i < |list| ==> list[i].id == expected[i]
    ensures ItemIds(list) == expected
  {
  }

  /** For every selectable sector the merged list names each item once. */
  lemma MergeIdsDistinct(sector: string)
    requires sector in UiHelpers.SectorKeys
    ensures Distinct(ItemIds(Merge(sector)))
  {
    UiHelpers.SectorKeysListed();
    var ids := ItemIds(Merge(sector));
    if sector == "food" {
      FoodMergedIds();
      assert ids == ["c1", "c2", "c3", "c8", "c9"];
    } else if sector == "textile" {
      TextileMergedIds();
      assert ids == ["c4", "c5", "c8", "c9"];
    } else if sector == "it" {
      ItMergedIds();
      assert ids == ["c6", "c7", "c8", "c9"];
    } else {
      GeneralOnlyMergedIds();
      assert ids == ["c8", "c9"];
    }
    IdsDistinct(ids);
  }

  /** The id lists of the merged templates have no repeats. */
  lemma IdsDistinct(ids: seq<string>)
    requires ids in {["c1", "c2", "c3", "c8", "c9"], ["c4", "c5", "c8", "c9"], ["c6", "c7", "c8", "c9"], ["c8", "c9"]}
    ensures Distinct(ids)
  {
  }

  /** The flip applied to one item: only the item with the given id changes. */
  function Flip(x: ChecklistItem, id: string): ChecklistItem {
    if x.id == id then x.(done := !x.done) else x
  }

  /** The list after clicking the checkbox of `id`. */
  function ToggleItems(list: seq<ChecklistItem>, id: string): (r: seq<ChecklistItem>)
    ensures |r| == |list|
    ensures forall i :: 0 <= i < |list| ==> r[i].id == list[i].id && r[i].item == list[i].item
    ensures forall i :: 0 <= i < |list| ==> r[i].done == (if list[i].id == id then !list[i].done else list[i].done)
  {
    if list == [] then [] else [Flip(list[0], id)] + ToggleItems(list[1..], id)
  }

  /** Two lists with the same items in the same order, whatever their completion flags. */
  predicate SameShape(a: seq<ChecklistItem>, b: seq<ChecklistItem>) {
    |a| == |b| && forall i :: 0 <= i < |a| ==> a[i].id == b[i].id && a[i].item == b[i].item
  }

  /** Toggling the same item twice restores the list. */
  lemma ToggleTwice(list: seq<ChecklistItem>, id: string)
    ensures ToggleItems(ToggleItems(list, id), id) == list
  {
  }

  /** Toggling an id the list does not hold changes nothing. */
  lemma ToggleAbsent(list: seq<ChecklistItem>, id: string)
    requires id !in ItemIds(list)
    ensures ToggleItems(list, id) == list
  {
  }

  /** Two toggles give the same list in either order. */
  lemma ToggleCommutes(list: seq<ChecklistItem>, a: string, b: string)
    ensures ToggleItems(ToggleItems(list, a), b) == ToggleItems(ToggleItems(list, b), a)
  {
  }

  /** When ids are unique, a toggle flips exactly one item or none. */
  lemma ToggleFlipsAtMostOne(list: seq<ChecklistItem>, id: string, i: int, j: int)
    requires Distinct(ItemIds(list))
    requires 0 <= i < j < |list|
    ensures ToggleItems(list, id)[i] == list[i] || ToggleItems(list, id)[j] == list[j]
  {
  }

  /**
   * The checklist card. `sector` is the prop it was last rendered with and
   * `list` its local state; the invariant says the list is always the sector's
   * merged template with possibly different completion flags.
   */
  class ChecklistCard {
    var sector: string
    var list: seq<ChecklistItem>

    ghost predicate Valid()
      reads this
    {
      SameShape(list, Merge(sector))
    }

    /** The first render: the local list starts as the merged template. */
    constructor (sector: string)
      ensures Valid()
      ensures this.sector == sector && list == Merge(sector)
    {
      this.sector := sector;
      list := Merge(sector);
    }

    /**
     * A render with the given sector prop. A new sector recomputes the merge
     * and the effect replaces the local list with it; the same sector keeps it.
     */
    method SetSector(s: string)
      requires Valid()
      modifies this
      ensures Valid()
      ensures sector == s
      ensures s == old(sector) ==> list == old(list)
      ensures s != old(sector) ==> list == Merge(s)
    {
      if s != sector {
        sector := s;
        list := Merge(s);
      }
    }

    /** The checkbox of `id` was clicked. */
    method Toggle(id: string)
      requires Valid()
      modifies this
      ensures Valid()
      ensures sector == old(sector)
      ensures list == ToggleItems(old(list), id)
    {
      list := ToggleItems(list, id);
    }
  }

  /**
   * Checking c1 on the food checklist, switching to textile and back to food
   * leaves c1 unchecked: the toggle does not survive the sector change.
   */
  method ToggleIsLostOnSectorRoundTrip() returns (checkedBefore: bool, checkedAfter: bool)
    ensures checkedBefore && !checkedAfter
  {
    var card := new ChecklistCard("food");
    MergeForKnownSectors();
    card.Toggle("c1");
    checkedBefore := card.list[0].done;
    card.SetSector("textile");
    card.SetSector("food");
    assert card.list[0].id == "c1";
    checkedAfter := card.list[0].done;
  }
}
