/** The logistics store (src/store/useLogisticsStore.ts): shopping items
    grouped by sector, and a travel manifest. The random ids are drawn from
    `Math.random().toString(36)`; here the base-36 digits after "0." are a
    parameter of the action that needs them. */
module Logistics {
  import opened Common

  datatype LogisticStatus = Pending | Locating | Acquired

  datatype SectorPriority = Stable | High | Critical

  datatype ItemType = Travel | Supply

  datatype Sector = Sector(id: string, name: string, priority: SectorPriority)

  datatype LogisticsItem = LogisticsItem(
    id: string,
    name: string,
    qty: int,
    status: LogisticStatus,
    sectorId: string,
    displayLabel: Option<string>,
    category: Option<string>,
    itemType: Option<ItemType>)

  /** What `addItem` is given: an item without id and status. */
  datatype ItemDraft = ItemDraft(
    name: string,
    qty: int,
    sectorId: string,
    displayLabel: Option<string>,
    category: Option<string>,
    itemType: Option<ItemType>)

  datatype ManifestItem = ManifestItem(id: string, name: string, weightKg: real, isDeManifested: bool)

  function ItemId(i: LogisticsItem): string { i.id }

  /** The status a toggle moves to: a pending item is acquired, any other
      is pending again. */
  function Toggled(s: LogisticStatus): (r: LogisticStatus)
    ensures r == Acquired <==> s == Pending
    ensures r == Pending <==> s != Pending
  {
    if s == Pending then Acquired else Pending
  }

  function WithStatus(i: LogisticsItem, s: LogisticStatus): LogisticsItem {
    LogisticsItem(i.id, i.name, i.qty, s, i.sectorId, i.displayLabel, i.category, i.itemType)
  }

  function ToggleItem(i: LogisticsItem): LogisticsItem {
    WithStatus(i, Toggled(i.status))
  }

  /** The items after `toggleItemStatus(id)`: each item with the id has its
      status toggled, every other field and every other item is kept. */
  function ToggleMatching(items: seq<LogisticsItem>, id: string): (r: seq<LogisticsItem>)
    ensures |r| == |items|
    ensures forall k :: 0 <= k < |items| ==>
      (r[k].id == items[k].id && r[k].name == items[k].name && r[k].qty == items[k].qty && r[k].sectorId == items[k].sectorId)
    ensures forall k :: 0 <= k < |items| ==>
      r[k].status == if items[k].id == id then Toggled(items[k].status) else items[k].status
    ensures forall k :: 0 <= k < |items| && items[k].id == id ==> r[k] == items[k].(status := Toggled(items[k].status))
    ensures forall k :: 0 <= k < |items| && items[k].id != id ==> r[k] == items[k]
  {
    MapMatching(items, ItemId, id, ToggleItem)
  }

  /** Toggling the same id twice restores the list when no item with the
      id is locating (a locating item goes to pending, then acquired). */
  lemma ToggleTwice(items: seq<LogisticsItem>, id: string)
    requires forall k :: 0 <= k < |items| && items[k].id == id ==> items[k].status != Locating
    ensures ToggleMatching(ToggleMatching(items, id), id) == items
  {
    var once := ToggleMatching(items, id);
    var twice := ToggleMatching(once, id);
    forall k | 0 <= k < |items|
      ensures twice[k] == items[k]
    {
      if items[k].id == id {
        assert items[k].status == Pending || items[k].status == Acquired;
      }
    }
  }

  /** The manifest after `resetManifest`: every entry is back on board,
      with its id, name and weight and its place in the list kept. */
  function ResetAll(m: seq<ManifestItem>): (r: seq<ManifestItem>)
    ensures |r| == |m|
    ensures forall k :: 0 <= k < |m| ==> !r[k].isDeManifested
    ensures forall k :: 0 <= k < |m| ==> r[k].id == m[k].id && r[k].name == m[k].name && r[k].weightKg == m[k].weightKg
  {
    if m == [] then []
    else [ManifestItem(m[0].id, m[0].name, m[0].weightKg, false)] + ResetAll(m[1..])
  }

  /** Resetting twice is resetting once; a manifest with nothing marked is
      left as it is. */
  lemma ResetIdempotent(m: seq<ManifestItem>)
    ensures ResetAll(ResetAll(m)) == ResetAll(m)
    ensures (forall k :: 0 <= k < |m| ==> !m[k].isDeManifested) ==> ResetAll(m) == m
  {
    var r := ResetAll(m);
    assert forall k :: 0 <= k < |m| ==> ResetAll(r)[k] == r[k];
    if forall k :: 0 <= k < |m| ==> !m[k].isDeManifested {
      assert forall k :: 0 <= k < |m| ==> r[k] == m[k];
    }
  }

  /** An item added under a fresh id is the only one that id reaches:
      removing it gives back the list, and toggling it changes nothing
      else. */
  lemma {:induction false} FreshItemAlone(items: seq<LogisticsItem>, item: LogisticsItem)
    requires forall k :: 0 <= k < |items| ==> items[k].id != item.id
    ensures FilterOut(items + [item], ItemId, item.id) == items
    ensures ToggleMatching(items + [item], item.id) == items + [ToggleItem(item)]
  {
    FilterOutAppend(items, [item], ItemId, item.id);
    assert FilterOut([item], ItemId, item.id) == [];
    var r := ToggleMatching(items + [item], item.id);
    assert forall k :: 0 <= k < |items| ==> r[k] == items[k] by {
      forall k | 0 <= k < |items| ensures r[k] == items[k] {
        assert (items + [item])[k] == items[k];
      }
    }
    assert r[|items|] == ToggleItem(item);
  }

  /** `Math.random().toString(36).substr(2, n).toUpperCase()`, given the
      digits after "0.". */
  function RandomId(digits: string, n: nat): (r: string)
    ensures |r| <= n && |r| <= |digits|
    ensures forall k :: 0 <= k < |r| ==> r[k] == ToUpperChar(digits[k])
  {
    ToUpper(Take(digits, n))
  }

  function ManifestId(digits: string): (r: string)
    ensures StartsWith(r, "man-") && |r| <= 9
  {
    "man-" + RandomId(digits, 5)
  }

  const InitialSectors := [
    Sector("sec-01", "GROCERIES_HQ", Stable),
    Sector("sec-02", "HARDWARE_DEPOT", High),
    Sector("sec-03", "PHARMACY_LAB", Critical)]

  const InitialItems := [
    LogisticsItem("4492-AX", "Protein_Synth_Pack", 2, Pending, "sec-01", None, Some("NUTRITION"), Some(Supply)),
    LogisticsItem("9921-BZ", "Neuro_Caffeine_Additives", 1, Pending, "sec-01", None, Some("STIMULANTS"), Some(Supply)),
    LogisticsItem("8823-CC", "CR2032_Cells", 5, Acquired, "sec-02", None, Some("POWER"), Some(Supply))]

  const InitialManifest := [
    ManifestItem("man-01", "Tactical_Backpack", 1.2, false),
    ManifestItem("man-02", "Laptop_Terminal", 2.5, false),
    ManifestItem("man-03", "Hydration_Module", 0.8, false)]

  class LogisticsStore {
    var sectors: seq<Sector>
    var items: seq<LogisticsItem>
    var manifest: seq<ManifestItem>

    constructor ()
      ensures sectors == InitialSectors && items == InitialItems && manifest == InitialManifest
    {
      sectors, items, manifest := InitialSectors, InitialItems, InitialManifest;
    }

    method ToggleItemStatus(id: string)
      modifies this
      ensures items == ToggleMatching(old(items), id)
      ensures sectors == old(sectors) && manifest == old(manifest)
    {
      items := ToggleMatching(items, id);
    }

    /** Removes the item from the shopping list; despite its name the
        manifest is not touched. */
    method DeManifestItem(id: string)
      modifies this
      ensures items == FilterOut(old(items), ItemId, id)
      ensures forall k :: 0 <= k < |items| ==> items[k].id != id
      ensures sectors == old(sectors) && manifest == old(manifest)
    {
      items := FilterOut(items, ItemId, id);
    }

    method AddItem(draft: ItemDraft, digits: string)
      modifies this
      ensures items == old(items) + [LogisticsItem(RandomId(digits, 9), draft.name, draft.qty, Pending,
                                                   draft.sectorId, draft.displayLabel, draft.category, draft.itemType)]
      ensures sectors == old(sectors) && manifest == old(manifest)
    {
      var id := RandomId(digits, 9);
      items := items + [LogisticsItem(id, draft.name, draft.qty, Pending, draft.sectorId, draft.displayLabel, draft.category, draft.itemType)];
    }

    method AddManifestItem(name: string, weight: real, digits: string)
      modifies this
      ensures manifest == old(manifest) + [ManifestItem(ManifestId(digits), name, weight, false)]
      ensures sectors == old(sectors) && items == old(items)
    {
      manifest := manifest + [ManifestItem(ManifestId(digits), name, weight, false)];
    }

    method ResetManifest()
      modifies this
      ensures manifest == ResetAll(old(manifest))
      ensures sectors == old(sectors) && items == old(items)
    {
      manifest := ResetAll(manifest);
    }
  }
}
