/** Functions over the ordered zone list that the controller's operations
    are specified with: colour search, lookup by id, removal by id. */
module ZoneCollection {
  import opened ZoneModel

  /** The palette stands for DrawingColors: non-empty, pairwise distinct
      colour names, in their declaration order. */
  predicate ValidPalette(palette: seq<string>)
  {
    (forall i :: 0 <= i < |palette| ==> palette[i] != "") &&
    (forall i, j :: 0 <= i < j < |palette| ==> palette[i] != palette[j])
  }

  /** Some zone of the list has colour `c`. */
  predicate ColorInUse(zones: seq<Zone>, c: string)
  {
    exists i :: 0 <= i < |zones| && zones[i].color == c
  }

  /** No two zones share a colour. */
  predicate DistinctColors(zones: seq<Zone>)
  {
    forall i, j :: 0 <= i < j < |zones| ==> zones[i].color != zones[j].color
  }

  /** No two zones share an id. */
  predicate UniqueIds(zones: seq<Zone>)
  {
    forall i, j :: 0 <= i < j < |zones| ==> zones[i].id != zones[j].id
  }

  predicate HasId(zones: seq<Zone>, id: string)
  {
    exists i :: 0 <= i < |zones| && zones[i].id == id
  }

  /** The index of the first palette entry at or after `from` that no zone
      uses, or `|palette|` when there is none. */
  function FirstUnusedIndex(palette: seq<string>, zones: seq<Zone>, from: nat): (k: nat)
    requires from <= |palette|
    ensures from <= k <= |palette|
    decreases |palette| - from
  {
    if from == |palette| then from
    else if !ColorInUse(zones, palette[from]) then from
    else FirstUnusedIndex(palette, zones, from + 1)
  }

  /** FirstUnusedIndex finds an unused entry, and every entry it skips is
      in use. */
  lemma {:induction false} FirstUnusedIndexSpec(palette: seq<string>, zones: seq<Zone>, from: nat)
    requires from <= |palette|
    ensures var k := FirstUnusedIndex(palette, zones, from);
            (k < |palette| ==> !ColorInUse(zones, palette[k])) &&
            forall j :: from <= j < k ==> ColorInUse(zones, palette[j])
    decreases |palette| - from
  {
    if from < |palette| && ColorInUse(zones, palette[from]) {
      FirstUnusedIndexSpec(palette, zones, from + 1);
    }
  }

  /** getNextColor's value: the first palette entry that no zone uses, or
      `""` when every entry is in use. */
  function NextColorOf(palette: seq<string>, zones: seq<Zone>): string
  {
    var k := FirstUnusedIndex(palette, zones, 0);
    if k < |palette| then palette[k] else ""
  }

  /** NextColorOf is `""` when every palette entry is in use, and
      otherwise the first entry, in palette order, that no zone uses. */
  lemma NextColorFirstUnused(palette: seq<string>, zones: seq<Zone>)
    ensures (forall j :: 0 <= j < |palette| ==> ColorInUse(zones, palette[j])) ==> NextColorOf(palette, zones) == ""
    ensures (exists j :: 0 <= j < |palette| && !ColorInUse(zones, palette[j])) ==>
              exists k :: 0 <= k < |palette| && palette[k] == NextColorOf(palette, zones) &&
                          !ColorInUse(zones, palette[k]) &&
                          forall j :: 0 <= j < k ==> ColorInUse(zones, palette[j])
  {
    FirstUnusedIndexSpec(palette, zones, 0);
  }

  /** With a valid palette, `""` comes back exactly when the palette is
      exhausted, and any other result is a palette colour no zone has. */
  lemma NextColorExhausted(palette: seq<string>, zones: seq<Zone>)
    requires ValidPalette(palette)
    ensures NextColorOf(palette, zones) == "" <==> forall j :: 0 <= j < |palette| ==> ColorInUse(zones, palette[j])
    ensures NextColorOf(palette, zones) != "" ==>
              NextColorOf(palette, zones) in palette && !ColorInUse(zones, NextColorOf(palette, zones))
  {
    FirstUnusedIndexSpec(palette, zones, 0);
    var k := FirstUnusedIndex(palette, zones, 0);
    if k < |palette| {
      assert palette[k] != "";
    }
  }

  /** A zone taking the default colour while the palette has an unused entry
      shares its colour with no earlier zone. */
  lemma DefaultColorKeepsDistinct(palette: seq<string>, zones: seq<Zone>, z: Zone)
    requires DistinctColors(zones)
    requires z.color == NextColorOf(palette, zones)
    requires exists j :: 0 <= j < |palette| && !ColorInUse(zones, palette[j])
    ensures DistinctColors(zones + [z])
  {
    NextColorFirstUnused(palette, zones);
    var s := zones + [z];
    forall i, j | 0 <= i < j < |s| ensures s[i].color != s[j].color {
      if j == |zones| {
        assert s[i] == zones[i];
        assert !ColorInUse(zones, z.color);
      }
    }
  }

  /** Appending a zone whose id is new keeps the ids unique. */
  lemma AppendKeepsUniqueIds(zones: seq<Zone>, z: Zone)
    requires UniqueIds(zones) && !HasId(zones, z.id)
    ensures UniqueIds(zones + [z])
  {
  }

  /** The index of the first zone with id `id` (Array.prototype.find), or
      `|zones|` when there is none. */
  function FirstIndexOf(zones: seq<Zone>, id: string): (k: nat)
    ensures k <= |zones|
    ensures k < |zones| ==> zones[k].id == id
    ensures forall j :: 0 <= j < k ==> zones[j].id != id
  {
    if zones == [] then 0
    else if zones[0].id == id then 0
    else 1 + FirstIndexOf(zones[1..], id)
  }

  /** The list with every zone whose id is `id` filtered out. */
  function RemoveId(zones: seq<Zone>, id: string): (r: seq<Zone>)
    ensures |r| <= |zones|
  {
    if zones == [] then []
    else (if zones[0].id == id then [] else [zones[0]]) + RemoveId(zones[1..], id)
  }

  /** The filtered list holds exactly the zones whose id differs from `id`. */
  lemma {:induction false} RemoveIdMembers(zones: seq<Zone>, id: string)
    ensures forall z :: z in RemoveId(zones, id) <==> z in zones && z.id != id
  {
    if zones != [] {
      RemoveIdMembers(zones[1..], id);
      assert zones == [zones[0]] + zones[1..];
    }
  }

  /** The filtered list is shorter whenever some zone has the id. */
  lemma {:induction false} RemoveIdShrinks(zones: seq<Zone>, id: string)
    requires HasId(zones, id)
    ensures |RemoveId(zones, id)| < |zones|
  {
    if zones[0].id != id {
      var i :| 0 <= i < |zones| && zones[i].id == id;
      assert zones[1..][i - 1] == zones[i];
      RemoveIdShrinks(zones[1..], id);
    }
  }

  /** Filtering distributes over concatenation, so the zones that stay keep
      their relative order. */
  lemma {:induction false} RemoveIdAppend(a: seq<Zone>, b: seq<Zone>, id: string)
    ensures RemoveId(a + b, id) == RemoveId(a, id) + RemoveId(b, id)
  {
    if a == [] {
      assert a + b == b;
    } else {
      assert (a + b)[0] == a[0];
      assert (a + b)[1..] == a[1..] + b;
      RemoveIdAppend(a[1..], b, id);
    }
  }

  /** Filtering an id no zone has leaves the list as it is. */
  lemma {:induction false} RemoveAbsentId(zones: seq<Zone>, id: string)
    requires !HasId(zones, id)
    ensures RemoveId(zones, id) == zones
  {
    if zones != [] {
      assert !HasId(zones[1..], id) by {
        forall i | 0 <= i < |zones[1..]| ensures zones[1..][i].id != id {
          assert zones[1..][i] == zones[i + 1];
        }
      }
      RemoveAbsentId(zones[1..], id);
      assert [zones[0]] + zones[1..] == zones;
    }
  }

  /** With unique ids, the id of the zone at index `k` occurs nowhere else. */
  lemma UniqueIdElsewhere(zones: seq<Zone>, k: nat)
    requires UniqueIds(zones) && k < |zones|
    ensures !HasId(zones[..k], zones[k].id) && !HasId(zones[k + 1..], zones[k].id)
  {
  }

  /** Deleting by the id of a zone that no other zone shares removes that
      zone and nothing else. */
  lemma RemoveOnlyMatch(a: seq<Zone>, x: Zone, b: seq<Zone>)
    requires !HasId(a, x.id) && !HasId(b, x.id)
    ensures RemoveId(a + [x] + b, x.id) == a + b
  {
    RemoveAbsentId(a, x.id);
    RemoveAbsentId(b, x.id);
    RemoveIdAppend(a + [x], b, x.id);
    RemoveIdAppend(a, [x], x.id);
    assert RemoveId([x], x.id) == RemoveId([], x.id);
  }

  /** With unique ids, deleting the zone at index `k` by its id removes that
      zone and nothing else. */
  lemma RemoveUniqueId(zones: seq<Zone>, k: nat)
    requires UniqueIds(zones) && k < |zones|
    ensures RemoveId(zones, zones[k].id) == zones[..k] + zones[k + 1..]
  {
    UniqueIdElsewhere(zones, k);
    assert zones == zones[..k] + [zones[k]] + zones[k + 1..];
    RemoveOnlyMatch(zones[..k], zones[k], zones[k + 1..]);
  }

  /** Deleting an id that some zone has shortens the list; with unique ids
      it removes just the first zone with that id. */
  lemma RemoveFirstMatch(zones: seq<Zone>, id: string)
    requires HasId(zones, id)
    ensures FirstIndexOf(zones, id) < |zones|
    ensures |RemoveId(zones, id)| < |zones|
    ensures UniqueIds(zones) ==>
              var k := FirstIndexOf(zones, id); RemoveId(zones, id) == zones[..k] + zones[k + 1..]
  {
    RemoveIdShrinks(zones, id);
    if UniqueIds(zones) {
      RemoveUniqueId(zones, FirstIndexOf(zones, id));
    }
  }

  /** A zone added with a new id and deleted again leaves the list as it
      was before the add. */
  lemma AddThenRemove(zones: seq<Zone>, z: Zone)
    requires !HasId(zones, z.id)
    ensures RemoveId(zones + [z], z.id) == zones
  {
    RemoveIdAppend(zones, [z], z.id);
    RemoveAbsentId(zones, z.id);
    assert RemoveId([z], z.id) == RemoveId([], z.id);
  }

  /** A zone as addZone completes it: a supplied id, name and colour are
      kept, an empty one is replaced by the given default. */
  function FillZone(newZone: Zone, freshId: string, defaultName: string, defaultColor: string): Zone
  {
    Zone(if newZone.id != "" then newZone.id else freshId,
         if newZone.name != "" then newZone.name else defaultName,
         if newZone.color != "" then newZone.color else defaultColor,
         newZone.points,
         newZone.mode)
  }

  /** How many of the given zones come without a name, that is, how many
      times adding them advances the name counter. */
  function Nameless(zones: seq<Zone>): (n: nat)
    ensures n <= |zones|
  {
    if zones == [] then 0
    else Nameless(zones[..|zones| - 1]) + (if zones[|zones| - 1].name == "" then 1 else 0)
  }
}
