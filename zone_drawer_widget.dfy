/** The zone-collection controller of the zone drawer widget: the ordered
    zone list, the name counter, the drawing mode, the drawer cap and the
    dirty and empty-list flags. The DOM label list, the zones view and the
    drawing tools are not modelled; what the widget emits is kept in
    `events`, and `guid()` becomes a caller-supplied id. */
module ZoneDrawer {
  import opened ZoneModel
  import opened ZoneNames
  import opened ZoneCollection

  /** MAX_ZONES: the number of zones at which drawing is switched off. */
  const MaxZones: nat := 10

  /** The list, the name counter, the drawer flag and the event log. */
  datatype WidgetState = WidgetState(zones: seq<Zone>, labelListIndex: nat, showDrawer: bool,
                                     events: seq<WidgetEvent>)

  /** The cap as a property of a state: drawing is on exactly while there
      is room below MaxZones. */
  ghost predicate CapHoldsOf(s: WidgetState)
  {
    |s.zones| <= MaxZones && (s.showDrawer <==> |s.zones| < MaxZones)
  }

  /** What addZone does to the list, the counter, the drawer flag and the
      event log, in mode `lineMode`. */
  function AddOne(palette: seq<string>, lineMode: bool, s: WidgetState, newZone: Zone, freshId: string): WidgetState
  {
    var zone := FillZone(newZone, freshId, ZoneName(lineMode, s.labelListIndex), NextColorOf(palette, s.zones));
    var zones := s.zones + [zone];
    WidgetState(zones,
                s.labelListIndex + (if newZone.name == "" then 1 else 0),
                if |zones| == MaxZones then false else s.showDrawer,
                s.events + [AddedZone(OutputOf(zone))])
  }

  /** What adding the configured zones `cz` in order does, configured zone
      `j` being offered `ids[j]` as its fresh id. */
  function AddAll(palette: seq<string>, lineMode: bool, s0: WidgetState, cz: seq<Zone>, ids: seq<string>): WidgetState
    requires |ids| == |cz|
    decreases |cz|
  {
    if cz == [] then s0
    else AddOne(palette, lineMode, AddAll(palette, lineMode, s0, cz[..|cz| - 1], ids[..|ids| - 1]),
                cz[|cz| - 1], ids[|ids| - 1])
  }

  /** The added-zone events for `added`, one per zone, in order. */
  function AddedEvents(added: seq<Zone>): (r: seq<WidgetEvent>)
    ensures |r| == |added|
  {
    if added == [] then []
    else AddedEvents(added[..|added| - 1]) + [AddedZone(OutputOf(added[|added| - 1]))]
  }

  /** Adding a zone below the cap, with drawing on, keeps the cap. */
  lemma AddOneKeepsCap(palette: seq<string>, lineMode: bool, s: WidgetState, newZone: Zone, freshId: string)
    requires CapHoldsOf(s) && s.showDrawer
    ensures CapHoldsOf(AddOne(palette, lineMode, s, newZone, freshId))
  {
  }

  /** Adding configured zones adds one zone per configured zone and
      advances the counter once per nameless configured zone. */
  lemma {:induction false} AddAllLength(palette: seq<string>, lineMode: bool, s0: WidgetState, cz: seq<Zone>,
                                        ids: seq<string>)
    requires |ids| == |cz|
    ensures var r := AddAll(palette, lineMode, s0, cz, ids);
            |r.zones| == |s0.zones| + |cz| && r.labelListIndex == s0.labelListIndex + Nameless(cz)
    decreases |cz|
  {
    if cz != [] {
      var m := |cz| - 1;
      AddAllLength(palette, lineMode, s0, cz[..m], ids[..m]);
    }
  }

  /** Adding configured zones keeps the zones already there in front of
      the new ones and emits one added-zone event per new zone, in order. */
  lemma {:induction false} AddAllAppends(palette: seq<string>, lineMode: bool, s0: WidgetState, cz: seq<Zone>,
                                         ids: seq<string>)
    requires |ids| == |cz|
    ensures var r := AddAll(palette, lineMode, s0, cz, ids);
            |s0.zones| <= |r.zones| && r.zones[..|s0.zones|] == s0.zones &&
            r.events == s0.events + AddedEvents(r.zones[|s0.zones|..])
    decreases |cz|
  {
    if cz != [] {
      var m := |cz| - 1;
      var p := AddAll(palette, lineMode, s0, cz[..m], ids[..m]);
      AddAllAppends(palette, lineMode, s0, cz[..m], ids[..m]);
      AddAllLength(palette, lineMode, s0, cz[..m], ids[..m]);
      var r := AddAll(palette, lineMode, s0, cz, ids);
      var x := r.zones[|r.zones| - 1];
      assert r.zones == p.zones + [x];
      PrefixOfAppend(p.zones, x, |s0.zones|);
      SuffixOfAppend(p.zones, x, |s0.zones|);
      var added := r.zones[|s0.zones|..];
      assert added[..|added| - 1] == p.zones[|s0.zones|..] && added[|added| - 1] == x;
      assert AddedEvents(added) == AddedEvents(p.zones[|s0.zones|..]) + [AddedZone(OutputOf(x))];
      assert r.events == p.events + [AddedZone(OutputOf(x))];
      AppendAssoc(s0.events, AddedEvents(p.zones[|s0.zones|..]), [AddedZone(OutputOf(x))]);
    }
  }

  /** Drawing is switched off by configuration exactly when the list got
      to MaxZones on the way. */
  lemma {:induction false} AddAllDrawer(palette: seq<string>, lineMode: bool, s0: WidgetState, cz: seq<Zone>,
                                        ids: seq<string>)
    requires |ids| == |cz|
    ensures var r := AddAll(palette, lineMode, s0, cz, ids);
            r.showDrawer == (s0.showDrawer && !(|s0.zones| < MaxZones <= |s0.zones| + |cz|))
    decreases |cz|
  {
    if cz != [] {
      var m := |cz| - 1;
      AddAllDrawer(palette, lineMode, s0, cz[..m], ids[..m]);
      AddAllLength(palette, lineMode, s0, cz[..m], ids[..m]);
    }
  }

  /** Adding configured zone `i` after the ones before it is one more step
      of the fold. */
  lemma AddAllStep(palette: seq<string>, lineMode: bool, s0: WidgetState, cz: seq<Zone>, ids: seq<string>, i: nat)
    requires |ids| == |cz| && i < |cz|
    ensures AddAll(palette, lineMode, s0, cz[..i + 1], ids[..i + 1]) ==
            AddOne(palette, lineMode, AddAll(palette, lineMode, s0, cz[..i], ids[..i]), cz[i], ids[i])
  {
    PrefixOfPrefix(cz, i + 1, i);
    PrefixOfPrefix(ids, i + 1, i);
  }

  /** Adding configured zones in two runs is adding them in one. */
  lemma {:induction false} AddAllSplit(palette: seq<string>, lineMode: bool, s0: WidgetState, cz: seq<Zone>,
                                       ids: seq<string>, j: nat)
    requires |ids| == |cz| && j <= |cz|
    ensures AddAll(palette, lineMode, s0, cz, ids) ==
            AddAll(palette, lineMode, AddAll(palette, lineMode, s0, cz[..j], ids[..j]), cz[j..], ids[j..])
    decreases |cz|
  {
    if j == |cz| {
      assert cz[..j] == cz && ids[..j] == ids;
      assert cz[j..] == [];
    } else {
      var m := |cz| - 1;
      AddAllSplit(palette, lineMode, s0, cz[..m], ids[..m], j);
      PrefixOfPrefix(cz, m, j);
      PrefixOfPrefix(ids, m, j);
      AddAllLastOfSuffix(palette, lineMode, AddAll(palette, lineMode, s0, cz[..j], ids[..j]), cz, ids, j);
    }
  }

  /** The last step of adding the configured zones from `j` on. */
  lemma AddAllLastOfSuffix(palette: seq<string>, lineMode: bool, s: WidgetState, cz: seq<Zone>, ids: seq<string>,
                           j: nat)
    requires |ids| == |cz| && j < |cz|
    ensures var m := |cz| - 1;
            AddAll(palette, lineMode, s, cz[j..], ids[j..]) ==
            AddOne(palette, lineMode, AddAll(palette, lineMode, s, cz[..m][j..], ids[..m][j..]), cz[m], ids[m])
  {
    var m := |cz| - 1;
    assert cz[j..][..m - j] == cz[..m][j..];
    assert ids[j..][..m - j] == ids[..m][j..];
  }

  /** Adding the first `j` configured zones gives the first `j` zones that
      adding all of them gives. */
  lemma AddAllPrefixes(palette: seq<string>, lineMode: bool, s0: WidgetState, cz: seq<Zone>,
                       ids: seq<string>, j: nat)
    requires |ids| == |cz| && j <= |cz|
    ensures var r := AddAll(palette, lineMode, s0, cz, ids);
            |s0.zones| + j <= |r.zones| &&
            r.zones[..|s0.zones| + j] == AddAll(palette, lineMode, s0, cz[..j], ids[..j]).zones
  {
    var q := AddAll(palette, lineMode, s0, cz[..j], ids[..j]);
    AddAllSplit(palette, lineMode, s0, cz, ids, j);
    AddAllLength(palette, lineMode, s0, cz[..j], ids[..j]);
    AddAllAppends(palette, lineMode, q, cz[j..], ids[j..]);
  }

  /** Configured zone `j` lands at position `|s0.zones| + j`, completed
      with `ids[j]`, the default name for the counter value reached after
      the nameless zones before it, and the first colour unused by all the
      zones before it. */
  lemma AddAllFills(palette: seq<string>, lineMode: bool, s0: WidgetState, cz: seq<Zone>,
                    ids: seq<string>, j: nat)
    requires |ids| == |cz| && j < |cz|
    ensures var r := AddAll(palette, lineMode, s0, cz, ids);
            |r.zones| == |s0.zones| + |cz| &&
            r.zones[|s0.zones| + j] ==
            FillZone(cz[j], ids[j], ZoneName(lineMode, s0.labelListIndex + Nameless(cz[..j])),
                     NextColorOf(palette, r.zones[..|s0.zones| + j]))
  {
    var r := AddAll(palette, lineMode, s0, cz, ids);
    var q1 := AddAll(palette, lineMode, s0, cz[..j + 1], ids[..j + 1]);
    AddAllStep(palette, lineMode, s0, cz, ids, j);
    AddAllLength(palette, lineMode, s0, cz, ids);
    AddAllLength(palette, lineMode, s0, cz[..j], ids[..j]);
    AddAllPrefixes(palette, lineMode, s0, cz, ids, j);
    AddAllPrefixes(palette, lineMode, s0, cz, ids, j + 1);
    assert r.zones[|s0.zones| + j] == q1.zones[|s0.zones| + j];
  }

  lemma PrefixOfAppend<T>(a: seq<T>, x: T, k: nat)
    requires k <= |a|
    ensures (a + [x])[..k] == a[..k] && (k < |a| ==> (a + [x])[k] == a[k]) && (a + [x])[..|a|] == a
  {
  }

  lemma SuffixOfAppend<T>(a: seq<T>, x: T, k: nat)
    requires k <= |a|
    ensures (a + [x])[k..] == a[k..] + [x]
  {
  }

  lemma AppendAssoc<T>(a: seq<T>, b: seq<T>, c: seq<T>)
    ensures (a + b) + c == a + (b + c)
  {
  }

  lemma PrefixOfPrefix<T>(a: seq<T>, m: nat, k: nat)
    requires k <= m <= |a|
    ensures a[..m][..k] == a[..k]
  {
  }

  /** Configuration that stays within MaxZones keeps the cap. */
  lemma AddAllKeepsCap(palette: seq<string>, lineMode: bool, s0: WidgetState, cz: seq<Zone>, ids: seq<string>)
    requires |ids| == |cz| && CapHoldsOf(s0) && |s0.zones| + |cz| <= MaxZones
    ensures CapHoldsOf(AddAll(palette, lineMode, s0, cz, ids))
  {
    AddAllLength(palette, lineMode, s0, cz, ids);
    AddAllDrawer(palette, lineMode, s0, cz, ids);
  }

  class ZoneDrawerWidget {
    /** DrawingColors, in declaration order. */
    const palette: seq<string>
    /** `config.zones`: the zones the widget is configured with. */
    var config: seq<Zone>
    var zones: seq<Zone>
    var isDirty: bool
    var showDrawer: bool
    var isLineDrawMode: bool
    var isLabelsListEmpty: bool
    /** The next number a default name uses. */
    var labelListIndex: nat
    /** Everything emitted so far, oldest first. */
    var events: seq<WidgetEvent>

    ghost predicate Valid()
      reads this
    {
      ValidPalette(palette) &&
      labelListIndex >= 1 &&
      (isLabelsListEmpty <==> zones == [])
    }

    /** Drawing is on exactly while there is room below the cap. This holds
        along every path except configuration with more than MaxZones
        zones, which the source does not bound. */
    ghost predicate CapHolds()
      reads this
    {
      CapHoldsOf(State())
    }

    /** The part of the state that adding zones changes. */
    ghost function State(): WidgetState
      reads this
    {
      WidgetState(zones, labelListIndex, showDrawer, events)
    }

    constructor (palette: seq<string>)
      requires ValidPalette(palette)
      ensures Valid() && CapHolds()
      ensures this.palette == palette && config == [] && zones == []
      ensures labelListIndex == 1 && showDrawer && isLineDrawMode
      ensures !isDirty && isLabelsListEmpty && events == []
    {
      this.palette := palette;
      config := [];
      zones := [];
      isDirty := false;
      showDrawer := true;
      isLineDrawMode := true;
      isLabelsListEmpty := true;
      labelListIndex := 1;
      events := [];
    }

    /** getNewZoneName: the default name for the current counter value; the
        counter moves on by one on every call. */
    method GetNewZoneName() returns (name: string)
      requires Valid()
      modifies this`labelListIndex
      ensures Valid()
      ensures name == ZoneName(isLineDrawMode, old(labelListIndex))
      ensures labelListIndex == old(labelListIndex) + 1
    {
      name := ZoneName(isLineDrawMode, labelListIndex);
      labelListIndex := labelListIndex + 1;
    }

    /** getNextColor: the first palette colour, in palette order, that no
        zone has, or `""` when every palette colour is taken. */
    method NextColor() returns (c: string)
      requires Valid()
      ensures c == NextColorOf(palette, zones)
      ensures c == "" || exists k :: 0 <= k < |palette| && palette[k] == c && !ColorInUse(zones, c) &&
                                     forall j :: 0 <= j < k ==> ColorInUse(zones, palette[j])
      ensures c == "" <==> forall j :: 0 <= j < |palette| ==> ColorInUse(zones, palette[j])
    {
      FirstUnusedIndexSpec(palette, zones, 0);
      for i := 0 to |palette|
        invariant forall j :: 0 <= j < i ==> ColorInUse(zones, palette[j])
        invariant FirstUnusedIndex(palette, zones, i) == FirstUnusedIndex(palette, zones, 0)
      {
        if !ColorInUse(zones, palette[i]) {
          return palette[i];
        }
      }
      return "";
    }

    /** The zone record addZone builds from `newZone`: a supplied id, name
        and colour are kept; an empty id takes `freshId` (the value guid()
        would give), an empty name the next default name (advancing the
        counter) and an empty colour the next unused colour. */
    method CompleteZone(newZone: Zone, freshId: string) returns (zone: Zone)
      requires Valid()
      modifies this`labelListIndex
      ensures Valid()
      ensures zone == FillZone(newZone, freshId, ZoneName(isLineDrawMode, old(labelListIndex)),
                               NextColorOf(palette, zones))
      ensures labelListIndex == old(labelListIndex) + (if newZone.name == "" then 1 else 0)
    {
      var id := if newZone.id != "" then newZone.id else freshId;
      var name := newZone.name;
      if name == "" {
        name := GetNewZoneName();
      }
      var color := newZone.color;
      if color == "" {
        color := NextColor();
      }
      zone := Zone(id, name, color, newZone.points, newZone.mode);
    }

    /** addZone: appends the completed zone, switches drawing off when the
        list reaches exactly MaxZones, marks the widget dirty and emits the
        zone's record. */
    method AddZone(newZone: Zone, freshId: string)
      requires Valid()
      modifies this
      ensures Valid()
      ensures zones == old(zones) + [FillZone(newZone, freshId, ZoneName(isLineDrawMode, old(labelListIndex)),
                                              NextColorOf(palette, old(zones)))]
      ensures labelListIndex == old(labelListIndex) + (if newZone.name == "" then 1 else 0)
      ensures showDrawer == (if |zones| == MaxZones then false else old(showDrawer))
      ensures isDirty && !isLabelsListEmpty
      ensures events == old(events) + [AddedZone(OutputOf(zones[|zones| - 1]))]
      ensures isLineDrawMode == old(isLineDrawMode) && config == old(config)
      ensures State() == AddOne(palette, isLineDrawMode, old(State()), newZone, freshId)
    {
      var zone := CompleteZone(newZone, freshId);
      zones := zones + [zone];
      if |zones| == MaxZones {
        showDrawer := false;
      }
      isLabelsListEmpty := false;
      isDirty := true;
      events := events + [AddedZone(OutputOf(zone))];
    }

    /** createZone: a zone drawn in the current mode from `points`, with
        id `freshId` (the guid() value, never empty), the next default
        name and the next unused colour, handed to addZone. */
    method CreateZone(points: seq<Point>, freshId: string)
      requires Valid() && freshId != ""
      modifies this
      ensures Valid()
      ensures zones == old(zones) + [Zone(freshId, ZoneName(isLineDrawMode, old(labelListIndex)),
                                          NextColorOf(palette, old(zones)), points,
                                          if isLineDrawMode then Line else Polygon)]
      ensures labelListIndex == old(labelListIndex) + 1
      ensures showDrawer == (if |zones| == MaxZones then false else old(showDrawer))
      ensures isDirty && !isLabelsListEmpty
      ensures events == old(events) + [AddedZone(OutputOf(zones[|zones| - 1]))]
      ensures isLineDrawMode == old(isLineDrawMode) && config == old(config)
    {
      var mode := if isLineDrawMode then Line else Polygon;
      var name := GetNewZoneName();
      var color := NextColor();
      AddZone(Zone(freshId, name, color, points, mode), freshId);
    }

    /** deleteZone: removes every zone with id `id`, keeping the others in
        order, switches drawing back on and emits the record of the first
        zone that had the id. The source dereferences that zone (and its
        label) without a check, so the id must be present. */
    method DeleteZone(id: string)
      requires Valid() && HasId(zones, id)
      modifies this
      ensures Valid()
      ensures zones == RemoveId(old(zones), id)
      ensures |zones| < |old(zones)|
      ensures showDrawer && (isLabelsListEmpty <==> zones == [])
      ensures events == old(events) + [RemovedZone(OutputOf(old(zones)[FirstIndexOf(old(zones), id)]))]
      ensures labelListIndex == old(labelListIndex) && isDirty == old(isDirty)
      ensures isLineDrawMode == old(isLineDrawMode) && config == old(config)
      ensures old(CapHolds()) ==> CapHolds()
      ensures old(UniqueIds(zones)) ==>
                var k := FirstIndexOf(old(zones), id); zones == old(zones)[..k] + old(zones)[k + 1..]
    {
      RemoveFirstMatch(zones, id);
      var deletedZone := zones[FirstIndexOf(zones, id)];
      zones := RemoveId(zones, id);
      isLabelsListEmpty := |zones| == 0;
      if !showDrawer {
        showDrawer := true;
      }
      events := events + [RemovedZone(OutputOf(deletedZone))];
    }

    /** labelTextChanged: renames the first zone with id `id` and stops; an
        unknown id changes nothing. */
    method LabelTextChanged(id: string, name: string)
      modifies this`zones
      ensures var k := FirstIndexOf(old(zones), id);
              zones == if k < |old(zones)| then old(zones)[k := old(zones)[k].(name := name)] else old(zones)
      ensures |zones| == |old(zones)|
      ensures forall j :: 0 <= j < |zones| ==> zones[j] == old(zones)[j].(name := zones[j].name)
      ensures forall j :: 0 <= j < |zones| && j != FirstIndexOf(old(zones), id) ==> zones[j] == old(zones)[j]
      ensures !HasId(old(zones), id) ==> zones == old(zones)
    {
      var i := 0;
      while i < |zones|
        invariant 0 <= i <= |zones| && zones == old(zones)
        invariant forall j :: 0 <= j < i ==> zones[j].id != id
        invariant FirstIndexOf(zones, id) >= i
      {
        if zones[i].id == id {
          zones := zones[i := zones[i].(name := name)];
          return;
        }
        i := i + 1;
      }
    }

    /** toggleDrawerMode: flips between line and polygon drawing. */
    method ToggleDrawerMode()
      modifies this`isLineDrawMode
      ensures isLineDrawMode == !old(isLineDrawMode)
      ensures zones == old(zones) && labelListIndex == old(labelListIndex)
    {
      isLineDrawMode := !isLineDrawMode;
    }

    /** getZonesOutputs: one record per zone, in list order, chosen by the
        zone's mode whatever its number of points. */
    method ZonesOutputs() returns (outputs: seq<ZoneOutput>)
      ensures outputs == OutputsOf(zones)
      ensures |outputs| == |zones|
      ensures forall i :: 0 <= i < |zones| ==>
                outputs[i] == ZoneOutputByType(zones[i].mode, zones[i].name, zones[i].points)
    {
      outputs := [];
      for i := 0 to |zones|
        invariant |outputs| == i
        invariant forall j :: 0 <= j < i ==> outputs[j] == OutputOf(zones[j])
      {
        var output: ZoneOutput;
        if |zones[i].points| == 2 {
          output := ZoneOutputByType(zones[i].mode, zones[i].name, zones[i].points);
        } else {
          output := ZoneOutputByType(zones[i].mode, zones[i].name, zones[i].points);
        }
        outputs := outputs + [output];
      }
    }

    /** save: emits the records of all zones, in list order. */
    method Save()
      modifies this`events
      ensures events == old(events) + [WidgetEvent.Save(OutputsOf(zones))]
    {
      var outputs := ZonesOutputs();
      events := events + [WidgetEvent.Save(outputs)];
    }

    /** init: clears the dirty flag, then adds the configured zones in
        order; configured zone `j` takes `freshIds[j]` if it has no id. The
        list is not cleared first. */
    method Init(freshIds: seq<string>)
      requires Valid() && |freshIds| == |config|
      modifies this
      ensures Valid() && config == old(config) && isLineDrawMode == old(isLineDrawMode)
      ensures State() == AddAll(palette, isLineDrawMode, old(State()), config, freshIds)
      ensures isDirty == (|config| > 0)
    {
      isDirty := false;
      if |zones| > 0 {
        isLabelsListEmpty := false;
      }
      ghost var s0 := State();
      for i := 0 to |config|
        invariant Valid()
        invariant config == old(config) && isLineDrawMode == old(isLineDrawMode)
        invariant State() == AddAll(palette, isLineDrawMode, s0, config[..i], freshIds[..i])
        invariant isDirty == (i > 0)
      {
        AddAllStep(palette, isLineDrawMode, s0, config, freshIds, i);
        AddZone(config[i], freshIds[i]);
      }
      assert config[..|config|] == config;
      assert freshIds[..|freshIds|] == freshIds;
    }

    /** configure: replaces the configured zones and runs init. */
    method Configure(configZones: seq<Zone>, freshIds: seq<string>)
      requires Valid() && |freshIds| == |configZones|
      modifies this
      ensures Valid() && config == configZones
      ensures State() == AddAll(palette, isLineDrawMode, old(State()), configZones, freshIds)
      ensures isDirty == (|configZones| > 0)
      ensures isLineDrawMode == old(isLineDrawMode)
    {
      config := configZones;
      Init(freshIds);
    }
  }
}
