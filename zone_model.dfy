/** The records the zone drawer works with: a drawn zone, the record it is
    serialised to for the host application, and the events it emits. */
module ZoneModel {

  /** A point of a drawn shape. The drawer produces coordinates as JavaScript
      numbers; the controller only carries them, so reals stand in for them. */
  datatype Point = Point(x: real, y: real)

  /** The drawing mode a zone was created in (ZoneDrawerMode). */
  datatype ZoneMode = Line | Polygon

  /** A zone. An empty `id`, `name` or `color` stands for a value the caller
      left out (JavaScript's falsy `undefined` or `''`). */
  datatype Zone = Zone(id: string, name: string, color: string, points: seq<Point>, mode: ZoneMode)

  /** The output contract: `@type` tag, name, and the points under `line`
      for both shapes. */
  datatype ZoneOutput = ZoneOutput(typeTag: string, name: string, line: seq<Point>)

  /** What the widget emits to its host (ZoneDrawerWidgetEvents). */
  datatype WidgetEvent =
    | AddedZone(added: ZoneOutput)
    | RemovedZone(removed: ZoneOutput)
    | Save(saved: seq<ZoneOutput>)

  datatype Option<T> = None | Some(value: T)

  const LineStringTag: string := "#Microsoft.VideoAnalyzer.NamedLineString"
  const PolygonStringTag: string := "#Microsoft.VideoAnalyzer.NamedPolygonString"

  /** Reads a type tag back as the mode it was written for, if it is one. */
  function ModeOfTag(tag: string): Option<ZoneMode>
  {
    if tag == LineStringTag then Some(Line)
    else if tag == PolygonStringTag then Some(Polygon)
    else None
  }

  /** getZoneOutputByType: the record is selected by the mode alone; the name
      and the points pass through unchanged. */
  function ZoneOutputByType(mode: ZoneMode, name: string, points: seq<Point>): (r: ZoneOutput)
    ensures ModeOfTag(r.typeTag) == Some(mode)
    ensures mode == Line ==> r.typeTag == LineStringTag
    ensures mode == Polygon ==> r.typeTag == PolygonStringTag
    ensures r.name == name && r.line == points
  {
    match mode
    case Line => ZoneOutput(LineStringTag, name, points)
    case Polygon => ZoneOutput(PolygonStringTag, name, points)
  }

  /** The record a zone is serialised to. */
  function OutputOf(z: Zone): ZoneOutput
  {
    ZoneOutputByType(z.mode, z.name, z.points)
  }

  /** getZonesOutputs as a value: one record per zone, in list order. */
  function OutputsOf(zones: seq<Zone>): (r: seq<ZoneOutput>)
    ensures |r| == |zones|
    ensures forall i :: 0 <= i < |zones| ==> r[i] == OutputOf(zones[i])
  {
    if zones == [] then [] else [OutputOf(zones[0])] + OutputsOf(zones[1..])
  }

  /** Two zones serialise to the same record exactly when they agree on
      mode, name and points: neither id nor colour reaches the output. */
  lemma OutputDeterminedByShape(a: Zone, b: Zone)
    ensures OutputOf(a) == OutputOf(b) <==> (a.mode == b.mode && a.name == b.name && a.points == b.points)
  {
  }

  /** Serialising a list is compatible with concatenating lists. */
  lemma {:induction false} OutputsOfAppend(a: seq<Zone>, b: seq<Zone>)
    ensures OutputsOf(a + b) == OutputsOf(a) + OutputsOf(b)
  {
    if a != [] {
      assert (a + b)[1..] == a[1..] + b;
      OutputsOfAppend(a[1..], b);
    } else {
      assert a + b == b;
    }
  }
}
