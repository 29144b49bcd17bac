# Zone drawer controller

A Dafny model of the zone-collection controller of the zone drawer widget
(`ZoneDrawerWidget`). The widget lets a user draw lines and polygons
("zones") over a video player. It keeps them in an ordered list. It gives
each zone a default name ("Line N" / "Zone N") and the first free colour of
a fixed palette. It caps the list at ten zones, and serialises zones into
the records the host application receives.

The model has four modules:

- `ZoneModel` (`zone_model.dfy`) holds the records:
  - a zone, with an empty string for an id, name or colour the caller left out;
  - the serialised output record and its two `@type` tags;
  - the events the widget emits.

  It also holds the serialisation functions, `getZoneOutputByType` and
  `getZonesOutputs`.
- `ZoneNames` (`zone_names.dfy`) has the decimal rendering of the name
  counter and the default name `getNewZoneName` builds from it.
- `ZoneCollection` (`zone_collection.dfy`) has pure functions over the list:
  - the first unused palette colour (`getNextColor`);
  - lookup by id (`Array.prototype.find`);
  - removal by id (`Array.prototype.filter`);
  - the completion of a zone with its defaults.

  It also holds the lemmas about these functions.
- `ZoneDrawer` (`zone_drawer_widget.dfy`) has the class `ZoneDrawerWidget`.
  Its fields are the ones the source updates in place:
  - `zones`, `isDirty`, `showDrawer`, `isLineDrawMode`,
    `isLabelsListEmpty`, `labelListIndex`;
  - the configured zones;
  - a log of everything emitted.

  Its methods are the source's operations.

  The value-level functions `AddOne` (one `addZone`) and `AddAll` (a fold of
  `addZone` over the configured zones) say what `init` does. Lemmas about
  `AddAll` then state:
  - where each configured zone lands;
  - the name and colour each configured zone receives;
  - how far the counter moves;
  - which events are emitted;
  - when drawing is switched off.

Modelling choices:

- `guid()` becomes a caller-supplied id.
  - `createZone` requires a non-empty one.
  - `init` takes one candidate id per configured zone.
- `$emit` appends to the `events` field.
- The `DrawingColors` palette is the constant `palette`. It is any sequence
  of non-empty, pairwise distinct colour names, in declaration order.
- Points are pairs of reals, because the controller only carries them.

## Model

| member | source | states |
|---|---|---|
| ZoneModel.ZoneOutputByType | packages/widgets/src/zone-drawer/zone-drawer.widget.ts:361-380 | The `@type` tag depends on the mode alone: Line gives '#Microsoft.VideoAnalyzer.NamedLineString' and Polygon gives '#Microsoft.VideoAnalyzer.NamedPolygonString'. Reading the tag back gives the mode. The name and the points are passed through unchanged under `name` and `line`. |
| ZoneModel.OutputsOf | packages/widgets/src/zone-drawer/zone-drawer.widget.ts:345-359 | There is one record per zone, in list order. Record i is the record of zone i, chosen by the zone's mode. |
| ZoneModel.OutputDeterminedByShape | packages/widgets/src/zone-drawer/zone-drawer.widget.ts:361-380 | Two zones serialise to the same record if and only if they agree on mode, name and points. Neither id nor colour reaches the output. |
| ZoneModel.OutputsOfAppend | packages/widgets/src/zone-drawer/zone-drawer.widget.ts:345-359 | Serialising a concatenation gives the concatenation of the serialised parts. |
| ZoneNames.Decimal | packages/widgets/src/zone-drawer/zone-drawer.widget.ts:285 | The rendered counter is a non-empty string of decimal digits. It is one digit long exactly when the number is below ten. |
| ZoneNames.DecimalRoundTrip | packages/widgets/src/zone-drawer/zone-drawer.widget.ts:285 | Reading the rendered counter back as a decimal number gives the counter. |
| ZoneNames.DecimalInjective | packages/widgets/src/zone-drawer/zone-drawer.widget.ts:285 | Different counter values render differently. |
| ZoneNames.ZoneName | packages/widgets/src/zone-drawer/zone-drawer.widget.ts:284-286 | A default name is "Line " in line mode or "Zone " in polygon mode, followed by the decimal counter. |
| ZoneNames.ZoneNameInjective | packages/widgets/src/zone-drawer/zone-drawer.widget.ts:284-286 | A default name determines both the mode and the counter value it was made from. So a counter that only increases never repeats a default name. |
| ZoneCollection.FirstUnusedIndex | packages/widgets/src/zone-drawer/zone-drawer.widget.ts:288-296 | The colour search stops at or after its start and no later than the end of the palette. |
| ZoneCollection.FirstUnusedIndexSpec | packages/widgets/src/zone-drawer/zone-drawer.widget.ts:288-296 | The index found names a colour no zone has, unless it is the end of the palette. Every palette entry skipped on the way is in use. |
| ZoneCollection.NextColorFirstUnused | packages/widgets/src/zone-drawer/zone-drawer.widget.ts:288-296 | The next colour is '' when every palette colour is in use. Otherwise it is the first palette colour, in palette order, that no zone has. |
| ZoneCollection.NextColorExhausted | packages/widgets/src/zone-drawer/zone-drawer.widget.ts:288-296 | With a valid palette, the next colour is '' if and only if the palette is exhausted. Any other result is a palette colour that no zone has. |
| ZoneCollection.DefaultColorKeepsDistinct | packages/widgets/src/zone-drawer/zone-drawer.widget.ts:240-249 | While the palette has a free colour, appending a zone with the default colour keeps the zones' colours pairwise distinct. |
| ZoneCollection.AppendKeepsUniqueIds | packages/widgets/src/zone-drawer/zone-drawer.widget.ts:240-249 | Appending a zone whose id no zone has keeps the ids unique. |
| ZoneCollection.FirstIndexOf | packages/widgets/src/zone-drawer/zone-drawer.widget.ts:271 | The lookup finds the first zone with the id (no earlier zone has it), or returns the list length when no zone has it. |
| ZoneCollection.RemoveId | packages/widgets/src/zone-drawer/zone-drawer.widget.ts:272 | Filtering by id never lengthens the list. |
| ZoneCollection.RemoveIdMembers | packages/widgets/src/zone-drawer/zone-drawer.widget.ts:272 | A zone is in the filtered list if and only if it is in the list and its id differs from the deleted id. |
| ZoneCollection.RemoveIdShrinks | packages/widgets/src/zone-drawer/zone-drawer.widget.ts:272 | When some zone has the id, the filtered list is strictly shorter. |
| ZoneCollection.RemoveIdAppend | packages/widgets/src/zone-drawer/zone-drawer.widget.ts:272 | Filtering distributes over concatenation, so the remaining zones keep their relative order. |
| ZoneCollection.RemoveAbsentId | packages/widgets/src/zone-drawer/zone-drawer.widget.ts:272 | Filtering an id that no zone has returns the list unchanged. |
| ZoneCollection.RemoveOnlyMatch | packages/widgets/src/zone-drawer/zone-drawer.widget.ts:272 | Filtering by the id of a zone that no other zone shares removes exactly that zone. |
| ZoneCollection.RemoveUniqueId | packages/widgets/src/zone-drawer/zone-drawer.widget.ts:272 | With unique ids, deleting the id of zone k gives the list without index k. |
| ZoneCollection.RemoveFirstMatch | packages/widgets/src/zone-drawer/zone-drawer.widget.ts:270-272 | For an id that is present, the lookup finds a zone and the filtered list is shorter. With unique ids, the filtered list is the list without the zone the lookup found. |
| ZoneCollection.AddThenRemove | packages/widgets/src/zone-drawer/zone-drawer.widget.ts:249-272 | Appending a zone with a new id and then deleting that id restores the list. |
| ZoneCollection.Nameless | packages/widgets/src/zone-drawer/zone-drawer.widget.ts:243 | The number of zones without a name is at most the number of zones. |
| ZoneDrawer.AddOneKeepsCap | packages/widgets/src/zone-drawer/zone-drawer.widget.ts:258-261 | An add below the cap, with drawing on, keeps the cap invariant: drawing is on exactly while the list is shorter than MaxZones. |
| ZoneDrawer.AddAllLength | packages/widgets/src/zone-drawer/zone-drawer.widget.ts:123-127 | The configured zones add one zone each. The counter moves once per configured zone without a name. |
| ZoneDrawer.AddAllAppends | packages/widgets/src/zone-drawer/zone-drawer.widget.ts:123-127 | The zones already there stay in front. One added-zone event is emitted per new zone, in order. |
| ZoneDrawer.AddAllDrawer | packages/widgets/src/zone-drawer/zone-drawer.widget.ts:123-127 | Configuration switches drawing off exactly when the list passes through MaxZones. Otherwise the drawer flag is unchanged. |
| ZoneDrawer.AddAllStep | packages/widgets/src/zone-drawer/zone-drawer.widget.ts:124-126 | Configured zone i is added, as `addZone` adds it, to the state reached after the zones before it. |
| ZoneDrawer.AddAllSplit | packages/widgets/src/zone-drawer/zone-drawer.widget.ts:124-126 | Adding the configured zones in two runs gives the same state as adding them in one. |
| ZoneDrawer.AddAllPrefixes | packages/widgets/src/zone-drawer/zone-drawer.widget.ts:124-126 | Adding the first j configured zones gives the first j new zones of the whole configuration. |
| ZoneDrawer.AddAllFills | packages/widgets/src/zone-drawer/zone-drawer.widget.ts:123-127 | Configured zone j lands at position (zones before) + j. Its id falls back to candidate id j. Its name falls back to the default name for the counter after the nameless zones before it. Its colour falls back to the first colour unused by all zones before it. |
| ZoneDrawer.AddAllKeepsCap | packages/widgets/src/zone-drawer/zone-drawer.widget.ts:258-261 | A configuration that keeps the list within MaxZones keeps the cap invariant. |
| ZoneDrawer.ZoneDrawerWidget.constructor | packages/widgets/src/zone-drawer/zone-drawer.widget.ts:40-61 | A new widget starts with no zones, counter 1, drawing on, line mode, not dirty, the label list empty, and nothing emitted. |
| ZoneDrawer.ZoneDrawerWidget.GetNewZoneName | packages/widgets/src/zone-drawer/zone-drawer.widget.ts:284-286 | It returns the default name for the current counter and mode. The counter advances by exactly one on every call. |
| ZoneDrawer.ZoneDrawerWidget.NextColor | packages/widgets/src/zone-drawer/zone-drawer.widget.ts:288-296 | It returns the first palette colour, in palette order, that no zone has. It returns '' exactly when every palette colour is in use. |
| ZoneDrawer.ZoneDrawerWidget.CompleteZone | packages/widgets/src/zone-drawer/zone-drawer.widget.ts:241-247 | A supplied id, name and colour are kept. A missing id becomes the fresh id, a missing name the next default name, and a missing colour the next unused colour. The counter moves only when the name was missing. |
| ZoneDrawer.ZoneDrawerWidget.AddZone | packages/widgets/src/zone-drawer/zone-drawer.widget.ts:240-268 | Exactly one completed zone is appended. Drawing switches off when the list length is exactly MaxZones. The widget becomes dirty and the label list non-empty. The zone's record is emitted. Mode and configuration are unchanged. |
| ZoneDrawer.ZoneDrawerWidget.CreateZone | packages/widgets/src/zone-drawer/zone-drawer.widget.ts:228-238 | It appends a zone with the fresh id, the next default name, the next unused colour, the drawn points and the current mode. The counter advances by one. |
| ZoneDrawer.ZoneDrawerWidget.DeleteZone | packages/widgets/src/zone-drawer/zone-drawer.widget.ts:270-282 | Every zone with the id is removed and the rest keep their order. The list gets shorter. Drawing is switched on. The label list is empty exactly when the list is. The first matching zone's record is emitted. The cap invariant is preserved. With unique ids, exactly the matching zone goes. |
| ZoneDrawer.ZoneDrawerWidget.LabelTextChanged | packages/widgets/src/zone-drawer/zone-drawer.widget.ts:219-226 | Only the first zone with the id is renamed. Every other zone and every other field is unchanged. An unknown id changes nothing. |
| ZoneDrawer.ZoneDrawerWidget.ToggleDrawerMode | packages/widgets/src/zone-drawer/zone-drawer.widget.ts:104-107 | The drawing mode flips. The zones and the counter are unchanged. |
| ZoneDrawer.ZoneDrawerWidget.ZonesOutputs | packages/widgets/src/zone-drawer/zone-drawer.widget.ts:345-359 | The result is one record per zone, in list order, chosen by the zone's mode whatever its number of points. |
| ZoneDrawer.ZoneDrawerWidget.Save | packages/widgets/src/zone-drawer/zone-drawer.widget.ts:99-102 | One save event is emitted, carrying the records of all zones in list order. |
| ZoneDrawer.ZoneDrawerWidget.Init | packages/widgets/src/zone-drawer/zone-drawer.widget.ts:115-128 | The dirty flag is cleared, then the configured zones are added in order onto the existing list. The list is not cleared first. The resulting state is the `AddAll` fold. The widget ends dirty exactly when some zone was configured. |
| ZoneDrawer.ZoneDrawerWidget.Configure | packages/widgets/src/zone-drawer/zone-drawer.widget.ts:109-112 | The configured zones are replaced and `init` runs. |

## Left out

- The DOM does not appear in the model:
  - the label list entries (`addLabel`, `removeLabel`, `renameZone`, `getLabelConfig`, `labelActionClicked`);
  - the zones view;
  - the resize observer;
  - the drawer components (`initDrawer`, `destroyDrawer`, `initZoneDrawComponents`, `drawerComplete`).
- The drawer's border colour does not appear. `addZone` recomputes `getNextColor` only to push it into the drawing tool. That call changes no controller state.
- `load` and `drawerConnectedCallback` are not modelled. They only defer work through `setTimeout`. `connectedCallback`, `disconnectedCallback` and `isReady` do not appear either.
- `guid()` is a parameter. The model does not assume the ids it returns are unique. `AppendKeepsUniqueIds` states what a new id guarantees.
- ZoneDrawer.ZoneDrawerWidget.LabelTextChanged: the zones are values. The source mutates the zone object in place, and that object is shared with the zones view's shallow copy. The model does not capture this aliasing.
- ZoneDrawer.ZoneDrawerWidget.DeleteZone: requires the id to be present. The design notes describe a silent no-op for an unknown id. The code instead dereferences the missing label element and the missing zone without a check, and so throws. The model follows the code.
- ZoneDrawer.AddAllKeepsCap: requires the configuration to keep the list within MaxZones. The cap test is an equality, so a configuration that runs past MaxZones leaves drawing off with more zones than the cap. A later delete then switches drawing back on above the cap. That path is modelled as written, but the cap invariant is not claimed for it.
- ZoneDrawer.ZoneDrawerWidget.GetNewZoneName: the counter is an unbounded natural number. JavaScript numbers lose integer precision above 2^53.
- ZoneDrawer.ZoneDrawerWidget.constructor: takes only the palette. The configuration object and the player element belong to the base widget, which is not part of this model.
- The zone invariants of the design description are not enforced by the controller, so they are not modelled:
  - exactly two points for a line and at least three for a polygon;
  - every colour drawn from the palette.
- The date-picker component and the type-only declaration files are not part of this model.
