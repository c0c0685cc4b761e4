# Zone overlay bookkeeping, modelled in Dafny

The zone page draws named rectangular zones on a map. The zones come grouped by category, and
each category can be toggled on and off. This project models the bookkeeping behind that in
`scripts/script.js`:

- `drawZoneOnMap` turns one zone record into a polygon and a label marker. It registers the
  label and returns a layer group holding the two.
- `handleCategoryClick` toggles one category. An unknown id does nothing. A shown category's
  group is removed and its entry deleted. A hidden category gets a fresh group with one zone
  group per zone, which is added to the map and recorded.
- `removeAllZones` hides every drawn category.
- `drawAllZones` hides everything, then draws every category afresh.
- `removeLabels` takes every registered label off the map and empties the registry. The record
  of which categories are shown is left alone.

The page state is the class `ZoneMap.ZoneMap`:

- `drawnLayers` maps a category id to its group;
- `zoneLabels` is the label registry;
- `layers` is the table of every layer the mapping library has created, indexed by handle;
- `onMap` is the set of layers currently rendered.

Creating a polygon, a marker or a group appends to the table and returns the new handle.
Adding a group to the map, or removing it, adds or removes the group, its members and their
members. That is the footprint, and it matches how the library's layer groups behave. A ghost
field `topLevel` remembers every category group ever added.

The invariant `Valid()` holds three things:

- the table is well formed;
- a category group is on the map exactly when `drawnLayers` records it, for one category only;
- every registered label is a marker.

Every routine keeps `Valid()` and states its new state. Drawing one category states the
layout of the layers it creates. The group comes first. The j-th zone then gets three handles
in a row: its polygon, its label and its zone group. So no two zones share a zone group or a
label.

A bulk draw is the one routine whose result depends on the order `for…in` visits the
categories. For it, the model states the following for every category:

- the group it records;
- that group's zones, laid out as above;
- that the group's whole tree was created by the call.

It states the labels it registers as a set (see "## Left out").

The four library calls (`NewLayer`, `AddMember`, `AddTo`, `RemoveLayer`) state only their
effect on the table and the map. The routines that call them re-establish `Valid()`.

The files:

- `text.dfy` holds decimal rendering, the way a template literal prints a number, and a reader
  for it.
- `overlay.dfy` holds the pure part of `drawZoneOnMap`: corners, colour string, centre and
  label text. It also reads the colour and label strings back.
- `surface.dfy` holds the layer table, footprints, the invariants and the lemmas about how each
  step changes them.
- `zone_map.dfy` holds the class. It has one method per routine, plus the small library calls.
- `scenarios.dfy` holds whole-page runs from a freshly loaded page.

Three details of the code worth knowing:

- The label text is `<div>CATEGORY<br>NAME</div>`.
- The polygon corners are the raw bounding-box values in `[lat, lng]` order. Any projection is
  applied inside the mapping library.
- `drawAllZones` runs `removeAllZones` first. Every group drawn before the call therefore
  leaves the map.

## Model

| member | source | states |
|---|---|---|
| ZoneOverlay.Corners | scripts/script.js:78-83 | definition: the four corners min-min, min-max, max-max, max-min as [lat, lng] = [y, x]; PolygonAreaIsBoxArea and CenterIsCornerMean constrain it |
| ZoneOverlay.RgbCss | scripts/script.js:84 | definition: the template literal `rgb(R, G, B)`; RgbRoundTrip reads it back and RgbCssInjective follows |
| ZoneOverlay.ZoneColor | scripts/script.js:84 | definition: RgbCss of the zone's own R, G and B; PolygonColorIsZoneColor constrains it |
| ZoneOverlay.ZonePolygon | scripts/script.js:86 | definition: a polygon over Corners with stroke and fill both ZoneColor and fill opacity 0.5; PolygonColorIsZoneColor and PolygonAreaIsBoxArea constrain it |
| ZoneOverlay.Center | scripts/script.js:88-89 | definition: the midpoint of the box as [lat, lng]; CenterIsCornerMean and CenterInsideBox constrain it |
| ZoneOverlay.LabelHtml | scripts/script.js:94 | definition: `<div>` category `<br>` name `</div>`; LabelRoundTrip reads it back |
| ZoneOverlay.ZoneLabel | scripts/script.js:91-98 | definition: a marker at Center carrying LabelHtml; RedBox evaluates it on an example, through DrawZoneOnMap |
| ZoneMap.ZoneMap.IsShown | scripts/script.js:156 | definition: the truthiness test of `drawnLayers[id]` is key membership; HandleCategoryClick and ClickTwiceOn state how it flips |
| Text.Decimal | scripts/script.js:84 | a channel prints as a non-empty run of decimal digits with no leading zero (except for 0 itself) |
| Text.ParseDecimal | scripts/script.js:84 | the printed digits of n read back as n |
| Text.DecimalInjective | scripts/script.js:84 | different channel values print differently |
| ZoneOverlay.RgbRoundTrip | scripts/script.js:84 | the colour string `rgb(R, G, B)` reads back as exactly the channels R, G and B |
| ZoneOverlay.RgbCssInjective | scripts/script.js:84 | two colours with the same colour string are the same colour |
| ZoneOverlay.PolygonColorIsZoneColor | scripts/script.js:84-86 | stroke and fill are the same string, and that string determines the zone's R, G and B |
| ZoneOverlay.PolygonAreaIsBoxArea | scripts/script.js:78-83 | the four corners enclose exactly the bounding box: twice the signed area is 2·width·height, so a well-formed box gives a positive, counter-clockwise polygon |
| ZoneOverlay.CenterIsCornerMean | scripts/script.js:78-89 | the label position is the mean of the four polygon corners |
| ZoneOverlay.CenterInsideBox | scripts/script.js:88-89 | for a well-formed box, the label position lies inside the box |
| ZoneOverlay.LabelRoundTrip | scripts/script.js:94 | the label HTML reads back as the category id and the zone name, when the id has no `<` |
| MapSurface.FootprintExtends | scripts/script.js:126-131 | creating new layers does not change what an existing group puts on the map |
| MapSurface.FootprintOfLeaf | scripts/script.js:108 | removing a label marker takes exactly that marker off the map |
| MapSurface.WithZoneGroupFacts | scripts/script.js:86-101 | after the polygon, the marker and their group are created, the group holds exactly those two, its footprint is those three layers and its label is the marker |
| MapSurface.TreeOKAddMember | scripts/script.js:164 | `addLayer` of a new zone group keeps the table well formed |
| MapSurface.AppendEmptyGroup | scripts/script.js:161 | a fresh empty group starts as the category group of no zones, contained in no group and holding no labels |
| MapSurface.BuildStep | scripts/script.js:162-165 | one loop step (draw a zone, add its group) extends the category group by that zone and the registry by that zone's label |
| MapSurface.BuildStepMembers | scripts/script.js:162-165 | after one step the group holds the zone groups of one more zone, and no group contains it |
| MapSurface.BuildStepGroup | scripts/script.js:163-164 | after one step the group's members are the earlier zone groups followed by the new one |
| MapSurface.ZoneGroupKept | scripts/script.js:164 | earlier zone groups are unchanged when the category group gains a member |
| MapSurface.BuildStepNoMember | scripts/script.js:164 | after one step still no group contains the category group |
| MapSurface.BuildStepLabels | scripts/script.js:100 | the group's labels, in member order, gain exactly the new zone's label |
| MapSurface.TreeOKAddTop | scripts/script.js:167 | adding a category group to the map keeps the table well formed |
| MapSurface.FootprintAvoidsTopLevel | scripts/script.js:157 | removing one category group never takes another category group off the map |
| MapSurface.DrawnOKShow | scripts/script.js:167-168 | adding the new group and recording it keeps "on the map exactly when recorded" |
| MapSurface.DrawnOKHide | scripts/script.js:157-158 | removing the group and deleting its entry keeps "on the map exactly when recorded" |
| MapSurface.CoveredAdd | scripts/script.js:113-118 | what several drawn categories cover is the union of their footprints, one category at a time |
| MapSurface.CoveredSeqIsCovered | scripts/script.js:113-118 | covering the categories one at a time in any visiting order gives what they cover together |
| MapSurface.CoveredSeqFrame | scripts/script.js:123-133 | drawing more categories does not change what the earlier ones cover |
| MapSurface.CoveredSeqShow | scripts/script.js:131-132 | showing one more category adds exactly its footprint to what the shown ones cover |
| MapSurface.ListedAreDrawn | scripts/script.js:123-133 | the categories visited so far are exactly the recorded ones |
| MapSurface.HideStep | scripts/script.js:115-116 | hiding one more category takes exactly its footprint off the map |
| MapSurface.HideEnd | scripts/script.js:112-119 | once nothing is recorded, everything the recorded categories covered has left the map |
| MapSurface.CategoryGroupExtends | scripts/script.js:123-133 | a drawn category group keeps its zone groups while other categories are drawn |
| MapSurface.DrawnSinceShow | scripts/script.js:125-132 | each recorded category has a group holding its own zones, laid out in creation order, whose whole tree (group, zone groups, polygons, labels) was created during the bulk draw |
| MapSurface.LaidDistinct | scripts/script.js:86-101 | in a group laid out in creation order no two zones share a zone group or a label; the j-th label is handle g + 3j + 2 |
| MapSurface.LaidExtends | scripts/script.js:123-134 | a group's layout is unchanged while later categories are drawn |
| MapSurface.BuildStepLaid | scripts/script.js:162-165 | a loop step appends the new zone group (three new layers) after the earlier ones, keeping the creation-order layout |
| MapSurface.TreeSinceExtends | scripts/script.js:123-134 | a group's tree stays new since the bulk draw began while later categories are drawn |
| MapSurface.DrawnSinceFresh | scripts/script.js:126-132 | every layer a recorded category renders was created during the bulk draw |
| MapSurface.LabelledSince | scripts/script.js:126-130 | every label of a recorded category's group is a marker created during the bulk draw |
| MapSurface.ShowStep | scripts/script.js:125-132 | one bulk-draw step records the category and adds exactly its footprint |
| MapSurface.FootprintSince | scripts/script.js:161-165 | a tree made of layers created since some moment renders only layers created since then |
| MapSurface.BuildStepSince | scripts/script.js:162-165 | a loop step keeps the category group's tree made of layers created by this show |
| MapSurface.LabelsSeqIsLabelled | scripts/script.js:123-133 | listing the groups' labels category by category, in any visiting order, gives exactly the labels of all the groups |
| MapSurface.GroupLabelsExtends | scripts/script.js:126-131 | a drawn group's labels do not change when new layers are created |
| MapSurface.LabelsSeqFrame | scripts/script.js:123-133 | drawing more categories does not change the labels of the earlier ones |
| MapSurface.ListedLabelsKept | scripts/script.js:131-132 | recording one more category keeps the labels of those recorded before |
| MapSurface.LabelsAppend | scripts/script.js:127-130 | the registry gains the labels of one more category's group, after the earlier ones |
| MapSurface.LabelStep | scripts/script.js:125-132 | one bulk-draw step registers exactly the new group's labels |
| MapSurface.LabelsEnd | scripts/script.js:121-135 | after the bulk draw, the registry gained exactly the labels of all the new groups |
| MapSurface.ShowEnd | scripts/script.js:121-135 | after the bulk draw, every category is recorded and the map gained exactly what they all cover |
| ZoneMap.ZoneMap.constructor | scripts/script.js:74-75 | the page starts with an empty registry, nothing recorded and nothing on the map |
| ZoneMap.ZoneMap.NewLayer | scripts/script.js:86-101 | creating a layer gives a fresh handle and leaves every existing layer unchanged |
| ZoneMap.ZoneMap.AddMember | scripts/script.js:164 | `addLayer` on a group that is not on the map appends the member to the group's list and changes nothing else |
| ZoneMap.ZoneMap.AddTo | scripts/script.js:167 | `addTo(map)` renders the group's whole footprint |
| ZoneMap.ZoneMap.RemoveLayer | scripts/script.js:157 | `removeLayer` of a group on the map, or of a leaf, takes its whole footprint off the map |
| ZoneMap.ZoneMap.DrawZoneOnMap | scripts/script.js:77-104 | creates the polygon, then the marker, then a group of exactly the two; appends exactly the new marker to the registry; nothing is rendered |
| ZoneMap.ZoneMap.BuildCategoryGroup | scripts/script.js:161-165 | the fresh group holds one zone group per zone of the category, in stored order; the call creates exactly 1 + 3 per zone layers, laid out in creation order, so every zone has its own zone group, polygon and label; the registry gains exactly their labels in that order |
| ZoneMap.ZoneMap.AddZone | scripts/script.js:163-164 | one iteration: draw the zone and add its group to the category group |
| ZoneMap.ZoneMap.ShowCategory | scripts/script.js:160-168 | a hidden category gets a fresh group of its zones, which is rendered and recorded; its whole tree, and so everything it renders, was created by this call, one zone group, polygon and label per zone in creation order; the registry gains one label per zone, pairwise distinct; other entries are unchanged |
| ZoneMap.ZoneMap.HideCategory | scripts/script.js:156-158 | a shown category's group leaves the map with its contents, and only that entry is deleted |
| ZoneMap.ZoneMap.HandleCategoryClick | scripts/script.js:149-172 | an unknown id changes nothing; otherwise the category flips between shown and hidden, with the hide or show effects above; what a show renders is newly created, laid out one zone group, polygon and label per zone, and it registers one distinct label per zone; the registry only grows |
| ZoneMap.ZoneMap.RemoveLabels | scripts/script.js:106-111 | the registry is emptied and exactly its former labels leave the map; recorded categories and their groups stay as they were |
| ZoneMap.ZoneMap.RemoveAllZones | scripts/script.js:112-119 | nothing is left recorded; exactly what the recorded categories covered leaves the map, no category group is rendered, and the registry is unchanged |
| ZoneMap.ZoneMap.DrawAllZones | scripts/script.js:121-135 | every category is recorded with a group created by this call, laid out one zone group, polygon and label per zone; what was covered before leaves the map and what the new groups cover is added; no earlier group stays rendered; every layer the new groups render was created by this call; the registry gains exactly the labels of the new groups, all markers created by this call |
| ZoneMap.ZoneMap.DrawEveryCategory | scripts/script.js:123-134 | starting from nothing recorded, every category gets a group of its zones whose whole tree was created by this call, laid out one zone group, polygon and label per zone; the map gains exactly their footprints, all new, and the registry exactly their labels, all new |
| Scenarios.ClickTwiceOn | scripts/script.js:149-172 | on any page, two clicks leave the category shown exactly when it was, every other category with its group, and the registry grown by one label per zone; a hidden category returns to the same record and the same rendered layers; a shown one ends with a new group of its zones |
| Scenarios.ClickHiddenTwice | scripts/script.js:149-172 | a hidden category clicked twice returns to the same record and the same rendered layers, with one label per zone added |
| Scenarios.ClickShownTwice | scripts/script.js:149-172 | a shown category clicked twice keeps every other category's group and ends with a new group of its zones in creation order, with one label per zone added |
| Scenarios.ClickTwice | scripts/script.js:149-172 | on a fresh page the first click shows the category and registers one label per zone, pairwise distinct; the second hides it, leaving an empty map with those labels kept |
| Scenarios.ClickUnknown | scripts/script.js:150-151 | after drawing everything, a click on an unknown id changes neither the record, the registry nor the map |
| Scenarios.DrawAllThenRemoveAllOn | scripts/script.js:112-135 | on any page, draw-all followed by remove-all leaves the map exactly as remove-all alone would |
| Scenarios.DrawAllThenRemoveAll | scripts/script.js:112-135 | draw-all shows every category; remove-all then empties the record and the map but keeps the registry; a second remove-all changes nothing |
| Scenarios.ClearLabelsWhileShown | scripts/script.js:106-111 | clearing labels takes the category's labels, one per zone, off the map, yet leaves it shown with its group rendered; clearing an empty registry changes nothing |
| Scenarios.RedBoxRendering | scripts/script.js:84-94 | zone A of group1, red over the box from (0,0) to (10,10), has corners (0,0), (0,10), (10,10), (10,0), colour `rgb(255, 0, 0)`, label `<div>group1<br>A</div>` and label position (5, 5) |
| Scenarios.RedBox | scripts/script.js:77-104 | drawing that zone creates a polygon with those corners and that colour, a marker with that label at (5, 5), and a group of two |

## Left out

- `CUSTOM_CRS` (scripts/script.js:8-23) is projection configuration handed to the mapping
  library. Its zoom and distance use floating-point logarithms and square roots.
- The tile layer, the map construction and the layer control (scripts/script.js:26-51) are
  library setup and tile URLs.
- The unused sample markers and icons (scripts/script.js:31-32, 53-72) are not modelled.
- The DOM is not modelled: the click listeners, the status colours, the "Subzone: N" text and
  the button wiring (scripts/script.js:138-147, 153-154, 159, 169-170, 174-189). The model
  therefore has none of the exceptions at scripts/script.js:153. When the page has no element
  with the category's id, `querySelector` returns null and reading `previousElementSibling`
  throws a TypeError. An id that is not a valid CSS identifier makes `querySelector` throw a
  SyntaxError. Either way the click stops before any state changes.
- Inherited property names are not modelled. The model treats `zones` and `drawnLayers` as
  plain maps. In JavaScript they are objects, and names such as `constructor` are inherited:
  - A click on such an id that `zones` lacks passes the unknown-id check at scripts/script.js:150-151.
  - A category whose own key in `zones` is such a name is worse off. While it is unrecorded,
    `drawnLayers[id]` at scripts/script.js:156 is the inherited value (for `constructor`, the
    `Object` function), which is truthy. So the click takes the hide branch, where `removeLayer`
    of something that is not a layer does nothing.
  - Such a category can be shown by `drawAllZones`, which records an own key, but never by a
    click. The model shows it on a click.
- The `zones` dataset (`data.js`) is not part of this model. It is a constructor parameter.
- The icon class, size and anchor of the label marker are not modelled.
- Coordinates are reals, so floating-point rounding of the midpoint is not modelled.
- A category's group is identified by its handle. For category ids that are not inherited
  property names, the truthiness test at scripts/script.js:156 is therefore membership in
  `drawnLayers`.
- Library internals other than group membership are not modelled, such as event handlers and
  HTML escaping of the label text.
- DrawAllZones: the labels added to the registry are stated as a set, exactly the labels of the
  new groups, not as a sequence. Their order follows the order `for…in` visits the categories,
  which is not modelled.
- DrawEveryCategory: the same as DrawAllZones. The categories are visited in an unspecified order.
- AddMember: `addLayer` on a group that is on the map would also render the member. The core
  only adds members to groups not yet on the map, so that case is not modelled.
- RemoveLayer: the library ignores a group that is not on the map, members included. The core
  never removes such a group, so the model requires the group to be on the map.
- Decimal: JavaScript prints integers from 10^21 on in exponent notation. The model prints
  plain digits for every natural number. The colour channels are 0 to 255.
- RemoveAllZones: the categories are hidden in an unspecified order, and the result is stated
  for every order.
