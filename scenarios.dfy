/**
 * Runs of the bookkeeping over several calls: clicking a category twice, or
 * drawing all and then removing all, on any page; and whole-page runs on a
 * freshly loaded page (nothing drawn, no label registered, an empty map)
 * with the observable outcome of a sequence of clicks and button presses.
 */
module Scenarios {
  import opened Text
  import opened ZoneOverlay
  import opened MapSurface
  import opened ZoneMap

  /** Clicking a known category twice, on any page: it ends shown exactly
      when it started shown, and every other category keeps its group. The
      labels of the group built on the way stay registered, one per zone.
      What else comes back depends on where the category started (see
      ClickHiddenTwice and ClickShownTwice). */
  method ClickTwiceOn(page: ZoneMap, c: string)
    requires page.Valid() && c in page.zones
    modifies page
    ensures page.Valid()
    ensures page.IsShown(c) == old(page.IsShown(c))
    ensures !old(page.IsShown(c)) ==> page.drawnLayers == old(page.drawnLayers) && page.onMap == old(page.onMap)
    ensures page.drawnLayers.Keys == old(page.drawnLayers).Keys
    ensures forall d :: d in old(page.drawnLayers) && d != c ==> page.drawnLayers[d] == old(page.drawnLayers)[d]
    ensures old(page.IsShown(c)) ==>
      && CategoryGroupOf(page.layers, page.drawnLayers[c], ZoneParts(page.zones[c], c))
      && Laid(page.layers, page.drawnLayers[c])
    ensures old(page.zoneLabels) <= page.zoneLabels
    ensures |page.zoneLabels| == |old(page.zoneLabels)| + |page.zones[c]|
  {
    if page.IsShown(c) {
      ClickShownTwice(page, c);
    } else {
      ClickHiddenTwice(page, c);
    }
  }

  /** A hidden category clicked twice comes back to where it started: the
      same record and the same rendered layers, because every layer the
      first click rendered was created by it. One label per zone stays
      registered. */
  method ClickHiddenTwice(page: ZoneMap, c: string)
    requires page.Valid() && c in page.zones && !page.IsShown(c)
    modifies page
    ensures page.Valid()
    ensures page.drawnLayers == old(page.drawnLayers) && page.onMap == old(page.onMap)
    ensures old(page.zoneLabels) <= page.zoneLabels
    ensures |page.zoneLabels| == |old(page.zoneLabels)| + |page.zones[c]|
  {
    ghost var on0, l0 := page.onMap, page.layers;
    forall x | x in on0 ensures x < |l0| {
    }
    page.HandleCategoryClick(c);
    page.HandleCategoryClick(c);
  }

  /** A shown category clicked twice is hidden and drawn afresh: it ends
      with a new group of its zones, laid out in creation order, every
      other category keeps its group, and one label per zone is added. */
  method ClickShownTwice(page: ZoneMap, c: string)
    requires page.Valid() && c in page.zones && page.IsShown(c)
    modifies page
    ensures page.Valid()
    ensures page.drawnLayers.Keys == old(page.drawnLayers).Keys
    ensures forall d :: d in old(page.drawnLayers) && d != c ==> page.drawnLayers[d] == old(page.drawnLayers)[d]
    ensures CategoryGroupOf(page.layers, page.drawnLayers[c], ZoneParts(page.zones[c], c))
    ensures Laid(page.layers, page.drawnLayers[c])
    ensures old(page.zoneLabels) <= page.zoneLabels
    ensures |page.zoneLabels| == |old(page.zoneLabels)| + |page.zones[c]|
  {
    page.HandleCategoryClick(c);
    page.HandleCategoryClick(c);
  }

  /** Clicking a category twice shows it and then hides it again. The first
      click registers one label per zone, no two the same. The group leaves
      the map with everything in it, but its labels stay in the registry. */
  method ClickTwice(zones: map<string, seq<Zone>>, c: string)
    returns (shownBetween: bool, distinct: bool, shownAfter: bool, labels: nat, rendered: set<LayerId>)
    requires c in zones
    ensures shownBetween && distinct && !shownAfter
    ensures labels == |zones[c]|
    ensures rendered == {}
  {
    var page := new ZoneMap(zones);
    page.HandleCategoryClick(c);
    shownBetween := page.IsShown(c);
    distinct := forall j, k | 0 <= j < k < |page.zoneLabels| :: page.zoneLabels[j] != page.zoneLabels[k];
    page.HandleCategoryClick(c);
    shownAfter := page.IsShown(c);
    labels := |page.zoneLabels|;
    rendered := page.onMap;
  }

  /** A click on an id with no zones changes nothing, even with every
      category drawn. */
  method ClickUnknown(zones: map<string, seq<Zone>>, c: string) returns (same: bool)
    requires c !in zones
    ensures same
  {
    var page := new ZoneMap(zones);
    page.DrawAllZones();
    var drawn, labels, rendered := page.drawnLayers, page.zoneLabels, page.onMap;
    page.HandleCategoryClick(c);
    same := page.drawnLayers == drawn && page.zoneLabels == labels && page.onMap == rendered;
  }

  /** "Draw all" then "remove all", on any page: the map ends exactly as
      "remove all" alone would leave it, because everything the bulk draw
      rendered was created by it. */
  method DrawAllThenRemoveAllOn(page: ZoneMap)
    requires page.Valid()
    modifies page
    ensures page.Valid() && page.drawnLayers == map[]
    ensures page.onMap == old(page.onMap) - Covered(old(page.layers), old(page.drawnLayers), old(page.drawnLayers).Keys)
  {
    ghost var on0, l0 := page.onMap, page.layers;
    forall x | x in on0 ensures x < |l0| {
    }
    page.DrawAllZones();
    ghost var covered := Covered(page.layers, page.drawnLayers, page.drawnLayers.Keys);
    forall x | x in covered ensures |l0| <= x {
      var c :| c in page.drawnLayers && x in Footprint(page.layers, page.drawnLayers[c]);
    }
    page.RemoveAllZones();
  }

  /** "Draw all" shows every category; "remove all" then hides every one of
      them and leaves the map empty without touching the label registry; a
      second "remove all" changes nothing. */
  method DrawAllThenRemoveAll(zones: map<string, seq<Zone>>)
    returns (shown: set<string>, shownAfter: set<string>, labelsKept: bool,
             rendered: set<LayerId>, secondChanges: bool)
    ensures shown == zones.Keys
    ensures shownAfter == {} && labelsKept && rendered == {}
    ensures !secondChanges
  {
    var page := new ZoneMap(zones);
    page.DrawAllZones();
    shown := page.drawnLayers.Keys;
    var labels := page.zoneLabels;
    page.RemoveAllZones();
    shownAfter := page.drawnLayers.Keys;
    labelsKept := page.zoneLabels == labels;
    rendered := page.onMap;
    page.RemoveAllZones();
    secondChanges := page.onMap != rendered || page.drawnLayers != map[] || page.zoneLabels != labels;
  }

  /** Clearing the labels while a category is shown takes every one of its
      labels (one per zone) off the map and empties the registry, but leaves
      the category recorded as shown, with its group still on the map;
      clearing an empty registry changes nothing. */
  method ClearLabelsWhileShown(zones: map<string, seq<Zone>>, c: string)
    returns (stillShown: bool, groupRendered: bool, cleared: nat, labelsGone: bool, labels: nat, secondChanges: bool)
    requires c in zones
    ensures stillShown && groupRendered && labels == 0
    ensures cleared == |zones[c]| && labelsGone
    ensures !secondChanges
  {
    var page := new ZoneMap(zones);
    page.HandleCategoryClick(c);
    var registered := page.zoneLabels;
    cleared := |registered|;
    page.RemoveLabels();
    labelsGone := forall i | 0 <= i < |registered| :: registered[i] !in page.onMap;
    stillShown := page.IsShown(c);
    groupRendered := page.drawnLayers[c] in page.onMap;
    labels := |page.zoneLabels|;
    var rendered := page.onMap;
    page.RemoveLabels();
    secondChanges := page.onMap != rendered || page.zoneLabels != [];
  }

  /** The zone `A` of category `group1`: a red 10 by 10 box at the origin. */
  const RedZone: Zone := Zone("A", Point(0.0, 0.0), Point(10.0, 10.0), 255, 0, 0)

  /** How the red box renders: its corners, its colour string, its label
      text and the label's position. */
  lemma RedBoxRendering()
    ensures Corners(RedZone) == [LatLng(0.0, 0.0), LatLng(0.0, 10.0), LatLng(10.0, 10.0), LatLng(10.0, 0.0)]
    ensures ZoneColor(RedZone) == "rgb(255, 0, 0)"
    ensures LabelHtml("group1", RedZone.name) == "<div>group1<br>A</div>"
    ensures Center(RedZone) == LatLng(5.0, 5.0)
  {
    assert Decimal(255) == "255" by {
      assert Decimal(25) == "25";
    }
  }

  /** drawZoneOnMap for the red box: the polygon, the label and the group
      holding the two. */
  method RedBox() returns (corners: seq<LatLng>, color: string, html: string, at: LatLng, members: nat)
    ensures corners == [LatLng(0.0, 0.0), LatLng(0.0, 10.0), LatLng(10.0, 10.0), LatLng(10.0, 0.0)]
    ensures color == "rgb(255, 0, 0)"
    ensures html == "<div>group1<br>A</div>"
    ensures at == LatLng(5.0, 5.0)
    ensures members == 2
  {
    var page := new ZoneMap(map[]);
    var zg := page.DrawZoneOnMap(RedZone, "group1");
    RedBoxRendering();
    corners := page.layers[zg - 2].corners;
    color := page.layers[zg - 2].color;
    html := page.layers[zg - 1].html;
    at := page.layers[zg - 1].position;
    members := |page.layers[zg].members|;
  }
}
