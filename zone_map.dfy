/**
 * The overlay bookkeeping of the zone page: which category is drawn
 * (`drawnLayers`), the registry of every label created (`zoneLabels`), and
 * the map surface they act on. The calls into the mapping library
 * (creating a polygon, a marker or a layer group, adding a member to a
 * group, adding a layer to the map, removing one) are the small methods
 * in the "map library" part below.
 */
module ZoneMap {
  import opened ZoneOverlay
  import opened MapSurface

  class ZoneMap {
    /** The static dataset: each category id and its zones, in stored order. */
    const zones: map<string, seq<Zone>>
    /** The layer group currently drawn for each shown category. */
    var drawnLayers: map<string, LayerId>
    /** Every label marker created since the last bulk label clear. */
    var zoneLabels: seq<LayerId>
    /** Every layer the library has created, indexed by handle. */
    var layers: Layers
    /** The layers currently rendered on the map. */
    var onMap: set<LayerId>
    /** The category groups ever added to the map. */
    ghost var topLevel: set<LayerId>

    /** The object invariant. */
    ghost predicate Valid()
      reads this
    {
      && TreeOK(layers, topLevel, onMap)
      && DrawnOK(zones, drawnLayers, topLevel, onMap)
      && LabelsOK(zoneLabels, layers)
    }

    /** `drawnLayers[categoryId]` is truthy: the category is shown. */
    predicate IsShown(c: string)
      reads this
    {
      c in drawnLayers
    }

    constructor (zones: map<string, seq<Zone>>)
      ensures Valid()
      ensures this.zones == zones
      ensures drawnLayers == map[] && zoneLabels == []
      ensures layers == [] && onMap == {} && topLevel == {}
    {
      this.zones := zones;
      drawnLayers := map[];
      zoneLabels := [];
      layers := [];
      onMap := {};
      topLevel := {};
    }

    // ----- map library -----

    /** Creating a polygon, marker or layer group: a fresh handle. */
    method NewLayer(l: Layer) returns (id: LayerId)
      modifies this`layers
      ensures id == |old(layers)| && layers == old(layers) + [l]
    {
      id := |layers|;
      layers := layers + [l];
    }

    /** `group.addLayer(member)` on a group that is not on the map: the
        member is only recorded (on a rendered group the library would also
        render it, which the core never needs). */
    method AddMember(group: LayerId, member: LayerId)
      requires group < |layers| && layers[group].Group? && group !in onMap
      modifies this`layers
      ensures layers == old(layers)[group := Group(old(layers)[group].members + [member])]
    {
      layers := layers[group := Group(layers[group].members + [member])];
    }

    /** `group.addTo(map)`: the group and its contents are rendered. */
    method AddTo(group: LayerId)
      modifies this`onMap, this`topLevel
      ensures onMap == old(onMap) + Footprint(layers, group)
      ensures topLevel == old(topLevel) + {group}
    {
      onMap := onMap + Footprint(layers, group);
      topLevel := topLevel + {group};
    }

    /** `map.removeLayer(layer)`: the layer and its contents stop being
        rendered. The library ignores a layer that is not on the map, members
        included, so a group is removed here only while it is on the map. */
    method RemoveLayer(id: LayerId)
      requires id < |layers| && (!layers[id].Group? || id in onMap)
      modifies this`onMap
      ensures onMap == old(onMap) - Footprint(layers, id)
    {
      onMap := onMap - Footprint(layers, id);
    }

    // ----- the core -----

    /** drawZoneOnMap: builds the polygon and the label of one zone,
        registers the label, and returns a group of exactly those two. */
    method DrawZoneOnMap(zone: Zone, buttonId: string) returns (group: LayerId)
      requires Valid()
      modifies this`layers, this`zoneLabels
      ensures Valid()
      ensures layers == WithZoneGroup(old(layers), PartsOf(zone, buttonId))
      ensures group == |old(layers)| + 2
      ensures ZoneGroupOf(layers, group, PartsOf(zone, buttonId))
      ensures Footprint(layers, group) == {group - 2, group - 1, group}
      ensures LabelIn(layers, group) == group - 1
      ensures zoneLabels == old(zoneLabels) + [LabelIn(layers, group)]
    {
      var polygon := NewLayer(ZonePolygon(zone));
      var marker := NewLayer(ZoneLabel(zone, buttonId));
      zoneLabels := zoneLabels + [marker];
      group := NewLayer(Group([polygon, marker]));
      WithZoneGroupFacts(old(layers), layers, topLevel, onMap, PartsOf(zone, buttonId));
    }

    /** The group-building loop shared by handleCategoryClick and
        drawAllZones: a fresh group gets one zone group per zone of the
        category, in stored order. */
    method BuildCategoryGroup(c: string) returns (g: LayerId)
      requires Valid() && c in zones
      modifies this`layers, this`zoneLabels
      ensures Valid()
      ensures g == |old(layers)| && old(layers) <= layers && g !in topLevel
      ensures CategoryGroupOf(layers, g, ZoneParts(zones[c], c)) && NoMemberIn(layers, {g})
      ensures TreeSince(layers, g, |old(layers)|)
      ensures Laid(layers, g) && |layers| == |old(layers)| + 1 + 3 * |zones[c]|
      ensures zoneLabels == old(zoneLabels) + GroupLabels(layers, g)
    {
      var zs := zones[c];
      ghost var ps := ZoneParts(zs, c);
      g := NewLayer(Group([]));
      AppendEmptyGroup(old(layers), layers, topLevel, onMap, zoneLabels, ps);
      var i := 0;
      while i < |zs|
        invariant 0 <= i <= |zs|
        invariant Valid()
        invariant Filling(layers, topLevel, onMap, zoneLabels, old(layers), old(zoneLabels), g, ps, i)
      {
        AddZone(g, zs[i], c, ps, i, old(layers), old(zoneLabels));
        i := i + 1;
      }
      assert ps[..i] == ps;
    }

    /** One iteration of the group-building loop: `drawZoneOnMap` for the
        next zone, then `g.addLayer` of the zone group it returns. */
    method AddZone(g: LayerId, zone: Zone, c: string, ghost ps: seq<Parts>, ghost i: nat,
                   ghost start: Layers, ghost before: seq<LayerId>)
      requires Valid() && Filling(layers, topLevel, onMap, zoneLabels, start, before, g, ps, i)
      requires i < |ps| && ps[i] == PartsOf(zone, c)
      modifies this`layers, this`zoneLabels
      ensures Filling(layers, topLevel, onMap, zoneLabels, start, before, g, ps, i + 1)
    {
      ghost var l0, labels0 := layers, zoneLabels;
      var zg := DrawZoneOnMap(zone, c);
      ghost var l1 := layers;
      AddMember(g, zg);
      BuildStep(l0, l1, layers, topLevel, onMap, labels0, start, before, g, ps, i);
    }

    /** The "show" branch shared by handleCategoryClick and drawAllZones: the
        category's new group is added to the map and recorded for it. */
    method ShowCategory(c: string)
      requires Valid() && c in zones && c !in drawnLayers
      modifies this`layers, this`zoneLabels, this`onMap, this`topLevel, this`drawnLayers
      ensures Valid()
      ensures c in drawnLayers && drawnLayers == old(drawnLayers)[c := drawnLayers[c]]
      ensures old(layers) <= layers && drawnLayers[c] == |old(layers)|
      ensures CategoryGroupOf(layers, drawnLayers[c], ZoneParts(zones[c], c))
      ensures zoneLabels == old(zoneLabels) + GroupLabels(layers, drawnLayers[c])
      ensures onMap == old(onMap) + Footprint(layers, drawnLayers[c])
      ensures TreeSince(layers, drawnLayers[c], |old(layers)|)
      ensures Laid(layers, drawnLayers[c]) && |layers| == |old(layers)| + 1 + 3 * |zones[c]|
      ensures |zoneLabels| == |old(zoneLabels)| + |zones[c]|
      ensures forall j, k :: |old(zoneLabels)| <= j < k < |zoneLabels| ==> zoneLabels[j] != zoneLabels[k]
      ensures forall x :: x in Footprint(layers, drawnLayers[c]) ==> |old(layers)| <= x
      ensures topLevel == old(topLevel) + {drawnLayers[c]}
    {
      var g := BuildCategoryGroup(c);
      FootprintSince(layers, g, |old(layers)|);
      LaidDistinct(layers, g);
      TreeOKAddTop(layers, topLevel, onMap, g);
      DrawnOKShow(zones, drawnLayers, layers, topLevel, onMap, c, g);
      AddTo(g);
      drawnLayers := drawnLayers[c := g];
    }

    /** The "hide" branch shared by handleCategoryClick and removeAllZones:
        the category's group leaves the map and the category is forgotten. */
    method HideCategory(c: string)
      requires Valid() && c in drawnLayers
      modifies this`onMap, this`drawnLayers
      ensures Valid()
      ensures drawnLayers == old(drawnLayers) - {c}
      ensures onMap == old(onMap) - Footprint(layers, old(drawnLayers)[c])
    {
      DrawnOKHide(zones, drawnLayers, layers, topLevel, onMap, c);
      RemoveLayer(drawnLayers[c]);
      drawnLayers := drawnLayers - {c};
    }

    /** handleCategoryClick: an unknown category id does nothing; a shown
        category is hidden; a hidden one is drawn afresh. */
    method HandleCategoryClick(c: string)
      requires Valid()
      modifies this`layers, this`zoneLabels, this`onMap, this`topLevel, this`drawnLayers
      ensures Valid()
      ensures c !in zones ==> unchanged(this)
      ensures c in zones ==> (c in drawnLayers <==> c !in old(drawnLayers))
      ensures c in zones && c in old(drawnLayers) ==>
        && drawnLayers == old(drawnLayers) - {c}
        && onMap == old(onMap) - Footprint(layers, old(drawnLayers)[c])
        && layers == old(layers) && zoneLabels == old(zoneLabels)
      ensures c in zones && c !in old(drawnLayers) ==>
        && drawnLayers == old(drawnLayers)[c := drawnLayers[c]]
        && old(layers) <= layers && drawnLayers[c] == |old(layers)|
        && CategoryGroupOf(layers, drawnLayers[c], ZoneParts(zones[c], c))
        && zoneLabels == old(zoneLabels) + GroupLabels(layers, drawnLayers[c])
        && onMap == old(onMap) + Footprint(layers, drawnLayers[c])
        && (forall x :: x in Footprint(layers, drawnLayers[c]) ==> |old(layers)| <= x)
        && Laid(layers, drawnLayers[c]) && |layers| == |old(layers)| + 1 + 3 * |zones[c]|
        && |zoneLabels| == |old(zoneLabels)| + |zones[c]|
        && (forall j, k :: |old(zoneLabels)| <= j < k < |zoneLabels| ==> zoneLabels[j] != zoneLabels[k])
    {
      if c !in zones {
        return;
      }
      if c in drawnLayers {
        HideCategory(c);
      } else {
        ShowCategory(c);
      }
    }

    /** removeLabels: every registered label leaves the map and the registry
        is emptied; the groups holding them stay where they are. */
    method RemoveLabels()
      requires Valid()
      modifies this`onMap, this`zoneLabels
      ensures Valid()
      ensures zoneLabels == []
      ensures onMap == old(onMap) - (set i | 0 <= i < |old(zoneLabels)| :: old(zoneLabels)[i])
    {
      for i := 0 to |zoneLabels|
        invariant zoneLabels == old(zoneLabels) && LabelsOK(zoneLabels, layers)
        invariant TreeOK(layers, topLevel, onMap)
        invariant onMap == old(onMap) - (set j | 0 <= j < i :: zoneLabels[j])
        invariant forall g :: g in topLevel ==> (g in onMap <==> g in old(onMap))
      {
        FootprintOfLeaf(layers, zoneLabels[i]);
        RemoveLayer(zoneLabels[i]);
      }
      zoneLabels := [];
    }

    /** removeAllZones: every drawn category is hidden. */
    method RemoveAllZones()
      requires Valid()
      modifies this`onMap, this`drawnLayers
      ensures Valid()
      ensures drawnLayers == map[]
      ensures onMap == old(onMap) - Covered(layers, old(drawnLayers), old(drawnLayers).Keys)
      ensures forall g :: g in topLevel ==> g !in onMap
    {
      ghost var done: seq<string> := [];
      while drawnLayers != map[]
        invariant Valid()
        invariant HiddenSoFar(layers, old(drawnLayers), drawnLayers, done, old(onMap), onMap)
        decreases drawnLayers.Keys
      {
        var c :| c in drawnLayers;
        ghost var d0, on0 := drawnLayers, onMap;
        HideCategory(c);
        HideStep(layers, old(drawnLayers), d0, done, old(onMap), on0, onMap, c);
        done := done + [c];
      }
      HideEnd(layers, old(drawnLayers), done, old(onMap), onMap);
    }

    /** drawAllZones: every drawn category is hidden, then every category of
        the dataset is drawn afresh. */
    method DrawAllZones()
      requires Valid()
      modifies this`layers, this`zoneLabels, this`onMap, this`topLevel, this`drawnLayers
      ensures Valid()
      ensures drawnLayers.Keys == zones.Keys
      ensures old(layers) <= layers && DrawnSince(zones, drawnLayers, layers, |old(layers)|)
      ensures onMap == (old(onMap) - Covered(old(layers), old(drawnLayers), old(drawnLayers).Keys))
                       + Covered(layers, drawnLayers, zones.Keys)
      ensures forall g :: g in old(topLevel) ==> g !in onMap
      ensures old(zoneLabels) <= zoneLabels
      ensures forall x :: x in zoneLabels[|old(zoneLabels)|..] <==> x in Labelled(layers, drawnLayers, zones.Keys)
      ensures forall c, x :: c in drawnLayers && x in Footprint(layers, drawnLayers[c]) ==> |old(layers)| <= x
      ensures forall x :: x in zoneLabels[|old(zoneLabels)|..] ==> |old(layers)| <= x
    {
      RemoveAllZones();
      DrawEveryCategory();
    }

    /** The loop of drawAllZones: with nothing drawn, every category of the
        dataset gets a fresh group on the map. */
    method DrawEveryCategory()
      requires Valid() && drawnLayers == map[]
      modifies this`layers, this`zoneLabels, this`onMap, this`topLevel, this`drawnLayers
      ensures Valid()
      ensures drawnLayers.Keys == zones.Keys
      ensures old(layers) <= layers && DrawnSince(zones, drawnLayers, layers, |old(layers)|)
      ensures onMap == old(onMap) + Covered(layers, drawnLayers, zones.Keys)
      ensures old(topLevel) <= topLevel
      ensures old(zoneLabels) <= zoneLabels
      ensures forall x :: x in zoneLabels[|old(zoneLabels)|..] <==> x in Labelled(layers, drawnLayers, zones.Keys)
      ensures forall c, x :: c in drawnLayers && x in Footprint(layers, drawnLayers[c]) ==> |old(layers)| <= x
      ensures forall x :: x in zoneLabels[|old(zoneLabels)|..] ==> |old(layers)| <= x
    {
      var todo := zones.Keys;
      ghost var shown: seq<string> := [];
      assert zoneLabels == old(zoneLabels) + LabelsSeq(layers, drawnLayers, shown);
      while todo != {}
        invariant Valid()
        invariant old(topLevel) <= topLevel
        invariant ShownSoFar(zones, layers, old(layers), todo, drawnLayers, shown, old(onMap), onMap)
        invariant LabelledSoFar(layers, drawnLayers, shown, old(zoneLabels), zoneLabels)
        decreases todo
      {
        var c :| c in todo;
        ghost var l0, d0, on0, lab0 := layers, drawnLayers, onMap, zoneLabels;
        ShowCategory(c);
        ShowStep(zones, l0, layers, old(layers), todo, d0, drawnLayers, shown, old(onMap), on0, onMap, c, drawnLayers[c]);
        LabelStep(l0, layers, d0, drawnLayers, shown, old(zoneLabels), lab0, zoneLabels, c, drawnLayers[c]);
        shown := shown + [c];
        todo := todo - {c};
      }
      ShowEnd(zones, layers, old(layers), drawnLayers, shown, old(onMap), onMap);
      LabelsEnd(zones, layers, drawnLayers, shown, old(zoneLabels), zoneLabels);
      DrawnSinceFresh(zones, drawnLayers, layers, |old(layers)|);
      LabelledSince(zones, drawnLayers, layers, |old(layers)|, zones.Keys);
    }
  }
}
