/**
 * The layers the core builds and what the map library does with them.
 * Every layer ever created is recorded in a `Layers` table, indexed by its
 * handle in order of creation; a layer group lists its members. Adding a
 * group to the map, or removing it, adds or removes the group together
 * with its members and theirs, as the library's layer groups do. The trees
 * built here are at most two levels deep (a category group holds zone
 * groups, a zone group holds a polygon and a label), so the two levels of
 * `Footprint` are the whole tree.
 */
module MapSurface {
  import opened ZoneOverlay

  type Layers = seq<Layer>

  /** The members of a group, and none for any other layer. */
  function Members(layers: Layers, id: LayerId): seq<LayerId> {
    if id < |layers| && layers[id].Group? then layers[id].members else []
  }

  /** The layers that adding or removing `id` puts on or takes off the map. */
  function Footprint(layers: Layers, id: LayerId): set<LayerId> {
    var m := Members(layers, id);
    {id}
    + (set j | 0 <= j < |m| :: m[j])
    + (set j, k | 0 <= j < |m| && 0 <= k < |Members(layers, m[j])| :: Members(layers, m[j])[k])
  }

  /** Everything the categories in `cats` put on the map through `drawn`. */
  ghost function Covered(layers: Layers, drawn: map<string, LayerId>, cats: set<string>): set<LayerId> {
    set c, x | c in cats && c in drawn && x in Footprint(layers, drawn[c]) :: x
  }

  /** Every member of a group is a recorded layer. */
  ghost predicate Closed(layers: Layers) {
    forall id, j :: 0 <= id < |layers| && 0 <= j < |Members(layers, id)| ==> Members(layers, id)[j] < |layers|
  }

  /** No group has a member in s. */
  ghost predicate NoMemberIn(layers: Layers, s: set<LayerId>) {
    forall id, j :: 0 <= id < |layers| && 0 <= j < |Members(layers, id)| ==> Members(layers, id)[j] !in s
  }

  /** The shape of the layer table: members are recorded layers, every
      category group is a recorded group that no group contains, and only
      recorded layers are rendered. */
  ghost predicate TreeOK(layers: Layers, topLevel: set<LayerId>, onMap: set<LayerId>) {
    && Closed(layers)
    && (forall x :: x in onMap ==> x < |layers|)
    && (forall g :: g in topLevel ==> g < |layers| && layers[g].Group?)
    && NoMemberIn(layers, topLevel)
  }

  /** A category group is on the map exactly when it is recorded in `drawn`,
      and then for one category only; only known categories are recorded. */
  ghost predicate DrawnOK(zones: map<string, seq<Zone>>, drawn: map<string, LayerId>,
                          topLevel: set<LayerId>, onMap: set<LayerId>) {
    && drawn.Keys <= zones.Keys
    && (forall c :: c in drawn ==> drawn[c] in topLevel)
    && (forall c, d :: c in drawn && d in drawn && drawn[c] == drawn[d] ==> c == d)
    && (forall g :: g in topLevel ==> (g in onMap <==> g in drawn.Values))
  }

  /** Every registered label is a marker in the table. */
  ghost predicate LabelsOK(labels: seq<LayerId>, layers: Layers) {
    forall i :: 0 <= i < |labels| ==> labels[i] < |layers| && layers[labels[i]].Marker?
  }

  // ----- what drawZoneOnMap and a category group look like -----

  /** The two layers drawZoneOnMap creates for one zone. */
  datatype Parts = Parts(polygon: Layer, marker: Layer)

  function PartsOf(z: Zone, cat: string): Parts {
    Parts(ZonePolygon(z), ZoneLabel(z, cat))
  }

  /** The parts of every zone of a category, in stored order. */
  function ZoneParts(zs: seq<Zone>, cat: string): seq<Parts> {
    seq(|zs|, j requires 0 <= j < |zs| => PartsOf(zs[j], cat))
  }

  /** zg is a group of exactly the polygon, then the label, of p. */
  ghost predicate ZoneGroupOf(layers: Layers, zg: LayerId, p: Parts) {
    var m := Members(layers, zg);
    && |m| == 2
    && m[0] < |layers| && layers[m[0]] == p.polygon
    && m[1] < |layers| && layers[m[1]] == p.marker
  }

  /** g is a category group with one member per entry of ps, in order. */
  ghost predicate CategoryGroupOf(layers: Layers, g: LayerId, ps: seq<Parts>) {
    && g < |layers| && layers[g].Group?
    && |Members(layers, g)| == |ps|
    && forall i :: 0 <= i < |ps| ==> ZoneGroupOf(layers, Members(layers, g)[i], ps[i])
  }

  /** The label of a zone group (its second member). */
  ghost function LabelIn(layers: Layers, zg: LayerId): LayerId {
    var m := Members(layers, zg);
    if |m| == 2 then m[1] else zg
  }

  /** The label of each zone group of g, in member order. */
  ghost function GroupLabels(layers: Layers, g: LayerId): seq<LayerId> {
    var ms := Members(layers, g);
    seq(|ms|, i requires 0 <= i < |ms| => LabelIn(layers, ms[i]))
  }

  /** The table after drawZoneOnMap has created the polygon, the label and
      the group holding the two. */
  function WithZoneGroup(layers: Layers, p: Parts): Layers {
    layers + [p.polygon, p.marker, Group([|layers|, |layers| + 1])]
  }

  /** Group g is being filled: it is a category group of ps[..i], and no
      group contains it. */
  ghost predicate Building(layers: Layers, g: LayerId, ps: seq<Parts>, i: nat) {
    && i <= |ps|
    && CategoryGroupOf(layers, g, ps[..i])
    && NoMemberIn(layers, {g})
  }

  /** Every member of id was created at or after handle base. */
  ghost predicate MembersSince(layers: Layers, id: LayerId, base: nat) {
    forall j :: 0 <= j < |Members(layers, id)| ==> base <= Members(layers, id)[j]
  }

  /** g, its members and their members were all created at or after handle
      base: the whole tree is new since the table had base layers. */
  ghost predicate TreeSince(layers: Layers, g: LayerId, base: nat) {
    && base <= g && MembersSince(layers, g, base)
    && forall j :: 0 <= j < |Members(layers, g)| ==> MembersSince(layers, Members(layers, g)[j], base)
  }

  /** The creation order of a category group's tree: its j-th zone group is
      handle g + 3j + 3, holding the polygon g + 3j + 1 and the label
      g + 3j + 2, each zone's three layers made after the previous zone's. */
  ghost predicate Laid(layers: Layers, g: LayerId) {
    forall j :: 0 <= j < |Members(layers, g)| ==>
      Members(layers, g)[j] == g + 3 * j + 3 && Members(layers, g + 3 * j + 3) == [g + 3 * j + 1, g + 3 * j + 2]
  }

  /** In a group laid out in creation order, each zone has a zone group and a
      label of its own: no handle stands for two zones. */
  lemma LaidDistinct(layers: Layers, g: LayerId)
    requires Laid(layers, g)
    ensures forall j, k :: 0 <= j < k < |Members(layers, g)| ==> Members(layers, g)[j] != Members(layers, g)[k]
    ensures forall j :: 0 <= j < |GroupLabels(layers, g)| ==> GroupLabels(layers, g)[j] == g + 3 * j + 2
    ensures forall j, k :: 0 <= j < k < |GroupLabels(layers, g)| ==> GroupLabels(layers, g)[j] != GroupLabels(layers, g)[k]
  {
    var ms := Members(layers, g);
    forall j | 0 <= j < |GroupLabels(layers, g)| ensures GroupLabels(layers, g)[j] == g + 3 * j + 2 {
      assert ms[j] == g + 3 * j + 3;
      assert LabelIn(layers, ms[j]) == g + 3 * j + 2;
    }
  }

  /** The layout of a group does not change when the table only gains layers. */
  lemma LaidExtends(l0: Layers, l1: Layers, g: LayerId)
    requires Closed(l0) && l0 <= l1 && g < |l0| && Laid(l0, g)
    ensures Laid(l1, g)
  {
    var m := Members(l0, g);
    assert Members(l1, g) == m;
    forall j | 0 <= j < |m| ensures Members(l1, m[j]) == Members(l0, m[j]) {
      assert m[j] < |l0|;
    }
  }

  // ----- how the operations change the table -----

  /** A tree stays new since base when the table only gains layers. */
  lemma TreeSinceExtends(l0: Layers, l1: Layers, g: LayerId, base: nat)
    requires Closed(l0) && l0 <= l1 && g < |l0| && TreeSince(l0, g, base)
    ensures TreeSince(l1, g, base)
  {
    var m := Members(l0, g);
    assert Members(l1, g) == m;
    forall j | 0 <= j < |m| ensures Members(l1, m[j]) == Members(l0, m[j]) {
      assert m[j] < |l0|;
    }
  }

  /** A tree new since base is new since any earlier handle. */
  lemma TreeSinceLower(layers: Layers, g: LayerId, b0: nat, b1: nat)
    requires b0 <= b1 && TreeSince(layers, g, b1)
    ensures TreeSince(layers, g, b0)
  {
  }

  /** A tree created since base puts only layers created since base on the map. */
  lemma FootprintSince(layers: Layers, g: LayerId, base: nat)
    requires TreeSince(layers, g, base)
    ensures forall x :: x in Footprint(layers, g) ==> base <= x
  {
    var m := Members(layers, g);
    forall x | x in Footprint(layers, g) ensures base <= x {
      if x != g && x !in (set j | 0 <= j < |m| :: m[j]) {
        var j, k :| 0 <= j < |m| && 0 <= k < |Members(layers, m[j])| && x == Members(layers, m[j])[k];
        assert MembersSince(layers, m[j], base);
      }
    }
  }

  /** A layer's footprint does not change when the table only gains layers,
      as long as its members were already recorded. */
  lemma FootprintExtends(l1: Layers, l2: Layers, id: LayerId)
    requires Closed(l1) && l1 <= l2 && id < |l1|
    ensures Footprint(l2, id) == Footprint(l1, id)
  {
    var m := Members(l1, id);
    assert Members(l2, id) == m;
    forall j | 0 <= j < |m| ensures Members(l2, m[j]) == Members(l1, m[j]) {
      assert m[j] < |l1|;
    }
  }

  /** A non-group layer takes only itself on and off the map. */
  lemma FootprintOfLeaf(layers: Layers, id: LayerId)
    requires id < |layers| && !layers[id].Group?
    ensures Footprint(layers, id) == {id}
  {
  }

  /** What drawZoneOnMap does to the table: three new layers, the group
      holds the polygon and the label, and the shape is kept. */
  lemma WithZoneGroupFacts(layers: Layers, l2: Layers, topLevel: set<LayerId>, onMap: set<LayerId>, p: Parts)
    requires TreeOK(layers, topLevel, onMap)
    requires p.marker.Marker? && !p.polygon.Group?
    requires l2 == WithZoneGroup(layers, p)
    ensures TreeOK(l2, topLevel, onMap)
    ensures Footprint(l2, |layers| + 2) == {|layers|, |layers| + 1, |layers| + 2}
    ensures ZoneGroupOf(l2, |layers| + 2, p)
    ensures LabelIn(l2, |layers| + 2) == |layers| + 1
  {
    var n := |layers|;
    forall id, j | 0 <= id < |l2| && 0 <= j < |Members(l2, id)|
      ensures Members(l2, id)[j] < |l2| && Members(l2, id)[j] !in topLevel
    {
      if id < n {
        assert Members(l2, id) == Members(layers, id);
      } else {
        assert id == n + 2;
        assert Members(l2, id) == [n, n + 1];
      }
    }
    var m := Members(l2, n + 2);
    assert m == [n, n + 1];
    assert Members(l2, n) == [] && Members(l2, n + 1) == [];
    assert (set j | 0 <= j < |m| :: m[j]) == {n, n + 1} by {
      assert m[0] == n && m[1] == n + 1;
    }
    assert (set j, k | 0 <= j < |m| && 0 <= k < |Members(l2, m[j])| :: Members(l2, m[j])[k]) == {};
  }

  /** Adding member zg to the group g keeps the table's shape when zg is a
      recorded, non-top-level layer. */
  lemma TreeOKAddMember(layers: Layers, l2: Layers, topLevel: set<LayerId>, onMap: set<LayerId>, g: LayerId, zg: LayerId)
    requires TreeOK(layers, topLevel, onMap)
    requires g < |layers| && layers[g].Group? && zg < |layers| && zg !in topLevel
    requires l2 == layers[g := Group(layers[g].members + [zg])]
    ensures TreeOK(l2, topLevel, onMap)
  {
    forall id, j | 0 <= id < |l2| && 0 <= j < |Members(l2, id)|
      ensures Members(l2, id)[j] < |l2| && Members(l2, id)[j] !in topLevel
    {
      if id != g {
        assert Members(l2, id) == Members(layers, id);
      } else if j < |Members(layers, g)| {
        assert Members(l2, id)[j] == Members(layers, g)[j];
      }
    }
  }

  /** showCategory part way: g was created right after the table `start`,
      holds the zone groups of ps[..i], and the label registry, which was
      `before` when g was created, has gained exactly their labels. */
  ghost predicate Filling(layers: Layers, topLevel: set<LayerId>, onMap: set<LayerId>, labels: seq<LayerId>,
                          start: Layers, before: seq<LayerId>, g: LayerId, ps: seq<Parts>, i: nat) {
    && TreeOK(layers, topLevel, onMap) && LabelsOK(labels, layers)
    && Building(layers, g, ps, i) && g !in topLevel && g !in onMap
    && start <= layers && g == |start| && TreeSince(layers, g, |start|)
    && |layers| == g + 1 + 3 * i && Laid(layers, g)
    && labels == before + GroupLabels(layers, g)
  }

  /** One step of filling a category group: drawZoneOnMap for ps[i] (giving
      l1 and registering its label), then `g.addLayer` of the zone group it
      returns (giving l2). */
  lemma BuildStep(l0: Layers, l1: Layers, l2: Layers, topLevel: set<LayerId>, onMap: set<LayerId>,
                  labels: seq<LayerId>, start: Layers, before: seq<LayerId>, g: LayerId, ps: seq<Parts>, i: nat)
    requires Filling(l0, topLevel, onMap, labels, start, before, g, ps, i) && i < |ps|
    requires ps[i].marker.Marker? && !ps[i].polygon.Group?
    requires l1 == WithZoneGroup(l0, ps[i])
    requires l2 == l1[g := Group(l1[g].members + [|l0| + 2])]
    ensures Filling(l2, topLevel, onMap, labels + [|l0| + 1], start, before, g, ps, i + 1)
  {
    WithZoneGroupFacts(l0, l1, topLevel, onMap, ps[i]);
    TreeOKAddMember(l1, l2, topLevel, onMap, g, |l0| + 2);
    BuildStepMembers(l0, l1, l2, g, ps, i);
    BuildStepLabels(l0, l1, l2, g, ps, i);
    BuildStepSince(l0, l1, l2, g, ps, i, |start|);
    BuildStepLaid(l0, l1, l2, g, ps, i);
    assert start <= l2 by {
      forall k | 0 <= k < |start| ensures l2[k] == start[k] {
        assert l2[k] == l0[k];
      }
    }
  }

  /** The member lists after one filling step: g gains the new zone group,
      every other layer keeps its members. */
  lemma BuildStepMembers(l0: Layers, l1: Layers, l2: Layers, g: LayerId, ps: seq<Parts>, i: nat)
    requires Closed(l0) && Building(l0, g, ps, i) && i < |ps|
    requires l1 == WithZoneGroup(l0, ps[i])
    requires l2 == l1[g := Group(l1[g].members + [|l0| + 2])]
    requires !ps[i].polygon.Group? && !ps[i].marker.Group?
    ensures Building(l2, g, ps, i + 1)
  {
    BuildStepGroup(l0, l1, l2, g, ps, i);
    BuildStepNoMember(l0, l1, l2, g, ps, i);
  }

  /** After one filling step g is the category group of one more entry. */
  lemma BuildStepGroup(l0: Layers, l1: Layers, l2: Layers, g: LayerId, ps: seq<Parts>, i: nat)
    requires Closed(l0) && Building(l0, g, ps, i) && i < |ps|
    requires l1 == WithZoneGroup(l0, ps[i])
    requires l2 == l1[g := Group(l1[g].members + [|l0| + 2])]
    ensures CategoryGroupOf(l2, g, ps[..i + 1])
  {
    var n := |l0|;
    var q := ps[..i + 1];
    assert Members(l2, g) == Members(l0, g) + [n + 2];
    forall j | 0 <= j < i + 1 ensures ZoneGroupOf(l2, Members(l2, g)[j], q[j]) {
      if j < i {
        var zg := Members(l0, g)[j];
        assert ZoneGroupOf(l0, zg, ps[..i][j]);
        assert q[j] == ps[..i][j];
        ZoneGroupKept(l0, l2, g, zg, q[j]);
      } else {
        assert Members(l2, n + 2) == [n, n + 1];
      }
    }
  }

  /** A zone group already in the table keeps its shape when the table grows
      and only g's member list changes. */
  lemma ZoneGroupKept(l0: Layers, l2: Layers, g: LayerId, zg: LayerId, p: Parts)
    requires Closed(l0) && NoMemberIn(l0, {g}) && g < |l0| && |l0| <= |l2|
    requires forall k :: 0 <= k < |l0| && k != g ==> l2[k] == l0[k]
    requires zg in Members(l0, g) && ZoneGroupOf(l0, zg, p)
    ensures ZoneGroupOf(l2, zg, p)
  {
    var j :| 0 <= j < |Members(l0, g)| && Members(l0, g)[j] == zg;
    assert zg < |l0|;
    var m := Members(l0, zg);
    assert m[0] != g && m[1] != g;
  }

  /** After one filling step still no group contains g. */
  lemma BuildStepNoMember(l0: Layers, l1: Layers, l2: Layers, g: LayerId, ps: seq<Parts>, i: nat)
    requires Closed(l0) && Building(l0, g, ps, i) && i < |ps|
    requires l1 == WithZoneGroup(l0, ps[i])
    requires l2 == l1[g := Group(l1[g].members + [|l0| + 2])]
    requires !ps[i].polygon.Group? && !ps[i].marker.Group?
    ensures NoMemberIn(l2, {g})
  {
    var n := |l0|;
    assert Members(l2, g) == Members(l0, g) + [n + 2];
    forall id, j | 0 <= id < |l2| && 0 <= j < |Members(l2, id)| ensures Members(l2, id)[j] != g {
      if id == g {
        if j < |Members(l0, g)| {
          assert Members(l2, id)[j] == Members(l0, g)[j];
        }
      } else if id < n {
        assert Members(l2, id) == Members(l0, id);
      } else if id == n + 2 {
        assert Members(l2, id) == [n, n + 1];
      }
    }
  }

  /** After one filling step the category group is still laid out in
      creation order, now with the new zone group last. */
  lemma BuildStepLaid(l0: Layers, l1: Layers, l2: Layers, g: LayerId, ps: seq<Parts>, i: nat)
    requires g < |l0| && l0[g].Group? && |Members(l0, g)| == i && i < |ps|
    requires Laid(l0, g) && |l0| == g + 1 + 3 * i
    requires l1 == WithZoneGroup(l0, ps[i])
    requires l2 == l1[g := Group(l1[g].members + [|l0| + 2])]
    ensures Laid(l2, g) && |l2| == g + 1 + 3 * (i + 1)
  {
    var m := Members(l0, g);
    var m2 := Members(l2, g);
    assert m2 == m + [|l0| + 2];
    forall j | 0 <= j < |m2|
      ensures m2[j] == g + 3 * j + 3 && Members(l2, g + 3 * j + 3) == [g + 3 * j + 1, g + 3 * j + 2]
    {
      if j < i {
        assert m[j] == g + 3 * j + 3 && Members(l0, m[j]) == [g + 3 * j + 1, g + 3 * j + 2];
        assert l2[m[j]] == l0[m[j]];
      }
    }
  }

  /** After one filling step the category group's tree is still new since base. */
  lemma BuildStepSince(l0: Layers, l1: Layers, l2: Layers, g: LayerId, ps: seq<Parts>, i: nat, base: nat)
    requires Closed(l0) && Building(l0, g, ps, i) && TreeSince(l0, g, base) && base <= |l0| && i < |ps|
    requires l1 == WithZoneGroup(l0, ps[i])
    requires l2 == l1[g := Group(l1[g].members + [|l0| + 2])]
    ensures TreeSince(l2, g, base)
  {
    var n := |l0|;
    assert Members(l2, g) == Members(l0, g) + [n + 2];
    forall j | 0 <= j < |Members(l2, g)|
      ensures base <= Members(l2, g)[j] && MembersSince(l2, Members(l2, g)[j], base)
    {
      if j < |Members(l0, g)| {
        var zg := Members(l0, g)[j];
        assert zg < n && zg != g;
        assert Members(l2, zg) == Members(l0, zg);
        assert MembersSince(l0, zg, base);
      } else {
        assert Members(l2, n + 2) == [n, n + 1];
      }
    }
  }

  /** The labels after one filling step: the new zone group's label is appended. */
  lemma BuildStepLabels(l0: Layers, l1: Layers, l2: Layers, g: LayerId, ps: seq<Parts>, i: nat)
    requires Closed(l0) && Building(l0, g, ps, i) && i < |ps|
    requires l1 == WithZoneGroup(l0, ps[i])
    requires l2 == l1[g := Group(l1[g].members + [|l0| + 2])]
    ensures GroupLabels(l2, g) == GroupLabels(l0, g) + [|l0| + 1]
  {
    var n := |l0|;
    assert Members(l2, g) == Members(l0, g) + [n + 2];
    assert Members(l2, n + 2) == [n, n + 1];
    assert |Members(l0, g)| == |ps[..i]| == i;
    forall j | 0 <= j < i ensures GroupLabels(l2, g)[j] == GroupLabels(l0, g)[j] {
      var zg := Members(l0, g)[j];
      assert zg < n && zg != g;
      assert Members(l2, zg) == Members(l0, zg);
    }
    assert GroupLabels(l2, g)[i] == n + 1;
  }

  /** `group.addTo(map)` for a group no group contains keeps the table's shape. */
  lemma TreeOKAddTop(layers: Layers, topLevel: set<LayerId>, onMap: set<LayerId>, g: LayerId)
    requires TreeOK(layers, topLevel, onMap)
    requires g < |layers| && layers[g].Group? && NoMemberIn(layers, {g})
    ensures TreeOK(layers, topLevel + {g}, onMap + Footprint(layers, g))
  {
    var m := Members(layers, g);
    forall j | 0 <= j < |m| ensures m[j] < |layers| && forall k :: 0 <= k < |Members(layers, m[j])| ==> Members(layers, m[j])[k] < |layers| {
      assert m[j] < |layers|;
    }
  }

  /** A group's footprint holds no category group other than itself. */
  lemma FootprintAvoidsTopLevel(layers: Layers, topLevel: set<LayerId>, onMap: set<LayerId>, g: LayerId, h: LayerId)
    requires TreeOK(layers, topLevel, onMap)
    requires g < |layers| && h in topLevel && h != g
    ensures h !in Footprint(layers, g)
  {
    var m := Members(layers, g);
    forall j | 0 <= j < |m|
      ensures m[j] != h && forall k :: 0 <= k < |Members(layers, m[j])| ==> Members(layers, m[j])[k] != h
    {
      assert m[j] < |layers|;
    }
  }

  /** Showing category c with the fresh group g keeps the drawn-state invariant. */
  lemma DrawnOKShow(zones: map<string, seq<Zone>>, drawn: map<string, LayerId>, layers: Layers,
                    topLevel: set<LayerId>, onMap: set<LayerId>, c: string, g: LayerId)
    requires DrawnOK(zones, drawn, topLevel, onMap) && TreeOK(layers, topLevel, onMap)
    requires c in zones && c !in drawn && g !in topLevel && g < |layers|
    ensures DrawnOK(zones, drawn[c := g], topLevel + {g}, onMap + Footprint(layers, g))
  {
    var drawn2 := drawn[c := g];
    forall h | h in topLevel + {g}
      ensures h in onMap + Footprint(layers, g) <==> h in drawn2.Values
    {
      if h != g {
        FootprintAvoidsTopLevel(layers, topLevel, onMap, g, h);
        if h in drawn.Values {
          var d :| d in drawn && drawn[d] == h;
          assert d != c && drawn2[d] == h;
        }
        if h in drawn2.Values {
          var d :| d in drawn2 && drawn2[d] == h;
          assert d != c && drawn[d] == h;
        }
      } else {
        assert drawn2[c] == g;
      }
    }
  }

  /** Hiding category c (removing its group from the map and forgetting it)
      keeps the drawn-state invariant. */
  lemma DrawnOKHide(zones: map<string, seq<Zone>>, drawn: map<string, LayerId>, layers: Layers,
                    topLevel: set<LayerId>, onMap: set<LayerId>, c: string)
    requires DrawnOK(zones, drawn, topLevel, onMap) && TreeOK(layers, topLevel, onMap)
    requires c in drawn
    ensures DrawnOK(zones, drawn - {c}, topLevel, onMap - Footprint(layers, drawn[c]))
  {
    var g := drawn[c];
    var drawn2 := drawn - {c};
    forall h | h in topLevel
      ensures h in onMap - Footprint(layers, g) <==> h in drawn2.Values
    {
      if h != g {
        FootprintAvoidsTopLevel(layers, topLevel, onMap, g, h);
        if h in drawn.Values {
          var d :| d in drawn && drawn[d] == h;
          assert d != c && drawn2[d] == h;
        }
      }
    }
  }

  /** A fresh, empty group appended to the table keeps its shape and starts
      a category group that no group contains. */
  lemma AppendEmptyGroup(layers: Layers, l2: Layers, topLevel: set<LayerId>, onMap: set<LayerId>,
                         labels: seq<LayerId>, ps: seq<Parts>)
    requires TreeOK(layers, topLevel, onMap) && LabelsOK(labels, layers)
    requires l2 == layers + [Group([])]
    ensures TreeOK(l2, topLevel, onMap) && LabelsOK(labels, l2)
    ensures Building(l2, |layers|, ps, 0) && TreeSince(l2, |layers|, |layers|)
    ensures GroupLabels(l2, |layers|) == [] && |layers| !in onMap && Laid(l2, |layers|)
  {
    forall id, j | 0 <= id < |l2| && 0 <= j < |Members(l2, id)|
      ensures Members(l2, id)[j] < |layers| && Members(l2, id)[j] !in topLevel
    {
      assert Members(l2, id) == Members(layers, id);
    }
    assert ps[..0] == [];
  }

  /** What a set of categories covers, one category at a time. */
  lemma CoveredAdd(layers: Layers, drawn: map<string, LayerId>, cats: set<string>, c: string)
    requires c in drawn
    ensures Covered(layers, drawn, cats + {c}) == Covered(layers, drawn, cats) + Footprint(layers, drawn[c])
  {
    forall x | x in Footprint(layers, drawn[c]) ensures x in Covered(layers, drawn, cats + {c}) {
      assert c in cats + {c};
    }
  }

  /** A category with no drawn group adds nothing. */
  lemma CoveredAbsent(layers: Layers, drawn: map<string, LayerId>, cats: set<string>, c: string)
    requires c !in drawn
    ensures Covered(layers, drawn, cats + {c}) == Covered(layers, drawn, cats)
  {
  }

  /** The categories listed in cs. */
  ghost function Elems(cs: seq<string>): set<string>
    decreases |cs|
  {
    if cs == [] then {} else Elems(cs[..|cs| - 1]) + {cs[|cs| - 1]}
  }

  /** Every entry of cs is among its Elems. */
  lemma {:induction false} ElemsHas(cs: seq<string>, i: nat)
    requires i < |cs|
    ensures cs[i] in Elems(cs)
    decreases |cs|
  {
    if i < |cs| - 1 {
      ElemsHas(cs[..|cs| - 1], i);
    }
  }

  /** What the categories of cs cover, accumulated in list order; the bulk
      operations visit the categories one at a time in this way. */
  ghost function CoveredSeq(layers: Layers, drawn: map<string, LayerId>, cs: seq<string>): set<LayerId>
    decreases |cs|
  {
    if cs == [] then {}
    else
      var c := cs[|cs| - 1];
      CoveredSeq(layers, drawn, cs[..|cs| - 1]) + (if c in drawn then Footprint(layers, drawn[c]) else {})
  }

  /** One more category at the end of the list. */
  lemma CoveredSeqSnoc(layers: Layers, drawn: map<string, LayerId>, cs: seq<string>, c: string)
    ensures CoveredSeq(layers, drawn, cs + [c])
         == CoveredSeq(layers, drawn, cs) + (if c in drawn then Footprint(layers, drawn[c]) else {})
  {
    assert (cs + [c])[..|cs|] == cs;
  }

  lemma ElemsSnoc(cs: seq<string>, c: string)
    ensures Elems(cs + [c]) == Elems(cs) + {c}
  {
    assert (cs + [c])[..|cs|] == cs;
  }

  /** Accumulating in list order gives what the listed categories cover. */
  lemma {:induction false} CoveredSeqIsCovered(layers: Layers, drawn: map<string, LayerId>, cs: seq<string>)
    ensures CoveredSeq(layers, drawn, cs) == Covered(layers, drawn, Elems(cs))
    decreases |cs|
  {
    if cs != [] {
      var init, c := cs[..|cs| - 1], cs[|cs| - 1];
      assert cs == init + [c];
      CoveredSeqIsCovered(layers, drawn, init);
      CoveredSeqSnoc(layers, drawn, init, c);
      ElemsSnoc(init, c);
      if c in drawn {
        CoveredAdd(layers, drawn, Elems(init), c);
      } else {
        CoveredAbsent(layers, drawn, Elems(init), c);
      }
    }
  }

  /** What listed categories cover does not change when the table only gains
      layers and their groups stay the same. */
  lemma {:induction false} CoveredSeqFrame(l0: Layers, l1: Layers, d0: map<string, LayerId>, d1: map<string, LayerId>,
                                           cs: seq<string>)
    requires Closed(l0) && l0 <= l1
    requires forall i :: 0 <= i < |cs| ==> (cs[i] in d0 <==> cs[i] in d1)
    requires forall i :: 0 <= i < |cs| && cs[i] in d0 ==> d1[cs[i]] == d0[cs[i]] < |l0|
    ensures CoveredSeq(l1, d1, cs) == CoveredSeq(l0, d0, cs)
    decreases |cs|
  {
    if cs != [] {
      var c := cs[|cs| - 1];
      CoveredSeqFrame(l0, l1, d0, d1, cs[..|cs| - 1]);
      if c in d0 {
        FootprintExtends(l0, l1, d0[c]);
      }
    }
  }

  /** Showing category c with group g at the end of the list adds exactly
      g's footprint, so a surface holding `base` plus what the listed
      categories cover keeps that form. */
  lemma CoveredSeqShow(l0: Layers, l1: Layers, d0: map<string, LayerId>, d1: map<string, LayerId>,
                       cs: seq<string>, c: string, g: LayerId, base: set<LayerId>, on0: set<LayerId>, on1: set<LayerId>)
    requires Closed(l0) && l0 <= l1 && c !in d0 && d1 == d0[c := g]
    requires Elems(cs) == d0.Keys && forall d :: d in d0 ==> d0[d] < |l0|
    requires on0 == base + CoveredSeq(l0, d0, cs) && on1 == on0 + Footprint(l1, g)
    ensures on1 == base + CoveredSeq(l1, d1, cs + [c])
  {
    ListedAreDrawn(cs, d0, d1, c, g);
    CoveredSeqFrame(l0, l1, d0, d1, cs);
    CoveredSeqSnoc(l1, d1, cs, c);
  }

  /** The listed categories are the drawn ones, before and after showing c. */
  lemma ListedAreDrawn(cs: seq<string>, d0: map<string, LayerId>, d1: map<string, LayerId>, c: string, g: LayerId)
    requires Elems(cs) == d0.Keys && c !in d0 && d1 == d0[c := g]
    ensures forall i :: 0 <= i < |cs| ==> cs[i] in d0 && cs[i] != c
    ensures Elems(cs + [c]) == d1.Keys
  {
    ElemsSnoc(cs, c);
    forall i | 0 <= i < |cs| ensures cs[i] in d0 && cs[i] != c {
      ElemsHas(cs, i);
    }
  }

  /** removeAllZones part way: the categories in done have been hidden,
      in that order, and the others of D are still drawn as they were. */
  ghost predicate HiddenSoFar(layers: Layers, D: map<string, LayerId>, drawn: map<string, LayerId>,
                              done: seq<string>, base: set<LayerId>, onMap: set<LayerId>) {
    && Elems(done) !! drawn.Keys && Elems(done) + drawn.Keys == D.Keys
    && (forall c :: c in drawn ==> drawn[c] == D[c])
    && onMap == base - CoveredSeq(layers, D, done)
  }

  /** Hiding one more category keeps HiddenSoFar. */
  lemma HideStep(layers: Layers, D: map<string, LayerId>, drawn: map<string, LayerId>, done: seq<string>,
                 base: set<LayerId>, on0: set<LayerId>, on1: set<LayerId>, c: string)
    requires HiddenSoFar(layers, D, drawn, done, base, on0)
    requires c in drawn && on1 == on0 - Footprint(layers, drawn[c])
    ensures HiddenSoFar(layers, D, drawn - {c}, done + [c], base, on1)
  {
    CoveredSeqSnoc(layers, D, done, c);
    ElemsSnoc(done, c);
  }

  /** Once nothing is drawn, everything D covered has been taken off. */
  lemma HideEnd(layers: Layers, D: map<string, LayerId>, done: seq<string>, base: set<LayerId>, onMap: set<LayerId>)
    requires HiddenSoFar(layers, D, map[], done, base, onMap)
    ensures onMap == base - Covered(layers, D, D.Keys)
  {
    CoveredSeqIsCovered(layers, D, done);
  }

  /** A category group stays what it is when the table only gains layers. */
  lemma CategoryGroupExtends(l1: Layers, l2: Layers, g: LayerId, ps: seq<Parts>)
    requires Closed(l1) && l1 <= l2 && CategoryGroupOf(l1, g, ps)
    ensures CategoryGroupOf(l2, g, ps)
  {
    var m := Members(l1, g);
    assert Members(l2, g) == m;
    forall i | 0 <= i < |ps| ensures ZoneGroupOf(l2, m[i], ps[i]) {
      assert m[i] < |l1|;
      assert Members(l2, m[i]) == Members(l1, m[i]);
    }
  }

  /** Every drawn category has a group holding that category's zones,
      and the whole tree of that group was created at or after handle base. */
  ghost predicate DrawnSince(zones: map<string, seq<Zone>>, drawn: map<string, LayerId>, layers: Layers, base: nat) {
    forall c :: c in drawn ==>
      && c in zones && TreeSince(layers, drawn[c], base) && Laid(layers, drawn[c])
      && CategoryGroupOf(layers, drawn[c], ZoneParts(zones[c], c))
  }

  /** DrawnSince is kept by showing one more category with a fresh group. */
  lemma DrawnSinceShow(zones: map<string, seq<Zone>>, d0: map<string, LayerId>, d1: map<string, LayerId>,
                       l0: Layers, l1: Layers, base: nat, c: string, g: LayerId)
    requires DrawnSince(zones, d0, l0, base) && Closed(l0) && l0 <= l1 && d1 == d0[c := g]
    requires c in zones && TreeSince(l1, g, base) && Laid(l1, g) && CategoryGroupOf(l1, g, ZoneParts(zones[c], c))
    ensures DrawnSince(zones, d1, l1, base)
  {
    forall d | d in d0 && d != c
      ensures TreeSince(l1, d0[d], base) && Laid(l1, d0[d]) && CategoryGroupOf(l1, d0[d], ZoneParts(zones[d], d))
    {
      TreeSinceExtends(l0, l1, d0[d], base);
      LaidExtends(l0, l1, d0[d]);
      CategoryGroupExtends(l0, l1, d0[d], ZoneParts(zones[d], d));
    }
  }

  /** Every layer that a drawn category puts on the map was created at or
      after handle base. */
  lemma DrawnSinceFresh(zones: map<string, seq<Zone>>, drawn: map<string, LayerId>, layers: Layers, base: nat)
    requires DrawnSince(zones, drawn, layers, base)
    ensures forall c, x :: c in drawn && x in Footprint(layers, drawn[c]) ==> base <= x
  {
    forall c | c in drawn ensures forall x :: x in Footprint(layers, drawn[c]) ==> base <= x {
      FootprintSince(layers, drawn[c], base);
    }
  }

  /** Every label of a drawn category's group was created at or after
      handle base. */
  lemma LabelledSince(zones: map<string, seq<Zone>>, drawn: map<string, LayerId>, layers: Layers, base: nat,
                      cats: set<string>)
    requires DrawnSince(zones, drawn, layers, base)
    ensures forall x :: x in Labelled(layers, drawn, cats) ==> base <= x
  {
    forall x | x in Labelled(layers, drawn, cats) ensures base <= x {
      var c :| c in cats && c in drawn && x in GroupLabels(layers, drawn[c]);
      var g := drawn[c];
      var ms := Members(layers, g);
      var i :| 0 <= i < |ms| && x == GroupLabels(layers, g)[i];
      assert TreeSince(layers, g, base);
      assert MembersSince(layers, ms[i], base);
    }
  }

  /** drawAllZones part way: the categories in shown have been drawn, in
      that order, each with a group created after the table `start`. */
  ghost predicate ShownSoFar(zones: map<string, seq<Zone>>, layers: Layers, start: Layers, todo: set<string>,
                             drawn: map<string, LayerId>, shown: seq<string>, base: set<LayerId>, onMap: set<LayerId>) {
    && todo !! drawn.Keys && todo + drawn.Keys == zones.Keys
    && Elems(shown) == drawn.Keys
    && start <= layers
    && DrawnSince(zones, drawn, layers, |start|)
    && onMap == base + CoveredSeq(layers, drawn, shown)
  }

  /** Drawing one more category with a fresh group keeps ShownSoFar. */
  lemma ShowStep(zones: map<string, seq<Zone>>, l0: Layers, l1: Layers, start: Layers, todo: set<string>,
                 d0: map<string, LayerId>, d1: map<string, LayerId>, shown: seq<string>,
                 base: set<LayerId>, on0: set<LayerId>, on1: set<LayerId>, c: string, g: LayerId)
    requires ShownSoFar(zones, l0, start, todo, d0, shown, base, on0)
    requires Closed(l0) && forall d :: d in d0 ==> d0[d] < |l0|
    requires l0 <= l1 && c in todo && d1 == d0[c := g] && g == |l0|
    requires CategoryGroupOf(l1, g, ZoneParts(zones[c], c)) && TreeSince(l1, g, |l0|) && Laid(l1, g)
    requires on1 == on0 + Footprint(l1, g)
    ensures ShownSoFar(zones, l1, start, todo - {c}, d1, shown + [c], base, on1)
  {
    ShowStepDrawn(zones, l0, l1, start, todo, d0, d1, shown, base, on0, c, g);
    ShowStepCovered(zones, l0, l1, start, todo, d0, d1, shown, base, on0, on1, c, g);
    ElemsSnoc(shown, c);
    PartitionStep(zones.Keys, todo, d0, d1, c, g);
  }

  /** Moving c from the categories to do to the drawn ones keeps the two
      apart and together equal to all categories. */
  lemma PartitionStep(all: set<string>, todo: set<string>, d0: map<string, LayerId>, d1: map<string, LayerId>,
                      c: string, g: LayerId)
    requires todo !! d0.Keys && todo + d0.Keys == all && c in todo && d1 == d0[c := g]
    ensures (todo - {c}) !! d1.Keys && (todo - {c}) + d1.Keys == all
  {
    assert d1.Keys == d0.Keys + {c};
  }

  /** The DrawnSince part of ShowStep. */
  lemma ShowStepDrawn(zones: map<string, seq<Zone>>, l0: Layers, l1: Layers, start: Layers, todo: set<string>,
                      d0: map<string, LayerId>, d1: map<string, LayerId>, shown: seq<string>,
                      base: set<LayerId>, on0: set<LayerId>, c: string, g: LayerId)
    requires ShownSoFar(zones, l0, start, todo, d0, shown, base, on0)
    requires Closed(l0) && l0 <= l1 && c in todo && d1 == d0[c := g] && g == |l0|
    requires CategoryGroupOf(l1, g, ZoneParts(zones[c], c)) && TreeSince(l1, g, |l0|) && Laid(l1, g)
    ensures DrawnSince(zones, d1, l1, |start|)
  {
    TreeSinceLower(l1, g, |start|, |l0|);
    DrawnSinceShow(zones, d0, d1, l0, l1, |start|, c, g);
  }

  /** The rendered part of ShowStep. */
  lemma ShowStepCovered(zones: map<string, seq<Zone>>, l0: Layers, l1: Layers, start: Layers, todo: set<string>,
                        d0: map<string, LayerId>, d1: map<string, LayerId>, shown: seq<string>,
                        base: set<LayerId>, on0: set<LayerId>, on1: set<LayerId>, c: string, g: LayerId)
    requires ShownSoFar(zones, l0, start, todo, d0, shown, base, on0)
    requires Closed(l0) && forall d :: d in d0 ==> d0[d] < |l0|
    requires l0 <= l1 && c in todo && d1 == d0[c := g] && on1 == on0 + Footprint(l1, g)
    ensures on1 == base + CoveredSeq(l1, d1, shown + [c])
  {
    CoveredSeqShow(l0, l1, d0, d1, shown, c, g, base, on0, on1);
  }

  // ----- the labels a bulk draw registers -----

  /** The labels of the groups of the categories in cats. */
  ghost function Labelled(layers: Layers, drawn: map<string, LayerId>, cats: set<string>): set<LayerId> {
    set c, x | c in cats && c in drawn && x in GroupLabels(layers, drawn[c]) :: x
  }

  /** The labels of the groups of the categories of cs, in list order. */
  ghost function LabelsSeq(layers: Layers, drawn: map<string, LayerId>, cs: seq<string>): seq<LayerId>
    decreases |cs|
  {
    if cs == [] then []
    else
      var c := cs[|cs| - 1];
      LabelsSeq(layers, drawn, cs[..|cs| - 1]) + (if c in drawn then GroupLabels(layers, drawn[c]) else [])
  }

  lemma LabelsSeqSnoc(layers: Layers, drawn: map<string, LayerId>, cs: seq<string>, c: string)
    ensures LabelsSeq(layers, drawn, cs + [c])
         == LabelsSeq(layers, drawn, cs) + (if c in drawn then GroupLabels(layers, drawn[c]) else [])
  {
    assert (cs + [c])[..|cs|] == cs;
  }

  /** Listing the labels category by category, in any order, gives exactly
      the labels of all of them. */
  lemma {:induction false} LabelsSeqIsLabelled(layers: Layers, drawn: map<string, LayerId>, cs: seq<string>)
    ensures forall x :: x in LabelsSeq(layers, drawn, cs) <==> x in Labelled(layers, drawn, Elems(cs))
    decreases |cs|
  {
    if cs != [] {
      var init, c := cs[..|cs| - 1], cs[|cs| - 1];
      assert cs == init + [c];
      LabelsSeqIsLabelled(layers, drawn, init);
      LabelsSeqSnoc(layers, drawn, init, c);
      ElemsSnoc(init, c);
      forall x ensures x in LabelsSeq(layers, drawn, cs) <==> x in Labelled(layers, drawn, Elems(cs)) {
        if x in Labelled(layers, drawn, Elems(cs)) {
          var d :| d in Elems(cs) && d in drawn && x in GroupLabels(layers, drawn[d]);
          if d != c {
            assert x in Labelled(layers, drawn, Elems(init));
          }
        }
        if c in drawn && x in GroupLabels(layers, drawn[c]) {
          assert c in Elems(cs);
        }
      }
    }
  }

  /** A group's labels stay the same when the table only gains layers. */
  lemma GroupLabelsExtends(l0: Layers, l1: Layers, g: LayerId)
    requires Closed(l0) && l0 <= l1 && g < |l0|
    ensures GroupLabels(l1, g) == GroupLabels(l0, g)
  {
    var m := Members(l0, g);
    assert Members(l1, g) == m;
    forall j | 0 <= j < |m| ensures LabelIn(l1, m[j]) == LabelIn(l0, m[j]) {
      assert m[j] < |l0|;
      assert Members(l1, m[j]) == Members(l0, m[j]);
    }
  }

  /** The labels of listed categories do not change when the table only
      gains layers and their groups stay the same. */
  lemma {:induction false} LabelsSeqFrame(l0: Layers, l1: Layers, d0: map<string, LayerId>, d1: map<string, LayerId>,
                                          cs: seq<string>)
    requires Closed(l0) && l0 <= l1
    requires forall i :: 0 <= i < |cs| ==> (cs[i] in d0 <==> cs[i] in d1)
    requires forall i :: 0 <= i < |cs| && cs[i] in d0 ==> d1[cs[i]] == d0[cs[i]] < |l0|
    ensures LabelsSeq(l1, d1, cs) == LabelsSeq(l0, d0, cs)
    decreases |cs|
  {
    if cs != [] {
      var c := cs[|cs| - 1];
      LabelsSeqFrame(l0, l1, d0, d1, cs[..|cs| - 1]);
      if c in d0 {
        GroupLabelsExtends(l0, l1, d0[c]);
      }
    }
  }

  /** drawAllZones part way: the registry, `before` when the loop started,
      has gained the labels of the categories in shown, in that order. */
  ghost predicate LabelledSoFar(layers: Layers, drawn: map<string, LayerId>, shown: seq<string>,
                                before: seq<LayerId>, labels: seq<LayerId>) {
    labels == before + LabelsSeq(layers, drawn, shown)
  }

  /** Drawing one more category registers exactly its group's labels. */
  lemma LabelStep(l0: Layers, l1: Layers, d0: map<string, LayerId>, d1: map<string, LayerId>, shown: seq<string>,
                  before: seq<LayerId>, lab0: seq<LayerId>, lab1: seq<LayerId>, c: string, g: LayerId)
    requires LabelledSoFar(l0, d0, shown, before, lab0)
    requires Closed(l0) && l0 <= l1 && Elems(shown) == d0.Keys && forall d :: d in d0 ==> d0[d] < |l0|
    requires c !in d0 && d1 == d0[c := g] && lab1 == lab0 + GroupLabels(l1, g)
    ensures LabelledSoFar(l1, d1, shown + [c], before, lab1)
  {
    ListedLabelsKept(l0, l1, d0, d1, shown, c, g);
    LabelsAppend(l1, d1, shown, before, lab0, lab1, c, g);
  }

  /** Registering the labels of one more listed category. */
  lemma LabelsAppend(layers: Layers, drawn: map<string, LayerId>, shown: seq<string>,
                     before: seq<LayerId>, lab0: seq<LayerId>, lab1: seq<LayerId>, c: string, g: LayerId)
    requires lab0 == before + LabelsSeq(layers, drawn, shown)
    requires c in drawn && drawn[c] == g && lab1 == lab0 + GroupLabels(layers, g)
    ensures lab1 == before + LabelsSeq(layers, drawn, shown + [c])
  {
    LabelsSeqSnoc(layers, drawn, shown, c);
    var earlier, added := LabelsSeq(layers, drawn, shown), GroupLabels(layers, g);
    assert (before + earlier) + added == before + (earlier + added);
  }

  /** Showing c keeps the labels of the categories shown before it. */
  lemma ListedLabelsKept(l0: Layers, l1: Layers, d0: map<string, LayerId>, d1: map<string, LayerId>,
                         shown: seq<string>, c: string, g: LayerId)
    requires Closed(l0) && l0 <= l1 && Elems(shown) == d0.Keys && forall d :: d in d0 ==> d0[d] < |l0|
    requires c !in d0 && d1 == d0[c := g]
    ensures LabelsSeq(l1, d1, shown) == LabelsSeq(l0, d0, shown)
  {
    ListedAreDrawn(shown, d0, d1, c, g);
    LabelsSeqFrame(l0, l1, d0, d1, shown);
  }

  /** Once every category is drawn, the registry has gained exactly the labels
      of all their groups. */
  lemma LabelsEnd(zones: map<string, seq<Zone>>, layers: Layers, drawn: map<string, LayerId>, shown: seq<string>,
                  before: seq<LayerId>, labels: seq<LayerId>)
    requires LabelledSoFar(layers, drawn, shown, before, labels)
    requires Elems(shown) == drawn.Keys && drawn.Keys == zones.Keys
    ensures before <= labels
    ensures forall x :: x in labels[|before|..] <==> x in Labelled(layers, drawn, zones.Keys)
  {
    LabelsSeqIsLabelled(layers, drawn, shown);
    assert labels[|before|..] == LabelsSeq(layers, drawn, shown);
  }

  /** Once every category is drawn, the surface is `base` plus what they all cover. */
  lemma ShowEnd(zones: map<string, seq<Zone>>, layers: Layers, start: Layers,
                drawn: map<string, LayerId>, shown: seq<string>, base: set<LayerId>, onMap: set<LayerId>)
    requires ShownSoFar(zones, layers, start, {}, drawn, shown, base, onMap)
    ensures drawn.Keys == zones.Keys
    ensures onMap == base + Covered(layers, drawn, zones.Keys)
  {
    CoveredSeqIsCovered(layers, drawn, shown);
  }
}
