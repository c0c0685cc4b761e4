/**
 * The zone overlay builder: the pure part of drawZoneOnMap. A zone record
 * becomes a four-cornered polygon in [lat, lng] order, an `rgb(R, G, B)`
 * colour string shared by stroke and fill, and a label marker at the centre
 * of the bounding box whose HTML carries the category id and the zone name.
 *
 * Coordinates are reals; the custom projection is applied by the mapping
 * library, so the corners here are the raw bounding-box values.
 */
module ZoneOverlay {
  import opened Text

  /** A point as the dataset stores it, `[x, y]`. */
  datatype Point = Point(x: real, y: real)

  /** One zone record: a name, its bounding box and its colour channels. */
  datatype Zone = Zone(name: string, bbmin: Point, bbmax: Point, r: nat, g: nat, b: nat)

  /** A map position in the library's `[lat, lng]` order. */
  datatype LatLng = LatLng(lat: real, lng: real)

  /** Handle of a layer created on the map library. */
  type LayerId = nat

  /** The layers the core creates: polygons, label markers and layer groups. */
  datatype Layer =
    | Polygon(corners: seq<LatLng>, color: string, fillColor: string, fillOpacity: real)
    | Marker(position: LatLng, html: string)
    | Group(members: seq<LayerId>)

  datatype Rgb = Rgb(r: nat, g: nat, b: nat)

  const FillOpacity: real := 0.5

  /** The polygon corners: y is the latitude and x the longitude, walked
      min-min, min-max, max-max, max-min. */
  function Corners(z: Zone): seq<LatLng> {
    [ LatLng(z.bbmin.y, z.bbmin.x),
      LatLng(z.bbmin.y, z.bbmax.x),
      LatLng(z.bbmax.y, z.bbmax.x),
      LatLng(z.bbmax.y, z.bbmin.x) ]
  }

  /** Where the label goes: the midpoint of the bounding box. */
  function Center(z: Zone): LatLng {
    LatLng((z.bbmin.y + z.bbmax.y) / 2.0, (z.bbmin.x + z.bbmax.x) / 2.0)
  }

  /** The CSS colour `rgb(R, G, B)` built by the template literal. */
  function RgbCss(c: Rgb): string {
    "rgb(" + Decimal(c.r) + ", " + Decimal(c.g) + ", " + Decimal(c.b) + ")"
  }

  function ZoneColor(z: Zone): string {
    RgbCss(Rgb(z.r, z.g, z.b))
  }

  /** The label's HTML: the category id, a line break, then the zone name. */
  function LabelHtml(category: string, name: string): string {
    "<div>" + category + "<br>" + name + "</div>"
  }

  /** The polygon drawZoneOnMap creates for a zone. */
  function ZonePolygon(z: Zone): Layer {
    Polygon(Corners(z), ZoneColor(z), ZoneColor(z), FillOpacity)
  }

  /** The label marker drawZoneOnMap creates for a zone of a category. */
  function ZoneLabel(z: Zone, category: string): Layer {
    Marker(Center(z), LabelHtml(category, z.name))
  }

  // ----- reading the rendered strings back -----

  /** Reads `<digits>, ` off the front of s, giving the number and the rest. */
  function ParseChannel(s: string): Option<(nat, string)> {
    var i := IndexOf(s, ',');
    if 0 < i && i + 1 < |s| && s[i + 1] == ' ' && IsDigits(s[..i])
    then Some((ParseDigits(s[..i]), s[i + 2..]))
    else None
  }

  /** Reads a colour written as `rgb(R, G, B)`. */
  function ParseRgb(s: string): Option<Rgb> {
    if |s| < 5 || s[..4] != "rgb(" || s[|s| - 1] != ')' then None
    else
      match ParseChannel(s[4..|s| - 1])
      case None => None
      case Some((r, rest)) =>
        match ParseChannel(rest)
        case None => None
        case Some((g, last)) =>
          if last != [] && IsDigits(last) then Some(Rgb(r, g, ParseDigits(last))) else None
  }

  /** Reads a label written as `<div>CATEGORY<br>NAME</div>`, splitting at the first `<`. */
  function ParseLabel(s: string): Option<(string, string)> {
    if |s| < 15 || s[..5] != "<div>" || s[|s| - 6..] != "</div>" then None
    else
      var body := s[5..|s| - 6];
      var i := IndexOf(body, '<');
      if i + 4 <= |body| && body[i..i + 4] == "<br>" then Some((body[..i], body[i + 4..])) else None
  }

  lemma ParseChannelDecimal(n: nat, rest: string)
    ensures ParseChannel(Decimal(n) + ", " + rest) == Some((n, rest))
  {
    var d := Decimal(n);
    var s := d + ", " + rest;
    assert s == d + [','] + ([' '] + rest);
    IndexOfAfter(d, ',', [' '] + rest);
    assert s[..|d|] == d;
    assert s[|d| + 2..] == rest;
    ParseDecimal(n);
  }

  /** The colour string reads back as the channels it was built from. */
  lemma {:induction false} RgbRoundTrip(c: Rgb)
    ensures ParseRgb(RgbCss(c)) == Some(c)
  {
    var s := RgbCss(c);
    var body := Decimal(c.r) + ", " + (Decimal(c.g) + ", " + Decimal(c.b));
    assert s == "rgb(" + body + ")";
    assert s[..4] == "rgb(";
    assert s[4..|s| - 1] == body;
    ParseChannelDecimal(c.r, Decimal(c.g) + ", " + Decimal(c.b));
    ParseChannelDecimal(c.g, Decimal(c.b));
    ParseDecimal(c.b);
  }

  /** Different colours give different colour strings. */
  lemma RgbCssInjective(c: Rgb, d: Rgb)
    requires RgbCss(c) == RgbCss(d)
    ensures c == d
  {
    RgbRoundTrip(c);
    RgbRoundTrip(d);
  }

  /** The label text reads back as the category id and the zone name, as long
      as the category id holds no `<`. With one, the text can be ambiguous:
      category `a<br>b` with zone `c` and category `a` with zone `b<br>c`
      give the same label. */
  lemma {:induction false} LabelRoundTrip(category: string, name: string)
    requires forall j :: 0 <= j < |category| ==> category[j] != '<'
    ensures ParseLabel(LabelHtml(category, name)) == Some((category, name))
  {
    var s := LabelHtml(category, name);
    var body := category + "<br>" + name;
    assert s == "<div>" + body + "</div>";
    assert s[..5] == "<div>";
    assert s[|s| - 6..] == "</div>";
    assert s[5..|s| - 6] == body;
    assert body == category + ['<'] + ("br>" + name);
    IndexOfAfter(category, '<', "br>" + name);
    assert body[..|category|] == category;
    assert body[|category|..|category| + 4] == "<br>";
    assert body[|category| + 4..] == name;
  }

  /** Twice the signed area of a closed polygon (shoelace formula), with lng
      as the horizontal axis and lat as the vertical one. */
  function TwiceSignedArea(cs: seq<LatLng>): real {
    if |cs| < 3 then 0.0
    else ShoelaceSum(cs, 0)
  }

  function ShoelaceSum(cs: seq<LatLng>, i: nat): real
    requires i <= |cs| && |cs| > 0
    decreases |cs| - i
  {
    if i == |cs| then 0.0
    else
      var p := cs[i];
      var q := cs[(i + 1) % |cs|];
      p.lng * q.lat - q.lng * p.lat + ShoelaceSum(cs, i + 1)
  }

  /** The polygon covers exactly the bounding box: its signed area is the
      box's width times its height. A well-formed box gives a positive
      (counter-clockwise) polygon; a box with min > max on one axis gives a
      negative area, and one with min == max a degenerate polygon. */
  lemma PolygonAreaIsBoxArea(z: Zone)
    ensures TwiceSignedArea(Corners(z)) == 2.0 * (z.bbmax.x - z.bbmin.x) * (z.bbmax.y - z.bbmin.y)
  {
    var cs := Corners(z);
    var x0, x1, y0, y1 := z.bbmin.x, z.bbmax.x, z.bbmin.y, z.bbmax.y;
    assert ShoelaceSum(cs, 3) == x0 * y0 - x0 * y1;
    assert ShoelaceSum(cs, 2) == x1 * y1 - x0 * y1 + ShoelaceSum(cs, 3);
    assert ShoelaceSum(cs, 1) == x1 * y1 - x1 * y0 + ShoelaceSum(cs, 2);
    assert ShoelaceSum(cs, 0) == x0 * y0 - x1 * y0 + ShoelaceSum(cs, 1);
  }

  /** The label sits at the centroid of the polygon: the mean of its four corners. */
  lemma CenterIsCornerMean(z: Zone)
    ensures var cs := Corners(z);
      && 4.0 * Center(z).lat == cs[0].lat + cs[1].lat + cs[2].lat + cs[3].lat
      && 4.0 * Center(z).lng == cs[0].lng + cs[1].lng + cs[2].lng + cs[3].lng
  {
  }

  /** For a well-formed box the label lies inside the polygon. */
  lemma CenterInsideBox(z: Zone)
    requires z.bbmin.x <= z.bbmax.x && z.bbmin.y <= z.bbmax.y
    ensures z.bbmin.y <= Center(z).lat <= z.bbmax.y
    ensures z.bbmin.x <= Center(z).lng <= z.bbmax.x
  {
  }

  /** Stroke and fill are the zone's own colour, and the colour string
      determines the zone's channels. */
  lemma PolygonColorIsZoneColor(z: Zone, w: Zone)
    requires ZonePolygon(z).fillColor == ZonePolygon(w).color
    ensures ZonePolygon(z).color == ZonePolygon(z).fillColor
    ensures z.r == w.r && z.g == w.g && z.b == w.b
  {
    RgbCssInjective(Rgb(z.r, z.g, z.b), Rgb(w.r, w.g, w.b));
  }
}
