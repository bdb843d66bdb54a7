/**
 * Radar animation frames: which RainViewer entries become frames, the tile
 * URL of each, one rendered frame per URL, and where the location marker is
 * pasted on the map.
 */
module Radar {
  import opened Text

  /** Zoom level and edge length (pixels) of the rendered map and tiles. */
  const Zoom: nat := 8
  const Size: nat := 512
  /** Tile colour scheme and options of the radar overlay. */
  const Color: nat := 2
  const Options: string := "1_1"
  /** The marker image is resized to this width and height. */
  const MarkerWidth: nat := 23
  const MarkerHeight: nat := 34

  /** One entry of the `radar.past` or `radar.nowcast` lists. */
  datatype RadarElement = RadarElement(time: int, path: string)

  /** The parts of the weather-maps document the bot reads. */
  datatype WeatherMaps = WeatherMaps(host: string, past: seq<RadarElement>, nowcast: seq<RadarElement>)

  /** A frame to fetch: the tile URL and the entry's timestamp. */
  datatype Frame = Frame(url: string, time: int)

  /** A rendered frame: the map with the fetched overlay, the time label and the marker. */
  datatype Picture<O> = Picture(overlay: O, time: int, marker: (int, int))

  function Min(a: int, b: int): int
  {
    if a <= b then a else b
  }

  /** Python's `s[-3:]`: the last three items, or all of them when there are fewer. */
  function LastThree<T>(s: seq<T>): (r: seq<T>)
    ensures |r| == Min(3, |s|)
    ensures forall k :: 0 <= k < |r| ==> r[k] == s[|s| - |r| + k]
  {
    if |s| <= 3 then s else s[|s| - 3..]
  }

  /** The entries that become frames: the recent past, then the whole nowcast. */
  function Selected(m: WeatherMaps): seq<RadarElement>
  {
    LastThree(m.past) + m.nowcast
  }

  /**
   * The selection has min(3, |past|) + |nowcast| entries: the last past
   * entries in their order, followed by every nowcast entry in its order.
   */
  lemma SelectedShape(m: WeatherMaps)
    ensures var s := Selected(m);
            var n := Min(3, |m.past|);
            && |s| == n + |m.nowcast|
            && (forall k :: 0 <= k < n ==> s[k] == m.past[|m.past| - n + k])
            && (forall k :: n <= k < |s| ==> s[k] == m.nowcast[k - n])
  {
  }

  /** The tile URL of one entry; `lat` and `lon` are the coordinates as Python prints them. */
  function FrameUrl(host: string, path: string, lat: string, lon: string): string
  {
    host + path + TileSuffix(lat, lon)
  }

  /** What follows the entry's path: size, zoom, place, colour and options. */
  function TileSuffix(lat: string, lon: string): string
  {
    "/" + NatToString(Size) + "/" + NatToString(Zoom) + "/" + lat + "/" + lon
      + "/" + NatToString(Color) + "/" + Options + ".png"
  }

  /** The constants spelled out: size 512, zoom 8, colour 2, options 1_1. */
  lemma FrameUrlLiteral(host: string, path: string, lat: string, lon: string)
    ensures FrameUrl(host, path, lat, lon) == host + path + "/512/8/" + lat + "/" + lon + "/2/1_1.png"
  {
    assert NatToString(512) == NatToString(51) + ['2'];
    assert NatToString(51) == NatToString(5) + ['1'];
  }

  /** For a fixed host and place, different entry paths give different URLs. */
  lemma FrameUrlDeterminesPath(host: string, p1: string, p2: string, lat: string, lon: string)
    requires FrameUrl(host, p1, lat, lon) == FrameUrl(host, p2, lat, lon)
    ensures p1 == p2
  {
    CancelAround(host, p1, p2, TileSuffix(lat, lon));
  }

  lemma CancelAround(a: string, p1: string, p2: string, t: string)
    requires a + p1 + t == a + p2 + t
    ensures p1 == p2
  {
    var u := a + p1 + t;
    assert |p1| == |p2|;
    assert p1 == u[|a|..|a| + |p1|];
  }

  /** `getRainViewerUrls`: one (url, time) pair per selected entry, in order. */
  function RainViewerUrls(m: WeatherMaps, lat: string, lon: string): (frames: seq<Frame>)
    ensures |frames| == Min(3, |m.past|) + |m.nowcast|
    ensures forall k :: 0 <= k < |frames| ==>
              frames[k].time == Selected(m)[k].time
              && frames[k].url == FrameUrl(m.host, Selected(m)[k].path, lat, lon)
  {
    var s := Selected(m);
    seq(|s|, k requires 0 <= k < |s| => Frame(FrameUrl(m.host, s[k].path, lat, lon), s[k].time))
  }

  /** Python's `int(x)` on a float: truncation toward zero. */
  function Trunc(x: real): (n: int)
    ensures x >= 0.0 ==> n as real <= x < n as real + 1.0
    ensures x < 0.0 ==> n as real - 1.0 < x <= n as real
  {
    if x >= 0.0 then x.Floor else -((-x).Floor)
  }

  /** `addMarkerToImage`: the marker's top-left corner, centred horizontally, bottom edge at mid-height. */
  function MarkerOffset(w: nat, h: nat): (int, int)
  {
    (Trunc(w as real / 2.0 - MarkerWidth as real / 2.0), Trunc(h as real / 2.0 - MarkerHeight as real))
  }

  /** On the 512x512 map the marker goes to (244, 222). */
  lemma MarkerOnMap()
    ensures MarkerOffset(Size, Size) == (244, 222)
  {
    assert 512.0 / 2.0 - 23.0 / 2.0 == 244.5;
    assert 512.0 / 2.0 - 34.0 == 222.0;
  }

  /** On an even-height map the marker's bottom edge is the centre line. */
  lemma MarkerBottomAtCentre(w: nat, h: nat)
    requires h % 2 == 0
    ensures MarkerOffset(w, h).1 + MarkerHeight == h / 2
  {
    assert h as real / 2.0 == (h / 2) as real;
  }

  /**
   * `createRadarAnimation`'s frame loop: for every frame, in order, paste the
   * fetched overlay onto the map, label it with the frame's time and add the
   * marker; `count` is the loop counter `i`.
   */
  method CreateRadarAnimation<O>(frames: seq<Frame>, fetch: string -> O) returns (pictures: seq<Picture<O>>, count: nat)
    ensures count == |pictures| == |frames|
    ensures forall k :: 0 <= k < |frames| ==>
              pictures[k] == Picture(fetch(frames[k].url), frames[k].time, MarkerOffset(Size, Size))
  {
    pictures := [];
    count := 0;
    for j := 0 to |frames|
      invariant count == |pictures| == j
      invariant forall k :: 0 <= k < j ==>
                  pictures[k] == Picture(fetch(frames[k].url), frames[k].time, MarkerOffset(Size, Size))
    {
      var overlay := fetch(frames[j].url);
      pictures := pictures + [Picture(overlay, frames[j].time, MarkerOffset(Size, Size))];
      count := count + 1;
    }
  }
}
