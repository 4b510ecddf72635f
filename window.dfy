/** The parts of `xdot.py`'s `DotWindow` that are not drawing: the
    transform it sets up from the graph's bounding box, and the search for
    the hyperlink under the mouse. */
module Window {
  import opened Wrappers
  import opened XDot

  /** The transform `DotWindow.parse` sets up for a bounding box with
      corners (xmin, ymin) and (xmax, ymax): the box's top left corner goes
      to the origin and the y axis is turned over, so every point of the
      box lands in the window of the box's width and height. */
  function BoundingTransform(xmin: int, ymin: int, xmax: int, ymax: int): (tr: Transform)
    ensures Apply(tr, xmin, ymax) == (0.0, 0.0)
    ensures Apply(tr, xmax, ymin) == ((xmax - xmin) as real, (ymax - ymin) as real)
    ensures forall x, y :: xmin <= x <= xmax && ymin <= y <= ymax ==>
      (0.0 <= Apply(tr, x, y).0 <= (xmax - xmin) as real &&
       0.0 <= Apply(tr, x, y).1 <= (ymax - ymin) as real)
  {
    Transform(-xmin, -ymax, 1.0, -1.0)
  }

  /** A node's clickable box: its url and two opposite corners. */
  datatype Hyperlink = Hyperlink(url: string, x1: real, y1: real, x2: real, y2: real)

  /** `Hyperlink.hit`: the point lies in the closed box. */
  predicate Hit(link: Hyperlink, x: real, y: real) {
    link.x1 <= x && x <= link.x2 && link.y1 <= y && y <= link.y2
  }

  function Abs(v: real): real {
    if v < 0.0 then -v else v
  }

  /** `Hyperlink.__init__`: the box of width `w` and height `h` centred on
      (x, y); a point hits it exactly when it is at most half the width
      and half the height away from the centre. */
  function MakeHyperlink(url: string, x: real, y: real, w: real, h: real): (link: Hyperlink)
    ensures link.url == url
    ensures forall px, py :: Hit(link, px, py) <==> Abs(px - x) <= w / 2.0 && Abs(py - y) <= h / 2.0
  {
    Hyperlink(url, x - w / 2.0, y - h / 2.0, x + w / 2.0, y + h / 2.0)
  }

  /** The url of the first link in list order that the point hits, if
      any. */
  function FirstHit(links: seq<Hyperlink>, x: real, y: real): (r: Option<string>)
    ensures r.None? <==> forall i :: 0 <= i < |links| ==> !Hit(links[i], x, y)
  {
    if |links| == 0 then None
    else if Hit(links[0], x, y) then Some(links[0].url)
    else FirstHit(links[1..], x, y)
  }

  /** A url found is that of a link the point hits, and no earlier link
      is hit. */
  lemma {:induction false} FirstHitIsFirst(links: seq<Hyperlink>, x: real, y: real)
    requires FirstHit(links, x, y).Some?
    ensures exists i :: (0 <= i < |links| && Hit(links[i], x, y) && links[i].url == FirstHit(links, x, y).value &&
      forall j :: 0 <= j < i ==> !Hit(links[j], x, y))
  {
    if !Hit(links[0], x, y) {
      FirstHitIsFirst(links[1..], x, y);
      var i :| (0 <= i < |links[1..]| && Hit(links[1..][i], x, y) && links[1..][i].url == FirstHit(links[1..], x, y).value &&
        forall j :: 0 <= j < i ==> !Hit(links[1..][j], x, y));
      assert links[i + 1] == links[1..][i];
      assert forall j :: 1 <= j < i + 1 ==> links[j] == links[1..][j - 1];
    }
  }

  /** The window state `get_url` reads. */
  class DotWindow {
    var hyperlinks: seq<Hyperlink>
    var zoomRatio: real
    var height: int

    /** `__init__`: no links yet, unit zoom and height. */
    constructor ()
      ensures hyperlinks == [] && zoomRatio == 1.0 && height == 1
    {
      hyperlinks := [];
      zoomRatio := 1.0;
      height := 1;
    }

    /** `get_url`: the window point is taken back to graph coordinates,
        with the y axis turned over, and the links are searched in order. */
    method GetUrl(x: real, y: real) returns (url: Option<string>)
      requires zoomRatio != 0.0
      ensures url == FirstHit(hyperlinks, x / zoomRatio, height as real - y / zoomRatio)
    {
      var gx := x / zoomRatio;
      var gy := y / zoomRatio;
      gy := height as real - gy;
      var i := 0;
      while i < |hyperlinks|
        invariant 0 <= i <= |hyperlinks|
        invariant FirstHit(hyperlinks[i..], gx, gy) == FirstHit(hyperlinks, gx, gy)
      {
        if Hit(hyperlinks[i], gx, gy) {
          return Some(hyperlinks[i].url);
        }
        assert hyperlinks[i..][1..] == hyperlinks[i + 1..];
        i := i + 1;
      }
      url := None;
    }
  }
}
