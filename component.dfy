/** The base widget: a rectangle with hover tracking and debug-gated logging. */
module Components {
  import opened Outcomes
  import opened Geometry
  import opened Events

  /** The debug messages widgets log. */
  datatype Message =
    | Hovering
    | NoLongerHovering
    | ToggledExpanded(expanded: bool)
    | SelectedItem(text: string)

  /** The message a hover check logs when the hover state goes from `was` to `now`. */
  function HoverNotice(was: bool, now: bool): (m: Option<Message>)
    ensures m.Some? <==> was != now
    ensures m == Some(Hovering) <==> !was && now
    ensures m == Some(NoLongerHovering) <==> was && !now
  {
    if now == was then None
    else if now then Some(Hovering)
    else Some(NoLongerHovering)
  }

  /** What `log` emits for an optional message: nothing unless debugging is on. */
  function Gate(debug: bool, m: Option<Message>): (s: seq<Message>)
    ensures s != [] <==> debug && m.Some?
    ensures s != [] ==> s == [m.value]
  {
    if debug then OptionSeq(m) else []
  }

  /** The hover state after mouse motion to each of `ps` in turn, starting from `was`. */
  function HoverAfter(r: Rect, was: bool, ps: seq<Point>): bool {
    if ps == [] then was else Contains(r, ps[|ps| - 1])
  }

  /** The hover messages a widget with rectangle `r` logs (with debugging on) over mouse
      motion to each of `ps` in turn, starting from hover state `was`. */
  function HoverNotices(r: Rect, was: bool, ps: seq<Point>): (n: seq<Message>)
    ensures |n| <= |ps|
    decreases |ps|
  {
    if ps == [] then []
    else
      var now := Contains(r, ps[0]);
      OptionSeq(HoverNotice(was, now)) + HoverNotices(r, now, ps[1..])
  }

  /** Over any run of mouse motion, hover messages alternate: the first one announces the
      first change away from `was`, no message repeats the one before it, and the last one
      announces the final hover state; when no message is logged, the state never changed. */
  lemma {:induction false} HoverNoticesAlternate(r: Rect, was: bool, ps: seq<Point>)
    ensures var n := HoverNotices(r, was, ps);
      && (forall i :: 0 <= i < |n| ==> n[i] == Hovering || n[i] == NoLongerHovering)
      && (forall i :: 0 <= i < |n| - 1 ==> n[i] != n[i + 1])
      && (n != [] ==> (n[0] == Hovering <==> !was))
      && (n != [] ==> (n[|n| - 1] == Hovering <==> HoverAfter(r, was, ps)))
      && (n == [] ==> HoverAfter(r, was, ps) == was)
    decreases |ps|
  {
    if ps != [] {
      var now := Contains(r, ps[0]);
      var head := OptionSeq(HoverNotice(was, now));
      var tail := HoverNotices(r, now, ps[1..]);
      HoverNoticesAlternate(r, now, ps[1..]);
      assert HoverNotices(r, was, ps) == head + tail;
      assert ps[1..] != [] ==> ps[1..][|ps[1..]| - 1] == ps[|ps| - 1];
    }
  }

  /** A widget of a scene: `component.py`'s `Component`. The owning scene, colour and logger
      handle play no part in the modelled behaviour. */
  class Component {
    const name: string
    const visible: bool
    const debug: bool
    var rect: Rect
    var isHovered: bool
    var wasHovered: bool
    /** The messages `log` has emitted so far. */
    var emitted: seq<Message>

    constructor(name: string, position: Point, width: int, height: int, visible: bool, debug: bool)
      ensures this.name == name && this.visible == visible && this.debug == debug
      ensures rect == Rect(position.x, position.y, width, height)
      ensures !isHovered && !wasHovered && emitted == []
    {
      this.name := name;
      this.visible := visible;
      this.debug := debug;
      rect := Rect(position.x, position.y, width, height);
      isHovered, wasHovered := false, false;
      emitted := [];
    }

    /** `collidepoint`: whether `p` lies inside the component's rectangle. */
    predicate CollidePoint(p: Point)
      reads this
      ensures CollidePoint(p) <==> rect.x <= p.x < rect.x + rect.w && rect.y <= p.y < rect.y + rect.h
    {
      Contains(rect, p)
    }

    /** `log`: emit `m` only when debugging is enabled. */
    method Log(m: Message)
      modifies this`emitted
      ensures emitted == old(emitted) + Gate(debug, Some(m))
    {
      if debug {
        emitted := emitted + [m];
      }
    }

    /** `_check_hover`: recompute the hover state and log a message exactly when it changed. */
    method CheckHover(p: Point)
      modifies this`isHovered, this`wasHovered, this`emitted
      ensures isHovered == Contains(rect, p) && wasHovered == isHovered
      ensures emitted == old(emitted) + Gate(debug, HoverNotice(old(wasHovered), isHovered))
    {
      isHovered := CollidePoint(p);
      if isHovered != wasHovered {
        if isHovered {
          Log(Hovering);
        } else {
          Log(NoLongerHovering);
        }
        wasHovered := isHovered;
      }
    }

    /** `handle_event`: mouse motion updates the hover state; every other event changes nothing. */
    method HandleEvent(e: Event)
      modifies this`isHovered, this`wasHovered, this`emitted
      ensures e.Motion? ==> isHovered == Contains(rect, e.pos) && wasHovered == isHovered
      ensures e.Motion? ==> emitted == old(emitted) + Gate(debug, HoverNotice(old(wasHovered), isHovered))
      ensures !e.Motion? ==> isHovered == old(isHovered) && wasHovered == old(wasHovered) && emitted == old(emitted)
    {
      if e.Motion? {
        CheckHover(e.pos);
      }
    }
  }
}
