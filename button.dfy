/** The standalone clickable button of `button.py`. */
module Buttons {
  import opened Outcomes
  import opened Geometry
  import opened Events

  /** A button's response to one event: its new hover flag, whether its action runs, and the
      system cursor it requests. */
  datatype Reaction = Reaction(hovered: bool, fires: bool, cursor: Option<Cursor>)

  /** How a button with rectangle `rect` and hover flag `hovered` reacts to `e`. The cursor is
      chosen from the flag as it was before the event; a press of any mouse button fires the
      action when the flag is set, wherever the press lands. */
  function React(rect: Rect, hovered: bool, e: Event): (r: Reaction)
    ensures r.fires <==> e.Down? && hovered
    ensures e.Motion? ==> r.hovered == Contains(rect, e.pos) && r.cursor == Some(if hovered then Hand else Arrow)
    ensures !e.Motion? ==> r.hovered == hovered && r.cursor == None
  {
    match e
    case Motion(pos) => Reaction(Contains(rect, pos), false, Some(if hovered then Hand else Arrow))
    case Down(_, _) => Reaction(hovered, hovered, None)
    case _ => Reaction(hovered, false, None)
  }

  /** The hover flag after the button has handled each of `es` in turn. */
  function HoveredAfter(rect: Rect, hovered: bool, es: seq<Event>): (h: bool)
    ensures (forall i :: 0 <= i < |es| ==> !es[i].Motion?) ==> h == hovered
    decreases |es|
  {
    if es == [] then hovered else HoveredAfter(rect, React(rect, hovered, es[0]).hovered, es[1..])
  }

  /** Whether the action runs on event `es[i]`, after the events before it were handled. */
  predicate FiresAt(rect: Rect, hovered: bool, es: seq<Event>, i: nat)
    requires i < |es|
  {
    React(rect, HoveredAfter(rect, hovered, es[..i]), es[i]).fires
  }

  /** Whether the most recent motion event in `es` ended inside `rect`; `hovered` when `es`
      holds no motion event. */
  predicate LastMotionInside(rect: Rect, hovered: bool, es: seq<Event>)
    decreases |es|
  {
    if es == [] then hovered
    else if es[|es| - 1].Motion? then Contains(rect, es[|es| - 1].pos)
    else LastMotionInside(rect, hovered, es[..|es| - 1])
  }

  lemma {:induction false} HoveredAfterSnoc(rect: Rect, hovered: bool, es: seq<Event>, e: Event)
    ensures HoveredAfter(rect, hovered, es + [e]) == React(rect, HoveredAfter(rect, hovered, es), e).hovered
    decreases |es|
  {
    if es != [] {
      assert (es + [e])[1..] == es[1..] + [e];
      HoveredAfterSnoc(rect, React(rect, hovered, es[0]).hovered, es[1..], e);
    }
  }

  /** The hover flag is decided by the last motion event alone. */
  lemma {:induction false} HoveredIsLastMotion(rect: Rect, hovered: bool, es: seq<Event>)
    ensures HoveredAfter(rect, hovered, es) == LastMotionInside(rect, hovered, es)
    decreases |es|
  {
    if es != [] {
      var init := es[..|es| - 1];
      assert es == init + [es[|es| - 1]];
      HoveredAfterSnoc(rect, hovered, init, es[|es| - 1]);
      HoveredIsLastMotion(rect, hovered, init);
    }
  }

  /** A button's action runs on an event exactly when that event is a mouse press and the
      latest mouse motion before it ended inside the button, whatever the press position. */
  lemma FiresIffLastMotionInside(rect: Rect, hovered: bool, es: seq<Event>, i: nat)
    requires i < |es|
    ensures FiresAt(rect, hovered, es, i) <==> es[i].Down? && LastMotionInside(rect, hovered, es[..i])
  {
    HoveredIsLastMotion(rect, hovered, es[..i]);
  }

  /** A press outside the button still fires it when the mouse last moved inside it. */
  lemma PressOutsideFires(rect: Rect, inside: Point, outside: Point)
    requires Contains(rect, inside) && !Contains(rect, outside)
    ensures FiresAt(rect, false, [Motion(inside), Down(LeftButton, outside)], 1)
  {
    assert [Motion(inside), Down(LeftButton, outside)][..1] == [Motion(inside)];
  }

  /** A press inside the button does not fire it before any motion event has set the flag. */
  lemma PressInsideWithoutMotionMisses(rect: Rect, inside: Point)
    requires Contains(rect, inside)
    ensures !FiresAt(rect, false, [Down(LeftButton, inside)], 0)
  {
    assert [Down(LeftButton, inside)][..0] == [];
  }

  /** `Button`: a rectangle with a text, a normal and a hover colour and an action. The action
      is a recorded command; `invoked` lists every time it ran. */
  class Button {
    const rect: Rect
    var text: string
    const fontSize: int
    const color: Colour
    const hoverColor: Colour
    const action: Command
    var hovered: bool
    /** The commands the action issued, one per invocation. */
    var invoked: seq<Command>
    /** The system cursors requested, one per motion event. */
    var cursorRequests: seq<Cursor>

    constructor(x: int, y: int, width: int, height: int, text: string, fontSize: int,
                color: Colour, hoverColor: Colour, action: Command)
      ensures rect == Rect(x, y, width, height) && this.text == text && this.fontSize == fontSize
      ensures this.color == color && this.hoverColor == hoverColor && this.action == action
      ensures !hovered && invoked == [] && cursorRequests == []
    {
      rect := Rect(x, y, width, height);
      this.text := text;
      this.fontSize := fontSize;
      this.color := color;
      this.hoverColor := hoverColor;
      this.action := action;
      hovered := false;
      invoked, cursorRequests := [], [];
    }

    /** The fill colour `draw` uses: the hover colour exactly while hovered. */
    function FillColor(): (c: Colour)
      reads this
      ensures hovered ==> c == hoverColor
      ensures !hovered ==> c == color
    {
      if hovered then hoverColor else color
    }

    /** `handle_event`. */
    method HandleEvent(e: Event)
      modifies this`hovered, this`invoked, this`cursorRequests
      ensures var r := React(rect, old(hovered), e);
        && hovered == r.hovered
        && invoked == old(invoked) + (if r.fires then [action] else [])
        && cursorRequests == old(cursorRequests) + OptionSeq(r.cursor)
    {
      match e
      case Motion(pos) =>
        cursorRequests := cursorRequests + [if hovered then Hand else Arrow];
        hovered := Contains(rect, pos);
      case Down(_, _) =>
        if hovered {
          invoked := invoked + [action];
        }
      case _ =>
    }
  }
}
