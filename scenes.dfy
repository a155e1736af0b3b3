/** What the concrete scenes share: the centred, vertically stacked layout, the scene-owned
    buttons, and the part of the controller the scenes reach through `self.controller`. */
module Scenes {
  import opened Outcomes
  import opened Arith
  import opened Geometry
  import opened Events
  import opened Buttons

  /** `DisplayConfig.WIDTH`. */
  const Width := 800
  /** The vertical gap between stacked widgets. */
  const Gap := 10
  /** The size every `add_button` gives its button. */
  const ButtonWidth := 200
  const ButtonHeight := 50

  /** `calculate_btn_position` (and `calculate_element_position`): the widget is centred across
      the display, with the odd pixel on the right, and the `index`-th slot lies `index` widget
      heights plus gaps below `offsetY`. */
  function StackedPosition(w: int, h: int, index: int, offsetY: int): (p: Point)
    ensures Width - w - 1 <= 2 * p.x <= Width - w
    ensures p.y - offsetY == index * (h + Gap)
  {
    Point((Width - w) / 2, offsetY + index * (h + Gap))
  }

  /** The rectangle of a `w` by `h` widget in slot `index`. */
  function StackedRect(w: int, h: int, index: int, offsetY: int): (r: Rect)
    ensures r.w == w && r.h == h && Point(r.x, r.y) == StackedPosition(w, h, index, offsetY)
    ensures 0 <= (800 - r.x - r.w) - r.x <= 1
  {
    var p := StackedPosition(w, h, index, offsetY);
    Rect(p.x, p.y, w, h)
  }

  /** A later slot starts at least one widget height plus the gap below an earlier one. */
  lemma {:induction false} StackedApart(w: int, h: int, i: int, j: int, offsetY: int)
    requires h >= 0 && i < j
    ensures StackedPosition(w, h, i, offsetY).y + h + Gap <= StackedPosition(w, h, j, offsetY).y
  {
    MulLe(1, j - i, h + Gap);
    assert (j - i) * (h + Gap) == j * (h + Gap) - i * (h + Gap);
  }

  /** Widgets in different slots never overlap: no point lies in both. */
  lemma {:induction false} StackedDisjoint(w: int, h: int, i: int, j: int, offsetY: int, p: Point)
    requires h >= 0 && i != j
    ensures !(Contains(StackedRect(w, h, i, offsetY), p) && Contains(StackedRect(w, h, j, offsetY), p))
  {
    if i < j {
      StackedApart(w, h, i, j, offsetY);
    } else {
      StackedApart(w, h, j, i, offsetY);
    }
  }

  /** A button a scene owns: its name, label, the command its action issues, its rectangle and
      its hover flag. */
  datatype SceneButton = SceneButton(name: string, text: string, action: Command, rect: Rect, hovered: bool)

  /** The button `add_button` appends: 200 by 50, in slot `index` below `offsetY`, not hovered. */
  function StackedButton(name: string, text: string, action: Command, index: int, offsetY: int): (b: SceneButton)
    ensures b.name == name && b.text == text && b.action == action && !b.hovered
    ensures b.rect.w == ButtonWidth && b.rect.h == ButtonHeight
    ensures Point(b.rect.x, b.rect.y) == StackedPosition(ButtonWidth, ButtonHeight, index, offsetY)
  {
    SceneButton(name, text, action, StackedRect(ButtonWidth, ButtonHeight, index, offsetY), false)
  }

  /** A button after it has handled `e`, as `Button.handle_event` treats it. */
  function Step(b: SceneButton, e: Event): (s: SceneButton)
    ensures s == b.(hovered := s.hovered)
    ensures e.Motion? ==> s.hovered == Contains(b.rect, e.pos)
    ensures !e.Motion? ==> s == b
  {
    b.(hovered := React(b.rect, b.hovered, e).hovered)
  }

  /** The command `b`'s action issues on `e`, if it runs. */
  function Fired(b: SceneButton, e: Event): (cs: seq<Command>)
    ensures |cs| <= 1
    ensures cs != [] <==> e.Down? && b.hovered
    ensures cs != [] ==> cs[0] == b.action
  {
    if React(b.rect, b.hovered, e).fires then [b.action] else []
  }

  /** Every button after handling `e`. */
  function FeedAll(bs: seq<SceneButton>, e: Event): (r: seq<SceneButton>)
    ensures |r| == |bs|
    ensures forall i :: 0 <= i < |bs| ==> r[i] == Step(bs[i], e)
  {
    seq(|bs|, i requires 0 <= i < |bs| => Step(bs[i], e))
  }

  /** The commands the buttons issue on `e`, in list order. */
  function FiredBy(bs: seq<SceneButton>, e: Event): (cs: seq<Command>)
    ensures |cs| <= |bs|
    decreases |bs|
  {
    if |bs| == 0 then [] else FiredBy(bs[..|bs| - 1], e) + Fired(bs[|bs| - 1], e)
  }

  /** A command is issued on `e` exactly when `e` is a press and some hovered button has it as
      its action; a non-press issues nothing. */
  lemma {:induction false} FiredByHovered(bs: seq<SceneButton>, e: Event, c: Command)
    ensures c in FiredBy(bs, e) <==> e.Down? && exists i :: 0 <= i < |bs| && bs[i].hovered && bs[i].action == c
    ensures !e.Down? ==> FiredBy(bs, e) == []
    decreases |bs|
  {
    if bs != [] {
      var init := bs[..|bs| - 1];
      FiredByHovered(init, e, c);
      assert forall i :: 0 <= i < |init| ==> init[i] == bs[i];
      if e.Down? && exists i :: 0 <= i < |bs| && bs[i].hovered && bs[i].action == c {
        var i :| 0 <= i < |bs| && bs[i].hovered && bs[i].action == c;
        if i < |init| {
          assert init[i].hovered && init[i].action == c;
        }
      }
    }
  }

  /** Whether `b`'s action runs on `e` and asks the controller to change scene. A scene gets
      events only as the controller's current scene, so the change exits this very scene: its
      `on_exit` empties the list being iterated, and the loop over it stops there. */
  predicate ExitsOn(b: SceneButton, e: Event)
    ensures ExitsOn(b, e) <==> e.Down? && b.hovered && b.action.ChangeScene?
  {
    React(b.rect, b.hovered, e).fires && b.action.ChangeScene?
  }

  /** The first button whose action changes scene on `e`, if any. */
  function FirstExit(bs: seq<SceneButton>, e: Event): (r: Option<nat>)
    ensures r.Some? ==> r.value < |bs| && ExitsOn(bs[r.value], e)
    ensures r.Some? ==> forall j :: 0 <= j < r.value ==> !ExitsOn(bs[j], e)
    ensures r.None? ==> forall j :: 0 <= j < |bs| ==> !ExitsOn(bs[j], e)
    decreases |bs|
  {
    if |bs| == 0 then None
    else if ExitsOn(bs[0], e) then Some(0)
    else
      match FirstExit(bs[1..], e)
      case None => None
      case Some(i) => Some(i + 1)
  }

  /** How many buttons handle `e`: all of them, or those up to and including the first whose
      action changes scene. */
  function Reached(bs: seq<SceneButton>, e: Event): (n: nat)
    ensures n <= |bs|
    ensures FirstExit(bs, e).None? <==> n == |bs| && forall j :: 0 <= j < |bs| ==> !ExitsOn(bs[j], e)
  {
    match FirstExit(bs, e)
    case None => |bs|
    case Some(i) => i + 1
  }

  /** Buttons whose actions do not change scene issue no scene change. */
  lemma {:induction false} FiredByNoExit(bs: seq<SceneButton>, e: Event)
    requires forall j :: 0 <= j < |bs| ==> !ExitsOn(bs[j], e)
    ensures forall c :: c in FiredBy(bs, e) ==> !c.ChangeScene?
    decreases |bs|
  {
    if |bs| > 0 {
      FiredByNoExit(bs[..|bs| - 1], e);
    }
  }

  /** One event makes a scene's buttons request at most one scene change, and it is the last
      command they issue: the action of the first button that changes scene. */
  lemma {:induction false} AtMostOneSceneChange(bs: seq<SceneButton>, e: Event)
    ensures var cs := FiredBy(bs[..Reached(bs, e)], e);
      && (forall k :: 0 <= k < |cs| - 1 ==> !cs[k].ChangeScene?)
      && (FirstExit(bs, e).Some? <==> |cs| > 0 && cs[|cs| - 1].ChangeScene?)
      && (FirstExit(bs, e).Some? ==> cs[|cs| - 1] == bs[FirstExit(bs, e).value].action)
  {
    var x := FirstExit(bs, e);
    if x.Some? {
      var i := x.value;
      assert bs[..i + 1][..i] == bs[..i];
      FiredByNoExit(bs[..i], e);
      var cs := FiredBy(bs[..i + 1], e);
      assert cs == FiredBy(bs[..i], e) + [bs[i].action];
      assert forall k :: 0 <= k < |cs| - 1 ==> cs[k] in FiredBy(bs[..i], e);
    } else {
      assert bs[..|bs|] == bs;
      FiredByNoExit(bs, e);
      var cs := FiredBy(bs, e);
      assert forall k :: 0 <= k < |cs| ==> cs[k] in cs;
    }
  }

  /** `FirstExit` is determined by where the first exiting button sits. */
  lemma FirstExitIs(bs: seq<SceneButton>, e: Event, i: nat)
    requires i <= |bs|
    requires forall j :: 0 <= j < i ==> !ExitsOn(bs[j], e)
    ensures i < |bs| && ExitsOn(bs[i], e) ==> FirstExit(bs, e) == Some(i)
    ensures i == |bs| ==> FirstExit(bs, e) == None
  {
  }

  /** One more button handled: both results grow by that button's share. */
  lemma FeedStep(bs: seq<SceneButton>, e: Event, i: nat)
    requires i < |bs|
    ensures FeedAll(bs[..i + 1], e) == FeedAll(bs[..i], e) + [Step(bs[i], e)]
    ensures FiredBy(bs[..i + 1], e) == FiredBy(bs[..i], e) + Fired(bs[i], e)
  {
    assert bs[..i + 1][..i] == bs[..i];
  }

  /** The loop of a scene's `handle_event` over its buttons: each button handles `e` in list
      order, and the loop stops after a button whose action changed scene. */
  method Forward(buttons: seq<SceneButton>, e: Event) returns (updated: seq<SceneButton>, fired: seq<Command>, exit: Option<nat>)
    ensures exit == FirstExit(buttons, e)
    ensures updated == FeedAll(buttons[..Reached(buttons, e)], e)
    ensures fired == FiredBy(buttons[..Reached(buttons, e)], e)
  {
    updated, fired, exit := [], [], None;
    var i := 0;
    while i < |buttons|
      invariant 0 <= i <= |buttons|
      invariant forall j :: 0 <= j < i ==> !ExitsOn(buttons[j], e)
      invariant updated == FeedAll(buttons[..i], e)
      invariant fired == FiredBy(buttons[..i], e)
    {
      FeedStep(buttons, e, i);
      updated := updated + [Step(buttons[i], e)];
      fired := fired + Fired(buttons[i], e);
      if ExitsOn(buttons[i], e) {
        FirstExitIs(buttons, e, i);
        exit := Some(i);
        return;
      }
      i := i + 1;
    }
    FirstExitIs(buttons, e, i);
    assert buttons[..i] == buttons;
  }

  /** One `add_button` call of an `on_enter`: the button's name, the label lookup that produces
      its text, its command and its slot. */
  datatype Slot = Slot(name: string, lookup: Result<string>, action: Command, index: int, offsetY: int)

  /** The button a slot whose label was found adds. */
  function ButtonFor(s: Slot): SceneButton
    requires s.lookup.Ok?
  {
    StackedButton(s.name, s.lookup.value, s.action, s.index, s.offsetY)
  }

  /** The buttons a run of `add_button` calls appends: one per slot, up to the first label lookup
      that raises. */
  function Built(slots: seq<Slot>): (bs: seq<SceneButton>)
    ensures slots != [] && slots[0].lookup.Ok? ==> bs != [] && bs[0] == ButtonFor(slots[0])
    ensures slots == [] || slots[0].lookup.Err? ==> bs == []
    decreases |slots|
  {
    if |slots| == 0 || slots[0].lookup.Err? then [] else [ButtonFor(slots[0])] + Built(slots[1..])
  }

  /** How the run ends: with the error of the first failed label lookup, or normally. */
  function Outcome(slots: seq<Slot>): (s: Status)
    ensures slots == [] ==> s == Done
    ensures slots != [] && slots[0].lookup.Err? ==> s == Raised(slots[0].lookup.error)
    decreases |slots|
  {
    if |slots| == 0 then Done
    else if slots[0].lookup.Err? then Raised(slots[0].lookup.error)
    else Outcome(slots[1..])
  }

  /** One step of `Built` and `Outcome`: the first slot either raises or adds its button. */
  lemma BuiltCons(done: seq<SceneButton>, x: Slot, rest: seq<Slot>)
    ensures x.lookup.Err? ==> done + Built([x] + rest) == done && Outcome([x] + rest) == Raised(x.lookup.error)
    ensures x.lookup.Ok? ==> done + Built([x] + rest) == (done + [ButtonFor(x)]) + Built(rest)
    ensures x.lookup.Ok? ==> Outcome([x] + rest) == Outcome(rest)
  {
    assert ([x] + rest)[1..] == rest;
  }

  /** The buttons built are those of the slots before the first failed lookup, in order; the run
      ends normally exactly when every slot got its button, and otherwise with the error of the
      first slot that did not. */
  lemma {:induction false} BuiltIsOkPrefix(slots: seq<Slot>)
    ensures |Built(slots)| <= |slots|
    ensures forall i :: 0 <= i < |Built(slots)| ==> slots[i].lookup.Ok? && Built(slots)[i] == ButtonFor(slots[i])
    ensures Outcome(slots) == Done <==> |Built(slots)| == |slots|
    ensures |Built(slots)| < |slots| ==> slots[|Built(slots)|].lookup == Err(Outcome(slots).error)
    decreases |slots|
  {
    if slots != [] && slots[0].lookup.Ok? {
      BuiltIsOkPrefix(slots[1..]);
    }
  }

  /** The part of the controller the scenes use and no shown file defines: the current language
      and whether the music is paused. */
  class Host {
    var lang: string
    var paused: bool

    constructor(lang: string, paused: bool)
      ensures this.lang == lang && this.paused == paused
    {
      this.lang := lang;
      this.paused := paused;
    }

    /** `music.toggle_pause`. */
    method TogglePause()
      modifies this`paused
      ensures paused == !old(paused)
    {
      paused := !paused;
    }
  }
}
