/** A transient on-screen message that hides itself once its display time has run out. */
module Notifications {
  import opened Outcomes

  /** The display time, in milliseconds, when none is given. */
  const DefaultDuration := 2000

  /** Whether a notification with visibility `visible`, shown at `start`, is still visible after
      `update` ran at each of the clock readings `times`. */
  function VisibleAfter(visible: bool, start: int, duration: int, times: seq<int>): (v: bool)
    ensures times != [] && times[|times| - 1] - start > duration ==> !v
    decreases |times|
  {
    if times == [] then visible
    else VisibleAfter(visible && !(times[0] - start > duration), start, duration, times[1..])
  }

  /** Once hidden, a notification stays hidden whatever updates follow. */
  lemma {:induction false} HiddenStaysHidden(start: int, duration: int, times: seq<int>)
    ensures !VisibleAfter(false, start, duration, times)
    decreases |times|
  {
    if times != [] {
      HiddenStaysHidden(start, duration, times[1..]);
    }
  }

  /** A shown notification is still visible after a run of updates exactly when every one of
      them came no more than `duration` after it was shown; an update at exactly `duration`
      keeps it. */
  lemma {:induction false} VisibleUntilExpiry(start: int, duration: int, times: seq<int>)
    ensures VisibleAfter(true, start, duration, times) <==>
      forall i :: 0 <= i < |times| ==> times[i] - start <= duration
    decreases |times|
  {
    if times != [] {
      VisibleUntilExpiry(start, duration, times[1..]);
      if times[0] - start > duration {
        HiddenStaysHidden(start, duration, times[1..]);
      }
      assert forall i :: 1 <= i < |times| ==> times[i] == times[1..][i - 1];
    }
  }

  /** `Notification`: a message, a display time, and the time it was last shown. The font and
      the rendered text are reduced to whether `init` has run; the clock reading is passed in
      as `now`. */
  class Notification {
    const uniqueId: int
    const message: string
    const duration: int
    var fontReady: bool
    var startTime: int
    var visible: bool

    constructor(uniqueId: int, message: string, duration: int)
      ensures this.uniqueId == uniqueId && this.message == message && this.duration == duration
      ensures !fontReady && startTime == 0 && !visible
    {
      this.uniqueId := uniqueId;
      this.message := message;
      this.duration := duration;
      fontReady := false;
      startTime := 0;
      visible := false;
    }

    /** The constructor called without a duration. */
    constructor WithDefaultDuration(uniqueId: int, message: string)
      ensures this.uniqueId == uniqueId && this.message == message && duration == DefaultDuration
      ensures !fontReady && startTime == 0 && !visible
    {
      this.uniqueId := uniqueId;
      this.message := message;
      duration := DefaultDuration;
      fontReady := false;
      startTime := 0;
      visible := false;
    }

    /** `init`: creates the font. */
    method Init()
      modifies this`fontReady
      ensures fontReady
    {
      fontReady := true;
    }

    /** `show`: renders the message and starts the timer; without a font, rendering raises. */
    method Show(now: int) returns (status: Status)
      modifies this`startTime, this`visible
      ensures !fontReady ==> status == Raised(AttributeError) && startTime == old(startTime) && visible == old(visible)
      ensures fontReady ==> status == Done && startTime == now && visible
    {
      if !fontReady {
        return Raised(AttributeError);
      }
      startTime := now;
      visible := true;
      status := Done;
    }

    /** `update`: a visible notification hides once more than `duration` has passed. */
    method Update(now: int)
      modifies this`visible
      ensures visible == VisibleAfter(old(visible), startTime, duration, [now])
      ensures visible <==> old(visible) && now - startTime <= duration
    {
      if visible {
        if now - startTime > duration {
          visible := false;
        }
      }
    }
  }
}
