/**
 * The controller mini-game: the module-level state `score`, `interval` and
 * `timer`, the DOM elements it finds at start-up, and its event handlers.
 * The browser's timer table is part of the state so that the discipline of
 * `tick` (cancel the pending timer, then schedule one) can be stated.
 */
module ControllerGame {
  import opened Common
  import opened Difficulty
  import opened Placement

  class Game {
    /** Whether `#field`, `#controller` and `#reset` were found at start-up. */
    const hasField: bool
    const hasController: bool
    const hasResetButton: bool

    var score: nat
    var interval: int
    /** The script's `timer` variable: the handle of the last scheduled tick, `null` before the first. */
    var timer: Option<nat>
    /** The browser's pending timeouts: handle to delay in milliseconds. */
    var pending: map<nat, int>
    /** The handle the browser's next `setTimeout` returns. */
    var nextHandle: nat
    /** The target's current `left`/`top`; None until it is first placed. */
    var pos: Option<Pos>

    ghost predicate Valid()
      reads this
    {
      && interval == Interval(score)
      && (forall h :: h in pending ==> timer == Some(h))
      && (forall h :: h in pending ==> h < nextHandle && MinInterval <= pending[h] <= BaseInterval)
      && (timer.Some? ==> timer.value < nextHandle)
      && (pos.Some? ==> hasField && hasController && pos.value.x >= Pad && pos.value.y >= Pad)
    }

    /** At most one timeout is ever pending, and it is the one `timer` holds. */
    lemma AtMostOneTimer()
      requires Valid()
      ensures |pending| <= 1
      ensures timer.None? ==> pending == map[]
    {
      if timer.Some? && timer.value in pending {
        assert pending.Keys == {timer.value};
      } else {
        assert pending.Keys == {};
      }
    }

    /** Page start-up: `score = 0`, `interval = 950`, `timer = null`. */
    constructor (hasField: bool, hasController: bool, hasResetButton: bool)
      ensures Valid()
      ensures this.hasField == hasField && this.hasController == hasController
      ensures this.hasResetButton == hasResetButton
      ensures score == 0 && interval == BaseInterval && interval == Interval(score)
      ensures timer == None && pending == map[] && pos == None
    {
      this.hasField := hasField;
      this.hasController := hasController;
      this.hasResetButton := hasResetButton;
      score := 0;
      interval := BaseInterval;
      timer := None;
      pending := map[];
      nextHandle := 1;
      pos := None;
    }

    /** `setScore(next)`: the score, and the interval recomputed from it. */
    method SetScore(next: nat)
      requires Valid()
      modifies this`score, this`interval
      ensures Valid()
      ensures score == next && interval == Interval(next)
      ensures MinInterval <= interval <= BaseInterval
    {
      score := next;
      interval := Interval(score);
    }

    /**
     * `placeController()`: without the field or the target nothing happens;
     * otherwise the target moves to a position drawn from the padded range.
     */
    method PlaceController(g: Geometry, d: Draw)
      requires Valid()
      modifies this`pos
      ensures Valid()
      ensures !(hasField && hasController) ==> pos == old(pos)
      ensures hasField && hasController ==> pos == Some(Placed(g, d))
      ensures hasField && hasController ==>
        && Pad <= pos.value.x <= AxisMax(g.fieldWidth, g.size)
        && Pad <= pos.value.y <= AxisMax(g.fieldHeight, g.size)
    {
      if !hasField || !hasController {
        return;
      }
      var x := Rand(Pad, AxisMax(g.fieldWidth, g.size), d.ux);
      var y := Rand(Pad, AxisMax(g.fieldHeight, g.size), d.uy);
      pos := Some(Pos(x, y));
    }

    /** The browser's `clearTimeout(t)`: cancels `t` if pending; `null` or a finished handle is ignored. */
    method ClearTimeout(t: Option<nat>)
      modifies this`pending
      ensures pending == if t.Some? then old(pending) - {t.value} else old(pending)
    {
      if t.Some? {
        pending := pending - {t.value};
      }
    }

    /** The browser's `setTimeout(tick, delay)`: a fresh handle, now pending with that delay. */
    method SetTimeout(delay: int) returns (h: nat)
      requires forall k :: k in pending ==> k < nextHandle
      modifies this`pending, this`nextHandle
      ensures h == old(nextHandle) && nextHandle == h + 1
      ensures h !in old(pending)
      ensures pending == old(pending)[h := delay]
    {
      h := nextHandle;
      nextHandle := nextHandle + 1;
      pending := pending[h := delay];
    }

    /**
     * `tick()`: relocate, cancel the pending tick, schedule the next one after
     * the current interval. Afterwards exactly one timeout is pending,
     * whatever was pending before.
     */
    method Tick(g: Geometry, d: Draw)
      requires Valid()
      modifies this`pos, this`timer, this`pending, this`nextHandle
      ensures Valid()
      ensures score == old(score) && interval == old(interval)
      ensures hasField && hasController ==> pos == Some(Placed(g, d))
      ensures !(hasField && hasController) ==> pos == old(pos)
      ensures timer == Some(old(nextHandle)) && nextHandle == old(nextHandle) + 1
      ensures pending == map[old(nextHandle) := interval]
      ensures |pending| == 1
    {
      PlaceController(g, d);
      ClearTimeout(timer);
      assert pending == map[];
      var h := SetTimeout(interval);
      timer := Some(h);
    }

    /**
     * A pending timeout fires: the browser drops it and runs `tick`. A
     * cancelled or already fired handle never fires, so nothing happens.
     */
    method TimerFires(h: nat, g: Geometry, d: Draw)
      requires Valid()
      modifies this`pos, this`timer, this`pending, this`nextHandle
      ensures Valid()
      ensures score == old(score) && interval == old(interval)
      ensures h !in old(pending) ==>
        pos == old(pos) && timer == old(timer) && pending == old(pending) && nextHandle == old(nextHandle)
      ensures h in old(pending) ==>
        && timer == Some(old(nextHandle)) && nextHandle == old(nextHandle) + 1
        && pending == map[old(nextHandle) := interval]
      ensures h in old(pending) && hasField && hasController ==> pos == Some(Placed(g, d))
      ensures h in old(pending) && !(hasField && hasController) ==> pos == old(pos)
    {
      if h in pending {
        pending := pending - {h};
        Tick(g, d);
      }
    }

    /**
     * A click on the target adds one point and relocates it at once. The
     * pending tick is left alone, so a new interval only applies from the
     * next tick on. Without the target there is no listener.
     */
    method Click(g: Geometry, d: Draw)
      requires Valid()
      modifies this`score, this`interval, this`pos
      ensures Valid()
      ensures !hasController ==> score == old(score) && interval == old(interval) && pos == old(pos)
      ensures hasController ==> score == old(score) + 1 && interval == Interval(old(score) + 1)
      ensures hasController && hasField ==> pos == Some(Placed(g, d))
      ensures hasController && !hasField ==> pos == old(pos)
    {
      if !hasController {
        return;
      }
      SetScore(score + 1);
      PlaceController(g, d);
    }

    /** A key pressed on the target: Enter or Space relocates it; any other key does nothing. */
    method KeyDown(key: string, g: Geometry, d: Draw)
      requires Valid()
      modifies this`pos
      ensures Valid()
      ensures (key == "Enter" || key == " ") && hasController && hasField ==> pos == Some(Placed(g, d))
      ensures !((key == "Enter" || key == " ") && hasController && hasField) ==> pos == old(pos)
    {
      if hasController && (key == "Enter" || key == " ") {
        PlaceController(g, d);
      }
    }

    /**
     * The reset button: score back to 0 and interval back to 950 from any
     * state, then relocate. The pending tick is left alone. Without the
     * button there is no listener.
     */
    method Reset(g: Geometry, d: Draw)
      requires Valid()
      modifies this`score, this`interval, this`pos
      ensures Valid()
      ensures !hasResetButton ==> score == old(score) && interval == old(interval) && pos == old(pos)
      ensures hasResetButton ==> score == 0 && interval == BaseInterval
      ensures hasResetButton && hasField && hasController ==> pos == Some(Placed(g, d))
      ensures hasResetButton && !(hasField && hasController) ==> pos == old(pos)
    {
      if !hasResetButton {
        return;
      }
      SetScore(0);
      PlaceController(g, d);
    }

    /** The window's `load`: place the target, then start the tick loop (which places it again). */
    method Load(g: Geometry, first: Draw, second: Draw)
      requires Valid()
      modifies this`pos, this`timer, this`pending, this`nextHandle
      ensures Valid()
      ensures score == old(score) && interval == old(interval)
      ensures hasField && hasController ==> pos == Some(Placed(g, second))
      ensures !(hasField && hasController) ==> pos == old(pos)
      ensures timer == Some(old(nextHandle)) && nextHandle == old(nextHandle) + 1
      ensures pending == map[old(nextHandle) := interval]
    {
      PlaceController(g, first);
      Tick(g, second);
    }

    /** The window's `resize`: relocate only; score, interval and timers stay. */
    method Resize(g: Geometry, d: Draw)
      requires Valid()
      modifies this`pos
      ensures Valid()
      ensures hasField && hasController ==> pos == Some(Placed(g, d))
      ensures !(hasField && hasController) ==> pos == old(pos)
    {
      PlaceController(g, d);
    }
  }
}
