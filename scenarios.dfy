/**
 * Client code that drives a Game, using only the contracts of ControllerGame,
 * Difficulty and Placement, through: the interval at boundary scores, five
 * clicks then two resets, a tick while another is pending, a field smaller
 * than the target, and missing elements.
 */
module Scenarios {
  import opened Common
  import opened Difficulty
  import opened Placement
  import opened ControllerGame

  method BoundaryIntervals()
  {
    assert Interval(0) == 950;
    assert Interval(4) == 950;
    assert Interval(5) == 860;
    assert Interval(34) == 410;
    assert Interval(35) == 320;
    assert Interval(45) == 320;
    assert Interval(1000) == 320;
  }

  method ClicksAndReset(g: Geometry, d: Draw)
  {
    var game := new Game(true, true, true);
    game.Load(g, d, d);
    assert game.score == 0 && game.interval == 950;
    var scheduled := game.pending;

    game.Click(g, d);
    assert game.score == 1 && game.interval == 950;
    game.Click(g, d);
    game.Click(g, d);
    game.Click(g, d);
    assert game.score == 4 && game.interval == 950;
    game.Click(g, d);
    assert game.score == 5 && game.interval == 860;
    // Clicks never touch the pending tick: it still carries the old delay.
    assert game.pending == scheduled;

    game.Reset(g, d);
    assert game.score == 0 && game.interval == 950;
    game.Reset(g, d);
    assert game.score == 0 && game.interval == 950;
  }

  method TickWhilePending(g: Geometry, d: Draw)
  {
    var game := new Game(true, true, false);
    game.Load(g, d, d);
    var first := game.timer.value;
    assert first in game.pending;
    game.Tick(g, d);
    game.AtMostOneTimer();
    assert first !in game.pending;
    assert |game.pending| == 1;
    game.TimerFires(first, g, d);
    assert first !in game.pending && |game.pending| == 1;
    // The pending timeout fires: tick runs, so the target moves and one timeout is pending again.
    var current := game.timer.value;
    game.TimerFires(current, g, Draw(0.5, 0.5));
    assert game.pos == Some(Placed(g, Draw(0.5, 0.5)));
    assert current !in game.pending && |game.pending| == 1;
  }

  method TinyField(d: Draw)
  {
    var game := new Game(true, true, true);
    var g := Geometry(30, 12, 44);
    game.Resize(g, d);
    assert game.pos == Some(Pos(Pad, Pad));
    game.KeyDown("Escape", Geometry(800, 600, 44), d);
    assert game.pos == Some(Pos(Pad, Pad));
  }

  method MissingElements(g: Geometry, d: Draw)
  {
    var game := new Game(false, true, true);
    game.Load(g, d, d);
    game.Click(g, d);
    assert game.pos == None && game.score == 1;
    var noTarget := new Game(true, false, true);
    noTarget.Click(g, d);
    noTarget.KeyDown("Enter", g, d);
    assert noTarget.score == 0 && noTarget.pos == None;
  }
}
