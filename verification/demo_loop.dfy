/**
 * The text demo of src/main.rs from the moment the backlight is switched on:
 * the polling loop that moves, clamps and redraws the text, and the
 * shutdown after the Y button ends it. The display and the backlight pin are
 * observed only through the trace of effects they receive.
 */
module DemoLoop {
  import opened Cursor

  /** What the loop asks of the display and the backlight pin. */
  datatype Effect = BacklightOn | Clear | DrawText(x: int, y: int) | BacklightOff

  /** The position, whether the loop exited, and the effects of the passes. */
  datatype Outcome = Outcome(x: int, y: int, exited: bool, effects: seq<Effect>)

  /**
   * The loop from position (x, y) over the button samples, one per pass: a
   * pass that does not exit clears the screen and draws the text at the
   * clamped position; a pass with Y pressed ends the loop at once. Running
   * out of samples stops the model, not the loop.
   */
  function Run(x: int, y: int, samples: seq<Sample>): (r: Outcome)
    ensures |r.effects| % 2 == 0 && |r.effects| <= 2 * |samples|
    ensures !r.exited ==> |r.effects| == 2 * |samples|
    decreases |samples|
  {
    if samples == [] then Outcome(x, y, false, [])
    else match Step(x, y, samples[0])
      case Exit(x1, y1) => Outcome(x1, y1, true, [])
      case Next(x1, y1) =>
        var rest := Run(x1, y1, samples[1..]);
        rest.(effects := [Clear, DrawText(x1, y1)] + rest.effects)
  }

  /** `o` with `e` in front of its effects. */
  function Prepend(e: seq<Effect>, o: Outcome): Outcome {
    o.(effects := e + o.effects)
  }

  /** One pass of Run on the samples from index i on. */
  lemma RunUnfold(x: int, y: int, samples: seq<Sample>, i: nat)
    requires i < |samples|
    ensures Step(x, y, samples[i]).Exit? ==>
              Run(x, y, samples[i..]) == Outcome(Step(x, y, samples[i]).x, Step(x, y, samples[i]).y, true, [])
    ensures Step(x, y, samples[i]).Next? ==>
              Run(x, y, samples[i..]) ==
              Prepend([Clear, DrawText(Step(x, y, samples[i]).x, Step(x, y, samples[i]).y)],
                      Run(Step(x, y, samples[i]).x, Step(x, y, samples[i]).y, samples[i + 1..]))
  {
  }

  /** Prepending twice is prepending the concatenation. */
  lemma PrependTwice(d: seq<Effect>, e: seq<Effect>, o: Outcome)
    ensures Prepend(d, Prepend(e, o)) == Prepend(d + e, o)
  {
  }

  /** The index of the first pass with Y pressed, or |samples| when there is none. */
  function FirstExit(samples: seq<Sample>): (k: nat)
    ensures k <= |samples|
    ensures forall i :: 0 <= i < k ==> samples[i].yKey == High
    ensures k < |samples| ==> samples[k].yKey == Low
    decreases |samples|
  {
    if samples == [] then 0
    else if samples[0].yKey == Low then 0
    else 1 + FirstExit(samples[1..])
  }

  /** The shape of the effects of one pass that did not exit. */
  predicate DrawPass(effects: seq<Effect>, k: nat)
    requires 2 * k + 1 < |effects|
  {
    effects[2 * k] == Clear &&
    effects[2 * k + 1].DrawText? &&
    InBounds(effects[2 * k + 1].x, effects[2 * k + 1].y)
  }

  /**
   * The loop exits exactly when some sample has Y pressed, and it runs one
   * clear-and-draw per pass before the first such sample: the exiting pass
   * draws nothing.
   */
  lemma {:induction false} RunExitsAtFirstY(x: int, y: int, samples: seq<Sample>)
    ensures Run(x, y, samples).exited <==> FirstExit(samples) < |samples|
    ensures |Run(x, y, samples).effects| == 2 * FirstExit(samples)
    ensures forall k :: 0 <= k < FirstExit(samples) ==> DrawPass(Run(x, y, samples).effects, k)
    decreases |samples|
  {
    if samples != [] && samples[0].yKey == High {
      var p := Step(x, y, samples[0]);
      RunExitsAtFirstY(p.x, p.y, samples[1..]);
    }
    RunDrawsInBounds(x, y, samples);
  }

  /**
   * Every pass before the exit clears the screen and then draws the text at
   * a position inside the screen, whatever the starting position.
   */
  lemma {:induction false} RunDrawsInBounds(x: int, y: int, samples: seq<Sample>)
    ensures |Run(x, y, samples).effects| % 2 == 0
    ensures forall k :: 0 <= k && 2 * k + 1 < |Run(x, y, samples).effects| ==>
              DrawPass(Run(x, y, samples).effects, k)
    decreases |samples|
  {
    if samples != [] && samples[0].yKey == High {
      var p := Step(x, y, samples[0]);
      RunDrawsInBounds(p.x, p.y, samples[1..]);
      var e := Run(x, y, samples).effects;
      var tail := Run(p.x, p.y, samples[1..]).effects;
      assert e == [Clear, DrawText(p.x, p.y)] + tail;
      forall k | 0 <= k && 2 * k + 1 < |e|
        ensures DrawPass(e, k)
      {
        if k > 0 {
          assert e[2 * k] == tail[2 * (k - 1)];
          assert e[2 * k + 1] == tail[2 * (k - 1) + 1];
          assert DrawPass(tail, k - 1);
        }
      }
    }
  }

  /**
   * From a position inside the screen, the loop leaves the position inside
   * the screen when it has not exited, and at most one stride outside it
   * when it has; so the 32-bit coordinates never overflow.
   */
  lemma {:induction false} RunStaysInBounds(x: int, y: int, samples: seq<Sample>)
    requires InBounds(x, y)
    ensures !Run(x, y, samples).exited ==> InBounds(Run(x, y, samples).x, Run(x, y, samples).y)
    ensures -Stride <= Run(x, y, samples).x <= W + Stride
    ensures -Stride <= Run(x, y, samples).y <= H + Stride
    decreases |samples|
  {
    if samples != [] && samples[0].yKey == High {
      var p := Step(x, y, samples[0]);
      RunStaysInBounds(p.x, p.y, samples[1..]);
    }
  }

  /**
   * The demo after the display is set up: switch the backlight on, run the
   * loop from the starting position, and after an exit clear the screen and
   * switch the backlight off.
   */
  function Demo(samples: seq<Sample>): (r: Outcome)
    ensures |r.effects| >= 1 && r.effects[0] == BacklightOn
    ensures r.exited ==> |r.effects| >= 3 && r.effects[|r.effects| - 2..] == [Clear, BacklightOff]
  {
    var r := Run(StartX, StartY, samples);
    r.(effects := [BacklightOn] + r.effects + (if r.exited then [Clear, BacklightOff] else []))
  }

  /**
   * Each pass of the demo before the first Y press contributes a clear and
   * then a draw of the text at a position inside the screen, right after the
   * backlight switch-on.
   */
  lemma {:induction false} DemoDrawsInBounds(samples: seq<Sample>)
    ensures |Demo(samples).effects| >= 1 + 2 * FirstExit(samples)
    ensures forall k :: 0 <= k < FirstExit(samples) ==>
              Demo(samples).effects[1 + 2 * k] == Clear &&
              Demo(samples).effects[2 + 2 * k].DrawText? &&
              InBounds(Demo(samples).effects[2 + 2 * k].x, Demo(samples).effects[2 + 2 * k].y)
  {
    RunExitsAtFirstY(StartX, StartY, samples);
    RunDrawsInBounds(StartX, StartY, samples);
    var e := Run(StartX, StartY, samples).effects;
    var d := Demo(samples).effects;
    assert d[1..1 + |e|] == e;
    forall k | 0 <= k < FirstExit(samples)
      ensures d[1 + 2 * k] == Clear && d[2 + 2 * k].DrawText? && InBounds(d[2 + 2 * k].x, d[2 + 2 * k].y)
    {
      assert DrawPass(e, k);
      assert d[1 + 2 * k] == e[2 * k];
      assert d[2 + 2 * k] == e[2 * k + 1];
    }
  }

  /**
   * The demo exits exactly when some sample has Y pressed. Its trace is the
   * backlight switch-on, a clear and a draw inside the screen for each pass
   * before the first Y press, and then, after an exit, one clear and the
   * backlight switch-off.
   */
  lemma DemoShape(samples: seq<Sample>)
    ensures Demo(samples).exited <==> exists k :: 0 <= k < |samples| && samples[k].yKey == Low
    ensures Demo(samples).effects[0] == BacklightOn
    ensures !Demo(samples).exited ==> |Demo(samples).effects| == 1 + 2 * |samples|
    ensures Demo(samples).exited ==>
              |Demo(samples).effects| == 3 + 2 * FirstExit(samples) &&
              Demo(samples).effects[|Demo(samples).effects| - 2..] == [Clear, BacklightOff]
    ensures forall k :: 0 <= k < FirstExit(samples) ==>
              Demo(samples).effects[1 + 2 * k] == Clear &&
              Demo(samples).effects[2 + 2 * k].DrawText? &&
              InBounds(Demo(samples).effects[2 + 2 * k].x, Demo(samples).effects[2 + 2 * k].y)
  {
    RunExitsAtFirstY(StartX, StartY, samples);
    DemoDrawsInBounds(samples);
    if Demo(samples).exited {
      var k := FirstExit(samples);
      assert samples[k].yKey == Low;
    }
  }

  /**
   * The loop of the demo on 32-bit locals, statement by statement: returns
   * the final (text_x, text_y), whether the loop exited, and the effects in
   * order, which are those of Demo; the final position is inside the screen
   * unless the loop exited.
   */
  method TextDemo(samples: seq<Sample>) returns (textX: i32, textY: i32, exited: bool, effects: seq<Effect>)
    ensures Outcome(textX as int, textY as int, exited, effects) == Demo(samples)
    ensures !exited ==> InBounds(textX as int, textY as int)
  {
    textX := 10;
    textY := 100;
    exited := false;
    var drawn: seq<Effect> := [];
    var i := 0;
    while i < |samples|
      invariant 0 <= i <= |samples|
      invariant InBounds(textX as int, textY as int)
      invariant Run(StartX, StartY, samples) == Prepend(drawn, Run(textX as int, textY as int, samples[i..]))
    {
      ghost var x0, y0 := textX as int, textY as int;
      var s := samples[i];
      if s.up == Low {
        textY := textY - 5;
      }
      if s.down == Low {
        textY := textY + 5;
      }
      if s.left == Low {
        textX := textX - 5;
      }
      if s.right == Low {
        textX := textX + 5;
      }
      assert textY as int == Shift(y0, s.up, s.down) && textX as int == Shift(x0, s.left, s.right);
      RunUnfold(x0, y0, samples, i);
      if s.yKey == Low {
        exited := true;
        break;
      }
      textX := if textX < 0 then 0 else textX;
      textX := if textX > W as i32 then W as i32 else textX;
      textY := if textY < 0 then 0 else if textY > H as i32 then H as i32 else textY;
      assert Step(x0, y0, s) == Next(textX as int, textY as int);
      PrependTwice(drawn, [Clear, DrawText(textX as int, textY as int)], Run(textX as int, textY as int, samples[i + 1..]));
      drawn := drawn + [Clear, DrawText(textX as int, textY as int)];
      i := i + 1;
    }
    if exited {
      effects := [BacklightOn] + drawn + [Clear, BacklightOff];
    } else {
      assert samples[i..] == [];
      effects := [BacklightOn] + drawn;
    }
  }
}
