/**
 * The repetition counter of the camera pipeline (squat.py): the gate applied to the body
 * detector's output, the two-state standing/crouching machine of `_update_state`, the
 * `Counter` accumulator, and the update loop that feeds one into the other.
 *
 * Camera capture, drawing and model inference are not modelled: what the detector reports
 * for a frame is an input of type `Inference`.
 */
module Squat {
  import opened Wrappers

  /** What the body detector reports for one frame: how many boxes it found and, for the
      best one, its score and its box already scaled to frame pixels. */
  datatype Inference = Inference(numBoxes: int, score: real, xmin: int, ymin: int, xmax: int, ymax: int)

  /** A detection that passed the gate, in the order `_detect` returns it. */
  datatype Detection = Detection(score: real, xmin: int, ymin: int, xmax: int, ymax: int)

  /** The gate of `_detect`: no box, or a best score below the threshold, is no detection;
      a score equal to the threshold is kept. */
  function Detect(out: Inference, threshold: real): (d: Option<Detection>)
    ensures d.None? <==> out.numBoxes < 1 || out.score < threshold
    ensures d.Some? ==> d.value == Detection(out.score, out.xmin, out.ymin, out.xmax, out.ymax)
  {
    if out.numBoxes < 1 then None
    else if out.score < threshold then None
    else Some(Detection(out.score, out.xmin, out.ymin, out.xmax, out.ymax))
  }

  /** The head position `process_frame` hands to the state machine: the fifth component of
      the detection, if there is one. */
  function HeadPosition(d: Option<Detection>): Option<int>
  {
    match d
    case None => None
    case Some(det) => Some(det.ymax)
  }

  /** The head positions a sequence of frames yields, frame by frame. */
  function Heads(outputs: seq<Inference>, threshold: real): (heads: seq<Option<int>>)
    ensures |heads| == |outputs|
    ensures forall i :: 0 <= i < |outputs| ==>
      (heads[i].None? <==> outputs[i].numBoxes < 1 || outputs[i].score < threshold)
    ensures forall i :: 0 <= i < |outputs| && heads[i].Some? ==> heads[i].value == outputs[i].ymax
  {
    seq(|outputs|, i requires 0 <= i < |outputs| => HeadPosition(Detect(outputs[i], threshold)))
  }

  /** The state after one step of the machine and whether that step completed a squat. */
  datatype Step = Step(standing: bool, squatted: bool)

  /** `_update_state`: the head above the line (a smaller pixel row) means standing; a squat
      is reported exactly on the crouching-to-standing edge. */
  function Transition(standing: bool, headLine: int, head: int): (s: Step)
    ensures s.standing == (head < headLine)
    ensures s.squatted <==> !standing && s.standing
    ensures s.standing == standing ==> !s.squatted
  {
    var current := head < headLine;
    if current != standing then Step(current, current) else Step(standing, false)
  }

  /** One frame of `process_frame`: a frame without a detection neither moves the machine
      nor reports a squat. */
  function FrameStep(standing: bool, headLine: int, head: Option<int>): (s: Step)
    ensures head.None? ==> s == Step(standing, false)
    ensures head.Some? ==> s.standing == (head.value < headLine)
    ensures s.squatted <==> !standing && s.standing
  {
    match head
    case None => Step(standing, false)
    case Some(h) => Transition(standing, headLine, h)
  }

  /** The standing flag before the first frame of a run and after each of its frames. */
  function States(standing: bool, headLine: int, heads: seq<Option<int>>): (r: seq<bool>)
    ensures |r| == |heads| + 1 && r[0] == standing
    decreases |heads|
  {
    if heads == [] then [standing]
    else
      var before := States(standing, headLine, heads[..|heads| - 1]);
      before + [FrameStep(before[|before| - 1], headLine, heads[|heads| - 1]).standing]
  }

  /** 1 for true, 0 for false. */
  function Bit(b: bool): nat { if b then 1 else 0 }

  /** The number of frames of a run for which `process_frame` reports a squat. */
  function Squats(standing: bool, headLine: int, heads: seq<Option<int>>): nat
    decreases |heads|
  {
    if heads == [] then 0
    else
      var before := States(standing, headLine, heads[..|heads| - 1]);
      Squats(standing, headLine, heads[..|heads| - 1])
        + Bit(FrameStep(before[|before| - 1], headLine, heads[|heads| - 1]).squatted)
  }

  /** Crouching-to-standing edges in a sequence of states. */
  function Rises(states: seq<bool>): nat
  {
    if |states| < 2 then 0
    else Rises(states[..|states| - 1]) + Bit(!states[|states| - 2] && states[|states| - 1])
  }

  /** Standing-to-crouching edges in a sequence of states. */
  function Falls(states: seq<bool>): nat
  {
    if |states| < 2 then 0
    else Falls(states[..|states| - 1]) + Bit(states[|states| - 2] && !states[|states| - 1])
  }

  /** Over any run, the squats reported are exactly the crouching-to-standing edges of the
      states the machine passes through. */
  lemma {:induction false} SquatsAreRises(standing: bool, headLine: int, heads: seq<Option<int>>)
    ensures Squats(standing, headLine, heads) == Rises(States(standing, headLine, heads))
    decreases |heads|
  {
    if heads != [] {
      var prefix := heads[..|heads| - 1];
      var before := States(standing, headLine, prefix);
      var step := FrameStep(before[|before| - 1], headLine, heads[|heads| - 1]);
      var after := States(standing, headLine, heads);
      SquatsAreRises(standing, headLine, prefix);
      assert after == before + [step.standing];
      assert after[..|after| - 1] == before;
      assert after[|after| - 2] == before[|before| - 1];
    }
  }

  /** In any sequence of states, rises and falls alternate: their counts differ by where the
      sequence starts and where it ends. */
  lemma {:induction false} RisesAndFallsAlternate(states: seq<bool>)
    requires |states| > 0
    ensures Falls(states) + Bit(states[|states| - 1]) == Rises(states) + Bit(states[0])
  {
    if |states| >= 2 {
      var prefix := states[..|states| - 1];
      RisesAndFallsAlternate(prefix);
      assert prefix[0] == states[0];
      assert prefix[|prefix| - 1] == states[|states| - 2];
    }
  }

  /** From the initial standing state, the squats reported never exceed the
      standing-to-crouching edges and trail them by at most one; they are equal exactly when
      the run ends standing. */
  lemma SquatsFromStanding(headLine: int, heads: seq<Option<int>>)
    ensures var states := States(true, headLine, heads);
      && Squats(true, headLine, heads) <= Falls(states) <= Squats(true, headLine, heads) + 1
      && (states[|states| - 1] <==> Squats(true, headLine, heads) == Falls(states))
  {
    SquatsAreRises(true, headLine, heads);
    RisesAndFallsAlternate(States(true, headLine, heads));
  }

  /** A frame without a detection appended to a run changes neither its last state nor its
      squat count. */
  lemma {:induction false} UndetectedFrameIsInert(standing: bool, headLine: int, heads: seq<Option<int>>)
    ensures var states := States(standing, headLine, heads + [None]);
      && states[|states| - 1] == states[|states| - 2]
      && Squats(standing, headLine, heads + [None]) == Squats(standing, headLine, heads)
  {
    assert (heads + [None])[..|heads|] == heads;
  }

  /** Frames without a detection can be dropped from anywhere in a run without changing its
      last state or its squat count. */
  lemma {:induction false} UndetectedFrameCanBeDropped(standing: bool, headLine: int,
                                                       before: seq<Option<int>>, after: seq<Option<int>>)
    ensures var with := States(standing, headLine, before + [None] + after);
      var without := States(standing, headLine, before + after);
      && with[|with| - 1] == without[|without| - 1]
      && Squats(standing, headLine, before + [None] + after) == Squats(standing, headLine, before + after)
    decreases |after|
  {
    if after == [] {
      UndetectedFrameIsInert(standing, headLine, before);
      assert before + [None] + after == before + [None];
      assert before + after == before;
    } else {
      var rest, last := after[..|after| - 1], after[|after| - 1];
      UndetectedFrameCanBeDropped(standing, headLine, before, rest);
      var with, without := before + [None] + rest, before + rest;
      assert before + [None] + after == with + [last];
      assert before + after == without + [last];
      assert (with + [last])[..|with|] == with;
      assert (without + [last])[..|without|] == without;
      LastFrame(standing, headLine, with, last);
      LastFrame(standing, headLine, without, last);
    }
  }

  /** One frame appended to a run: its last state and squat count follow from the run's. */
  lemma LastFrame(standing: bool, headLine: int, heads: seq<Option<int>>, head: Option<int>)
    ensures var before := States(standing, headLine, heads);
      var after := States(standing, headLine, heads + [head]);
      var step := FrameStep(before[|before| - 1], headLine, head);
      && after[|after| - 1] == step.standing
      && Squats(standing, headLine, heads + [head]) == Squats(standing, headLine, heads) + Bit(step.squatted)
  {
    assert (heads + [head])[..|heads|] == heads;
  }

  /** The plain accumulator the update loop counts squats with. */
  class Counter {
    var count: nat

    constructor ()
      ensures count == 0
    {
      count := 0;
    }

    method Get() returns (c: nat)
      ensures c == count
    {
      c := count;
    }

    method Increment()
      modifies this
      ensures count == old(count) + 1
    {
      count := count + 1;
    }

    method Reset()
      modifies this
      ensures count == 0
    {
      count := 0;
    }
  }

  /** The standing/crouching machine over the camera feed. */
  class Detector {
    /** True while standing, false while crouching. */
    var isStanding: bool
    /** The pixel row that separates standing from crouching. */
    const headLine: int
    /** The lowest detection score that is taken for a person. */
    const threshold: real

    constructor (threshold: real, headLine: int)
      ensures isStanding
      ensures this.threshold == threshold && this.headLine == headLine
    {
      isStanding := true;
      this.headLine := headLine;
      this.threshold := threshold;
    }

    /** `_update_state`: move to the state the head position implies and report whether a
        squat was just completed. */
    method UpdateState(headPosition: int) returns (squatted: bool)
      modifies this
      ensures isStanding == (headPosition < headLine)
      ensures squatted <==> !old(isStanding) && isStanding
      ensures Step(isStanding, squatted) == Transition(old(isStanding), headLine, headPosition)
    {
      var current := headPosition < headLine;
      if current != isStanding {
        isStanding := current;
        if current {
          return true;
        }
      }
      return false;
    }

    /** `process_frame` on the detector's output for one frame. */
    method ProcessFrame(out: Inference) returns (squatted: bool)
      modifies this
      ensures Detect(out, threshold).None? ==> !squatted && isStanding == old(isStanding)
      ensures Step(isStanding, squatted) == FrameStep(old(isStanding), headLine, HeadPosition(Detect(out, threshold)))
    {
      squatted := false;
      var detection := Detect(out, threshold);
      if detection.Some? {
        squatted := UpdateState(detection.value.ymax);
      }
    }
  }

  /** One more frame of a run: the state after it and the squat count follow from the state
      and the count before it. */
  lemma RunStep(standing: bool, headLine: int, heads: seq<Option<int>>, i: nat)
    requires i < |heads|
    ensures var step := FrameStep(States(standing, headLine, heads[..i])[i], headLine, heads[i]);
      && States(standing, headLine, heads[..i + 1])[i + 1] == step.standing
      && Squats(standing, headLine, heads[..i + 1]) == Squats(standing, headLine, heads[..i]) + Bit(step.squatted)
  {
    assert heads[..i + 1] == heads[..i] + [heads[i]];
    LastFrame(standing, headLine, heads[..i], heads[i]);
  }

  /** The update loop: run each frame through the detector and increment the counter on
      every reported squat. */
  method RunSession(detector: Detector, counter: Counter, outputs: seq<Inference>)
    modifies detector, counter
    ensures var heads := Heads(outputs, detector.threshold);
      var states := States(old(detector.isStanding), detector.headLine, heads);
      && counter.count == old(counter.count) + Squats(old(detector.isStanding), detector.headLine, heads)
      && detector.isStanding == states[|states| - 1]
  {
    ghost var start := detector.isStanding;
    ghost var heads := Heads(outputs, detector.threshold);
    var i := 0;
    while i < |outputs|
      invariant 0 <= i <= |outputs|
      invariant counter.count == old(counter.count) + Squats(start, detector.headLine, heads[..i])
      invariant detector.isStanding == States(start, detector.headLine, heads[..i])[i]
    {
      RunStep(start, detector.headLine, heads, i);
      ghost var step := FrameStep(detector.isStanding, detector.headLine, heads[i]);
      var squatted := detector.ProcessFrame(outputs[i]);
      assert Step(detector.isStanding, squatted) == step;
      if squatted {
        counter.Increment();
      }
      i := i + 1;
    }
    assert heads[..i] == heads;
  }
}
