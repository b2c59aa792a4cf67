/**
 The state of the concurrent send call, read off the steps of its run: the
 connection, what the streams were given, and the rounds handed over.
 */
module Http3PumpHistory {
  import opened Bytes
  import opened Http3Library
  import opened PumpRounds
  import opened Http3Pump

  /** The connection after the first k steps: as its last event said, or as it was. */
  ghost function LastUp(up: bool, steps: seq<Step>, k: nat): bool
    requires k <= |steps|
  {
    if k == 0 then up
    else if steps[k - 1].ConnectionEvent? then steps[k - 1].up
    else LastUp(up, steps, k - 1)
  }

  lemma {:induction false} UpIsLastEvent(states: seq<State>, steps: seq<Step>, k: nat)
    requires IsRun(states, steps) && k < |states|
    ensures states[k].up == LastUp(states[0].up, steps, k)
  {
    if k > 0 {
      UpIsLastEvent(states, steps, k - 1);
      UpStep(states[k - 1], steps[k - 1]);
    }
  }

  lemma UpStep(s: State, step: Step)
    requires Enabled(s, step)
    ensures Apply(s, step).up == if step.ConnectionEvent? then step.up else s.up
  {}

  // ----- the rounds -----

  /** The index of the last offer among the first k steps, or -1. */
  ghost function LatestDrain(steps: seq<Step>, k: nat): (i: int)
    requires k <= |steps|
    ensures -1 <= i < k && (0 <= i ==> steps[i].Drain?)
  {
    if k == 0 then -1
    else if steps[k - 1].Drain? then k - 1
    else LatestDrain(steps, k - 1)
  }

  /** The round step k hands over, if it does: the latest offer, under the connection as its events had left it. */
  ghost function RoundAt(up: bool, steps: seq<Step>, k: nat): seq<Round>
    requires k < |steps|
  {
    var i := LatestDrain(steps, k);
    if steps[k].HandOver? && 0 <= i then
      [Round(steps[i].stream, steps[i].vecs, steps[i].fin, LastUp(up, steps, k), steps[k].accepted, steps[k].stray)]
    else []
  }

  /** The hand-overs among the first k steps, with the transport's answers. */
  ghost function RoundsOf(up: bool, steps: seq<Step>, k: nat): seq<Round>
    requires k <= |steps|
  {
    if k == 0 then [] else RoundsOf(up, steps, k - 1) + RoundAt(up, steps, k - 1)
  }

  /** A thread that holds a round has just taken the offer, or held it before while no other thread took one. */
  lemma HolderStep(s: State, step: Step, t: nat)
    requires OnePumper(s) && Enabled(s, step)
    requires t < |Apply(s, step).threads| && Apply(s, step).threads[t].HoldingRound?
    ensures var pc := Apply(s, step).threads[t];
            || step == Drain(t, pc.stream, pc.vecs, pc.fin)
            || (!step.Drain? && t < |s.threads| && s.threads[t] == pc)
  {
    SameThreads(s, step);
    if step.ConnectionEvent? || step.t != t {
      OthersStay(s, step, t);
      assert s.threads[t].Pumps();
    }
  }

  lemma SameThreads(s: State, step: Step)
    requires Enabled(s, step)
    ensures |Apply(s, step).threads| == |s.threads|
  {}

  /** A thread that holds a round holds the latest offer. */
  lemma {:induction false} HoldsLatest(states: seq<State>, steps: seq<Step>, k: nat, t: nat)
    requires IsRun(states, steps) && k < |states| && t < |states[k].threads| && states[k].threads[t].HoldingRound?
    ensures var i, pc := LatestDrain(steps, k), states[k].threads[t];
            0 <= i && steps[i] == Drain(t, pc.stream, pc.vecs, pc.fin)
  {
    if k > 0 {
      ReachableInv(states, steps, k - 1);
      HolderStep(states[k - 1], steps[k - 1], t);
      if !steps[k - 1].Drain? { HoldsLatest(states, steps, k - 1, t); }
    }
  }

  /** What a step adds to the log. */
  ghost function Logged(s: State, step: Step): seq<Round>
    requires Enabled(s, step)
  {
    if step.HandOver? then
      var pc := s.threads[step.t];
      [Round(pc.stream, pc.vecs, pc.fin, s.up, step.accepted, step.stray)]
    else []
  }

  lemma LogStep(s: State, step: Step)
    requires Enabled(s, step)
    ensures Apply(s, step).log == s.log + Logged(s, step)
  {}

  lemma LoggedIsLatest(states: seq<State>, steps: seq<Step>, k: nat)
    requires IsRun(states, steps) && k < |steps|
    ensures Logged(states[k], steps[k]) == RoundAt(states[0].up, steps, k)
  {
    if steps[k].HandOver? {
      HoldsLatest(states, steps, k, steps[k].t);
      UpIsLastEvent(states, steps, k);
    }
  }

  /** The log is exactly the hand-overs of the run. */
  lemma {:induction false} LogIsRounds(states: seq<State>, steps: seq<Step>, k: nat)
    requires IsRun(states, steps) && k < |states|
    ensures states[k].log == RoundsOf(states[0].up, steps, k)
  {
    if k > 0 {
      LogIsRounds(states, steps, k - 1);
      LogStep(states[k - 1], steps[k - 1]);
      LoggedIsLatest(states, steps, k - 1);
    }
  }

  // ----- what the streams were given -----

  /** The submissions to one stream among the first k steps, in order. */
  ghost function GivenBytes(steps: seq<Step>, k: nat, id: StreamId): Bytes
    requires k <= |steps|
  {
    if k == 0 then []
    else GivenBytes(steps, k - 1, id) + Given(steps[k - 1], id).bytes
  }

  /** What one step gives to a stream. */
  ghost function Given(step: Step, id: StreamId): Piece {
    if step.SubmitWork? && id in step.work then step.work[id] else Piece([], false)
  }

  ghost predicate GivenEnd(steps: seq<Step>, k: nat, id: StreamId)
    requires k <= |steps|
  {
    k > 0 && (GivenEnd(steps, k - 1, id) || Given(steps[k - 1], id).eof)
  }

  ghost function GivenWeight(steps: seq<Step>, k: nat): nat
    requires k <= |steps|
  {
    if k == 0 then 0
    else GivenWeight(steps, k - 1) + if steps[k - 1].SubmitWork? then WorkWeight(steps[k - 1].work) else 0
  }

  lemma StreamStep(s: State, step: Step, id: StreamId)
    requires Enabled(s, step)
    ensures id in Apply(s, step).streams <==> id in s.streams || (step.SubmitWork? && id in step.work)
    ensures var before, after := StreamOf(s.streams, id), StreamOf(Apply(s, step).streams, id);
            && after.submitted == before.submitted + Given(step, id).bytes
            && (after.eof <==> before.eof || Given(step, id).eof)
  {}

  lemma WeightStep(s: State, step: Step)
    requires Enabled(s, step)
    ensures Apply(s, step).weight == s.weight + if step.SubmitWork? then WorkWeight(step.work) else 0
  {}

  lemma JoinGiven(first: Bytes, before: Bytes, more: Bytes)
    ensures first + before + more == first + (before + more)
  {}

  /** Step i submits to the stream. */
  ghost predicate SubmitsTo(steps: seq<Step>, i: nat, id: StreamId)
    requires i < |steps|
  {
    steps[i].SubmitWork? && id in steps[i].work
  }

  /** The streams are those of the start and those submitted to. */
  lemma {:induction false} StreamsAreNamed(states: seq<State>, steps: seq<Step>, k: nat, id: StreamId)
    requires IsRun(states, steps) && k < |states|
    ensures id in states[k].streams <==> id in states[0].streams || exists i | 0 <= i < k :: SubmitsTo(steps, i, id)
  {
    if k > 0 {
      StreamsAreNamed(states, steps, k - 1, id);
      StreamStep(states[k - 1], steps[k - 1], id);
      assert SubmitsTo(steps, k - 1, id) <==> steps[k - 1].SubmitWork? && id in steps[k - 1].work;
    }
  }

  /** A stream has been given what the start and the submissions of the run gave it, no more and no less, in order. */
  lemma {:induction false} StreamsAreGiven(states: seq<State>, steps: seq<Step>, k: nat, id: StreamId)
    requires IsRun(states, steps) && k < |states|
    ensures var first, now := StreamOf(states[0].streams, id), StreamOf(states[k].streams, id);
            && now.submitted == first.submitted + GivenBytes(steps, k, id)
            && (now.eof <==> first.eof || GivenEnd(steps, k, id))
  {
    if k > 0 {
      StreamsAreGiven(states, steps, k - 1, id);
      StreamStep(states[k - 1], steps[k - 1], id);
      JoinGiven(StreamOf(states[0].streams, id).submitted, GivenBytes(steps, k - 1, id), Given(steps[k - 1], id).bytes);
    }
  }

  lemma {:induction false} WeightIsGiven(states: seq<State>, steps: seq<Step>, k: nat)
    requires IsRun(states, steps) && k < |states|
    ensures states[k].weight == Measure(states[0].streams) + GivenWeight(steps, k)
  {
    if k > 0 {
      WeightIsGiven(states, steps, k - 1);
      WeightStep(states[k - 1], steps[k - 1]);
    }
  }
}
