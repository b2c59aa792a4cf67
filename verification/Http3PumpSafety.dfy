/** What holds in every reachable state of the concurrent send call. */
module Http3PumpSafety {
  import opened Bytes
  import opened Http3Library
  import opened PumpRounds
  import opened Http3Pump
  import opened Http3PumpHistory

  /** At most one thread is in the drain loop, and the flag is set exactly while one thread owns it. */
  lemma MutualExclusion(states: seq<State>, steps: seq<Step>, k: nat)
    requires IsRun(states, steps) && k < |states|
    ensures forall t, u | 0 <= t < |states[k].threads| && 0 <= u < |states[k].threads| ::
              states[k].threads[t].Pumps() && states[k].threads[u].Pumps() ==> t == u
    ensures states[k].pumping <==> exists t | 0 <= t < |states[k].threads| :: states[k].threads[t].Pumps()
  {
    ReachableInv(states, steps, k);
  }

  /** The submitted bytes that no round has taken yet. */
  function Untaken(s: State, id: StreamId): Bytes
    requires id in s.streams && |OfferedBytes(s.log, id)| <= |s.streams[id].submitted|
  {
    s.streams[id].submitted[|OfferedBytes(s.log, id)|..]
  }

  /** Handed and untaken bytes against submitted ones, in one state. */
  ghost predicate Conserved(s: State, id: StreamId)
    requires id in s.streams
  {
    && |OfferedBytes(s.log, id)| <= |s.streams[id].submitted|
    && (AllFaithful(s.log, id) ==> HandedBytes(s.log, id) + Untaken(s, id) == s.streams[id].submitted)
    && (NoEmptyRound(s.log, id) ==>
          && |HandedBytes(s.log, id)| + LostBytes(s.log, id) + |Untaken(s, id)| == |s.streams[id].submitted|
          && (HandedBytes(s.log, id) + Untaken(s, id) == s.streams[id].submitted <==> LostBytes(s.log, id) == 0)
          && (LostBytes(s.log, id) == 0 <==> AllFaithful(s.log, id)))
  }

  lemma SameTail(handed: Bytes, offered: Bytes, untaken: Bytes)
    ensures handed + untaken == offered + untaken <==> handed == offered
  {
    if handed + untaken == offered + untaken {
      assert handed == (handed + untaken)[..|handed|];
      assert offered == (offered + untaken)[..|offered|];
    }
  }

  lemma UntakenIsRest(s: State, id: StreamId)
    requires Accounted(s) && id in s.streams
    ensures |OfferedBytes(s.log, id)| <= |s.streams[id].submitted|
    ensures OfferedBytes(s.log, id) + Untaken(s, id) == s.streams[id].submitted
  {}

  lemma AccountedConserves(s: State, id: StreamId)
    requires Accounted(s) && id in s.streams
    ensures Conserved(s, id)
  {
    UntakenIsRest(s, id);
    SameTail(HandedBytes(s.log, id), OfferedBytes(s.log, id), Untaken(s, id));
    if NoEmptyRound(s.log, id) { Shortfall(s.log, id); }
    if AllFaithful(s.log, id) { FaithfulRounds(s.log, id); }
  }

  /**
   Conservation: if every round kept its guards, the bytes given to the transport
   followed by the bytes still pending are the submitted bytes. If each round had
   a vector this holds exactly then, exactly when no byte was lost, and the
   shortfall is the number of lost bytes. Submitted is what the start and the
   submissions of the run gave the stream, and the rounds are its hand-overs.
   */
  lemma Conservation(states: seq<State>, steps: seq<Step>, k: nat, id: StreamId)
    requires IsRun(states, steps) && k < |states| && id in states[k].streams
    ensures states[k].log == RoundsOf(states[0].up, steps, k)
    ensures states[k].streams[id].submitted == StreamOf(states[0].streams, id).submitted + GivenBytes(steps, k, id)
    ensures Conserved(states[k], id)
    ensures var s := states[k];
            (forall t | 0 <= t < |s.threads| :: !s.threads[t].HandedOver?) ==>
              s.streams[id].Valid() && Untaken(s, id) == s.streams[id].Pending()
  {
    ReachableInv(states, steps, k);
    LogIsRounds(states, steps, k);
    StreamsAreGiven(states, steps, k, id);
    var s := states[k];
    AccountedConserves(s, id);
    if s.acked == |s.log| {
      assert s.log[..s.acked] == s.log;
    }
  }

  /** FIN goes out at most once per stream, in its last round, when every submitted byte has been taken. */
  lemma FinOnceAndLast(states: seq<State>, steps: seq<Step>, k: nat, j: nat)
    requires IsRun(states, steps) && k < |states| && j < |states[k].log| && states[k].log[j].fin
    ensures forall i | 0 <= i < |states[k].log| && i != j && states[k].log[i].stream == states[k].log[j].stream ::
              i < j && !states[k].log[i].fin
    ensures var id := states[k].log[j].stream;
            id in states[k].streams && OfferedBytes(states[k].log, id) == states[k].streams[id].submitted
  {
    ReachableInv(states, steps, k);
    var s := states[k];
    var id := s.log[j].stream;
    if j < s.acked {
      assert s.streams[id].finDone;
    } else {
      var t :| 0 <= t < |s.threads| && s.threads[t].HandedOver?;
      assert InTransit(s, s.threads[t]);
      assert s.log == s.log[..s.acked] + [s.log[j]];
      OfferedSnoc(s.log[..s.acked], s.log[j], id);
    }
    PrefixAtFullLength(s, id);
  }

  lemma PrefixAtFullLength(s: State, id: StreamId)
    requires Accounted(s) && id in s.streams
    ensures |OfferedBytes(s.log[..s.acked], id)| <= |OfferedBytes(s.log, id)|
    ensures |OfferedBytes(s.log, id)| >= |s.streams[id].submitted| ==> OfferedBytes(s.log, id) == s.streams[id].submitted
  {
    OfferedMonotone(s.log, s.acked, id);
  }

  lemma {:induction false} OfferedMonotone(log: seq<Round>, n: nat, id: StreamId)
    requires n <= |log|
    ensures |OfferedBytes(log[..n], id)| <= |OfferedBytes(log, id)|
  {
    if n < |log| {
      OfferedMonotone(log[..|log| - 1], n, id);
      assert log[..|log| - 1][..n] == log[..n];
    } else {
      assert log[..n] == log;
    }
  }

  /**
   Over a whole run there are never more hand-overs than bytes and end marks
   queued at the start or submitted, whoever drains them: the loop cannot spin.
   */
  lemma RoundsBounded(states: seq<State>, steps: seq<Step>, k: nat)
    requires IsRun(states, steps) && k < |states|
    ensures |RoundsOf(states[0].up, steps, k)| <= Measure(states[0].streams) + GivenWeight(steps, k)
  {
    ReachableInv(states, steps, k);
    LogIsRounds(states, steps, k);
    WeightIsGiven(states, steps, k);
    var s := states[k];
    SpentBound(s.log[..s.acked]);
    if s.acked < |s.log| {
      var t :| 0 <= t < |s.threads| && s.threads[t].HandedOver?;
      assert InTransit(s, s.threads[t]);
      var r := s.log[s.acked];
      ReportMeasure(s.streams, r.stream, r.vecs, r.fin);
    }
  }

  /** A thread inside the call always has a step of its own to take, and never needs the library to fail. */
  lemma NeverStuck(states: seq<State>, steps: seq<Step>, k: nat, t: nat) returns (step: Step)
    requires IsRun(states, steps) && k < |states|
    requires t < |states[k].threads| && states[k].threads[t] != Outside
    ensures Enabled(states[k], step)
    ensures !step.ConnectionEvent? && !step.DrainFails?
    ensures step.t == t && Apply(states[k], step).threads[t] != states[k].threads[t]
  {
    ReachableInv(states, steps, k);
    var s := states[k];
    match s.threads[t]
    case Submitted => step := TestAndSet(t);
    case HoldingRound(_, _, _) => step := HandOver(t, true, []);
    case HandedOver(_, _) =>
      assert InTransit(s, s.threads[t]);
      step := ReportOffset(t);
    case Leaving => step := ClearFlag(t);
    case LoopHead =>
      if NoWork(s.streams) {
        step := DrainEmpty(t);
      } else {
        var id :| id in s.streams && s.streams[id].HasWork();
        var o := s.streams[id];
        if o.Pending() == [] {
          assert Datas([]) == [];
          step := Drain(t, id, [], true);
        } else {
          var vec := Vec(0, o.Pending()[..1]);
          PayloadOfOne(vec);
          step := Drain(t, id, [vec], false);
        }
      }
  }

  // ----- stranded work -----

  ghost predicate AllOutside(s: State) {
    forall t | 0 <= t < |s.threads| :: s.threads[t] == Outside
  }

  ghost predicate EndsDrain(step: Step) { step.DrainEmpty? || step.DrainFails? }

  /** Step i gives a stream work while some thread is leaving. */
  ghost predicate SubmitsInWindow(states: seq<State>, steps: seq<Step>, i: nat, id: StreamId)
    requires i < |states| && i < |steps|
  {
    steps[i].SubmitWork? && id in steps[i].work && SomeLeaving(states[i])
  }

  /** Step i gave the stream work in a window, and no drain has ended between it and step k. */
  ghost predicate StillLate(states: seq<State>, steps: seq<Step>, i: nat, k: nat, id: StreamId)
    requires i < |states| && i < k <= |steps|
  {
    SubmitsInWindow(states, steps, i, id) && forall j | i < j < k :: !EndsDrain(steps[j])
  }

  lemma LateStep(s: State, step: Step, id: StreamId)
    requires Enabled(s, step)
    ensures id in Apply(s, step).late <==>
              (step.SubmitWork? && id in step.work && SomeLeaving(s)) || (id in s.late && !EndsDrain(step))
  {}

  /** The history variable `late`, in terms of the steps of the run. */
  lemma {:induction false} LateMeansInWindow(states: seq<State>, steps: seq<Step>, k: nat, id: StreamId)
    requires IsRun(states, steps) && k < |states|
    ensures id in states[k].late <==> exists i | 0 <= i < k :: StillLate(states, steps, i, k, id)
  {
    if k > 0 {
      LateMeansInWindow(states, steps, k - 1, id);
      LateStep(states[k - 1], steps[k - 1], id);
      if SubmitsInWindow(states, steps, k - 1, id) {
        assert StillLate(states, steps, k - 1, k, id);
      } else if id in states[k].late {
        var i :| 0 <= i < k - 1 && StillLate(states, steps, i, k - 1, id);
        assert StillLate(states, steps, i, k, id);
      } else if i :| 0 <= i < k && StillLate(states, steps, i, k, id) {
        assert i < k - 1 && StillLate(states, steps, i, k - 1, id);
      }
    }
  }

  /** Step i ended a drain by failure with the stream pending, and no drain has ended between it and step k. */
  ghost predicate StillAbandoned(states: seq<State>, steps: seq<Step>, i: nat, k: nat, id: StreamId)
    requires i < |states| && i < k <= |steps|
  {
    && steps[i].DrainFails? && id in PendingStreams(states[i].streams)
    && forall j | i < j < k :: !EndsDrain(steps[j])
  }

  /** The stream was pending at the start and no drain has ended before step k. */
  ghost predicate StillInitial(states: seq<State>, steps: seq<Step>, k: nat, id: StreamId)
    requires 0 < |states| && k <= |steps|
  {
    id in PendingStreams(states[0].streams) && forall j | 0 <= j < k :: !EndsDrain(steps[j])
  }

  lemma LeftoverStep(s: State, step: Step, id: StreamId)
    requires Enabled(s, step)
    ensures id in Apply(s, step).leftover <==>
              (step.DrainFails? && id in PendingStreams(s.streams)) || (id in s.leftover && !EndsDrain(step))
  {}

  /** The history variable `leftover`, in terms of the steps of the run. */
  lemma {:induction false} LeftoverMeansFailed(states: seq<State>, steps: seq<Step>, k: nat, id: StreamId)
    requires IsRun(states, steps) && k < |states|
    ensures id in states[k].leftover <==>
              StillInitial(states, steps, k, id) || exists i | 0 <= i < k :: StillAbandoned(states, steps, i, k, id)
  {
    if k > 0 {
      LeftoverMeansFailed(states, steps, k - 1, id);
      LeftoverStep(states[k - 1], steps[k - 1], id);
      if steps[k - 1].DrainFails? && id in PendingStreams(states[k - 1].streams) {
        assert StillAbandoned(states, steps, k - 1, k, id);
      } else if id in states[k].leftover {
        if !StillInitial(states, steps, k - 1, id) {
          var i :| 0 <= i < k - 1 && StillAbandoned(states, steps, i, k - 1, id);
          assert StillAbandoned(states, steps, i, k, id);
        }
      } else if i :| 0 <= i < k && StillAbandoned(states, steps, i, k, id) {
        assert i < k - 1 && StillAbandoned(states, steps, i, k - 1, id);
      }
    }
  }

  lemma PendingIsMissed(s: State)
    requires Inv(s) && AllOutside(s)
    ensures PendingStreams(s.streams) == s.late + s.leftover
  {
    assert !s.pumping;
    forall id ensures id in PendingStreams(s.streams) <==> id in s.late + s.leftover {
      assert Missed(s);
    }
  }

  /**
   When nobody is inside the call, a stream has pending work exactly if it was
   given some after a drain's end and before the clear of its flag, or if the
   last drain ended because the library failed and left it behind, or if it was
   pending from the start and no drain has ended yet.
   */
  lemma StrandedExactly(states: seq<State>, steps: seq<Step>, k: nat, id: StreamId)
    requires IsRun(states, steps) && k < |states| && AllOutside(states[k])
    ensures id in PendingStreams(states[k].streams) <==>
              || (exists i | 0 <= i < k :: StillLate(states, steps, i, k, id))
              || (exists i | 0 <= i < k :: StillAbandoned(states, steps, i, k, id))
              || StillInitial(states, steps, k, id)
  {
    ReachableInv(states, steps, k);
    PendingIsMissed(states[k]);
    LateMeansInWindow(states, steps, k, id);
    LeftoverMeansFailed(states, steps, k, id);
    assert id in PendingStreams(states[k].streams) <==> id in states[k].late + states[k].leftover;
  }

  /** A submission whose drain has not ended: some thread will test the flag or is in the loop. */
  ghost predicate SomeAtWork(s: State) {
    exists t | 0 <= t < |s.threads| :: s.threads[t].Submitted? || s.threads[t].InLoop()
  }

  lemma AtWorkStays(s: State, step: Step)
    requires OnePumper(s) && Enabled(s, step) && !EndsDrain(step) && !SomeLeaving(s)
    requires SomeAtWork(s) || step.SubmitWork?
    ensures SomeAtWork(Apply(s, step))
  {
    var s' := Apply(s, step);
    if step.SubmitWork? {
      assert s'.threads[step.t].Submitted?;
    } else {
      var t :| 0 <= t < |s.threads| && (s.threads[t].Submitted? || s.threads[t].InLoop());
      if step == TestAndSet(t) && s.pumping {
        var u :| 0 <= u < |s.threads| && s.threads[u].Pumps();
        assert u != t && s'.threads[u] == s.threads[u];
      } else {
        assert s'.threads[t].Submitted? || s'.threads[t].InLoop();
      }
    }
  }

  lemma NobodyLeavesUnended(s: State, step: Step)
    requires Enabled(s, step) && !EndsDrain(step) && !SomeLeaving(s)
    ensures !SomeLeaving(Apply(s, step))
  {
    var s' := Apply(s, step);
    forall t | 0 <= t < |s'.threads| ensures !s'.threads[t].Leaving? {
      assert !s.threads[t].Leaving?;
      assert step.ConnectionEvent? || t != step.t ==> s'.threads[t] == s.threads[t];
    }
  }

  /** Once a request has been submitted, its callers do not all leave before a drain has ended. */
  lemma {:induction false} SubmissionIsDrained(states: seq<State>, steps: seq<Step>, k: nat)
    requires IsRun(states, steps) && k < |states| && forall i | 0 <= i < k :: !EndsDrain(steps[i])
    ensures !SomeLeaving(states[k])
    ensures (exists i | 0 <= i < k :: steps[i].SubmitWork?) ==> SomeAtWork(states[k])
  {
    if k > 0 {
      var s, step := states[k - 1], steps[k - 1];
      SubmissionIsDrained(states, steps, k - 1);
      ReachableInv(states, steps, k - 1);
      NobodyLeavesUnended(s, step);
      if SomeAtWork(s) || step.SubmitWork? { AtWorkStays(s, step); }
    }
  }

  /**
   If the library never failed and no submission fell into a window, nothing is
   left pending once a request was submitted, or if nothing was at the start.
   */
  lemma NothingStranded(states: seq<State>, steps: seq<Step>, k: nat)
    requires IsRun(states, steps) && k < |states| && AllOutside(states[k])
    requires forall i | 0 <= i < k :: !steps[i].DrainFails? && (steps[i].SubmitWork? ==> !SomeLeaving(states[i]))
    requires NoWork(states[0].streams) || exists i | 0 <= i < k :: steps[i].SubmitWork?
    ensures NoWork(states[k].streams)
  {
    if forall j | 0 <= j < k :: !EndsDrain(steps[j]) {
      SubmissionIsDrained(states, steps, k);
      assert !SomeAtWork(states[k]);
    }
    forall id | id in states[k].streams ensures !states[k].streams[id].HasWork() {
      StrandedExactly(states, steps, k, id);
      assert id in PendingStreams(states[k].streams) <==> states[k].streams[id].HasWork();
    }
  }

  // ----- runs that show the conditions cannot be dropped -----

  lemma Extend(states: seq<State>, steps: seq<Step>, step: Step, next: State)
    returns (longer: seq<State>, more: seq<Step>)
    requires IsRun(states, steps) && Enabled(states[|steps|], step) && Apply(states[|steps|], step) == next
    ensures IsRun(longer, more) && more == steps + [step]
    ensures longer == states + [next]
  {
    longer, more := states + [next], steps + [step];
  }

  /** One request, submitted by the first of two threads, which then owns the flag. */
  lemma OneSubmitted(bytes: Bytes, weight: nat) returns (states: seq<State>, steps: seq<Step>)
    requires weight == WorkWeight(map[0 := Piece(bytes, true)])
    ensures IsRun(states, steps) && states[0].streams == map[] && forall i | 0 <= i < |steps| :: !steps[i].DrainFails?
    ensures states[|steps|] == State([LoopHead, Outside], true, true,
                                     map[0 := Outgoing(bytes, 0, true, false, false)], [], 0, weight, {}, {})
  {
    var work := map[0 := Piece(bytes, true)];
    var streams := map[0 := Outgoing(bytes, 0, true, false, false)];
    assert Submit(map[], work) == streams by { assert [] + bytes == bytes; }
    NoWorkExactly(map[]);
    var s0 := State([Outside, Outside], false, true, map[], [], 0, 0, {}, {});
    var s1 := State([Submitted, Outside], false, true, streams, [], 0, weight, {}, {});
    states, steps := [s0], [];
    states, steps := Extend(states, steps, SubmitWork(0, work), s1);
    states, steps := Extend(states, steps, TestAndSet(0), s1.(threads := [LoopHead, Outside], pumping := true));
  }

  /** The first of two threads, on a live connection with one stream, at some place of the loop. */
  ghost function InRound(s: State, pc: Pc, o: Outgoing, log: seq<Round>, acked: nat): State {
    s.(threads := [pc, Outside], streams := map[0 := o], log := log, acked := acked)
  }

  lemma DrainStep(s: State, o: Outgoing, r: Round)
    requires s == InRound(s, LoopHead, o, s.log, s.acked) && r.stream == 0 && o.Valid() && o.Offers(r.vecs, r.fin)
    ensures var step := Drain(0, 0, r.vecs, r.fin);
            && Enabled(s, step)
            && Apply(s, step) == InRound(s, HoldingRound(0, r.vecs, r.fin), o.(finOffered := r.fin), s.log, s.acked)
  {}

  lemma HandOverStep(s: State, o: Outgoing, r: Round)
    requires s == InRound(s, HoldingRound(0, r.vecs, r.fin), o, s.log, s.acked) && r.stream == 0 && r.up == s.up
    ensures var step := HandOver(0, r.accepted, r.stray);
            && Enabled(s, step)
            && Apply(s, step) == InRound(s, HandedOver(0, |Payload(r.vecs)|), o, s.log + [r], s.acked)
  {}

  lemma ReportStep(s: State, o: Outgoing, written: nat)
    requires s == InRound(s, HandedOver(0, written), o, s.log, s.acked)
    ensures Enabled(s, ReportOffset(0))
    ensures Apply(s, ReportOffset(0)) == InRound(s, LoopHead, o.Advance(written), s.log, s.acked + 1)
  {}

  /** One turn of the first thread's loop. */
  lemma OneRound(states: seq<State>, steps: seq<Step>, o: Outgoing, r: Round)
    returns (longer: seq<State>, more: seq<Step>)
    requires IsRun(states, steps) && forall i | 0 <= i < |steps| :: !steps[i].DrainFails?
    requires var s := states[|steps|]; s == InRound(s, LoopHead, o, s.log, s.acked) && r.up == s.up
    requires r.stream == 0 && o.Valid() && o.Offers(r.vecs, r.fin)
    ensures IsRun(longer, more) && longer[0] == states[0] && forall i | 0 <= i < |more| :: !more[i].DrainFails?
    ensures var s := states[|steps|];
            longer[|more|] == InRound(s, LoopHead, o.(finOffered := r.fin).Advance(|Payload(r.vecs)|), s.log + [r], s.acked + 1)
  {
    var s := states[|steps|];
    var offered := o.(finOffered := r.fin);
    DrainStep(s, o, r);
    var s1 := Apply(s, Drain(0, 0, r.vecs, r.fin));
    longer, more := Extend(states, steps, Drain(0, 0, r.vecs, r.fin), s1);
    HandOverStep(s1, offered, r);
    var s2 := Apply(s1, HandOver(0, r.accepted, r.stray));
    longer, more := Extend(longer, more, HandOver(0, r.accepted, r.stray), s2);
    ReportStep(s2, offered, |Payload(r.vecs)|);
    longer, more := Extend(longer, more, ReportOffset(0), Apply(s2, ReportOffset(0)));
  }

  /** The request is drained in one round; the thread is then leaving. */
  lemma DrainedOnce(r: Round, weight: nat) returns (states: seq<State>, steps: seq<Step>)
    requires |r.vecs| <= MAX_VECS && |Payload(r.vecs)| < TWO_64
    requires r.stream == 0 && r.fin && r.up
    requires weight == WorkWeight(map[0 := Piece(Payload(r.vecs), true)])
    ensures IsRun(states, steps) && states[0].streams == map[] && forall i | 0 <= i < |steps| :: !steps[i].DrainFails?
    ensures states[|steps|] == State([Leaving, Outside], true, true,
                                     map[0 := Outgoing(Payload(r.vecs), |Payload(r.vecs)|, true, false, true)],
                                     [r], 1, weight, {}, {})
  {
    var bytes := Payload(r.vecs);
    var before := Outgoing(bytes, 0, true, false, false);
    states, steps := OneSubmitted(bytes, weight);
    assert before.Pending() == bytes;
    assert before.Offers(r.vecs, true);
    states, steps := OneRound(states, steps, before, r);
    var s := states[|steps|];
    assert [] + [r] == [r];
    states, steps := Extend(states, steps, DrainEmpty(0), s.(threads := [Leaving, Outside]));
  }

  /** The second of two threads submits to a new stream while the first is leaving. */
  lemma LateSubmission(s: State, work: Work)
    requires s.threads == [Leaving, Outside] && s.pumping
    requires work == map[4 := Piece([2], true)] && 4 !in s.streams
    ensures Enabled(s, SubmitWork(1, work))
    ensures var s' := Apply(s, SubmitWork(1, work));
            s'.threads == [Leaving, Submitted] && s'.pumping && 4 in s'.streams && s'.streams[4].HasWork()
  {}

  /** A second thread submits while the first is leaving: its request stays behind. */
  lemma StrandedRun() returns (states: seq<State>, steps: seq<Step>)
    ensures IsRun(states, steps) && AllOutside(states[|steps|]) && !NoWork(states[|steps|].streams)
    ensures NoWork(states[0].streams) && forall i | 0 <= i < |steps| :: !steps[i].DrainFails?
  {
    var vec := Vec(0, [1]);
    PayloadOfOne(vec);
    var work := map[4 := Piece([2], true)];
    states, steps := DrainedOnce(Round(0, [vec], true, true, true, []), WorkWeight(map[0 := Piece([1], true)]));
    var s := states[|steps|];
    LateSubmission(s, work);
    var s1 := Apply(s, SubmitWork(1, work));
    states, steps := Extend(states, steps, SubmitWork(1, work), s1);
    var s2 := s1.(threads := [Leaving, Outside]);
    states, steps := Extend(states, steps, TestAndSet(1), s2);
    states, steps := Extend(states, steps, ClearFlag(0), s2.(threads := [Outside, Outside], pumping := false));
  }

  /** What binding a stream has queued waits for the first successful submission: a failed one leaves it pending. */
  lemma PendingFromStart(bytes: Bytes) returns (states: seq<State>, steps: seq<Step>)
    requires bytes != []
    ensures IsRun(states, steps) && steps == [SubmitFails(0)]
    ensures AllOutside(states[0]) && AllOutside(states[1])
    ensures states[1].streams == map[2 := FRESH.Append(Piece(bytes, false))] && !NoWork(states[1].streams)
  {
    var bound := map[2 := FRESH.Append(Piece(bytes, false))];
    var s := State([Outside], false, true, bound, [], 0, Measure(bound), {}, {2});
    assert PendingStreams(bound) == {2} by { assert bound[2].HasWork(); }
    states, steps := [s], [];
    states, steps := Extend(states, steps, SubmitFails(0), s);
    assert steps == [SubmitFails(0)];
  }

  /** A round of two vectors: everything was accepted and nothing is pending, yet the second vector is gone. */
  lemma LossyRun() returns (states: seq<State>, steps: seq<Step>)
    ensures IsRun(states, steps) && AllOutside(states[|steps|]) && NoWork(states[|steps|].streams)
    ensures var s := states[|steps|];
            && (forall k | 0 <= k < |s.log| :: s.log[k].up && s.log[k].accepted)
            && 0 in s.streams && s.streams[0].submitted == [1, 2] && HandedBytes(s.log, 0) == [1]
  {
    var vecs := [Vec(0, [1]), Vec(1, [2])];
    assert Datas(vecs) == [[1], [2]];
    assert Concat([[1], [2]]) == [1] + Concat([[1], [2]][1..]) == [1, 2];
    states, steps := DrainedOnce(Round(0, vecs, true, true, true, []), WorkWeight(map[0 := Piece([1, 2], true)]));
    var s := states[|steps|];
    states, steps := Extend(states, steps, ClearFlag(0), s.(threads := [Outside, Outside], pumping := false));
    assert s.log[..0] == [];
  }

  /** A request without a body byte: its round has only FIN, and hands over bytes that nobody submitted. */
  lemma StrayRun(stray: Bytes) returns (states: seq<State>, steps: seq<Step>)
    ensures IsRun(states, steps) && AllOutside(states[|steps|]) && NoWork(states[|steps|].streams)
    ensures var s := states[|steps|];
            && (forall k | 0 <= k < |s.log| :: s.log[k].up && s.log[k].accepted)
            && 0 in s.streams && s.streams[0].submitted == [] && HandedBytes(s.log, 0) == stray
  {
    var r := Round(0, [], true, true, true, stray);
    assert Datas([]) == [];
    states, steps := DrainedOnce(r, WorkWeight(map[0 := Piece([], true)]));
    var s := states[|steps|];
    states, steps := Extend(states, steps, ClearFlag(0), s.(threads := [Outside, Outside], pumping := false));
    assert s.log[..0] == [];
  }
}
