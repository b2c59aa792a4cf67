/**
 The client's HTTP/3 send call, entered by any number of threads and
 interleaved step by step: submit the request, test-and-set the `pumping` flag,
 drain the library round by round, clear the flag.
 */
module Http3Pump {
  import opened Bytes
  import opened Http3Library
  import opened PumpRounds

  /** Where a thread stands in the call. */
  datatype Pc =
    | Outside                                                      // not in the call
    | Submitted                                                    // before the test-and-set
    | LoopHead                                                     // about to ask the library
    | HoldingRound(stream: StreamId, vecs: seq<Vec>, fin: bool)    // converted, not yet handed over
    | HandedOver(stream: StreamId, written: nat)                   // offset not yet reported
    | Leaving                                                      // saw an empty drain, flag still set
  {
    predicate InLoop() { LoopHead? || HoldingRound? || HandedOver? }
    predicate Pumps() { InLoop() || Leaving? }
  }

  /**
   The program state, and five history variables: `log` is every hand-over,
   the first `acked` of which have been reported to the library; `weight` is all
   work ever submitted; `late` is the streams given work while some thread was
   leaving, since the last drain ended; `leftover` is what was pending when that
   drain ended because the library failed, or at the start while none has ended.
   */
  datatype State = State(
    threads: seq<Pc>,
    pumping: bool,
    up: bool,
    streams: Streams,
    log: seq<Round>,
    acked: nat,
    weight: nat,
    late: set<StreamId>,
    leftover: set<StreamId>)

  /** A library nothing has been taken from: binding the control and QPACK streams may have queued bytes already. */
  ghost predicate Init(s: State) {
    && (forall t | 0 <= t < |s.threads| :: s.threads[t] == Outside)
    && !s.pumping
    && ValidStreams(s.streams) && NothingTaken(s.streams)
    && s.log == []
    && s.acked == 0 && s.weight == Measure(s.streams)
    && s.late == {} && s.leftover == PendingStreams(s.streams)
  }

  ghost predicate NothingTaken(streams: Streams) {
    forall id | id in streams :: streams[id].offset == 0 && !streams[id].finOffered && !streams[id].finDone
  }

  /** n threads, none of them in the call yet. */
  ghost function AtStart(n: nat, up: bool, streams: Streams): State
    requires ValidStreams(streams)
  {
    State(seq(n, _ => Outside), false, up, streams, [], 0, Measure(streams), {}, PendingStreams(streams))
  }

  datatype Step =
    | SubmitWork(t: nat, work: Work)
    | SubmitFails(t: nat)
    | TestAndSet(t: nat)
    | Drain(t: nat, stream: StreamId, vecs: seq<Vec>, fin: bool)
    | DrainEmpty(t: nat)
    | DrainFails(t: nat)
    | HandOver(t: nat, accepted: bool, stray: Bytes)
    | ReportOffset(t: nat)
    | ClearFlag(t: nat)
    | ConnectionEvent(up: bool)

  ghost predicate At(s: State, t: nat, pc: Pc) {
    t < |s.threads| && s.threads[t] == pc
  }

  ghost predicate Enabled(s: State, step: Step) {
    match step
    case SubmitWork(t, work) => At(s, t, Outside) && CanSubmit(s.streams, work)
    case SubmitFails(t) => At(s, t, Outside)
    case TestAndSet(t) => At(s, t, Submitted)
    case Drain(t, stream, vecs, fin) =>
      && At(s, t, LoopHead)
      && stream in s.streams && s.streams[stream].Valid() && s.streams[stream].Offers(vecs, fin)
    case DrainEmpty(t) => At(s, t, LoopHead) && NoWork(s.streams)
    case DrainFails(t) => At(s, t, LoopHead)
    case HandOver(t, accepted, stray) => t < |s.threads| && s.threads[t].HoldingRound?
    case ReportOffset(t) => t < |s.threads| && s.threads[t].HandedOver? && s.threads[t].stream in s.streams
    case ClearFlag(t) => At(s, t, Leaving)
    case ConnectionEvent(up) => true
  }

  ghost predicate SomeLeaving(s: State) {
    exists t | 0 <= t < |s.threads| :: s.threads[t].Leaving?
  }

  ghost function PendingStreams(streams: Streams): set<StreamId> {
    set id | id in streams && streams[id].HasWork()
  }

  ghost function Move(s: State, t: nat, pc: Pc): State
    requires t < |s.threads|
  {
    s.(threads := s.threads[t := pc])
  }

  ghost function Apply(s: State, step: Step): State
    requires Enabled(s, step)
  {
    match step
    case SubmitWork(t, work) =>
      Move(s, t, Submitted).(
        streams := Submit(s.streams, work),
        weight := s.weight + WorkWeight(work),
        late := if SomeLeaving(s) then s.late + work.Keys else s.late)
    case SubmitFails(t) => s
    case TestAndSet(t) =>
      if s.pumping then Move(s, t, Outside) else Move(s, t, LoopHead).(pumping := true)
    case Drain(t, stream, vecs, fin) =>
      Move(s, t, HoldingRound(stream, vecs, fin)).(streams := Offered(s.streams, stream, fin))
    case DrainEmpty(t) => Move(s, t, Leaving).(late := {}, leftover := {})
    case DrainFails(t) => Move(s, t, Leaving).(late := {}, leftover := PendingStreams(s.streams))
    case HandOver(t, accepted, stray) =>
      var pc := s.threads[t];
      Move(s, t, HandedOver(pc.stream, |Payload(pc.vecs)|)).(
        log := s.log + [Round(pc.stream, pc.vecs, pc.fin, s.up, accepted, stray)])
    case ReportOffset(t) =>
      var pc := s.threads[t];
      Move(s, t, LoopHead).(streams := ReportWritten(s.streams, pc.stream, pc.written), acked := s.acked + 1)
    case ClearFlag(t) => Move(s, t, Outside).(pumping := false)
    case ConnectionEvent(up) => s.(up := up)
  }

  /** A run: a first state and one state after each step. */
  ghost predicate IsRun(states: seq<State>, steps: seq<Step>) {
    && |states| == |steps| + 1
    && Init(states[0])
    && forall i | 0 <= i < |steps| :: Enabled(states[i], steps[i]) && states[i + 1] == Apply(states[i], steps[i])
  }

  // ----- what every step keeps -----

  ghost predicate OnePumper(s: State) {
    && (forall t, u | 0 <= t < |s.threads| && 0 <= u < |s.threads| && s.threads[t].Pumps() && s.threads[u].Pumps() :: t == u)
    && (s.pumping <==> exists t | 0 <= t < |s.threads| :: s.threads[t].Pumps())
  }

  /** Offered bytes are a prefix of the submitted ones; the offset counts the reported rounds. */
  ghost predicate Accounted(s: State) {
    && ValidStreams(s.streams)
    && s.acked <= |s.log|
    && (forall k | 0 <= k < |s.log| :: s.log[k].stream in s.streams && 1 <= s.log[k].Weight())
    && forall id | id in s.streams ::
      && OfferedBytes(s.log, id) <= s.streams[id].submitted
      && s.streams[id].offset == |OfferedBytes(s.log[..s.acked], id)|
  }

  /** The round in a thread's hands is still what the library offers. */
  ghost predicate InTransit(s: State, pc: Pc)
    requires Accounted(s)
  {
    match pc
    case HoldingRound(stream, vecs, fin) =>
      && stream in s.streams && s.streams[stream].Offers(vecs, fin)
      && s.streams[stream].finOffered == fin
    case HandedOver(stream, written) =>
      && s.acked + 1 == |s.log|
      && var r := s.log[s.acked];
         r.stream == stream && |Payload(r.vecs)| == written
         && s.streams[stream].Offers(r.vecs, r.fin) && s.streams[stream].finOffered == r.fin
    case _ => true
  }

  ghost predicate RoundsInTransit(s: State)
    requires Accounted(s)
  {
    && (forall t | 0 <= t < |s.threads| :: InTransit(s, s.threads[t]))
    && ((forall t | 0 <= t < |s.threads| :: !s.threads[t].HandedOver?) ==> s.acked == |s.log|)
  }

  /** A round that carried FIN is the last one of its stream. */
  ghost predicate FinIsLast(s: State)
    requires Accounted(s)
  {
    && (forall k | 0 <= k < s.acked && s.log[k].fin :: s.streams[s.log[k].stream].finDone)
    && (forall j, k | 0 <= j < k < |s.log| && s.log[j].fin :: s.log[k].stream != s.log[j].stream)
  }

  ghost predicate Budget(s: State)
    requires Accounted(s)
  {
    Spent(s.log[..s.acked]) + Measure(s.streams) == s.weight
  }

  ghost predicate Missed(s: State) {
    forall id | id in s.streams && s.streams[id].HasWork() :: id in s.late || id in s.leftover
  }

  /** Outside the drain loop, pending work is the missed work or has a thread about to test the flag. */
  ghost predicate Stranding(s: State) {
    && (SomeLeaving(s) ==> Missed(s))
    && (!s.pumping ==> Missed(s) || exists t | 0 <= t < |s.threads| :: s.threads[t].Submitted?)
    && ((forall t | 0 <= t < |s.threads| :: !s.threads[t].InLoop()) ==>
          forall id | id in s.late + s.leftover :: id in s.streams && s.streams[id].HasWork())
  }

  ghost predicate Inv(s: State) {
    && OnePumper(s)
    && Accounted(s)
    && RoundsInTransit(s)
    && FinIsLast(s)
    && Budget(s)
    && Stranding(s)
  }

  lemma InitInv(s: State)
    requires Init(s)
    ensures Inv(s)
  {
    assert s.log[..s.acked] == [];
  }

  /** A step leaves the other threads where they are. */
  lemma OthersStay(s: State, step: Step, u: nat)
    requires Enabled(s, step) && u < |s.threads| && (step.ConnectionEvent? || step.t != u)
    ensures |Apply(s, step).threads| == |s.threads| && Apply(s, step).threads[u] == s.threads[u]
  {}

  /** How one step changes the pumping of the thread that takes it, and the flag. */
  lemma StepperPumps(s: State, step: Step)
    requires Enabled(s, step) && !step.ConnectionEvent?
    ensures step.t < |s.threads| == |Apply(s, step).threads|
    ensures var s' := Apply(s, step);
            var before, after := s.threads[step.t].Pumps(), s'.threads[step.t].Pumps();
            if step.TestAndSet? then !before && s'.pumping && (after <==> !s.pumping)
            else if step.ClearFlag? then before && !after && !s'.pumping
            else s'.pumping == s.pumping && after == before
  {}

  lemma KeepsOnePumper(s: State, step: Step)
    requires OnePumper(s) && Enabled(s, step)
    ensures OnePumper(Apply(s, step))
  {
    if !step.ConnectionEvent? {
      var s', t := Apply(s, step), step.t;
      StepperPumps(s, step);
      forall u | 0 <= u < |s.threads| && u != t ensures s'.threads[u] == s.threads[u] { OthersStay(s, step, u); }
      if s.pumping {
        var u :| 0 <= u < |s.threads| && s.threads[u].Pumps();
        assert s'.threads[u].Pumps() || step == ClearFlag(u);
      } else {
        assert s'.pumping ==> s'.threads[t].Pumps();
      }
    }
  }

  lemma SubmitKeepsAccounted(s: State, t: nat, work: Work)
    requires Accounted(s) && Enabled(s, SubmitWork(t, work))
    ensures Accounted(Apply(s, SubmitWork(t, work)))
  {
    var s' := Apply(s, SubmitWork(t, work));
    SubmitMeasure(s.streams, work);
    forall id | id in s'.streams
      ensures OfferedBytes(s'.log, id) <= s'.streams[id].submitted
      ensures s'.streams[id].offset == |OfferedBytes(s'.log[..s'.acked], id)|
    {
      if id !in s.streams {
        NothingOffered(s.log, id);
        NothingOffered(s.log[..s.acked], id);
      }
    }
  }

  lemma HandOverKeepsAccounted(s: State, t: nat, accepted: bool, stray: Bytes)
    requires Inv(s) && Enabled(s, HandOver(t, accepted, stray))
    ensures Accounted(Apply(s, HandOver(t, accepted, stray)))
  {
    var s' := Apply(s, HandOver(t, accepted, stray));
    var pc := s.threads[t];
    assert InTransit(s, pc);
    OnlyHolder(s, t);
    assert s.log[..s.acked] == s.log == s'.log[..s'.acked];
    forall id | id in s'.streams
      ensures OfferedBytes(s'.log, id) <= s'.streams[id].submitted
    {
      OfferedSnoc(s.log, s'.log[|s.log|], id);
      if id == pc.stream {
        PrefixGrows(OfferedBytes(s.log, id), Payload(pc.vecs), s.streams[id].submitted);
      }
    }
  }

  lemma PrefixGrows(front: Bytes, next: Bytes, whole: Bytes)
    requires front <= whole && next <= whole[|front|..]
    ensures front + next <= whole
  {
    assert whole == whole[..|front|] + whole[|front|..];
  }

  lemma ReportKeepsAccounted(s: State, t: nat)
    requires Inv(s) && Enabled(s, ReportOffset(t))
    ensures Accounted(Apply(s, ReportOffset(t)))
  {
    var s' := Apply(s, ReportOffset(t));
    assert InTransit(s, s.threads[t]);
    var r := s.log[s.acked];
    assert s.log == s.log[..s.acked] + [r] == s'.log[..s'.acked];
    forall id | id in s'.streams
      ensures s'.streams[id].offset == |OfferedBytes(s'.log[..s'.acked], id)|
    {
      OfferedSnoc(s.log[..s.acked], r, id);
    }
    ReportMeasure(s.streams, r.stream, r.vecs, r.fin);
  }

  lemma KeepsAccounted(s: State, step: Step)
    requires Inv(s) && Enabled(s, step)
    ensures Accounted(Apply(s, step))
  {
    match step
    case SubmitWork(t, work) => SubmitKeepsAccounted(s, t, work);
    case HandOver(t, accepted, stray) => HandOverKeepsAccounted(s, t, accepted, stray);
    case ReportOffset(t) => ReportKeepsAccounted(s, t);
    case _ =>
  }

  lemma {:induction false} NothingOffered(log: seq<Round>, id: StreamId)
    requires forall k | 0 <= k < |log| :: log[k].stream != id
    ensures OfferedBytes(log, id) == []
  {
    if log != [] {
      NothingOffered(log[..|log| - 1], id);
    }
  }

  /** While a thread holds a round, every earlier round has been reported. */
  lemma OnlyHolder(s: State, t: nat)
    requires OnePumper(s) && Accounted(s) && RoundsInTransit(s)
    requires t < |s.threads| && s.threads[t].Pumps() && !s.threads[t].HandedOver?
    ensures s.acked == |s.log|
  {
    forall u | 0 <= u < |s.threads| ensures !s.threads[u].HandedOver? {
      if s.threads[u].HandedOver? { assert s.threads[u].Pumps(); }
    }
  }

  lemma KeepsRoundsInTransit(s: State, step: Step)
    requires Inv(s) && Enabled(s, step) && Accounted(Apply(s, step))
    ensures RoundsInTransit(Apply(s, step))
  {
    var s' := Apply(s, step);
    if step.ConnectionEvent? || step.SubmitFails? {
      assert s'.threads == s.threads;
      assert forall u | 0 <= u < |s.threads| :: InTransit(s, s.threads[u]) ==> InTransit(s', s.threads[u]);
    } else {
      var t := step.t;
      assert InTransit(s, s.threads[t]);
      forall u | 0 <= u < |s.threads| ensures InTransit(s', s'.threads[u]) {
        assert InTransit(s, s.threads[u]);
        if u == t {
          StepperInTransit(s, step);
        } else {
          OtherInTransit(s, step, u);
        }
      }
      if forall u | 0 <= u < |s.threads| :: !s'.threads[u].HandedOver? {
        assert !s'.threads[t].HandedOver?;
        if !s.threads[t].HandedOver? {
          forall u | 0 <= u < |s.threads| ensures !s.threads[u].HandedOver? {
            assert u != t ==> s'.threads[u] == s.threads[u];
          }
        }
      }
    }
  }

  lemma DrainInTransit(s: State, t: nat, stream: StreamId, vecs: seq<Vec>, fin: bool)
    requires Inv(s) && Enabled(s, Drain(t, stream, vecs, fin)) && Accounted(Apply(s, Drain(t, stream, vecs, fin)))
    ensures InTransit(Apply(s, Drain(t, stream, vecs, fin)), HoldingRound(stream, vecs, fin))
  {
    var before := s.streams[stream];
    assert before.(finOffered := fin).Pending() == before.Pending();
  }

  lemma HandOverInTransit(s: State, t: nat, accepted: bool, stray: Bytes)
    requires Inv(s) && Enabled(s, HandOver(t, accepted, stray)) && Accounted(Apply(s, HandOver(t, accepted, stray)))
    ensures InTransit(Apply(s, HandOver(t, accepted, stray)), Apply(s, HandOver(t, accepted, stray)).threads[t])
  {
    assert InTransit(s, s.threads[t]);
    OnlyHolder(s, t);
  }

  /** The thread that takes the step. */
  lemma StepperInTransit(s: State, step: Step)
    requires Inv(s) && Enabled(s, step) && Accounted(Apply(s, step))
    requires !step.ConnectionEvent?
    ensures step.t < |s.threads|
    ensures InTransit(Apply(s, step), Apply(s, step).threads[step.t])
  {
    if step.Drain? {
      DrainInTransit(s, step.t, step.stream, step.vecs, step.fin);
    } else if step.HandOver? {
      HandOverInTransit(s, step.t, step.accepted, step.stray);
    } else {
      assert !Apply(s, step).threads[step.t].HoldingRound? && !Apply(s, step).threads[step.t].HandedOver?;
    }
  }

  /** A submission only lengthens a stream at its far end, so what was offered is still on offer. */
  lemma SubmitKeepsOffer(before: Outgoing, piece: Piece, vecs: seq<Vec>, fin: bool)
    requires before.Valid() && before.Offers(vecs, fin) && before.finOffered == fin && !before.eof
    ensures before.Append(piece).Valid()
    ensures before.Append(piece).Offers(vecs, fin) && before.Append(piece).finOffered == fin
  {
    assert before.Append(piece).Pending() == before.Pending() + piece.bytes;
  }

  /** While one thread holds a round, any other can only submit or test the flag. */
  lemma OtherOutsideLoop(s: State, step: Step, u: nat)
    requires OnePumper(s) && Enabled(s, step) && !step.ConnectionEvent?
    requires u < |s.threads| && u != step.t && s.threads[u].Pumps()
    ensures step.t < |s.threads|
    ensures step.SubmitWork? || step.SubmitFails? || (step.TestAndSet? && s.pumping)
  {
    assert step.t < |s.threads|;
    assert !s.threads[step.t].Pumps();
  }

  /** Any other thread: only a submission can touch its stream. */
  lemma OtherInTransit(s: State, step: Step, u: nat)
    requires Inv(s) && Enabled(s, step) && Accounted(Apply(s, step))
    requires !step.ConnectionEvent? && u < |s.threads| && u != step.t
    ensures InTransit(Apply(s, step), s.threads[u])
  {
    var s', pc := Apply(s, step), s.threads[u];
    assert InTransit(s, pc);
    if pc.HoldingRound? || pc.HandedOver? {
      OtherOutsideLoop(s, step, u);
      assert s'.log == s.log && s'.acked == s.acked;
      if step.SubmitWork? && pc.stream in step.work {
        if pc.HoldingRound? {
          SubmitKeepsOffer(s.streams[pc.stream], step.work[pc.stream], pc.vecs, pc.fin);
        } else {
          SubmitKeepsOffer(s.streams[pc.stream], step.work[pc.stream], s.log[s.acked].vecs, s.log[s.acked].fin);
        }
        assert s'.streams[pc.stream] == s.streams[pc.stream].Append(step.work[pc.stream]);
      } else {
        assert s'.streams[pc.stream] == s.streams[pc.stream];
      }
    }
  }

  lemma HandOverKeepsFinIsLast(s: State, t: nat, accepted: bool, stray: Bytes)
    requires Inv(s) && Enabled(s, HandOver(t, accepted, stray)) && Accounted(Apply(s, HandOver(t, accepted, stray)))
    ensures FinIsLast(Apply(s, HandOver(t, accepted, stray)))
  {
    var s' := Apply(s, HandOver(t, accepted, stray));
    assert InTransit(s, s.threads[t]);
    OnlyHolder(s, t);
    var stream := s.threads[t].stream;
    forall j | 0 <= j < |s.log| && s.log[j].fin ensures s.log[j].stream != stream {
      assert s.streams[s.log[j].stream].finDone;
    }
    forall j, k | 0 <= j < k < |s'.log| && s'.log[j].fin ensures s'.log[k].stream != s'.log[j].stream {
      assert s'.log[j] == s.log[j];
      assert k < |s.log| ==> s'.log[k] == s.log[k];
    }
  }

  lemma ReportKeepsFinIsLast(s: State, t: nat)
    requires Inv(s) && Enabled(s, ReportOffset(t)) && Accounted(Apply(s, ReportOffset(t)))
    ensures FinIsLast(Apply(s, ReportOffset(t)))
  {
    var s' := Apply(s, ReportOffset(t));
    assert InTransit(s, s.threads[t]);
    forall k | 0 <= k < s'.acked && s.log[k].fin ensures s'.streams[s.log[k].stream].finDone {
      assert k < s.acked ==> s.streams[s.log[k].stream].finDone;
    }
  }

  lemma KeepsFinIsLast(s: State, step: Step)
    requires Inv(s) && Enabled(s, step) && Accounted(Apply(s, step))
    ensures FinIsLast(Apply(s, step))
  {
    if step.HandOver? {
      HandOverKeepsFinIsLast(s, step.t, step.accepted, step.stray);
    } else if step.ReportOffset? {
      ReportKeepsFinIsLast(s, step.t);
    } else {
      var s' := Apply(s, step);
      assert s'.log == s.log && s'.acked == s.acked;
      forall k | 0 <= k < s.acked && s.log[k].fin ensures s'.streams[s.log[k].stream].finDone {
        assert s.streams[s.log[k].stream].finDone;
      }
    }
  }

  lemma ReportKeepsBudget(s: State, t: nat)
    requires Inv(s) && Enabled(s, ReportOffset(t)) && Accounted(Apply(s, ReportOffset(t)))
    ensures Budget(Apply(s, ReportOffset(t)))
  {
    assert InTransit(s, s.threads[t]);
    var r := s.log[s.acked];
    ReportMeasure(s.streams, r.stream, r.vecs, r.fin);
    SpentOneMore(s.log, s.acked);
  }

  lemma SpentOneMore(log: seq<Round>, n: nat)
    requires n < |log|
    ensures Spent(log[..n + 1]) == Spent(log[..n]) + log[n].Weight()
  {
    assert log[..n + 1] == log[..n] + [log[n]];
    SpentSnoc(log[..n], log[n]);
  }

  lemma KeepsBudget(s: State, step: Step)
    requires Inv(s) && Enabled(s, step) && Accounted(Apply(s, step))
    ensures Budget(Apply(s, step))
  {
    if step.ReportOffset? {
      ReportKeepsBudget(s, step.t);
    } else if step.HandOver? {
      assert Apply(s, step).log[..s.acked] == s.log[..s.acked];
    } else {
      if step.SubmitWork? { SubmitMeasure(s.streams, step.work); }
      if step.Drain? { OfferedMeasure(s.streams, step.stream, step.fin); }
      assert Apply(s, step).log == s.log && Apply(s, step).acked == s.acked;
    }
  }

  lemma KeepsStranding(s: State, step: Step)
    requires Inv(s) && Enabled(s, step) && OnePumper(Apply(s, step))
    ensures Stranding(Apply(s, step))
  {
    if step.ConnectionEvent? || step.SubmitFails? {
    } else if step.SubmitWork? {
      SubmitKeepsStranding(s, step.t, step.work);
    } else if step.TestAndSet? && s.pumping {
      TurnedAwayKeepsStranding(s, step.t);
    } else {
      LoopKeepsStranding(s, step);
    }
  }

  lemma TurnedAwayKeepsStranding(s: State, t: nat)
    requires Inv(s) && Enabled(s, TestAndSet(t)) && s.pumping
    ensures Stranding(Apply(s, TestAndSet(t)))
  {
    var s' := Apply(s, TestAndSet(t));
    assert s' == Move(s, t, Outside);
    assert SomeLeaving(s') ==> SomeLeaving(s);
    if forall u | 0 <= u < |s'.threads| :: !s'.threads[u].InLoop() {
      forall u | 0 <= u < |s.threads| ensures !s.threads[u].InLoop() {
        assert u != t ==> !s'.threads[u].InLoop();
      }
    }
  }

  lemma SubmitKeepsStranding(s: State, t: nat, work: Work)
    requires Inv(s) && Enabled(s, SubmitWork(t, work))
    ensures Stranding(Apply(s, SubmitWork(t, work)))
  {
    var s' := Apply(s, SubmitWork(t, work));
    assert s'.threads[t].Submitted?;
    assert forall u | 0 <= u < |s.threads| && u != t :: s'.threads[u] == s.threads[u];
    assert SomeLeaving(s') ==> SomeLeaving(s);
    if forall u | 0 <= u < |s'.threads| :: !s'.threads[u].InLoop() {
      forall u | 0 <= u < |s.threads| ensures !s.threads[u].InLoop() {
        assert u != t ==> !s'.threads[u].InLoop();
      }
      forall id | id in s'.late + s'.leftover ensures id in s'.streams && s'.streams[id].HasWork() {
        assert id in s.late + s.leftover || id in work;
      }
    }
  }

  lemma LoopKeepsStranding(s: State, step: Step)
    requires Inv(s) && Enabled(s, step) && OnePumper(Apply(s, step))
    requires !step.ConnectionEvent? && !step.SubmitFails? && !step.SubmitWork?
    requires step.t < |s.threads| && (step.TestAndSet? ==> !s.pumping)
    ensures Stranding(Apply(s, step))
  {
    var s' := Apply(s, step);
    var t := step.t;
    assert forall u | 0 <= u < |s.threads| && u != t :: s'.threads[u] == s.threads[u];
    if s'.threads[t].Pumps() {
      assert s'.pumping;
      if s'.threads[t].InLoop() {
        forall u | 0 <= u < |s'.threads| ensures !s'.threads[u].Leaving? {
          assert s'.threads[u].Pumps() ==> u == t;
        }
      }
    } else {
      assert step.ClearFlag? && s.threads[t].Leaving? && SomeLeaving(s);
      forall u | 0 <= u < |s.threads| ensures !s.threads[u].InLoop() && !s'.threads[u].Leaving? {
        assert s.threads[u].Pumps() ==> u == t;
      }
    }
  }

  lemma KeepsInv(s: State, step: Step)
    requires Inv(s) && Enabled(s, step)
    ensures Inv(Apply(s, step))
  {
    KeepsOnePumper(s, step);
    KeepsAccounted(s, step);
    KeepsRoundsInTransit(s, step);
    KeepsFinIsLast(s, step);
    KeepsBudget(s, step);
    KeepsStranding(s, step);
  }

  lemma {:induction false} ReachableInv(states: seq<State>, steps: seq<Step>, k: nat)
    requires IsRun(states, steps) && k < |states|
    ensures Inv(states[k])
  {
    if k == 0 {
      InitInv(states[0]);
    } else {
      ReachableInv(states, steps, k - 1);
      KeepsInv(states[k - 1], steps[k - 1]);
    }
  }
}
