/**
 Whole runs of the sending calls, read off their steps: what each call has done
 when it is over, and when a block is allocated, handed over and freed.
 */
module SendRuns {
  import opened Bytes
  import D = DatagramSend
  import opened SendOwnership

  // ----- the connection as its events leave it -----

  /** Connection up, datagrams enabled, and the bound on a datagram. */
  datatype Env = Env(up: bool, enabled: bool, bound: D.uint32)

  /** After the first k steps; the first value of the two datagram fields is left open. */
  ghost function EnvAt(enabled: bool, bound: D.uint32, steps: seq<Step>, k: nat): Env
    requires k <= |steps|
  {
    if k == 0 then Env(false, enabled, bound)
    else
      var before := EnvAt(enabled, bound, steps, k - 1);
      match steps[k - 1]
      case ConnectionEvent(ok) => before.(up := ok)
      case DatagramStateChanged(maxSendLength, e) => before.(enabled := e, bound := maxSendLength)
      case _ => before
  }

  ghost function EnvOf(s: State): Env {
    Env(s.connectionOk, s.datagramSendEnabled, s.maxSendLength)
  }

  ghost function RunEnv(states: seq<State>, steps: seq<Step>, k: nat): Env
    requires k <= |steps| < |states|
  {
    EnvAt(states[0].datagramSendEnabled, states[0].maxSendLength, steps, k)
  }

  lemma EnvStep(s: State, step: Step)
    requires Enabled(s, step)
    ensures EnvOf(Apply(s, step)) == match step
                                     case ConnectionEvent(ok) => EnvOf(s).(up := ok)
                                     case DatagramStateChanged(m, e) => EnvOf(s).(enabled := e, bound := m)
                                     case _ => EnvOf(s)
  {}

  /** The fields show the last event of each kind. */
  lemma {:induction false} EventsSeen(states: seq<State>, steps: seq<Step>, k: nat)
    requires IsRun(states, steps) && k < |states|
    ensures EnvOf(states[k]) == RunEnv(states, steps, k)
  {
    if k > 0 {
      EventsSeen(states, steps, k - 1);
      EnvStep(states[k - 1], steps[k - 1]);
    }
  }

  // ----- what one thread's latest call has done -----

  /**
   The latest call of a thread: its argument, whether its guards let it through,
   and its transport calls with what the block then contained. For a datagram
   call also the bound its last turn read, what its turns have met so far, and
   whether one of them found no memory.
   */
  datatype Trace =
    | NoCall
    | OfDatagram(input: Bytes, usable: bool, calls: seq<D.Attempt>, bound: D.uint32, schedule: seq<D.Observation>, lacked: bool)
    | OfBytes(input: Bytes, usable: bool, calls: seq<D.Attempt>)
    | OfBuffers(input: Bytes, usable: bool, calls: seq<D.Attempt>)

  ghost function AfterCall(trace: Trace, call: D.Attempt): Trace {
    match trace
    case NoCall => NoCall
    case OfDatagram(input, usable, calls, bound, schedule, lacked) =>
      OfDatagram(input, usable, calls + [call], bound, schedule + [D.Observation(bound, true, call.accepted)], lacked)
    case OfBytes(input, usable, calls) => OfBytes(input, usable, calls + [call])
    case OfBuffers(input, usable, calls) => OfBuffers(input, usable, calls + [call])
  }

  /** One step of a run; `found` is what the block in the thread's hands contains. */
  ghost function TraceStep(trace: Trace, env: Env, found: Bytes, step: Step, t: nat): Trace {
    match step
    case StartDatagram(u, data) =>
      if u == t then OfDatagram(data, env.up && env.enabled, [], 0, [], false) else trace
    case StartStreamBytes(u, data, _, haveMemory) =>
      if u == t then OfBytes(data, env.up && haveMemory, []) else trace
    case StartStreamBuffers(u, data, _) =>
      if u == t then OfBuffers(data, false, []) else trace
    case DatagramTurn(u, _, haveMemory) =>
      if u != t || !trace.OfDatagram? then trace
      else if haveMemory then trace.(bound := env.bound)
      else trace.(lacked := true, schedule := trace.schedule + [D.Observation(env.bound, false, false)])
    case CheckConnection(u) =>
      if u == t && trace.OfBuffers? then trace.(usable := env.up) else trace
    case TransportCall(u, accepted) => if u == t then AfterCall(trace, D.Attempt(found, accepted)) else trace
    case _ => trace
  }

  /** What the transport would find in the block in the thread's hands. */
  ghost function FoundBy(s: State, t: nat): Bytes {
    if t < |s.threads| && s.threads[t].Holds() then Found(s, s.threads[t].block) else []
  }

  ghost function TraceOf(states: seq<State>, steps: seq<Step>, t: nat, k: nat): Trace
    requires k <= |steps| < |states|
  {
    if k == 0 then NoCall
    else
      TraceStep(TraceOf(states, steps, t, k - 1), RunEnv(states, steps, k - 1), FoundBy(states[k - 1], t), steps[k - 1], t)
  }

  /** A datagram call between two blocks: the fragments so far are its transport calls. */
  ghost predicate BetweenBlocks(trace: Trace, rest: Bytes) {
    && trace.OfDatagram? && trace.usable && !trace.lacked
    && D.Fragments(trace.input, trace.schedule) == D.Result(trace.calls, rest, if rest == [] then D.Finished else D.Running)
  }

  /** A datagram call with a block in hand that no transport call has been made with. */
  ghost predicate WithBlock(trace: Trace, bytes: Bytes, rest: Bytes) {
    && BetweenBlocks(trace, bytes + rest) && bytes + rest != []
    && |bytes| == D.Chunk(|bytes + rest|, trace.bound)
  }

  /** The call is over: what it has called the transport with. */
  ghost predicate Done(trace: Trace) {
    match trace
    case NoCall => true
    case OfDatagram(input, usable, calls, _, schedule, lacked) =>
      if usable then
        var r := D.Fragments(input, schedule);
        r.attempts == calls && (r.outcome == D.Finished || (r.outcome == D.OutOfMemory && lacked))
      else calls == []
    case OfBytes(input, usable, calls) => if usable then |calls| == 1 && calls[0].bytes == input else calls == []
    case OfBuffers(input, usable, calls) => if usable then |calls| == 1 && calls[0].bytes == input else calls == []
  }

  /** How far the call has come, as its program counter shows. */
  ghost predicate Explains(trace: Trace, pc: Pc) {
    match pc
    case Idle => Done(trace)
    case Loop(rest) => BetweenBlocks(trace, rest)
    case Allocated(call, _, bytes) => Unsent(trace, call, bytes)
    case Filled(call, _, bytes) => Unsent(trace, call, bytes)
    case Checked(call, _, bytes) => call == StreamBuffers && trace == OfBuffers(bytes, true, [])
    case Refused(call, _, _) => if call.Datagram? then BetweenBlocks(trace, call.rest) else !trace.OfDatagram? && Done(trace)
  }

  ghost predicate Unsent(trace: Trace, call: Call, bytes: Bytes) {
    match call
    case Datagram(rest) => WithBlock(trace, bytes, rest)
    case StreamBytes => trace == OfBytes(bytes, true, [])
    case StreamBuffers => trace == OfBuffers(bytes, false, [])
  }

  /** One more iteration of the fragmentation loop. */
  lemma {:induction false} FragmentsSnoc(data: Bytes, schedule: seq<D.Observation>, o: D.Observation)
    requires D.Fragments(data, schedule).outcome == D.Running
    ensures var r := D.Fragments(data, schedule);
            var chunk := D.Chunk(|r.rest|, o.maxSendLength);
            && r.rest != []
            && D.Fragments(data, schedule + [o])
            == if !o.haveMemory then D.Result(r.attempts, r.rest, D.OutOfMemory)
               else D.Result(r.attempts + [D.Attempt(r.rest[..chunk], o.accepted)], r.rest[chunk..],
                             if r.rest[chunk..] == [] then D.Finished else D.Running)
    decreases |schedule|
  {
    if schedule == [] {
      assert [o][1..] == [] && schedule + [o] == [o];
    } else {
      var chunk := D.Chunk(|data|, schedule[0].maxSendLength);
      assert (schedule + [o])[1..] == schedule[1..] + [o];
      FragmentsSnoc(data[chunk..], schedule[1..], o);
    }
  }

  /** A finished loop meets nothing more. */
  lemma {:induction false} FragmentsStay(data: Bytes, schedule: seq<D.Observation>, o: D.Observation)
    requires D.Fragments(data, schedule).outcome == D.Finished
    ensures D.Fragments(data, schedule + [o]) == D.Fragments(data, schedule)
    decreases |schedule|
  {
    if data != [] {
      var chunk := D.Chunk(|data|, schedule[0].maxSendLength);
      assert (schedule + [o])[1..] == schedule[1..] + [o];
      FragmentsStay(data[chunk..], schedule[1..], o);
    }
  }

  lemma SameThreads(s: State, step: Step)
    requires Enabled(s, step)
    ensures |Apply(s, step).threads| == |s.threads|
  {
    OthersStay(s, step, if ThreadStep(step) then step.t + 1 else 0);
  }

  lemma StartExplained(s: State, step: Step, t: nat, trace: Trace)
    requires Enabled(s, step) && t < |s.threads|
    requires (step.StartDatagram? || step.StartStreamBytes? || step.StartStreamBuffers?) && step.t == t
    ensures Explains(TraceStep(trace, EnvOf(s), FoundBy(s, t), step, t), Apply(s, step).threads[t])
  {}

  lemma TurnExplained(s: State, step: Step, t: nat, trace: Trace)
    requires Enabled(s, step) && step.DatagramTurn? && step.t == t && Explains(trace, s.threads[t])
    ensures Explains(TraceStep(trace, EnvOf(s), FoundBy(s, t), step, t), Apply(s, step).threads[t])
  {
    var rest := s.threads[t].rest;
    if !step.haveMemory {
      var o := D.Observation(s.maxSendLength, false, false);
      if rest == [] {
        FragmentsStay(trace.input, trace.schedule, o);
      } else {
        FragmentsSnoc(trace.input, trace.schedule, o);
      }
    } else if rest != [] {
      var chunk := D.Chunk(|rest|, s.maxSendLength);
      assert rest == rest[..chunk] + rest[chunk..];
    }
  }

  lemma CallExplained(s: State, step: Step, t: nat, trace: Trace)
    requires Intact(s) && Enabled(s, step) && step.TransportCall? && step.t == t && Explains(trace, s.threads[t])
    ensures Explains(TraceStep(trace, EnvOf(s), FoundBy(s, t), step, t), Apply(s, step).threads[t])
  {
    var pc := s.threads[t];
    assert FoundBy(s, t) == pc.bytes;
    if pc.call.Datagram? {
      var all := pc.bytes + pc.call.rest;
      FragmentsSnoc(trace.input, trace.schedule, D.Observation(trace.bound, true, step.accepted));
      assert all[..|pc.bytes|] == pc.bytes && all[|pc.bytes|..] == pc.call.rest;
    }
  }

  lemma OtherExplained(s: State, step: Step, t: nat, trace: Trace)
    requires Enabled(s, step) && (step.Fill? || step.CheckConnection? || step.FreeRefused?) && step.t == t
    requires Explains(trace, s.threads[t])
    ensures Explains(TraceStep(trace, EnvOf(s), FoundBy(s, t), step, t), Apply(s, step).threads[t])
  {}

  lemma StepExplained(s: State, step: Step, t: nat, trace: Trace)
    requires Intact(s) && Enabled(s, step) && t < |s.threads| && Explains(trace, s.threads[t])
    ensures t < |Apply(s, step).threads|
    ensures Explains(TraceStep(trace, EnvOf(s), FoundBy(s, t), step, t), Apply(s, step).threads[t])
  {
    if !ThreadStep(step) || step.t != t {
      OthersStay(s, step, t);
      OtherTrace(trace, EnvOf(s), FoundBy(s, t), step, t);
    } else {
      SameThreads(s, step);
      OwnStepExplained(s, step, t, trace);
    }
  }

  lemma OtherTrace(trace: Trace, env: Env, found: Bytes, step: Step, t: nat)
    requires ThreadStep(step) ==> step.t != t
    ensures TraceStep(trace, env, found, step, t) == trace
  {}

  lemma OwnStepExplained(s: State, step: Step, t: nat, trace: Trace)
    requires Intact(s) && Enabled(s, step) && t < |s.threads| && Explains(trace, s.threads[t])
    requires ThreadStep(step) && step.t == t && t < |Apply(s, step).threads|
    ensures Explains(TraceStep(trace, EnvOf(s), FoundBy(s, t), step, t), Apply(s, step).threads[t])
  {
    if step.DatagramTurn? {
      TurnExplained(s, step, t, trace);
    } else if step.TransportCall? {
      CallExplained(s, step, t, trace);
    } else if step.StartDatagram? || step.StartStreamBytes? || step.StartStreamBuffers? {
      StartExplained(s, step, t, trace);
    } else {
      OtherExplained(s, step, t, trace);
    }
  }

  lemma {:induction false} Explained(states: seq<State>, steps: seq<Step>, k: nat, t: nat)
    requires IsRun(states, steps) && k < |states| && t < |states[k].threads|
    ensures Explains(TraceOf(states, steps, t, k), states[k].threads[t])
  {
    if k > 0 {
      ReachableInv(states, steps, k - 1);
      EventsSeen(states, steps, k - 1);
      SameThreads(states[k - 1], steps[k - 1]);
      Explained(states, steps, k - 1, t);
      StepExplained(states[k - 1], steps[k - 1], t, TraceOf(states, steps, t, k - 1));
    }
  }

  /**
   A call that is over has done exactly this: a datagram call on a usable
   connection has called the transport with the fragments of its input, under
   the bounds its turns read; a call for bytes on a live connection, and one for
   buffers that found the connection up, with its whole input, once; any other
   not at all.
   */
  lemma EveryCall(states: seq<State>, steps: seq<Step>, k: nat, t: nat)
    requires IsRun(states, steps) && k < |states| && t < |states[k].threads| && states[k].threads[t] == Idle
    ensures Done(TraceOf(states, steps, t, k))
  {
    Explained(states, steps, k, t);
  }

  /**
   Whatever bounds, refusals and connection events a datagram call met: if it
   began on a usable connection and none of its turns lacked memory, then once it
   is over it has put its whole input before the transport, in order.
   */
  lemma DatagramComplete(states: seq<State>, steps: seq<Step>, k: nat, t: nat)
    requires IsRun(states, steps) && k < |states| && t < |states[k].threads| && states[k].threads[t] == Idle
    ensures var trace := TraceOf(states, steps, t, k);
            trace.OfDatagram? ==>
              && (!trace.usable ==> trace.calls == [])
              && (trace.usable && !trace.lacked ==> Concat(D.Payloads(trace.calls)) == trace.input)
              && Concat(D.Payloads(trace.calls)) <= trace.input
  {
    Explained(states, steps, k, t);
    var trace := TraceOf(states, steps, t, k);
    if trace.OfDatagram? {
      D.Lossless(trace.input, trace.schedule);
      if !trace.usable { assert D.Payloads([]) == []; }
    }
  }

  ghost predicate InDatagram(pc: Pc) {
    pc.Loop? || (pc.Holds() && pc.call.Datagram?)
  }

  /** Bytes of a datagram call that no transport call has been made with yet. */
  ghost function ToAttempt(pc: Pc): Bytes
    requires InDatagram(pc)
  {
    if pc.Loop? then pc.rest
    else if pc.Refused? then pc.call.rest
    else pc.bytes + pc.call.rest
  }

  /** Inside a datagram call, what went before the transport and what is still to go are the input. */
  lemma InputAccounted(states: seq<State>, steps: seq<Step>, k: nat, t: nat)
    requires IsRun(states, steps) && k < |states|
    requires t < |states[k].threads| && InDatagram(states[k].threads[t])
    ensures var trace := TraceOf(states, steps, t, k);
            && trace.OfDatagram? && trace.usable
            && Concat(D.Payloads(trace.calls)) + ToAttempt(states[k].threads[t]) == trace.input
  {
    Explained(states, steps, k, t);
    var trace := TraceOf(states, steps, t, k);
    D.Lossless(trace.input, trace.schedule);
  }

  // ----- no call waits for ever -----

  lemma {:induction false} FreshBlock(blocks: set<Block>) returns (block: Block)
    ensures forall b | b in blocks :: b < block
    decreases |blocks|
  {
    if blocks == {} {
      block := 0;
    } else {
      var b :| b in blocks;
      var above := FreshBlock(blocks - {b});
      block := if b < above then above else b + 1;
      forall c | c in blocks ensures c < block { assert c == b || c in blocks - {b}; }
    }
  }

  /** A thread inside a call always has a step of its own that moves it on, without an allocation or a transport call failing. */
  lemma NeverStuck(states: seq<State>, steps: seq<Step>, k: nat, t: nat) returns (step: Step)
    requires IsRun(states, steps) && k < |states| && t < |states[k].threads| && states[k].threads[t] != Idle
    ensures Enabled(states[k], step) && ThreadStep(step) && step.t == t
    ensures (step.DatagramTurn? ==> step.haveMemory) && (step.TransportCall? ==> step.accepted)
    ensures Apply(states[k], step).threads[t] != states[k].threads[t]
  {
    Explained(states, steps, k, t);
    var s := states[k];
    match s.threads[t]
    case Loop(_) =>
      var block := FreshBlock(s.created);
      step := DatagramTurn(t, block, true);
    case Allocated(_, _, _) => step := Fill(t);
    case Filled(call, _, _) => step := if call.StreamBuffers? then CheckConnection(t) else TransportCall(t, true);
    case Checked(_, _, _) => step := TransportCall(t, true);
    case Refused(_, _, _) => step := FreeRefused(t);
  }

  // ----- the life of a block -----

  /** This step allocates the block. */
  ghost predicate Allocates(s: State, step: Step, b: Block) {
    match step
    case DatagramTurn(t, block, haveMemory) =>
      block == b && haveMemory && t < |s.threads| && s.threads[t].Loop? && s.threads[t].rest != []
    case StartStreamBytes(_, _, block, haveMemory) => block == b && haveMemory && s.connectionOk
    case StartStreamBuffers(_, _, block) => block == b
    case _ => false
  }

  /** This step is an accepted transport call with the block. */
  ghost predicate HandsOver(s: State, step: Step, b: Block) {
    step.TransportCall? && step.accepted && HeldBy(s, step.t, b)
  }

  /** This step is the block's final notification, or the end of a call that was refused with it. */
  ghost predicate FreesBlock(s: State, step: Step, b: Block) {
    step == FinalNotification(b) || (step.FreeRefused? && HeldBy(s, step.t, b))
  }

  ghost predicate AllocatesAt(states: seq<State>, steps: seq<Step>, i: nat, b: Block)
    requires i < |states| && i < |steps|
  {
    Allocates(states[i], steps[i], b)
  }

  ghost predicate FreesAt(states: seq<State>, steps: seq<Step>, i: nat, b: Block)
    requires i < |states| && i < |steps|
  {
    FreesBlock(states[i], steps[i], b)
  }

  lemma OtherCreatesNothing(s: State, step: Step, b: Block)
    requires Enabled(s, step) && !step.DatagramTurn? && !step.StartStreamBytes? && !step.StartStreamBuffers?
    ensures Apply(s, step).created == s.created && !Allocates(s, step, b)
  {}

  lemma CreatedStep(s: State, step: Step, b: Block)
    requires Enabled(s, step)
    ensures b in Apply(s, step).created <==> b in s.created || Allocates(s, step, b)
  {
    if step.DatagramTurn? || step.StartStreamBytes? || step.StartStreamBuffers? {
    } else {
      OtherCreatesNothing(s, step, b);
    }
  }

  lemma FreesStep(s: State, step: Step, b: Block)
    requires Enabled(s, step)
    ensures b in Apply(s, step).frees <==> b in s.frees || FreesBlock(s, step, b)
  {}

  lemma FlightStep(s: State, step: Step, b: Block)
    requires Enabled(s, step)
    ensures b in Apply(s, step).inFlight <==> HandsOver(s, step, b) || (b in s.inFlight && step != FinalNotification(b))
  {}

  lemma {:induction false} AllocatedExactly(states: seq<State>, steps: seq<Step>, k: nat, b: Block)
    requires IsRun(states, steps) && k < |states|
    ensures b in states[k].created <==> exists i | 0 <= i < k :: AllocatesAt(states, steps, i, b)
  {
    if k > 0 {
      AllocatedExactly(states, steps, k - 1, b);
      CreatedStep(states[k - 1], steps[k - 1], b);
      assert AllocatesAt(states, steps, k - 1, b) <==> Allocates(states[k - 1], steps[k - 1], b);
    }
  }

  /** A block has been freed exactly if its final notification came, or a thread's call with it was refused and ended. */
  lemma {:induction false} FreedExactly(states: seq<State>, steps: seq<Step>, k: nat, b: Block)
    requires IsRun(states, steps) && k < |states|
    ensures b in states[k].frees <==> exists i | 0 <= i < k :: FreesAt(states, steps, i, b)
  {
    if k > 0 {
      FreedExactly(states, steps, k - 1, b);
      FreesStep(states[k - 1], steps[k - 1], b);
      assert FreesAt(states, steps, k - 1, b) <==> FreesBlock(states[k - 1], steps[k - 1], b);
    }
  }

  /** Step i handed the block over, and no final notification of it came between i and step k. */
  ghost predicate Unanswered(states: seq<State>, steps: seq<Step>, i: nat, k: nat, b: Block)
    requires i < |states| && i < k <= |steps|
  {
    HandsOver(states[i], steps[i], b) && forall j | i < j < k :: steps[j] != FinalNotification(b)
  }

  /** A block is in flight exactly if an accepted transport call with it has not been answered. */
  lemma {:induction false} InFlightExactly(states: seq<State>, steps: seq<Step>, k: nat, b: Block)
    requires IsRun(states, steps) && k < |states|
    ensures b in states[k].inFlight <==> exists i | 0 <= i < k :: Unanswered(states, steps, i, k, b)
    ensures b in states[k].inFlight ==> Enabled(states[k], FinalNotification(b))
  {
    if k > 0 {
      InFlightExactly(states, steps, k - 1, b);
      FlightStep(states[k - 1], steps[k - 1], b);
      if HandsOver(states[k - 1], steps[k - 1], b) {
        assert Unanswered(states, steps, k - 1, k, b);
      } else if b in states[k].inFlight {
        var i :| 0 <= i < k - 1 && Unanswered(states, steps, i, k - 1, b);
        assert Unanswered(states, steps, i, k, b);
      } else if i :| 0 <= i < k && Unanswered(states, steps, i, k, b) {
        assert i < k - 1 && Unanswered(states, steps, i, k - 1, b);
      }
    }
  }

  /**
   With all calls over and every accepted hand-over answered, each block that was
   allocated has been freed, except those of an early return on a connection seen
   down, which are all that is still live.
   */
  lemma AllFreed(states: seq<State>, steps: seq<Step>, k: nat)
    requires IsRun(states, steps) && k < |states|
    requires forall t | 0 <= t < |states[k].threads| :: states[k].threads[t] == Idle
    requires forall i, b | 0 <= i < k :: !Unanswered(states, steps, i, k, b)
    ensures forall b :: b in states[k].contents <==> exists i | 0 <= i < k :: ReturnsDown(states, steps, i, b)
    ensures forall i, b | 0 <= i < k && AllocatesAt(states, steps, i, b) ::
              (exists j | 0 <= j < k :: FreesAt(states, steps, j, b)) <==> b !in states[k].contents
  {
    ReachableInv(states, steps, k);
    var s := states[k];
    assert forall t, b :: !HeldBy(s, t, b);
    assert forall b :: !Held(s, b);
    forall b ensures b in s.contents <==> exists i | 0 <= i < k :: ReturnsDown(states, steps, i, b) {
      InFlightExactly(states, steps, k, b);
      LeaksExactly(states, steps, k, b);
    }
    forall i, b | 0 <= i < k && AllocatesAt(states, steps, i, b)
      ensures (exists j | 0 <= j < k :: FreesAt(states, steps, j, b)) <==> b !in s.contents
    {
      AllocatedExactly(states, steps, k, b);
      FreedExactly(states, steps, k, b);
    }
  }
}
