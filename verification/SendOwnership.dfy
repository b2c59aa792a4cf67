/**
 Ownership of the client's heap blocks while any number of threads send
 datagrams, bytes on a stream, or converted buffers on a stream, and the
 transport answers at any moment. A block passes from the thread that allocated
 it to the transport, and is freed by the callback of its single final
 notification, or by the thread when the call was refused.
 */
module SendOwnership {
  import opened Bytes
  import D = DatagramSend

  /** The identity of one allocation. */
  type Block = nat

  /** Which of the three calls a block was allocated for. */
  datatype Call =
    | Datagram(rest: Bytes)   // left after this block
    | StreamBytes
    | StreamBuffers

  datatype Pc =
    | Idle
    | Loop(rest: Bytes)                                  // loop head of the datagram call
    | Allocated(call: Call, block: Block, bytes: Bytes)  // block still to be filled with these bytes
    | Filled(call: Call, block: Block, bytes: Bytes)
    | Checked(call: Call, block: Block, bytes: Bytes)    // the connection was seen up
    | Refused(call: Call, block: Block, bytes: Bytes)    // block still to be freed
  {
    predicate Holds() { Allocated? || Filled? || Checked? || Refused? }
  }

  /**
   `fault` is raised by freeing, filling or handing over a block that is not
   live. `frees`, `created`, `handed` and `leaked` are history.
   */
  datatype State = State(
    threads: seq<Pc>,
    connectionOk: bool,
    datagramSendEnabled: bool,
    maxSendLength: D.uint32,
    contents: map<Block, Bytes>,
    inFlight: set<Block>,
    fault: bool,
    frees: seq<Block>,
    created: set<Block>,
    handed: map<Block, Bytes>,
    leaked: set<Block>)

  datatype Step =
    | StartDatagram(t: nat, data: Bytes)
    | DatagramTurn(t: nat, block: Block, haveMemory: bool)
    | StartStreamBytes(t: nat, data: Bytes, block: Block, haveMemory: bool)
    | StartStreamBuffers(t: nat, data: Bytes, block: Block)
    | Fill(t: nat)
    | CheckConnection(t: nat)
    | TransportCall(t: nat, accepted: bool)
    | FreeRefused(t: nat)
    | FinalNotification(block: Block)
    | ConnectionEvent(ok: bool)
    | DatagramStateChanged(maxSendLength: D.uint32, enabled: bool)

  ghost predicate ThreadStep(step: Step) {
    !step.FinalNotification? && !step.ConnectionEvent? && !step.DatagramStateChanged?
  }

  ghost predicate Init(s: State) {
    && (forall t | 0 <= t < |s.threads| :: s.threads[t] == Idle)
    && !s.connectionOk && !s.fault
    && s.contents == map[] && s.handed == map[]
    && s.inFlight == s.created == s.leaked == {}
    && s.frees == []
  }

  ghost predicate Enabled(s: State, step: Step) {
    && (ThreadStep(step) ==> step.t < |s.threads|)
    && match step
       case StartDatagram(t, data) => s.threads[t].Idle?
       case DatagramTurn(t, block, haveMemory) => s.threads[t].Loop? && block !in s.created
       case StartStreamBytes(t, data, block, haveMemory) => s.threads[t].Idle? && block !in s.created
       case StartStreamBuffers(t, data, block) => s.threads[t].Idle? && block !in s.created
       case Fill(t) => s.threads[t].Allocated?
       case CheckConnection(t) => s.threads[t].Filled? && s.threads[t].call.StreamBuffers?
       case TransportCall(t, accepted) => s.threads[t].Checked? || (s.threads[t].Filled? && !s.threads[t].call.StreamBuffers?)
       case FreeRefused(t) => s.threads[t].Refused?
       case FinalNotification(block) => block in s.inFlight
       case ConnectionEvent(ok) => true
       case DatagramStateChanged(maxSendLength, enabled) => true
  }

  ghost function Move(s: State, t: nat, pc: Pc): State
    requires t < |s.threads|
  {
    s.(threads := s.threads[t := pc])
  }

  /** malloc: a new live block with unknown contents. */
  ghost function Malloc(s: State, block: Block): State {
    s.(contents := s.contents[block := []], created := s.created + {block})
  }

  ghost function Free(s: State, block: Block): State {
    s.(fault := s.fault || block !in s.contents, contents := s.contents - {block}, frees := s.frees + [block])
  }

  /** Where a thread goes once its block is no longer its concern. */
  ghost function Continue(call: Call): Pc {
    match call
    case Datagram(rest) => Loop(rest)
    case _ => Idle
  }

  /** What the transport finds in a block. */
  ghost function Found(s: State, block: Block): Bytes {
    if block in s.contents then s.contents[block] else []
  }

  ghost function Apply(s: State, step: Step): State
    requires Enabled(s, step)
  {
    match step
    case StartDatagram(t, data) =>
      if s.connectionOk && s.datagramSendEnabled then Move(s, t, Loop(data)) else s
    case DatagramTurn(t, block, haveMemory) =>
      var pc := s.threads[t];
      if pc.rest == [] || !haveMemory then Move(s, t, Idle)
      else
        var chunk := D.Chunk(|pc.rest|, s.maxSendLength);
        Malloc(Move(s, t, Allocated(Datagram(pc.rest[chunk..]), block, pc.rest[..chunk])), block)
    case StartStreamBytes(t, data, block, haveMemory) =>
      if !s.connectionOk || !haveMemory then s else Malloc(Move(s, t, Allocated(StreamBytes, block, data)), block)
    case StartStreamBuffers(t, data, block) =>
      Malloc(Move(s, t, Allocated(StreamBuffers, block, data)), block)
    case Fill(t) =>
      var pc := s.threads[t];
      Move(s, t, Filled(pc.call, pc.block, pc.bytes)).(
        fault := s.fault || pc.block !in s.contents,
        contents := s.contents[pc.block := pc.bytes])
    case CheckConnection(t) =>
      var pc := s.threads[t];
      if s.connectionOk then Move(s, t, Checked(pc.call, pc.block, pc.bytes))
      else Move(s, t, Idle).(leaked := s.leaked + {pc.block})
    case TransportCall(t, accepted) =>
      var pc := s.threads[t];
      if accepted then
        Move(s, t, Continue(pc.call)).(
          fault := s.fault || pc.block !in s.contents || pc.block in s.inFlight,
          inFlight := s.inFlight + {pc.block},
          handed := s.handed[pc.block := Found(s, pc.block)])
      else Move(s, t, Refused(pc.call, pc.block, pc.bytes))
    case FreeRefused(t) =>
      var pc := s.threads[t];
      Free(Move(s, t, Continue(pc.call)), pc.block)
    case FinalNotification(block) => Free(s.(inFlight := s.inFlight - {block}), block)
    case ConnectionEvent(ok) => s.(connectionOk := ok)
    case DatagramStateChanged(maxSendLength, enabled) =>
      s.(maxSendLength := maxSendLength, datagramSendEnabled := enabled)
  }

  ghost predicate IsRun(states: seq<State>, steps: seq<Step>) {
    && |states| == |steps| + 1
    && Init(states[0])
    && forall i | 0 <= i < |steps| :: Enabled(states[i], steps[i]) && states[i + 1] == Apply(states[i], steps[i])
  }

  // ----- what every step keeps -----

  ghost predicate HeldBy(s: State, t: nat, block: Block) {
    t < |s.threads| && s.threads[t].Holds() && s.threads[t].block == block
  }

  ghost predicate Held(s: State, block: Block) {
    exists t :: HeldBy(s, t, block)
  }

  /** Live blocks are held by one thread, in flight, or leaked; the others have been freed, once. */
  ghost predicate Owned(s: State) {
    && !s.fault
    && (forall b :: b in s.contents <==> Held(s, b) || b in s.inFlight || b in s.leaked)
    && (forall t, b | HeldBy(s, t, b) :: b !in s.inFlight && b !in s.leaked)
    && (forall t, u, b | HeldBy(s, t, b) && HeldBy(s, u, b) :: t == u)
    && s.inFlight !! s.leaked
    && (forall b :: b in s.created <==> b in s.contents || b in s.frees)
    && (forall b | b in s.frees :: b !in s.contents)
    && forall i, j | 0 <= i < j < |s.frees| :: s.frees[i] != s.frees[j]
  }

  /** Blocks in flight are as they were handed over; a filled block holds its thread's bytes. */
  ghost predicate Intact(s: State) {
    && (forall b | b in s.inFlight :: b in s.contents && b in s.handed && s.contents[b] == s.handed[b])
    && forall t | 0 <= t < |s.threads| && s.threads[t].Holds() && !s.threads[t].Allocated? ::
         s.threads[t].block in s.contents && s.contents[s.threads[t].block] == s.threads[t].bytes
  }

  ghost predicate Inv(s: State) { Owned(s) && Intact(s) }

  lemma OthersStayAllocating(s: State, step: Step)
    requires Enabled(s, step)
    requires step.StartDatagram? || step.DatagramTurn? || step.StartStreamBytes? || step.StartStreamBuffers?
    ensures Apply(s, step).threads == s.threads[step.t := Apply(s, step).threads[step.t]]
  {}

  lemma OthersStayHandling(s: State, step: Step)
    requires Enabled(s, step)
    requires step.Fill? || step.CheckConnection? || step.TransportCall? || step.FreeRefused?
    ensures Apply(s, step).threads == s.threads[step.t := Apply(s, step).threads[step.t]]
  {}

  /** A thread step leaves the other threads alone. */
  lemma OthersStay(s: State, step: Step, u: nat)
    requires Enabled(s, step) && (ThreadStep(step) ==> u != step.t)
    ensures |Apply(s, step).threads| == |s.threads|
    ensures u < |s.threads| ==> Apply(s, step).threads[u] == s.threads[u]
  {
    if step.StartDatagram? || step.DatagramTurn? || step.StartStreamBytes? || step.StartStreamBuffers? {
      OthersStayAllocating(s, step);
    } else if ThreadStep(step) {
      OthersStayHandling(s, step);
    }
  }

  /** Steps after which the same threads hold the same blocks, all still live. */
  ghost predicate SameHolders(s: State, s': State) {
    && (forall t, b :: HeldBy(s', t, b) <==> HeldBy(s, t, b))
    && s'.contents.Keys == s.contents.Keys
    && s'.inFlight == s.inFlight && s'.leaked == s.leaked
    && s'.created == s.created && s'.frees == s.frees && s'.fault == s.fault
  }

  lemma SameHoldersOwned(s: State, s': State)
    requires Owned(s) && SameHolders(s, s')
    ensures Owned(s')
  {
    forall b ensures Held(s', b) <==> Held(s, b) {
      if Held(s', b) { var t :| HeldBy(s', t, b); assert HeldBy(s, t, b); }
      if Held(s, b) { var t :| HeldBy(s, t, b); assert HeldBy(s', t, b); }
    }
  }

  /** One thread has allocated a block. */
  lemma MallocOwned(s: State, s': State, t: nat, block: Block)
    requires Owned(s) && block !in s.created
    requires forall u, b :: HeldBy(s', u, b) <==> HeldBy(s, u, b) || (u == t && b == block)
    requires forall b :: !HeldBy(s, t, b)
    requires s'.contents.Keys == s.contents.Keys + {block} && s'.created == s.created + {block}
    requires s'.inFlight == s.inFlight && s'.leaked == s.leaked && s'.frees == s.frees && s'.fault == s.fault
    ensures Owned(s')
  {
    assert block !in s.contents && block !in s.frees;
    assert !Held(s, block);
    assert forall u :: !HeldBy(s, u, block);
    forall b ensures Held(s', b) <==> Held(s, b) || b == block {
      if Held(s', b) { var u :| HeldBy(s', u, b); assert HeldBy(s, u, b) || b == block; }
      if Held(s, b) { var u :| HeldBy(s, u, b); assert HeldBy(s', u, b); }
      assert HeldBy(s', t, block);
    }
  }

  /** One thread has let go of its block, which is now in flight, leaked, or freed. */
  lemma ReleaseOwned(s: State, s': State, t: nat, block: Block)
    requires Owned(s) && HeldBy(s, t, block)
    requires forall u, b :: HeldBy(s', u, b) <==> HeldBy(s, u, b) && u != t
    requires s'.created == s.created && s'.fault == s.fault
    requires || (s'.contents == s.contents && s'.frees == s.frees && s'.inFlight == s.inFlight + {block} && s'.leaked == s.leaked)
             || (s'.contents == s.contents && s'.frees == s.frees && s'.inFlight == s.inFlight && s'.leaked == s.leaked + {block})
             || (s'.contents == s.contents - {block} && s'.frees == s.frees + [block] && s'.inFlight == s.inFlight && s'.leaked == s.leaked)
    ensures Owned(s')
  {
    assert Held(s, block) && block in s.contents && block !in s.frees;
    forall b ensures Held(s', b) <==> Held(s, b) && b != block {
      if Held(s', b) { var u :| HeldBy(s', u, b); assert HeldBy(s, u, b); }
      if Held(s, b) && b != block { var u :| HeldBy(s, u, b); assert HeldBy(s', u, b); }
    }
  }

  lemma NotifyOwned(s: State, block: Block)
    requires Owned(s) && Enabled(s, FinalNotification(block))
    ensures Owned(Apply(s, FinalNotification(block)))
  {
    var s' := Apply(s, FinalNotification(block));
    assert block in s.contents && block !in s.frees;
    forall b ensures Held(s', b) <==> Held(s, b) {
      if Held(s', b) { var t :| HeldBy(s', t, b); assert HeldBy(s, t, b); }
      if Held(s, b) { var t :| HeldBy(s, t, b); assert HeldBy(s', t, b); }
    }
    forall t, b | HeldBy(s', t, b) ensures b !in s'.inFlight && b !in s'.leaked && b != block {
      assert HeldBy(s, t, b);
    }
    forall t, u, b | HeldBy(s', t, b) && HeldBy(s', u, b) ensures t == u {
      assert HeldBy(s, t, b) && HeldBy(s, u, b);
    }
  }

  /** Who holds what after a thread's step. */
  lemma HoldersAfter(s: State, step: Step)
    requires Enabled(s, step) && ThreadStep(step)
    ensures var s' := Apply(s, step);
            && |s'.threads| == |s.threads|
            && forall u, b :: HeldBy(s', u, b) <==> if u == step.t then HeldBy(s', step.t, b) else HeldBy(s, u, b)
  {
    var s' := Apply(s, step);
    forall u, b ensures HeldBy(s', u, b) <==> if u == step.t then HeldBy(s', step.t, b) else HeldBy(s, u, b) {
      if u != step.t { OthersStay(s, step, u); }
    }
  }

  lemma AllocationKeepsOwned(s: State, step: Step)
    requires Inv(s) && Enabled(s, step)
    requires step.StartDatagram? || step.DatagramTurn? || step.StartStreamBytes? || step.StartStreamBuffers?
    ensures Owned(Apply(s, step))
  {
    var s' := Apply(s, step);
    HoldersAfter(s, step);
    assert forall b :: !HeldBy(s, step.t, b);
    if s'.threads[step.t].Holds() {
      MallocOwned(s, s', step.t, step.block);
    } else {
      assert forall b :: !HeldBy(s', step.t, b);
      SameHoldersOwned(s, s');
    }
  }

  lemma HandlingKeepsOwned(s: State, step: Step)
    requires Inv(s) && Enabled(s, step)
    requires step.Fill? || step.CheckConnection? || step.TransportCall? || step.FreeRefused?
    ensures Owned(Apply(s, step))
  {
    var s' := Apply(s, step);
    var t, block := step.t, s.threads[step.t].block;
    HoldersAfter(s, step);
    assert HeldBy(s, t, block) && Held(s, block) && forall b | HeldBy(s, t, b) :: b == block;
    if s'.threads[t].Holds() {
      assert forall b :: HeldBy(s', t, b) <==> b == block;
      SameHoldersOwned(s, s');
    } else {
      assert forall b :: !HeldBy(s', t, b);
      ReleaseOwned(s, s', t, block);
    }
  }

  lemma KeepsOwned(s: State, step: Step)
    requires Inv(s) && Enabled(s, step)
    ensures Owned(Apply(s, step))
  {
    match step
    case FinalNotification(block) => NotifyOwned(s, block);
    case ConnectionEvent(_) => SameHoldersOwned(s, Apply(s, step));
    case DatagramStateChanged(_, _) => SameHoldersOwned(s, Apply(s, step));
    case StartDatagram(_, _) => AllocationKeepsOwned(s, step);
    case DatagramTurn(_, _, _) => AllocationKeepsOwned(s, step);
    case StartStreamBytes(_, _, _, _) => AllocationKeepsOwned(s, step);
    case StartStreamBuffers(_, _, _) => AllocationKeepsOwned(s, step);
    case Fill(_) => HandlingKeepsOwned(s, step);
    case CheckConnection(_) => HandlingKeepsOwned(s, step);
    case TransportCall(_, _) => HandlingKeepsOwned(s, step);
    case FreeRefused(_) => HandlingKeepsOwned(s, step);
  }

  /** A step changes the contents of no block but the one in the stepping thread's hands, the new one, or the notified one. */
  lemma ContentsStay(s: State, step: Step, b: Block)
    requires Enabled(s, step) && b in s.contents && b in s.created
    requires ThreadStep(step) && s.threads[step.t].Holds() ==> s.threads[step.t].block != b
    requires step != FinalNotification(b)
    ensures b in Apply(s, step).contents && Apply(s, step).contents[b] == s.contents[b]
  {}

  lemma KeepsIntact(s: State, step: Step)
    requires Inv(s) && Enabled(s, step)
    ensures Intact(Apply(s, step))
  {
    var s' := Apply(s, step);
    forall b | b in s'.inFlight ensures b in s'.contents && b in s'.handed && s'.contents[b] == s'.handed[b] {
      FlightIntact(s, step, b);
    }
    forall u | 0 <= u < |s'.threads| && s'.threads[u].Holds() && !s'.threads[u].Allocated?
      ensures s'.threads[u].block in s'.contents && s'.contents[s'.threads[u].block] == s'.threads[u].bytes
    {
      if !ThreadStep(step) || u != step.t {
        OthersStay(s, step, u);
        OtherHoldIntact(s, step, u);
      }
    }
  }

  lemma FlightIntact(s: State, step: Step, b: Block)
    requires Inv(s) && Enabled(s, step) && b in Apply(s, step).inFlight
    ensures var s' := Apply(s, step);
            b in s'.contents && b in s'.handed && s'.contents[b] == s'.handed[b]
  {
    if ThreadStep(step) && s.threads[step.t].Holds() {
      assert HeldBy(s, step.t, s.threads[step.t].block);
    }
    if b in s.inFlight {
      ContentsStay(s, step, b);
    }
  }

  lemma OtherHoldIntact(s: State, step: Step, u: nat)
    requires Inv(s) && Enabled(s, step) && u < |s.threads| && (ThreadStep(step) ==> u != step.t)
    requires s.threads[u].Holds() && !s.threads[u].Allocated?
    ensures var s' := Apply(s, step);
            s.threads[u].block in s'.contents && s'.contents[s.threads[u].block] == s.threads[u].bytes
  {
    assert HeldBy(s, u, s.threads[u].block);
    if ThreadStep(step) && s.threads[step.t].Holds() {
      assert HeldBy(s, step.t, s.threads[step.t].block);
    }
    ContentsStay(s, step, s.threads[u].block);
  }

  lemma InitInv(s: State)
    requires Init(s)
    ensures Inv(s)
  {
    assert forall t, b :: !HeldBy(s, t, b);
  }

  lemma {:induction false} ReachableInv(states: seq<State>, steps: seq<Step>, k: nat)
    requires IsRun(states, steps) && k < |states|
    ensures Inv(states[k])
  {
    if k == 0 {
      InitInv(states[0]);
    } else {
      ReachableInv(states, steps, k - 1);
      KeepsOwned(states[k - 1], steps[k - 1]);
      KeepsIntact(states[k - 1], steps[k - 1]);
    }
  }

  // ----- what holds over whole runs -----

  datatype Owner = ByThread(t: nat) | ByTransport | ByNobody | Freed

  ghost predicate OwnedAs(s: State, block: Block, owner: Owner) {
    match owner
    case ByThread(t) => HeldBy(s, t, block)
    case ByTransport => block in s.inFlight
    case ByNobody => block in s.leaked
    case Freed => block in s.frees
  }

  /**
   Every block ever allocated has exactly one owner, no block is freed twice or
   used after its free, and what is in flight is what was handed over.
   */
  lemma OneOwner(states: seq<State>, steps: seq<Step>, k: nat)
    requires IsRun(states, steps) && k < |states|
    ensures var s := states[k];
            && !s.fault
            && (forall b | b in s.created :: exists o :: OwnedAs(s, b, o))
            && (forall b, o, o' | OwnedAs(s, b, o) && OwnedAs(s, b, o') :: o == o')
            && (forall i, j | 0 <= i < j < |s.frees| :: s.frees[i] != s.frees[j])
            && (forall b | b in s.inFlight :: b in s.contents && b in s.handed && s.contents[b] == s.handed[b])
  {
    ReachableInv(states, steps, k);
    var s := states[k];
    forall b | b in s.created ensures exists o :: OwnedAs(s, b, o) {
      if b in s.frees {
        assert OwnedAs(s, b, Freed);
      } else if b in s.inFlight {
        assert OwnedAs(s, b, ByTransport);
      } else if b in s.leaked {
        assert OwnedAs(s, b, ByNobody);
      } else {
        var t :| HeldBy(s, t, b);
        assert OwnedAs(s, b, ByThread(t));
      }
    }
    forall b, o, o' | OwnedAs(s, b, o) && OwnedAs(s, b, o') ensures o == o' {
      OwnerUnique(s, b, o, o');
    }
  }

  lemma OwnerUnique(s: State, b: Block, o: Owner, o': Owner)
    requires Owned(s) && OwnedAs(s, b, o) && OwnedAs(s, b, o')
    ensures o == o'
  {
    if o.ByThread? { assert Held(s, b); }
    if o'.ByThread? { assert Held(s, b); }
  }

  /** Step i is the early return of the buffer overload with this block in hand, on a connection seen down. */
  ghost predicate ReturnsDown(states: seq<State>, steps: seq<Step>, i: nat, block: Block)
    requires i < |states| && i < |steps|
  {
    && steps[i].CheckConnection? && !states[i].connectionOk
    && HeldBy(states[i], steps[i].t, block) && states[i].threads[steps[i].t].call.StreamBuffers?
  }

  lemma LeakStep(states: seq<State>, steps: seq<Step>, i: nat, block: Block)
    requires IsRun(states, steps) && i < |steps|
    ensures block in states[i + 1].leaked <==> block in states[i].leaked || ReturnsDown(states, steps, i, block)
  {
    var s, step := states[i], steps[i];
    if step.CheckConnection? {
      assert HeldBy(s, step.t, s.threads[step.t].block);
    } else {
      LeaksStay(s, step);
    }
  }

  lemma LeaksStay(s: State, step: Step)
    requires Enabled(s, step) && !step.CheckConnection?
    ensures Apply(s, step).leaked == s.leaked
  {}

  /** The history variable `leaked`, in terms of the steps of the run. */
  lemma {:induction false} LeakedMeansReturned(states: seq<State>, steps: seq<Step>, k: nat, block: Block)
    requires IsRun(states, steps) && k < |states|
    ensures block in states[k].leaked <==> exists i | 0 <= i < k :: ReturnsDown(states, steps, i, block)
  {
    if k > 0 {
      LeakedMeansReturned(states, steps, k - 1, block);
      LeakStep(states, steps, k - 1, block);
    }
  }

  /** Live, but neither a thread nor the transport will ever free it. */
  ghost predicate Unowned(s: State, block: Block) {
    block in s.contents && !Held(s, block) && block !in s.inFlight
  }

  /** A live block is without an owner exactly if the buffer overload returned early with it on a connection seen down. */
  lemma LeaksExactly(states: seq<State>, steps: seq<Step>, k: nat, block: Block)
    requires IsRun(states, steps) && k < |states|
    ensures Unowned(states[k], block) <==> exists i | 0 <= i < k :: ReturnsDown(states, steps, i, block)
  {
    ReachableInv(states, steps, k);
    LeakedMeansReturned(states, steps, k, block);
  }

  lemma Extend(states: seq<State>, steps: seq<Step>, step: Step) returns (longer: seq<State>, more: seq<Step>)
    requires IsRun(states, steps) && Enabled(states[|steps|], step)
    ensures IsRun(longer, more) && |more| == |steps| + 1 && longer[|more|] == Apply(states[|steps|], step)
  {
    longer, more := states + [Apply(states[|steps|], step)], steps + [step];
  }

  /** The connection goes down between the conversion and the check: all is at rest and the block is still there. */
  lemma LeakingRun(data: Bytes) returns (states: seq<State>, steps: seq<Step>)
    ensures IsRun(states, steps)
    ensures var s := states[|steps|];
            && (forall t | 0 <= t < |s.threads| :: s.threads[t] == Idle)
            && s.inFlight == {} && Unowned(s, 0) && s.contents == map[0 := data]
  {
    states, steps := [State([Idle], false, false, 0, map[], {}, false, [], {}, map[], {})], [];
    states, steps := Extend(states, steps, ConnectionEvent(true));
    states, steps := Extend(states, steps, StartStreamBuffers(0, data, 0));
    states, steps := Extend(states, steps, Fill(0));
    states, steps := Extend(states, steps, ConnectionEvent(false));
    states, steps := Extend(states, steps, CheckConnection(0));
    var s := states[|steps|];
    assert s.threads == [Idle];
    assert forall t, b :: !HeldBy(s, t, b);
  }

  /** No call that must see the connection up has passed its check. */
  ghost predicate NothingStarted(s: State) {
    && s.handed == map[] && s.inFlight == {}
    && forall t | 0 <= t < |s.threads| ::
      s.threads[t].Idle? || ((s.threads[t].Allocated? || s.threads[t].Filled?) && s.threads[t].call.StreamBuffers?)
  }

  lemma StaysUnstarted(s: State, step: Step)
    requires NothingStarted(s) && Enabled(s, step) && !s.connectionOk
    ensures NothingStarted(Apply(s, step))
  {
    var s' := Apply(s, step);
    forall u | 0 <= u < |s'.threads|
      ensures s'.threads[u].Idle? || ((s'.threads[u].Allocated? || s'.threads[u].Filled?) && s'.threads[u].call.StreamBuffers?)
    {
      if !ThreadStep(step) || u != step.t { OthersStay(s, step, u); }
    }
  }

  /** Until the connection has come up for the first time, nothing is handed to the transport by any call. */
  lemma {:induction false} NothingBeforeConnected(states: seq<State>, steps: seq<Step>, k: nat)
    requires IsRun(states, steps) && k < |states| && forall i | 0 <= i < k :: !states[i].connectionOk
    ensures NothingStarted(states[k])
  {
    if k > 0 {
      NothingBeforeConnected(states, steps, k - 1);
      StaysUnstarted(states[k - 1], steps[k - 1]);
    }
  }
}
