/**
 The server's connections over whole runs: any number of listener callbacks,
 each of which drains the close queue turn by turn, issues an id, allocates a
 context and inserts it; shutdown-complete events of other connections and the
 steps of other callbacks fall in between. The transport delivers one
 shutdown-complete per connection, after its insertion.
 */
module ServerConnections {
  import opened Bytes
  import opened ConnectionRegistry

  datatype Status = NotSupported | Success | Failure

  class QuicServer {
    const connectionMap: ConnectionMap
    var nextContext: Context

    constructor (map': ConnectionMap)
      ensures connectionMap == map' && nextContext == 0
    {
      connectionMap, nextContext := map', 0;
    }

    /** The whole callback; `configured` is the transport's answer. None: the close job threw. */
    method ServerListenerCallback(newConnection: bool, configured: Status) returns (failed: bool, status: Status)
      modifies this`nextContext, connectionMap
      ensures old(connectionMap.deleted) <= connectionMap.deleted
      ensures var c := CloseAll(old(connectionMap.connections), old(connectionMap.closeQueue));
              && failed == c.failed
              && connectionMap.closeQueue == c.queue
              && connectionMap.deleted == old(connectionMap.deleted) + c.deleted
              && (failed || !newConnection ==>
                    && connectionMap.connections == c.connections
                    && connectionMap.generator == old(connectionMap.generator)
                    && nextContext == old(nextContext))
              && (!failed && newConnection ==>
                    && connectionMap.connections == InsertNew(c.connections, old(connectionMap.generator), old(nextContext))
                    && connectionMap.generator == NextId(old(connectionMap.generator))
                    && nextContext == old(nextContext) + 1)
      ensures status == if !failed && newConnection then configured else NotSupported
    {
      status := NotSupported;
      failed := connectionMap.ConnectionCloseJob();
      if !failed && newConnection {
        var id := connectionMap.GenerateConnectionId();
        var context := nextContext;
        nextContext := nextContext + 1;
        connectionMap.InsertConnection(id, context);
        status := configured;
      }
    }
  }

  // ----- runs -----

  /** Where one listener callback stands; `newConnection` is its event. */
  datatype Listener =
    | Waiting
    | InJob(newConnection: bool)
    | Drained
    | HasId(id: Id)
    | HasContext(id: Id, context: Context)
  {
    predicate HoldsId() { HasId? || HasContext? }
  }

  /**
   The registry, the callbacks, and history: ids issued, connections inserted,
   ids shut down in the order of their events, contexts allocated and deleted.
   */
  datatype State = State(
    connections: map<Id, Context>,
    generator: Id,
    queue: seq<Id>,
    listeners: seq<Listener>,
    crashed: bool,
    issued: seq<Id>,
    inserted: map<Id, Context>,
    down: seq<Id>,
    created: set<Context>,
    deleted: seq<Context>)

  datatype Step =
    | ListenerEvent(l: nat, newConnection: bool)
    | CloseTurn(l: nat)
    | Generate(l: nat)
    | Allocate(l: nat, context: Context)
    | Insert(l: nat)
    | ShutdownComplete(id: Id)

  ghost predicate Init(s: State) {
    && s.connections == map[] && s.generator == 1 && s.queue == []
    && (forall l | 0 <= l < |s.listeners| :: s.listeners[l] == Waiting)
    && !s.crashed && s.issued == [] && s.inserted == map[] && s.down == [] && s.created == {} && s.deleted == []
  }

  ghost predicate Enabled(s: State, step: Step) {
    && !s.crashed
    && (!step.ShutdownComplete? ==> step.l < |s.listeners|)
    && match step
       case ListenerEvent(l, newConnection) => s.listeners[l].Waiting?
       case CloseTurn(l) => s.listeners[l].InJob?
       case Generate(l) => s.listeners[l].Drained?
       case Allocate(l, context) => s.listeners[l].HasId? && context !in s.created
       case Insert(l) => s.listeners[l].HasContext?
       case ShutdownComplete(id) => id in s.inserted && id !in s.down
  }

  ghost function Move(s: State, l: nat, at: Listener): State
    requires l < |s.listeners|
  {
    s.(listeners := s.listeners[l := at])
  }

  /** A turn of the close job: leave the loop, or take the front id, erase its entry and delete its context. */
  ghost function Turn(s: State, l: nat): State
    requires l < |s.listeners| && s.listeners[l].InJob?
  {
    if s.queue == [] then Move(s, l, if s.listeners[l].newConnection then Drained else Waiting)
    else if s.queue[0] !in s.connections then s.(queue := s.queue[1..], crashed := true)
    else s.(queue := s.queue[1..], connections := s.connections - {s.queue[0]},
            deleted := s.deleted + [s.connections[s.queue[0]]])
  }

  ghost function Apply(s: State, step: Step): State
    requires Enabled(s, step)
  {
    match step
    case ListenerEvent(l, newConnection) => Move(s, l, InJob(newConnection))
    case CloseTurn(l) => Turn(s, l)
    case Generate(l) =>
      Move(s, l, HasId(s.generator)).(generator := NextId(s.generator), issued := s.issued + [s.generator])
    case Allocate(l, context) =>
      Move(s, l, HasContext(s.listeners[l].id, context)).(created := s.created + {context})
    case Insert(l) =>
      var at := s.listeners[l];
      Move(s, l, Waiting).(
        connections := InsertNew(s.connections, at.id, at.context),
        inserted := s.inserted[at.id := at.context])
    case ShutdownComplete(id) => s.(queue := s.queue + [id], down := s.down + [id])
  }

  ghost predicate IsRun(states: seq<State>, steps: seq<Step>) {
    && |states| == |steps| + 1
    && Init(states[0])
    && forall i | 0 <= i < |steps| :: Enabled(states[i], steps[i]) && states[i + 1] == Apply(states[i], steps[i])
  }

  // ----- what every step keeps -----

  ghost predicate HoldsId(s: State, l: nat, id: Id) {
    l < |s.listeners| && s.listeners[l].HoldsId() && s.listeners[l].id == id
  }

  ghost predicate HoldsContext(s: State, l: nat, context: Context) {
    l < |s.listeners| && s.listeners[l].HasContext? && s.listeners[l].context == context
  }

  ghost predicate IdHeld(s: State, id: Id) {
    exists l :: HoldsId(s, l, id)
  }

  ghost predicate ContextHeld(s: State, context: Context) {
    exists l :: HoldsContext(s, l, context)
  }

  /** The ids some callback was issued and has not inserted yet. */
  ghost function InHand(s: State): set<Id> {
    set l | 0 <= l < |s.listeners| && s.listeners[l].HoldsId() :: s.listeners[l].id
  }

  /** The contexts some callback has allocated and not inserted yet. */
  ghost function ContextsInHand(s: State): set<Context> {
    set l | 0 <= l < |s.listeners| && s.listeners[l].HasContext? :: s.listeners[l].context
  }

  ghost predicate Injective(m: map<Id, Context>) {
    forall a, b | a in m && b in m && a != b :: m[a] != m[b]
  }

  /** Issued ids: those inserted, and one in the hand of each callback that has one. */
  ghost predicate IdsAccounted(s: State) {
    && s.issued == IssuedIds(|s.issued|)
    && s.generator == (1 + |s.issued|) % TWO_64
    && (forall id :: id in s.issued <==> id in s.inserted || IdHeld(s, id))
    && (forall l, id | HoldsId(s, l, id) :: id !in s.inserted)
    && forall l, m, id | HoldsId(s, l, id) && HoldsId(s, m, id) :: l == m
  }

  /** Allocated contexts: one per inserted id, and one in the hand of each callback that has one. */
  ghost predicate ContextsAccounted(s: State) {
    && Injective(s.inserted)
    && (forall c :: c in s.created <==> c in s.inserted.Values || ContextHeld(s, c))
    && (forall l, c | HoldsContext(s, l, c) :: c !in s.inserted.Values)
    && forall l, m, c | HoldsContext(s, l, c) && HoldsContext(s, m, c) :: l == m
  }

  /** The shutdowns are handled in order: the first ones are closed and their contexts deleted, the others are queued. */
  ghost predicate ClosedAccounted(s: State) {
    && !s.crashed
    && NoDuplicates(s.down) && Elements(s.down) <= s.inserted.Keys
    && |s.deleted| <= |s.down|
    && s.queue == s.down[|s.deleted|..]
    && s.connections == s.inserted - Elements(s.down[..|s.deleted|])
    && forall i | 0 <= i < |s.deleted| :: s.deleted[i] == s.inserted[s.down[i]]
  }

  ghost predicate Inv(s: State) {
    IdsAccounted(s) && ContextsAccounted(s) && ClosedAccounted(s)
  }

  lemma InitInv(s: State)
    requires Init(s)
    ensures Inv(s)
  {
    assert forall l, id :: !HoldsId(s, l, id);
    assert forall l, c :: !HoldsContext(s, l, c);
  }

  /** The next id is new while fewer than 2^64 were issued. */
  lemma NextIdIsNew(n: nat)
    requires n < TWO_64
    ensures IssuedIds(n + 1) == IssuedIds(n) + [(1 + n) % TWO_64]
    ensures (1 + n) % TWO_64 !in IssuedIds(n)
  {
    IssuedDistinctExactly(n + 1);
    var ids := IssuedIds(n + 1);
    assert forall i | 0 <= i < n :: ids[i] != ids[n];
  }

  lemma NextIdCounts(n: nat)
    ensures NextId((1 + n) % TWO_64) == (2 + n) % TWO_64
  {}

  /** A step of one callback leaves the others where they are. */
  lemma OthersStay(s: State, step: Step, m: nat)
    requires Enabled(s, step) && m < |s.listeners| && (step.ShutdownComplete? || step.l != m)
    ensures |Apply(s, step).listeners| == |s.listeners| && Apply(s, step).listeners[m] == s.listeners[m]
  {}

  /** Who holds what after a step. */
  lemma HoldersAfter(s: State, step: Step)
    requires Enabled(s, step)
    ensures var s' := Apply(s, step);
            && |s'.listeners| == |s.listeners|
            && (forall m, id | step.ShutdownComplete? || m != step.l :: HoldsId(s', m, id) <==> HoldsId(s, m, id))
            && (forall m, c | step.ShutdownComplete? || m != step.l :: HoldsContext(s', m, c) <==> HoldsContext(s, m, c))
  {
    var s' := Apply(s, step);
    forall m: nat | m < |s.listeners| && (step.ShutdownComplete? || m != step.l) ensures s'.listeners[m] == s.listeners[m] {
      OthersStay(s, step, m);
    }
  }

  /** A step that issues and inserts nothing. */
  lemma SameIds(s: State, s': State)
    requires IdsAccounted(s) && (forall l, id :: HoldsId(s', l, id) <==> HoldsId(s, l, id))
    requires s'.issued == s.issued && s'.generator == s.generator && s'.inserted == s.inserted
    ensures IdsAccounted(s')
  {
    forall id ensures IdHeld(s', id) <==> IdHeld(s, id) {
      if l: nat :| HoldsId(s', l, id) { assert HoldsId(s, l, id); }
      if l: nat :| HoldsId(s, l, id) { assert HoldsId(s', l, id); }
    }
  }

  /** A step that allocates and inserts nothing. */
  lemma SameContexts(s: State, s': State)
    requires ContextsAccounted(s) && (forall l, c :: HoldsContext(s', l, c) <==> HoldsContext(s, l, c))
    requires s'.created == s.created && s'.inserted == s.inserted
    ensures ContextsAccounted(s')
  {
    forall c ensures ContextHeld(s', c) <==> ContextHeld(s, c) {
      if l: nat :| HoldsContext(s', l, c) { assert HoldsContext(s, l, c); }
      if l: nat :| HoldsContext(s, l, c) { assert HoldsContext(s', l, c); }
    }
  }

  lemma GenerateKeepsIds(s: State, l: nat)
    requires Inv(s) && Enabled(s, Generate(l)) && |s.issued| < TWO_64
    ensures IdsAccounted(Apply(s, Generate(l)))
  {
    var s' := Apply(s, Generate(l));
    HoldersAfter(s, Generate(l));
    NextIdIsNew(|s.issued|);
    NextIdCounts(|s.issued|);
    assert s.generator !in s.issued && HoldsId(s', l, s.generator);
    forall id ensures id in s'.issued <==> id in s'.inserted || IdHeld(s', id) {
      if m: nat :| HoldsId(s, m, id) { assert HoldsId(s', m, id); }
      if m: nat :| HoldsId(s', m, id) { assert m == l || HoldsId(s, m, id); }
    }
  }

  lemma AllocateKeepsContexts(s: State, l: nat, context: Context)
    requires Inv(s) && Enabled(s, Allocate(l, context))
    ensures ContextsAccounted(Apply(s, Allocate(l, context)))
  {
    var s' := Apply(s, Allocate(l, context));
    HoldersAfter(s, Allocate(l, context));
    assert HoldsContext(s', l, context) && forall m :: !HoldsContext(s, m, context);
    forall c ensures c in s'.created <==> c in s'.inserted.Values || ContextHeld(s', c) {
      if m: nat :| HoldsContext(s, m, c) { assert HoldsContext(s', m, c); }
      if m: nat :| HoldsContext(s', m, c) { assert m == l || HoldsContext(s, m, c); }
    }
  }

  lemma ValuesGrow(m: map<Id, Context>, id: Id, context: Context)
    requires id !in m
    ensures m[id := context].Values == m.Values + {context}
  {
    var m' := m[id := context];
    forall c ensures c in m'.Values <==> c in m.Values || c == context {
      if c in m.Values {
        var a :| a in m && m[a] == c;
        assert m'[a] == c;
      }
      assert m'[id] == context;
    }
  }

  lemma InsertKeepsIds(s: State, l: nat)
    requires Inv(s) && Enabled(s, Insert(l))
    ensures IdsAccounted(Apply(s, Insert(l)))
  {
    var s' := Apply(s, Insert(l));
    HoldersAfter(s, Insert(l));
    assert HoldsId(s, l, s.listeners[l].id) && forall id :: !HoldsId(s', l, id);
    forall id ensures id in s'.issued <==> id in s'.inserted || IdHeld(s', id) {
      if m: nat :| HoldsId(s, m, id) { assert m == l || HoldsId(s', m, id); }
      if m: nat :| HoldsId(s', m, id) { assert HoldsId(s, m, id); }
    }
  }

  lemma InsertKeepsContexts(s: State, l: nat)
    requires Inv(s) && Enabled(s, Insert(l))
    ensures ContextsAccounted(Apply(s, Insert(l)))
  {
    var s' := Apply(s, Insert(l));
    var id, context := s.listeners[l].id, s.listeners[l].context;
    HoldersAfter(s, Insert(l));
    assert HoldsId(s, l, id) && HoldsContext(s, l, context) && forall c :: !HoldsContext(s', l, c);
    ValuesGrow(s.inserted, id, context);
    forall c ensures c in s'.created <==> c in s'.inserted.Values || ContextHeld(s', c) {
      if m: nat :| HoldsContext(s, m, c) { assert m == l || HoldsContext(s', m, c); }
      if m: nat :| HoldsContext(s', m, c) { assert HoldsContext(s, m, c); }
    }
    forall a | a in s.inserted ensures s.inserted[a] in s.inserted.Values {}
  }

  lemma InsertKeepsClosed(s: State, l: nat)
    requires Inv(s) && Enabled(s, Insert(l))
    ensures ClosedAccounted(Apply(s, Insert(l)))
  {
    var s', id := Apply(s, Insert(l)), s.listeners[l].id;
    assert HoldsId(s, l, id);
    assert id !in s.connections && id !in Elements(s.down);
    assert s'.connections == s'.inserted - Elements(s'.down[..|s'.deleted|]);
  }

  lemma ShutdownKeepsInv(s: State, id: Id)
    requires Inv(s) && Enabled(s, ShutdownComplete(id))
    ensures Inv(Apply(s, ShutdownComplete(id)))
    ensures id in Apply(s, ShutdownComplete(id)).queue
  {
    var s' := Apply(s, ShutdownComplete(id));
    HoldersAfter(s, ShutdownComplete(id));
    SameIds(s, s');
    SameContexts(s, s');
    assert Elements(s'.down) == Elements(s.down) + {id};
    assert s'.down[..|s.deleted|] == s.down[..|s.deleted|];
  }

  /** The front of the queue is always live, so a turn never meets an unknown id. */
  lemma TurnKeepsClosed(s: State, l: nat)
    requires Inv(s) && Enabled(s, CloseTurn(l))
    ensures ClosedAccounted(Apply(s, CloseTurn(l)))
    ensures s.queue != [] ==> Apply(s, CloseTurn(l)).deleted == s.deleted + [s.inserted[s.down[|s.deleted|]]]
  {
    if s.queue != [] {
      var s', n := Apply(s, CloseTurn(l)), |s.deleted|;
      var id := s.queue[0];
      assert id == s.down[n] && id in Elements(s.down);
      assert forall i | 0 <= i < n :: s.down[i] != id;
      assert s.down[..n + 1] == s.down[..n] + [id];
      assert Elements(s.down[..n + 1]) == Elements(s.down[..n]) + {id};
      assert s'.connections == s.inserted - Elements(s.down[..n + 1]);
    }
  }

  lemma KeepsInv(s: State, step: Step)
    requires Inv(s) && Enabled(s, step) && |Apply(s, step).issued| <= TWO_64
    ensures Inv(Apply(s, step))
  {
    var s' := Apply(s, step);
    if step.ShutdownComplete? {
      ShutdownKeepsInv(s, step.id);
    } else if step.Insert? {
      InsertKeepsIds(s, step.l);
      InsertKeepsContexts(s, step.l);
      InsertKeepsClosed(s, step.l);
    } else {
      HoldersAfter(s, step);
      if step.CloseTurn? { TurnKeepsClosed(s, step.l); }
      if step.Generate? {
        GenerateKeepsIds(s, step.l);
      } else {
        assert forall id :: HoldsId(s', step.l, id) <==> HoldsId(s, step.l, id);
        SameIds(s, s');
      }
      if step.Allocate? {
        AllocateKeepsContexts(s, step.l, step.context);
      } else {
        assert forall c :: !HoldsContext(s', step.l, c) && !HoldsContext(s, step.l, c);
        SameContexts(s, s');
      }
    }
  }

  lemma {:induction false} ReachableInv(states: seq<State>, steps: seq<Step>, k: nat)
    requires IsRun(states, steps) && k < |states| && |states[k].issued| <= TWO_64
    ensures Inv(states[k])
  {
    if k == 0 {
      InitInv(states[0]);
    } else {
      ReachableInv(states, steps, k - 1);
      KeepsInv(states[k - 1], steps[k - 1]);
    }
  }

  // ----- the history, read off the steps -----

  /** The ids of the shutdown-complete events among the first k steps, in order. */
  ghost function ShutdownIds(steps: seq<Step>, k: nat): seq<Id>
    requires k <= |steps|
  {
    if k == 0 then []
    else ShutdownIds(steps, k - 1) + if steps[k - 1].ShutdownComplete? then [steps[k - 1].id] else []
  }

  /** How many ids were issued in the first k steps. */
  ghost function Generated(steps: seq<Step>, k: nat): nat
    requires k <= |steps|
  {
    if k == 0 then 0 else Generated(steps, k - 1) + if steps[k - 1].Generate? then 1 else 0
  }

  /** The contexts allocated in the first k steps. */
  ghost function AllocatedBy(steps: seq<Step>, k: nat): set<Context>
    requires k <= |steps|
  {
    if k == 0 then {} else AllocatedBy(steps, k - 1) + if steps[k - 1].Allocate? then {steps[k - 1].context} else {}
  }

  /** The id callback l was last issued: the next number, from 1 on. */
  ghost function IdOf(steps: seq<Step>, l: nat, k: nat): Id
    requires k <= |steps|
  {
    if k == 0 then 0
    else if steps[k - 1] == Generate(l) then (1 + Generated(steps, k - 1)) % TWO_64
    else IdOf(steps, l, k - 1)
  }

  /** The context callback l last allocated. */
  ghost function ContextOf(steps: seq<Step>, l: nat, k: nat): Context
    requires k <= |steps|
  {
    if k == 0 then 0
    else if steps[k - 1].Allocate? && steps[k - 1].l == l then steps[k - 1].context
    else ContextOf(steps, l, k - 1)
  }

  /** Every insertion among the first k steps: the callback's id with the callback's context. */
  ghost function InsertedBy(steps: seq<Step>, k: nat): map<Id, Context>
    requires k <= |steps|
  {
    if k == 0 then map[]
    else
      var before := InsertedBy(steps, k - 1);
      if steps[k - 1].Insert? then
        before[IdOf(steps, steps[k - 1].l, k - 1) := ContextOf(steps, steps[k - 1].l, k - 1)]
      else before
  }

  /** What the callback's position shows of its id and its context. */
  ghost predicate Carries(at: Listener, id: Id, context: Context) {
    && (at.HoldsId() ==> at.id == id)
    && (at.HasContext? ==> at.context == context)
  }

  lemma StepHistory(s: State, step: Step)
    requires Enabled(s, step)
    ensures var s' := Apply(s, step);
            && s'.down == s.down + (if step.ShutdownComplete? then [step.id] else [])
            && s'.generator == (if step.Generate? then NextId(s.generator) else s.generator)
            && |s'.issued| == |s.issued| + (if step.Generate? then 1 else 0)
            && s'.created == s.created + (if step.Allocate? then {step.context} else {})
            && (step.Insert? ==> s.listeners[step.l].HasContext?)
            && s'.inserted == (if step.Insert? then s.inserted[s.listeners[step.l].id := s.listeners[step.l].context]
                               else s.inserted)
  {}

  lemma StepCarries(s: State, step: Step, l: nat, id: Id, context: Context)
    requires Enabled(s, step) && l < |s.listeners| && Carries(s.listeners[l], id, context)
    ensures l < |Apply(s, step).listeners|
    ensures Carries(Apply(s, step).listeners[l], if step == Generate(l) then s.generator else id,
                    if step.Allocate? && step.l == l then step.context else context)
  {
    if step.ShutdownComplete? || step.l != l { OthersStay(s, step, l); }
  }

  lemma {:induction false} CallbackCarries(states: seq<State>, steps: seq<Step>, k: nat, l: nat)
    requires IsRun(states, steps) && k < |states| && l < |states[k].listeners|
    ensures states[k].generator == (1 + Generated(steps, k)) % TWO_64
    ensures Carries(states[k].listeners[l], IdOf(steps, l, k), ContextOf(steps, l, k))
  {
    if k > 0 {
      var s, step := states[k - 1], steps[k - 1];
      HoldersAfter(s, step);
      CallbackCarries(states, steps, k - 1, l);
      StepHistory(s, step);
      StepCarries(s, step, l, IdOf(steps, l, k - 1), ContextOf(steps, l, k - 1));
      NextIdCounts(Generated(steps, k - 1));
    }
  }

  /** The history variables are what the steps did. */
  lemma {:induction false} HistoryIsSteps(states: seq<State>, steps: seq<Step>, k: nat)
    requires IsRun(states, steps) && k < |states|
    ensures states[k].down == ShutdownIds(steps, k)
    ensures states[k].inserted == InsertedBy(steps, k)
    ensures |states[k].issued| == Generated(steps, k) && states[k].created == AllocatedBy(steps, k)
  {
    if k > 0 {
      var s, step := states[k - 1], steps[k - 1];
      HistoryIsSteps(states, steps, k - 1);
      StepHistory(s, step);
      if step.Insert? { CallbackCarries(states, steps, k - 1, step.l); }
    }
  }

  // ----- what holds over whole runs -----

  /**
   As long as no more than 2^64 ids were issued, whatever callbacks overlap: ids
   are distinct; each is live, closed, or in the hand of one callback; and the
   checked lookup never failed.
   */
  lemma RegistrySafety(states: seq<State>, steps: seq<Step>, k: nat)
    requires IsRun(states, steps) && k < |states| && Generated(steps, k) <= TWO_64
    ensures states[k].issued == IssuedIds(Generated(steps, k)) && states[k].inserted == InsertedBy(steps, k)
    ensures var s := states[k];
            && !s.crashed
            && NoDuplicates(s.issued)
            && Elements(s.issued) == s.connections.Keys + (s.inserted.Keys - s.connections.Keys) + InHand(s)
            && s.connections.Keys <= s.inserted.Keys && s.inserted.Keys !! InHand(s)
            && (forall l, m, id | HoldsId(s, l, id) && HoldsId(s, m, id) :: l == m)
            && NoDuplicates(s.queue) && Elements(s.queue) <= s.connections.Keys
            && forall id | id in s.connections :: s.connections[id] == s.inserted[id]
  {
    HistoryIsSteps(states, steps, k);
    ReachableInv(states, steps, k);
    var s := states[k];
    IssuedDistinctExactly(|s.issued|);
    forall id ensures id in InHand(s) <==> IdHeld(s, id) {
      if l: nat :| HoldsId(s, l, id) { assert s.listeners[l].id in InHand(s); }
      if id in InHand(s) {
        var l :| 0 <= l < |s.listeners| && s.listeners[l].HoldsId() && s.listeners[l].id == id;
        assert HoldsId(s, l, id);
      }
    }
    forall id | id in Elements(s.queue) ensures id in s.connections {
      QueuedIsLive(s, id);
    }
  }

  lemma QueuedIsLive(s: State, id: Id)
    requires ClosedAccounted(s) && id in s.queue
    ensures id in s.connections
  {
    var j :| |s.deleted| <= j < |s.down| && s.down[j] == id;
    assert id in Elements(s.down);
    assert forall i | 0 <= i < |s.deleted| :: s.down[i] != s.down[j];
  }

  /**
   Contexts are deleted in the order of the shutdown-complete events of the run,
   each once; every event has had its context deleted or waits in the queue; and
   a connection not shut down is live, with the context its callback gave it.
   */
  lemma ClosedInOrder(states: seq<State>, steps: seq<Step>, k: nat)
    requires IsRun(states, steps) && k < |states| && Generated(steps, k) <= TWO_64
    ensures var s, down, inserted := states[k], ShutdownIds(steps, k), InsertedBy(steps, k);
            && |s.deleted| + |s.queue| == |down| && s.queue == down[|s.deleted|..]
            && (forall i | 0 <= i < |s.deleted| :: down[i] in inserted && s.deleted[i] == inserted[down[i]])
            && NoDuplicates(s.deleted)
            && s.connections == inserted - Elements(down[..|s.deleted|])
            && forall id | id in inserted :: inserted[id] in s.deleted <==> id !in s.connections
  {
    HistoryIsSteps(states, steps, k);
    ReachableInv(states, steps, k);
    var s := states[k];
    forall i | 0 <= i < |s.deleted| ensures s.down[i] in s.inserted { assert s.down[i] in Elements(s.down); }
    forall id | id in s.inserted ensures s.inserted[id] in s.deleted <==> id !in s.connections {
      assert id in Elements(s.down[..|s.deleted|]) <==> id in s.down[..|s.deleted|];
      DeletedExactly(s, id);
    }
  }

  lemma DeletedExactly(s: State, id: Id)
    requires Inv(s) && id in s.inserted
    ensures s.inserted[id] in s.deleted <==> id in s.down[..|s.deleted|]
  {
    if s.inserted[id] in s.deleted {
      var i :| 0 <= i < |s.deleted| && s.deleted[i] == s.inserted[id];
      assert s.down[i] in Elements(s.down);
      assert s.down[..|s.deleted|][i] == id;
    }
    if id in s.down[..|s.deleted|] {
      var i :| 0 <= i < |s.deleted| && s.down[i] == id;
      assert s.deleted[i] == s.inserted[id];
    }
  }

  /** No context leaks: every allocation is live, deleted, or in the hand of exactly one callback. */
  lemma NoLeak(states: seq<State>, steps: seq<Step>, k: nat)
    requires IsRun(states, steps) && k < |states| && Generated(steps, k) <= TWO_64
    ensures var s := states[k];
            && AllocatedBy(steps, k) == s.connections.Values + Elements(s.deleted) + ContextsInHand(s)
            && forall l, m, c | HoldsContext(s, l, c) && HoldsContext(s, m, c) :: l == m
  {
    HistoryIsSteps(states, steps, k);
    ReachableInv(states, steps, k);
    var s := states[k];
    forall c ensures c in s.inserted.Values <==> c in s.connections.Values || c in Elements(s.deleted) {
      LiveOrDeleted(s, c);
    }
    forall c ensures c in ContextsInHand(s) <==> ContextHeld(s, c) {
      if l: nat :| HoldsContext(s, l, c) { assert s.listeners[l].context in ContextsInHand(s); }
      if c in ContextsInHand(s) {
        var l :| 0 <= l < |s.listeners| && s.listeners[l].HasContext? && s.listeners[l].context == c;
        assert HoldsContext(s, l, c);
      }
    }
  }

  lemma LiveOrDeleted(s: State, c: Context)
    requires Inv(s)
    ensures c in s.inserted.Values <==> c in s.connections.Values || c in Elements(s.deleted)
  {
    if c in s.inserted.Values {
      var id :| id in s.inserted && s.inserted[id] == c;
      DeletedExactly(s, id);
      if id in s.connections { assert s.connections[id] == c; }
    }
    if c in s.connections.Values {
      var id :| id in s.connections && s.connections[id] == c;
      assert s.inserted[id] == c;
    }
    if c in Elements(s.deleted) {
      var i :| 0 <= i < |s.deleted| && s.deleted[i] == c;
      assert s.down[i] in Elements(s.down) && s.inserted[s.down[i]] == c;
    }
  }

  /**
   Freeing is lazy but complete: when a callback leaves its close job, exactly
   the connections of the run without a shutdown-complete event are live.
   */
  lemma ListenerCatchesUp(states: seq<State>, steps: seq<Step>, k: nat)
    requires IsRun(states, steps) && k < |steps| && Generated(steps, k) <= TWO_64
    requires steps[k].CloseTurn? && !states[k + 1].listeners[steps[k].l].InJob?
    ensures states[k + 1].queue == [] && |states[k + 1].deleted| == |ShutdownIds(steps, k + 1)|
    ensures states[k + 1].connections == InsertedBy(steps, k + 1) - Elements(ShutdownIds(steps, k + 1))
  {
    HistoryIsSteps(states, steps, k);
    HistoryIsSteps(states, steps, k + 1);
    ReachableInv(states, steps, k);
    var s := states[k];
    assert s.down[..|s.down|] == s.down;
  }

  lemma Extend(states: seq<State>, steps: seq<Step>, step: Step) returns (longer: seq<State>, more: seq<Step>)
    requires IsRun(states, steps) && Enabled(states[|steps|], step)
    ensures IsRun(longer, more) && more == steps + [step] && longer[|more|] == Apply(states[|steps|], step)
  {
    longer, more := states + [Apply(states[|steps|], step)], steps + [step];
  }

  /** One callback that accepts a connection. */
  lemma OneInserted(context: Context) returns (states: seq<State>, steps: seq<Step>)
    ensures IsRun(states, steps)
    ensures states[|steps|] == State(map[1 := context], 2, [], [Waiting], false, [1], map[1 := context], [], {context}, [])
  {
    states, steps := [State(map[], 1, [], [Waiting], false, [], map[], [], {}, [])], [];
    states, steps := Extend(states, steps, ListenerEvent(0, true));
    states, steps := Extend(states, steps, CloseTurn(0));
    states, steps := Extend(states, steps, Generate(0));
    states, steps := Extend(states, steps, Allocate(0, context));
    states, steps := Extend(states, steps, Insert(0));
    assert states[|steps|].listeners == [Waiting];
  }

  /** A connection comes, is shut down, and is gone after the next listener event, whatever that is. */
  lemma LifeRun(context: Context, newConnection: bool) returns (states: seq<State>, steps: seq<Step>)
    ensures IsRun(states, steps)
    ensures InsertedBy(steps, |steps|) == map[1 := context] && ShutdownIds(steps, |steps|) == [1]
    ensures states[|steps|].connections == map[] && states[|steps|].deleted == [context]
  {
    states, steps := OneInserted(context);
    states, steps := Extend(states, steps, ShutdownComplete(1));
    states, steps := Extend(states, steps, ListenerEvent(0, newConnection));
    states, steps := Extend(states, steps, CloseTurn(0));
    states, steps := Extend(states, steps, CloseTurn(0));
    HistoryIsSteps(states, steps, |steps|);
  }

  // ----- the whole callback as a path -----

  /** The steps, taken one after the other, lead from one state to another. */
  ghost predicate Leads(s: State, steps: seq<Step>, s': State)
    decreases |steps|
  {
    if steps == [] then s == s'
    else Enabled(s, steps[0]) && Leads(Apply(s, steps[0]), steps[1..], s')
  }

  lemma LeadsFrom(s: State, step: Step, steps: seq<Step>, s': State)
    requires Enabled(s, step) && Leads(Apply(s, step), steps, s')
    ensures Leads(s, [step] + steps, s')
  {
    assert ([step] + steps)[1..] == steps;
  }

  /** Turns with nothing in between do what the close job does, up to and including a failing lookup. */
  lemma {:induction false} TurnsAreCloseAll(s: State, l: nat) returns (steps: seq<Step>, s': State)
    requires !s.crashed && l < |s.listeners| && s.listeners[l].InJob?
    ensures Leads(s, steps, s')
    ensures var c := CloseAll(s.connections, s.queue);
            s' == s.(connections := c.connections, queue := c.queue, deleted := s.deleted + c.deleted, crashed := c.failed,
                     listeners := if c.failed then s.listeners
                                  else s.listeners[l := if s.listeners[l].newConnection then Drained else Waiting])
    decreases |s.queue|
  {
    var next := Apply(s, CloseTurn(l));
    if s.queue == [] || s.queue[0] !in s.connections {
      steps, s' := [], next;
      assert s.deleted + [] == s.deleted;
    } else {
      steps, s' := TurnsAreCloseAll(next, l);
      var id := s.queue[0];
      var rest := CloseAll(s.connections - {id}, s.queue[1..]);
      assert s.deleted + ([s.connections[id]] + rest.deleted) == s.deleted + [s.connections[id]] + rest.deleted;
    }
    LeadsFrom(s, CloseTurn(l), steps, s');
    steps := [CloseTurn(l)] + steps;
  }

  /** An uninterrupted callback changes the registry as the method ServerListenerCallback says. */
  lemma CallbackIsPath(s: State, l: nat, newConnection: bool, context: Context) returns (steps: seq<Step>, s': State)
    requires !s.crashed && l < |s.listeners| && s.listeners[l] == Waiting && context !in s.created
    ensures Leads(s, steps, s')
    ensures var c := CloseAll(s.connections, s.queue);
            && s'.queue == c.queue && s'.deleted == s.deleted + c.deleted && s'.crashed == c.failed
            && (c.failed || !newConnection ==> s'.connections == c.connections && s'.generator == s.generator)
            && (!c.failed && newConnection ==>
                  && s'.connections == InsertNew(c.connections, s.generator, context)
                  && s'.generator == NextId(s.generator))
            && (!c.failed ==> s'.listeners == s.listeners)
  {
    var s1 := Apply(s, ListenerEvent(l, newConnection));
    var c := CloseAll(s.connections, s.queue);
    var turns, s2 := TurnsAreCloseAll(s1, l);
    steps, s' := [], s2;
    if !c.failed && newConnection {
      steps, s' := InsertIsThreeSteps(s2, l, context);
    }
    if !c.failed { assert s'.listeners == s.listeners; }
    LeadsOn(s1, turns, s2, steps, s');
    LeadsFrom(s, ListenerEvent(l, newConnection), turns + steps, s');
    steps := [ListenerEvent(l, newConnection)] + (turns + steps);
  }

  lemma {:induction false} LeadsOn(s: State, front: seq<Step>, middle: State, back: seq<Step>, s': State)
    requires Leads(s, front, middle) && Leads(middle, back, s')
    ensures Leads(s, front + back, s')
    decreases |front|
  {
    if front == [] {
      assert front + back == back;
    } else {
      assert (front + back)[1..] == front[1..] + back;
      LeadsOn(Apply(s, front[0]), front[1..], middle, back, s');
    }
  }

  lemma InsertIsThreeSteps(s: State, l: nat, context: Context) returns (steps: seq<Step>, s': State)
    requires !s.crashed && l < |s.listeners| && s.listeners[l] == Drained && context !in s.created
    ensures Leads(s, steps, s')
    ensures s'.connections == InsertNew(s.connections, s.generator, context) && s'.generator == NextId(s.generator)
    ensures s'.queue == s.queue && s'.deleted == s.deleted && !s'.crashed && s'.listeners == s.listeners[l := Waiting]
  {
    var s1 := Apply(s, Generate(l));
    var s2 := Apply(s1, Allocate(l, context));
    s' := Apply(s2, Insert(l));
    assert Leads(s', [], s');
    LeadsFrom(s2, Insert(l), [], s');
    LeadsFrom(s1, Allocate(l, context), [Insert(l)] + [], s');
    LeadsFrom(s, Generate(l), [Allocate(l, context)] + ([Insert(l)] + []), s');
    steps := [Generate(l)] + ([Allocate(l, context)] + ([Insert(l)] + []));
  }
}
