/**
 The datagram fragmentation loop. The bound on a chunk is read again in every
 iteration and may have been changed in between; allocation and the transport
 call may fail. A schedule lists what each iteration meets, so that a loop that
 never ends is one that uses up every schedule.
 */
module DatagramSend {
  import opened Bytes

  type uint32 = x: int | 0 <= x < TWO_32

  datatype Observation = Observation(maxSendLength: uint32, haveMemory: bool, accepted: bool)

  /** One transport call: its bytes and whether it succeeded. */
  datatype Attempt = Attempt(bytes: Bytes, accepted: bool)

  datatype Outcome = Unavailable | Finished | OutOfMemory | Running

  /** The attempts made, the bytes never attempted, and how the call stands. */
  datatype Result = Result(attempts: seq<Attempt>, rest: Bytes, outcome: Outcome)

  /** The smaller of the two, cast to 16 bits. */
  function Chunk(len: nat, maxSendLength: uint32): (chunk: nat)
    ensures chunk <= len && chunk <= maxSendLength
  {
    (if len < maxSendLength then len else maxSendLength) % TWO_16
  }

  function Fragments(data: Bytes, schedule: seq<Observation>): Result
    decreases |schedule|
  {
    if data == [] then Result([], [], Finished)
    else if schedule == [] then Result([], data, Running)
    else if !schedule[0].haveMemory then Result([], data, OutOfMemory)
    else
      var chunk := Chunk(|data|, schedule[0].maxSendLength);
      var r := Fragments(data[chunk..], schedule[1..]);
      r.(attempts := [Attempt(data[..chunk], schedule[0].accepted)] + r.attempts)
  }

  function After(attempts: seq<Attempt>, r: Result): Result {
    r.(attempts := attempts + r.attempts)
  }

  /** One iteration whose allocation succeeds. */
  lemma UnfoldOnce(data: Bytes, schedule: seq<Observation>, pos: nat, i: nat, attempts: seq<Attempt>, chunk: nat)
    requires pos < |data| && i < |schedule| && schedule[i].haveMemory
    requires chunk == Chunk(|data| - pos, schedule[i].maxSendLength)
    ensures pos + chunk <= |data|
    ensures After(attempts, Fragments(data[pos..], schedule[i..]))
         == After(attempts + [Attempt(data[pos..pos + chunk], schedule[i].accepted)], Fragments(data[pos + chunk..], schedule[i + 1..]))
  {
    assert data[pos..][chunk..] == data[pos + chunk..] && data[pos..][..chunk] == data[pos..pos + chunk];
    assert schedule[i..][1..] == schedule[i + 1..];
  }

  /** The three ways out of the loop. */
  lemma Exit(data: Bytes, schedule: seq<Observation>, pos: nat, i: nat, attempts: seq<Attempt>)
    requires pos <= |data| && i <= |schedule|
    ensures var r := After(attempts, Fragments(data[pos..], schedule[i..]));
            && (pos == |data| ==> r == Result(attempts, [], Finished))
            && (pos < |data| && i == |schedule| ==> r == Result(attempts, data[pos..], Running))
            && (pos < |data| && i < |schedule| && !schedule[i].haveMemory ==> r == Result(attempts, data[pos..], OutOfMemory))
  {
    assert attempts + [] == attempts;
  }

  /** Allocates a block and copies part of the data into it. */
  method Copy(data: array<byte>, pos: nat, len: nat) returns (buffer: array<byte>)
    requires pos + len <= data.Length
    ensures fresh(buffer) && buffer[..] == data[pos..pos + len]
  {
    buffer := new byte[len](_ => 0);
    forall k | 0 <= k < len { buffer[k] := data[pos + k]; }
  }

  class DatagramSender {
    var connectionOk: bool
    var datagramSendEnabled: bool
    var maxSendLength: uint32

    /** The last two fields have no initial value in the program: any value may be there. */
    constructor (garbageEnabled: bool, garbageLength: uint32)
      ensures !connectionOk && datagramSendEnabled == garbageEnabled && maxSendLength == garbageLength
    {
      connectionOk, datagramSendEnabled, maxSendLength := false, garbageEnabled, garbageLength;
    }

    method OnDatagramStateChanged(length: uint32, enabled: bool)
      modifies this`maxSendLength, this`datagramSendEnabled
      ensures maxSendLength == length && datagramSendEnabled == enabled
    {
      maxSendLength := length;
      if enabled != datagramSendEnabled {
        datagramSendEnabled := enabled;
      }
    }

    /** The loop: what Fragments says. `schedule` is what happens before and in each iteration. */
    method SendChunks(data: array<byte>, schedule: seq<Observation>)
      returns (attempts: seq<Attempt>, ghost rest: Bytes, outcome: Outcome)
      modifies this`maxSendLength
      ensures Result(attempts, rest, outcome) == Fragments(data[..], schedule)
    {
      ghost var whole := data[..];
      var len, pos, i := data.Length, 0, 0;
      attempts, rest := [], whole;
      while len != 0
        invariant 0 <= len && 0 <= pos && pos + len == data.Length == |whole| && i <= |schedule|
        invariant rest == whole[pos..]
        invariant After(attempts, Fragments(rest, schedule[i..])) == Fragments(whole, schedule)
        decreases |schedule| - i
      {
        Exit(whole, schedule, pos, i, attempts);
        if i == |schedule| { return attempts, rest, Running; }
        maxSendLength := schedule[i].maxSendLength;
        var chunk := Chunk(len, maxSendLength);
        if !schedule[i].haveMemory { return attempts, rest, OutOfMemory; }
        UnfoldOnce(whole, schedule, pos, i, attempts, chunk);
        var buffer := Copy(data, pos, chunk);
        attempts := attempts + [Attempt(buffer[..], schedule[i].accepted)];
        len, pos, i := len - chunk, pos + chunk, i + 1;
        rest := whole[pos..];
      }
      Exit(whole, schedule, pos, i, attempts);
      outcome := Finished;
    }

    method Send(data: array<byte>, schedule: seq<Observation>) returns (attempts: seq<Attempt>, outcome: Outcome)
      modifies this`maxSendLength
      ensures !(connectionOk && datagramSendEnabled) ==> attempts == [] && outcome == Unavailable
      ensures connectionOk && datagramSendEnabled ==>
                var r := Fragments(data[..], schedule);
                attempts == r.attempts && outcome == r.outcome
    {
      if !connectionOk || !datagramSendEnabled { return [], Unavailable; }
      ghost var rest;
      attempts, rest, outcome := SendChunks(data, schedule);
    }
  }

  // ----- nothing is lost, repeated or reordered -----

  function Payloads(attempts: seq<Attempt>): (parts: seq<Bytes>)
    ensures |parts| == |attempts|
  {
    seq(|attempts|, i requires 0 <= i < |attempts| => attempts[i].bytes)
  }

  lemma PayloadsCons(first: Attempt, rest: seq<Attempt>)
    ensures Payloads([first] + rest) == [first.bytes] + Payloads(rest)
  {}

  /** The attempted chunks are a prefix of the data, all of it exactly when the loop ended. */
  lemma {:induction false} Lossless(data: Bytes, schedule: seq<Observation>)
    ensures var r := Fragments(data, schedule);
            && Concat(Payloads(r.attempts)) + r.rest == data
            && (r.outcome == Finished <==> r.rest == [])
            && |r.attempts| <= |schedule|
    decreases |schedule|
  {
    if data != [] && schedule != [] && schedule[0].haveMemory {
      var chunk := Chunk(|data|, schedule[0].maxSendLength);
      LosslessStep(data, schedule, chunk);
      Lossless(data[chunk..], schedule[1..]);
    } else {
      assert Payloads([]) == [];
    }
  }

  lemma {:induction false} LosslessStep(data: Bytes, schedule: seq<Observation>, chunk: nat)
    requires data != [] && schedule != [] && schedule[0].haveMemory && chunk == Chunk(|data|, schedule[0].maxSendLength)
    ensures var r, tail := Fragments(data, schedule), Fragments(data[chunk..], schedule[1..]);
            && |r.attempts| == 1 + |tail.attempts| && r.rest == tail.rest && r.outcome == tail.outcome
            && Concat(Payloads(r.attempts)) + r.rest == data[..chunk] + (Concat(Payloads(tail.attempts)) + tail.rest)
            && data[..chunk] + data[chunk..] == data
  {
    var tail := Fragments(data[chunk..], schedule[1..]);
    var first := Attempt(data[..chunk], schedule[0].accepted);
    assert Fragments(data, schedule).attempts == [first] + tail.attempts;
    PayloadsCons(first, tail.attempts);
    ConcatCons(first.bytes, Payloads(tail.attempts));
  }

  ghost predicate GoodBounds(schedule: seq<Observation>) {
    forall i | 0 <= i < |schedule| :: 1 <= schedule[i].maxSendLength <= 65535
  }

  /** The attempts answer the schedule one by one, each chunk non-empty and within the bound read for it. */
  ghost predicate WithinBounds(attempts: seq<Attempt>, schedule: seq<Observation>) {
    && |attempts| <= |schedule|
    && forall i | 0 <= i < |attempts| ::
      1 <= |attempts[i].bytes| <= schedule[i].maxSendLength && attempts[i].accepted == schedule[i].accepted
  }

  lemma WithinBoundsCons(first: Attempt, rest: seq<Attempt>, schedule: seq<Observation>)
    requires schedule != [] && WithinBounds([first], schedule) && WithinBounds(rest, schedule[1..])
    ensures WithinBounds([first] + rest, schedule)
  {
    assert [first][0] == first;
  }

  /** With every bound read in 1..65535, each chunk is non-empty and within the bound read for it. */
  lemma {:induction false} ChunksWithinBounds(data: Bytes, schedule: seq<Observation>)
    requires GoodBounds(schedule)
    ensures WithinBounds(Fragments(data, schedule).attempts, schedule)
    decreases |schedule|
  {
    if data != [] && schedule != [] && schedule[0].haveMemory {
      var chunk := Chunk(|data|, schedule[0].maxSendLength);
      assert GoodBounds(schedule[1..]);
      ChunksWithinBounds(data[chunk..], schedule[1..]);
      var first := Attempt(data[..chunk], schedule[0].accepted);
      assert 1 <= chunk;
      WithinBoundsCons(first, Fragments(data[chunk..], schedule[1..]).attempts, schedule);
    }
  }

  /** A failed allocation ends the call there; the transport's answers do not. */
  lemma {:induction false} OnlyAllocationStops(data: Bytes, schedule: seq<Observation>)
    ensures var r := Fragments(data, schedule);
            && |r.attempts| <= |schedule|
            && (r.outcome == OutOfMemory <==> |r.attempts| < |schedule| && r.rest != [])
            && (r.outcome == OutOfMemory ==> !schedule[|r.attempts|].haveMemory)
    decreases |schedule|
  {
    if data != [] && schedule != [] && schedule[0].haveMemory {
      var chunk := Chunk(|data|, schedule[0].maxSendLength);
      OnlyAllocationStops(data[chunk..], schedule[1..]);
      var r := Fragments(data[chunk..], schedule[1..]);
      if r.outcome == OutOfMemory {
        assert schedule[1..][|r.attempts|] == schedule[|r.attempts| + 1];
      }
    }
  }

  // ----- how many chunks, and when the loop ends at all -----

  ghost predicate Constant(schedule: seq<Observation>, m: uint32) {
    forall i | 0 <= i < |schedule| :: schedule[i].maxSendLength == m && schedule[i].haveMemory
  }

  /** A constant bound m in 1..65535 gives ceil(len/m) chunks, all but the last of size m. */
  lemma {:induction false} ConstantBound(data: Bytes, schedule: seq<Observation>, m: uint32)
    requires Constant(schedule, m) && 1 <= m <= 65535
    requires |data| <= |schedule| * m
    ensures var r := Fragments(data, schedule);
            && r.outcome == Finished
            && (|r.attempts| - 1) * m < |data| <= |r.attempts| * m
            && forall i | 0 <= i < |r.attempts| - 1 :: |r.attempts[i].bytes| == m
    decreases |schedule|
  {
    if data != [] {
      var chunk := Chunk(|data|, m);
      var r := Fragments(data, schedule);
      var tail := Fragments(data[chunk..], schedule[1..]);
      assert Constant(schedule[1..], m);
      MulSucc(|schedule| - 1, m);
      ConstantBound(data[chunk..], schedule[1..], m);
      MulSucc(|tail.attempts|, m);
      MulSucc(|tail.attempts| - 1, m);
      assert r.attempts == [Attempt(data[..chunk], schedule[0].accepted)] + tail.attempts;
      assert chunk < m ==> data[chunk..] == [] && tail.attempts == [];
    }
  }

  lemma MulSucc(k: int, m: int)
    ensures (k + 1) * m == k * m + m
  {}

  /** A zero bound, or a bound and a remainder both past 65535: the cast leaves the loop without an end. */
  lemma {:induction false} NeverEnds(data: Bytes, schedule: seq<Observation>, m: uint32)
    requires Constant(schedule, m) && data != []
    requires m == 0 || (65535 < m && 65535 < |data|)
    ensures Fragments(data, schedule).outcome == Running
    decreases |schedule|
  {
    if schedule != [] {
      var chunk := Chunk(|data|, m);
      assert Constant(schedule[1..], m);
      NeverEnds(data[chunk..], schedule[1..], m);
    }
  }

  function Steady(m: uint32, k: nat): seq<Observation> {
    seq(k, _ => Observation(m, true, true))
  }

  ghost predicate Ends(data: Bytes, m: uint32) {
    exists k: nat :: Fragments(data, Steady(m, k)).outcome == Finished
  }

  /** Exactly which lengths a constant bound ends for. */
  lemma EndsExactly(data: Bytes, m: uint32)
    ensures Ends(data, m) <==> data == [] || (1 <= m && (m <= 65535 || |data| <= 65535))
  {
    if data == [] {
      assert Fragments(data, Steady(m, 0)).outcome == Finished;
    } else if 1 <= m <= 65535 {
      assert |data| <= |data| * m;
      ConstantBound(data, Steady(m, |data|), m);
    } else if m != 0 && |data| <= 65535 {
      var schedule := Steady(m, 1);
      assert data[Chunk(|data|, m)..] == [];
      assert Fragments([], schedule[1..]).outcome == Finished;
      assert Fragments(data, Steady(m, 1)).outcome == Finished;
    } else {
      forall k: nat ensures Fragments(data, Steady(m, k)).outcome != Finished {
        NeverEnds(data, Steady(m, k), m);
      }
    }
  }

  /** The loop ends for every length exactly when the bound is in 1..65535. */
  lemma EndsForEveryLength(m: uint32)
    ensures (forall data: Bytes :: Ends(data, m)) <==> 1 <= m <= 65535
  {
    forall data: Bytes ensures 1 <= m <= 65535 ==> Ends(data, m) {
      EndsExactly(data, m);
    }
    if !(1 <= m <= 65535) {
      var big: Bytes := seq(65536, _ => 0);
      EndsExactly(big, m);
    }
  }
}
