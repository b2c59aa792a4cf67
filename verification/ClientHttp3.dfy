/**
 The client's HTTP/3 sender as the objects that hold its state: the library
 connection, the transport connection and the `pumping` flag. The library and
 the transport choose freely within their contracts; `Send` is one
 uninterrupted call (interleavings are the subject of Http3Pump).
 */
module ClientHttp3 {
  import opened Bytes
  import opened Http3Library
  import opened PumpRounds
  import P = Http3Pump

  datatype QuicBuffer = QuicBuffer(buffer: nat, length: nat)

  /** The transport's name for a stream. */
  type Handle = nat

  /** The bytes a buffer names in the client's memory. */
  function Named(mem: Bytes, b: QuicBuffer): Bytes
    requires b.buffer + b.length <= |mem|
  {
    mem[b.buffer..b.buffer + b.length]
  }

  /** The vectors lie in this memory. */
  ghost predicate Placed(mem: Bytes, vecs: seq<Vec>) {
    forall i | 0 <= i < |vecs| ::
      vecs[i].base + |vecs[i].data| <= |mem| && mem[vecs[i].base..vecs[i].base + |vecs[i].data|] == vecs[i].data
  }

  function Converted(vec: Vec): QuicBuffer {
    QuicBuffer(vec.base, |vec.data| % TWO_32)
  }

  lemma NamedByConverted(mem: Bytes, vecs: seq<Vec>, i: nat)
    requires Placed(mem, vecs) && i < |vecs|
    ensures vecs[i].base + |vecs[i].data| % TWO_32 <= |mem|
    ensures Named(mem, Converted(vecs[i])) == vecs[i].data[..|vecs[i].data| % TWO_32]
  {
    var vec := vecs[i];
    assert mem[vec.base..vec.base + |vec.data|][..|vec.data| % TWO_32] == Named(mem, Converted(vec));
  }

  function ConvertedTotal(vecs: seq<Vec>): nat {
    if vecs == [] then 0 else Converted(vecs[0]).length + ConvertedTotal(vecs[1..])
  }

  /** The 32-bit lengths add up to the payload exactly when no vector reaches 4 GiB. */
  lemma {:induction false} ConvertedTotalExact(vecs: seq<Vec>)
    ensures ConvertedTotal(vecs) <= |Payload(vecs)|
    ensures ConvertedTotal(vecs) == |Payload(vecs)| <==> forall i | 0 <= i < |vecs| :: |vecs[i].data| < 0x1_0000_0000
  {
    if vecs != [] {
      PayloadSplit(vecs);
      ConvertedTotalExact(vecs[1..]);
      if ConvertedTotal(vecs) == |Payload(vecs)| {
        forall i | 0 <= i < |vecs| ensures |vecs[i].data| < 0x1_0000_0000 {
          if i > 0 { assert vecs[i] == vecs[1..][i - 1]; }
        }
      } else if |vecs[0].data| < TWO_32 {
        var i :| 0 <= i < |vecs[1..]| && TWO_32 <= |vecs[1..][i].data|;
        assert vecs[i + 1] == vecs[1..][i];
      }
    }
  }

  lemma PayloadGrows(vecs: seq<Vec>, i: nat)
    requires i < |vecs|
    ensures |Payload(vecs[..i + 1])| == |Payload(vecs[..i])| + |vecs[i].data|
  {
    assert Datas(vecs[..i + 1]) == Datas(vecs[..i]) + [vecs[i].data];
    ConcatSnoc(Datas(vecs[..i]), vecs[i].data);
  }

  lemma ModAdds(a: nat, b: nat)
    ensures (a % TWO_64 + b) % TWO_64 == (a + b) % TWO_64
  {}

  /** Converts vectors to transport buffers; the byte total is kept in 64 bits. */
  method NgVec2QuicBuffer(vecs: seq<Vec>) returns (buffers: array<QuicBuffer>, bytes: nat)
    ensures fresh(buffers) && buffers.Length == |vecs|
    ensures forall i | 0 <= i < |vecs| :: buffers[i].buffer == vecs[i].base && buffers[i].length == |vecs[i].data| % 0x1_0000_0000
    ensures bytes == |Payload(vecs)| % 0x1_0000_0000_0000_0000
  {
    buffers := new QuicBuffer[|vecs|](_ => QuicBuffer(0, 0));
    bytes := 0;
    ghost var total: nat := 0;
    assert Datas(vecs[..0]) == [];
    for i := 0 to |vecs|
      invariant forall j | 0 <= j < i :: buffers[j] == Converted(vecs[j])
      invariant total == |Payload(vecs[..i])| && bytes == total % TWO_64
    {
      buffers[i] := QuicBuffer(vecs[i].base, |vecs[i].data| % TWO_32);
      bytes := (bytes + |vecs[i].data|) % TWO_64;
      ModAdds(total, |vecs[i].data|);
      PayloadGrows(vecs, i);
      total := total + |vecs[i].data|;
    }
    assert vecs[..|vecs|] == vecs;
  }

  // ----- the library -----

  /** A call of the library with its answer. */
  datatype LibraryCall =
    | BindControl(stream: StreamId, failed: bool)
    | BindQpack(encoder: StreamId, decoder: StreamId, failed: bool)
    | SubmitCall(work: Work, failed: bool)
    | OfferCall(stream: StreamId, vecs: seq<Vec>, fin: bool)
    | NoOfferCall(failed: bool)
    | OffsetCall(stream: StreamId, n: nat)

  /** The stream types (section 6.2.1 of RFC 9114, section 4.2 of RFC 9204). */
  const CONTROL_TYPE: byte := 0x00
  const ENCODER_TYPE: byte := 0x02
  const DECODER_TYPE: byte := 0x03

  /** What one stream has when these bytes are queued first. */
  function Opening(bytes: Bytes): Piece { Piece(bytes, false) }

  /** The library's connection object. `calls` is the history of its calls and its answers. */
  class Http3Connection {
    var streams: Streams
    const settings: Bytes
    ghost var calls: seq<LibraryCall>

    constructor (settings: Bytes)
      ensures streams == map[] && calls == [] && this.settings == settings
    {
      this.settings, streams, calls := settings, map[], [];
    }

    /** Queues first bytes on a stream. */
    method Open(stream: StreamId, bytes: Bytes) returns (failed: bool)
      requires ValidStreams(streams) && P.NothingTaken(streams) && bytes != []
      modifies this`streams
      ensures ValidStreams(streams) && P.NothingTaken(streams)
      ensures streams == if failed then old(streams) else Submit(old(streams), map[stream := Opening(bytes)])
    {
      var work := map[stream := Opening(bytes)];
      failed := *;
      if stream < 0 || (stream in streams && streams[stream].eof) {
        failed := true;
      }
      if !failed {
        SubmitMeasure(streams, work);
        streams := Submit(streams, work);
      }
    }

    /** Queues the stream type and the settings; it may fail. */
    method BindControlStream(control: StreamId) returns (failed: bool)
      requires ValidStreams(streams) && P.NothingTaken(streams)
      modifies this
      ensures ValidStreams(streams) && P.NothingTaken(streams)
      ensures calls == old(calls) + [BindControl(control, failed)]
      ensures streams == if failed then old(streams) else Submit(old(streams), map[control := Opening([CONTROL_TYPE] + settings)])
    {
      failed := Open(control, [CONTROL_TYPE] + settings);
      calls := calls + [BindControl(control, failed)];
    }

    /** Queues both stream types; it may fail before the first or between the two. */
    method BindQpackStreams(encoder: StreamId, decoder: StreamId) returns (failed: bool)
      requires ValidStreams(streams) && P.NothingTaken(streams)
      modifies this
      ensures ValidStreams(streams) && P.NothingTaken(streams)
      ensures calls == old(calls) + [BindQpack(encoder, decoder, failed)]
      ensures var one := Submit(old(streams), map[encoder := Opening([ENCODER_TYPE])]);
              var both := Submit(one, map[decoder := Opening([DECODER_TYPE])]);
              if failed then streams == old(streams) || streams == one else streams == both
    {
      failed := Open(encoder, [ENCODER_TYPE]);
      if !failed {
        failed := Open(decoder, [DECODER_TYPE]);
      }
      calls := calls + [BindQpack(encoder, decoder, failed)];
    }

    method SubmitRequest(work: Work) returns (failed: bool)
      requires ValidStreams(streams)
      modifies this
      ensures ValidStreams(streams)
      ensures calls == old(calls) + [SubmitCall(work, failed)]
      ensures failed ==> streams == old(streams)
      ensures !failed ==> CanSubmit(old(streams), work) && streams == Submit(old(streams), work)
    {
      failed := *;
      if exists id | id in work :: id < 0 || work[id].IsEmpty() || (id in streams && streams[id].eof) {
        failed := true;
      }
      if !failed {
        SubmitMeasure(streams, work);
        streams := Submit(streams, work);
      }
      calls := calls + [SubmitCall(work, failed)];
    }

    /**
     A round of some stream with work, in the memory as it then is; or none,
     because there is no work or the library failed.
     */
    method WritevStream() returns (stream: StreamId, fin: bool, vecs: seq<Vec>, failed: bool, mem: Bytes)
      requires ValidStreams(streams)
      modifies this
      ensures stream < 0 ==>
                && streams == old(streams) && (failed || NoWork(streams))
                && calls == old(calls) + [NoOfferCall(failed)]
      ensures 0 <= stream ==>
                && stream in old(streams) && old(streams)[stream].Offers(vecs, fin)
                && streams == Offered(old(streams), stream, fin)
                && calls == old(calls) + [OfferCall(stream, vecs, fin)]
                && Placed(mem, vecs)
    {
      stream, fin, vecs, failed, mem := -1, false, [], *, [];
      if !failed && exists id | id in streams :: streams[id].HasWork() {
        stream :| stream in streams && streams[stream].HasWork();
        var pending := streams[stream].Pending();
        if pending == [] {
          fin := true;
          assert Datas([]) == [];
        } else {
          var n :| 1 <= n <= |pending| && n < TWO_64;
          vecs, mem := [Vec(0, pending[..n])], pending[..n];
          PayloadOfOne(vecs[0]);
          fin := n == |pending| && streams[stream].eof;
        }
        streams := Offered(streams, stream, fin);
      }
      calls := calls + [if stream < 0 then NoOfferCall(failed) else OfferCall(stream, vecs, fin)];
    }

    method AddWriteOffset(stream: StreamId, n: nat)
      requires stream in streams
      modifies this
      ensures streams == ReportWritten(old(streams), stream, n)
      ensures calls == old(calls) + [OffsetCall(stream, n)]
    {
      streams := ReportWritten(streams, stream, n);
      calls := calls + [OffsetCall(stream, n)];
    }
  }

  predicate Failed(c: LibraryCall) {
    match c
    case SubmitCall(_, failed) => failed
    case NoOfferCall(failed) => failed
    case _ => false
  }

  /** What one round asks of the library: the offer, and the report of its whole payload. */
  function RoundCalls(r: Round): seq<LibraryCall> {
    [OfferCall(r.stream, r.vecs, r.fin), OffsetCall(r.stream, |Payload(r.vecs)|)]
  }

  function LibraryCalls(rounds: seq<Round>): seq<LibraryCall> {
    if rounds == [] then [] else LibraryCalls(rounds[..|rounds| - 1]) + RoundCalls(rounds[|rounds| - 1])
  }

  /** The library was asked for exactly these rounds, in order. */
  ghost predicate AskedFor(before: seq<LibraryCall>, rounds: seq<Round>, after: seq<LibraryCall>) {
    after == before + LibraryCalls(rounds)
  }

  lemma AskedForOneMore(before: seq<LibraryCall>, rounds: seq<Round>, middle: seq<LibraryCall>, r: Round)
    requires AskedFor(before, rounds, middle)
    ensures AskedFor(before, rounds + [r], middle + RoundCalls(r))
  {
    assert (rounds + [r])[..|rounds|] == rounds;
  }

  lemma LastAnswer(before: seq<LibraryCall>, rounds: seq<Round>, middle: seq<LibraryCall>, failed: bool)
    requires AskedFor(before, rounds, middle)
    ensures middle + [NoOfferCall(failed)] == before + (LibraryCalls(rounds) + [NoOfferCall(failed)])
  {}

  // ----- the transport -----

  /** A send call of the transport: the stream, the bytes of the buffers announced, FIN, and the answer. */
  datatype SendCall = SendCall(handle: Handle, bytes: Bytes, fin: bool, accepted: bool)

  function NamedAll(mem: Bytes, buffers: seq<QuicBuffer>): Bytes
    requires forall i | 0 <= i < |buffers| :: buffers[i].buffer + buffers[i].length <= |mem|
  {
    if buffers == [] then [] else Named(mem, buffers[0]) + NamedAll(mem, buffers[1..])
  }

  /** The transport. `calls` is the history of its calls and its answers. */
  class QuicTransport {
    ghost var calls: seq<SendCall>

    constructor ()
      ensures calls == []
    {
      calls := [];
    }

    /** Takes `count` buffers from the front of the array, or from behind its end whatever lies there. */
    method StreamSend(handle: Handle, mem: Bytes, buffers: array<QuicBuffer>, count: nat, fin: bool)
      returns (accepted: bool, ghost bytes: Bytes)
      requires forall i | 0 <= i < buffers.Length && i < count :: buffers[i].buffer + buffers[i].length <= |mem|
      modifies this
      ensures count <= buffers.Length ==> bytes == NamedAll(mem, buffers[..count])
      ensures calls == old(calls) + [SendCall(handle, bytes, fin, accepted)]
    {
      accepted, bytes := *, *;
      if count <= buffers.Length { bytes := NamedAll(mem, buffers[..count]); }
      calls := calls + [SendCall(handle, bytes, fin, accepted)];
    }
  }

  /** The transport's share of one round: one call, none if the connection is down. */
  function SendsOf(streamMap: map<StreamId, Handle>, r: Round): seq<SendCall>
    requires r.stream in streamMap
  {
    if r.up then [SendCall(streamMap[r.stream], r.Announced(), r.fin, r.accepted)] else []
  }

  ghost predicate OnRegistered(streamMap: map<StreamId, Handle>, rounds: seq<Round>) {
    forall i | 0 <= i < |rounds| :: rounds[i].stream in streamMap
  }

  function Sends(streamMap: map<StreamId, Handle>, rounds: seq<Round>): seq<SendCall>
    requires OnRegistered(streamMap, rounds)
  {
    if rounds == [] then []
    else Sends(streamMap, rounds[..|rounds| - 1]) + SendsOf(streamMap, rounds[|rounds| - 1])
  }

  /** The transport was called with what these rounds hand over, in order. */
  ghost predicate SentBy(before: seq<SendCall>, streamMap: map<StreamId, Handle>, rounds: seq<Round>, after: seq<SendCall>) {
    OnRegistered(streamMap, rounds) && after == before + Sends(streamMap, rounds)
  }

  lemma NothingSent(before: seq<SendCall>, streamMap: map<StreamId, Handle>)
    ensures SentBy(before, streamMap, [], before)
  {}

  lemma SendsOneMore(before: seq<SendCall>, streamMap: map<StreamId, Handle>, rounds: seq<Round>,
                     middle: seq<SendCall>, r: Round)
    requires SentBy(before, streamMap, rounds, middle) && r.stream in streamMap
    ensures SentBy(before, streamMap, rounds + [r], middle + SendsOf(streamMap, r))
  {
    assert (rounds + [r])[..|rounds|] == rounds;
  }

  /** The client's side of the connection. */
  class ClientConnection {
    const transport: QuicTransport
    var connectionOk: bool
    var streamMap: map<StreamId, Handle>

    constructor (transport: QuicTransport, ok: bool, streams: map<StreamId, Handle>)
      ensures this.transport == transport && connectionOk == ok && streamMap == streams
    {
      this.transport, connectionOk, streamMap := transport, ok, streams;
    }

    /** On a live connection one call announces one buffer to the transport, whatever the number of buffers. */
    method StreamSendById(mem: Bytes, stream: StreamId, buffers: array<QuicBuffer>, fin: bool)
      returns (accepted: bool, ghost announced: Bytes)
      requires stream in streamMap
      requires buffers.Length > 0 ==> buffers[0].buffer + buffers[0].length <= |mem|
      modifies transport
      ensures !connectionOk ==> !accepted && transport.calls == old(transport.calls)
      ensures connectionOk ==>
                transport.calls == old(transport.calls) + [SendCall(streamMap[stream], announced, fin, accepted)]
      ensures connectionOk && buffers.Length > 0 ==> announced == Named(mem, buffers[0])
    {
      var handle := streamMap[stream];
      accepted, announced := false, [];
      if connectionOk {
        accepted, announced := transport.StreamSend(handle, mem, buffers, 1, fin);
        if buffers.Length > 0 {
          assert buffers[..1] == [buffers[0]];
          assert NamedAll(mem, [buffers[0]]) == Named(mem, buffers[0]) + NamedAll(mem, []);
        }
      }
    }
  }

  datatype Outcome = SubmitFailed | AnotherPumps | Drained | LibraryFailed

  /** What a call of Send asks of the library: the submission, then, if it pumps, its rounds and a last answer without one. */
  function CallsOfSend(work: Work, outcome: Outcome, rounds: seq<Round>): seq<LibraryCall> {
    match outcome
    case SubmitFailed => [SubmitCall(work, true)]
    case AnotherPumps => [SubmitCall(work, false)]
    case Drained => [SubmitCall(work, false)] + (LibraryCalls(rounds) + [NoOfferCall(false)])
    case LibraryFailed => [SubmitCall(work, false)] + (LibraryCalls(rounds) + [NoOfferCall(true)])
  }

  /** The submission, then the drain: the calls of a Send that pumped. */
  lemma PumpedCalls(before: seq<LibraryCall>, work: Work, outcome: Outcome, rounds: seq<Round>, after: seq<LibraryCall>)
    requires outcome.Drained? || outcome.LibraryFailed?
    requires after == before + [SubmitCall(work, false)] + (LibraryCalls(rounds) + [NoOfferCall(outcome.LibraryFailed?)])
    ensures after == before + CallsOfSend(work, outcome, rounds)
  {}

  /** No call of the library after these answered failure. */
  ghost predicate NoneFailed(before: seq<LibraryCall>, after: seq<LibraryCall>)
    requires |before| <= |after|
  {
    forall i | |before| <= i < |after| :: !Failed(after[i])
  }

  /** Send ends as refused or as failed only if a call of the library answered so. */
  lemma FailureWasAnswered(before: seq<LibraryCall>, work: Work, outcome: Outcome, rounds: seq<Round>)
    requires outcome.SubmitFailed? || outcome.LibraryFailed?
    ensures !NoneFailed(before, before + CallsOfSend(work, outcome, rounds))
  {
    var all := before + CallsOfSend(work, outcome, rounds);
    assert Failed(all[|all| - 1]);
  }

  /** What the rounds do to one stream. */
  ghost predicate StreamDrainsTo(before: Outgoing, taken: Bytes, after: Outgoing)
    requires before.Valid()
  {
    && after.submitted == before.submitted && after.eof == before.eof
    && taken <= before.Pending()
    && after.offset == before.offset + |taken|
  }

  /** What a whole drain does to the library's streams. */
  ghost predicate DrainsTo(before: Streams, rounds: seq<Round>, after: Streams) {
    && ValidStreams(before) && ValidStreams(after)
    && after.Keys == before.Keys
    && Spent(rounds) + Measure(after) == Measure(before)
    && forall id | id in before :: StreamDrainsTo(before[id], OfferedBytes(rounds, id), after[id])
  }

  /** A drain that leaves no work has taken exactly what was pending. */
  lemma DrainedTakesAll(before: Streams, rounds: seq<Round>, after: Streams)
    requires DrainsTo(before, rounds, after) && NoWork(after)
    ensures forall id | id in after :: OfferedBytes(rounds, id) == before[id].Pending()
  {
    forall id | id in after ensures OfferedBytes(rounds, id) == before[id].Pending() {
      assert StreamDrainsTo(before[id], OfferedBytes(rounds, id), after[id]) && !after[id].HasWork();
    }
  }

  /** The library's streams after one round of stream r.stream. */
  ghost function AfterRound(middle: Streams, r: Round): Streams
    requires r.stream in middle
  {
    ReportWritten(Offered(middle, r.stream, r.fin), r.stream, |Payload(r.vecs)|)
  }

  lemma RoundUsesWeight(middle: Streams, r: Round)
    requires ValidStreams(middle) && r.stream in middle && middle[r.stream].Offers(r.vecs, r.fin)
    ensures ValidStreams(AfterRound(middle, r))
    ensures Measure(AfterRound(middle, r)) + r.Weight() == Measure(middle) && 0 < r.Weight()
  {
    OfferedMeasure(middle, r.stream, r.fin);
    ReportMeasure(Offered(middle, r.stream, r.fin), r.stream, r.vecs, r.fin);
  }

  lemma DrainsOneMore(before: Streams, rounds: seq<Round>, middle: Streams, r: Round)
    requires DrainsTo(before, rounds, middle)
    requires r.stream in middle && middle[r.stream].Offers(r.vecs, r.fin)
    ensures DrainsTo(before, rounds + [r], AfterRound(middle, r)) && Measure(AfterRound(middle, r)) < Measure(middle)
  {
    var after := AfterRound(middle, r);
    RoundUsesWeight(middle, r);
    SpentSnoc(rounds, r);
    forall id | id in before ensures StreamDrainsTo(before[id], OfferedBytes(rounds + [r], id), after[id]) {
      OfferedSnoc(rounds, r, id);
      assert StreamDrainsTo(before[id], OfferedBytes(rounds, id), middle[id]);
      if id == r.stream {
        TakesMore(before[id], OfferedBytes(rounds, id), middle[id], Payload(r.vecs));
      }
    }
  }

  lemma TakesMore(before: Outgoing, front: Bytes, middle: Outgoing, next: Bytes)
    requires before.Valid() && middle.Valid() && middle.submitted == before.submitted
    requires front <= before.Pending() && middle.offset == before.offset + |front|
    requires next <= middle.Pending()
    ensures front + next <= before.Pending()
  {
    var whole := before.Pending();
    assert middle.Pending() == whole[|front|..];
    assert whole == front + whole[|front|..];
  }

  // ----- the call as a path of the step machine -----

  /** The steps, taken one after the other, lead from one state of the machine to another. */
  ghost predicate Leads(s: P.State, steps: seq<P.Step>, s': P.State)
    decreases |steps|
  {
    if steps == [] then s == s'
    else P.Enabled(s, steps[0]) && Leads(P.Apply(s, steps[0]), steps[1..], s')
  }

  lemma {:induction false} LeadsOn(s: P.State, steps: seq<P.Step>, s': P.State, step: P.Step)
    requires Leads(s, steps, s') && P.Enabled(s', step)
    ensures Leads(s, steps + [step], P.Apply(s', step))
    decreases |steps|
  {
    if steps == [] {
      assert [step][1..] == [];
    } else {
      assert (steps + [step])[1..] == steps[1..] + [step];
      LeadsOn(P.Apply(s, steps[0]), steps[1..], s', step);
    }
  }

  /** The machine state shows the same library streams, flag and connection, and thread t at a place. */
  ghost predicate Shows(s: P.State, t: nat, pc: P.Pc, streams: Streams, pumping: bool, up: bool) {
    t < |s.threads| && s.threads[t] == pc && s.streams == streams && s.pumping == pumping && s.up == up
  }

  /** Rounds one after the other, each offered by the library in the streams the one before left. */
  ghost predicate Chain(middles: seq<Streams>, rounds: seq<Round>, up: bool) {
    && |middles| == |rounds| + 1
    && ValidStreams(middles[|rounds|])
    && forall i | 0 <= i < |rounds| ::
      && ValidStreams(middles[i])
      && rounds[i].stream in middles[i] && middles[i][rounds[i].stream].Offers(rounds[i].vecs, rounds[i].fin)
      && rounds[i].up == up
      && middles[i + 1] == AfterRound(middles[i], rounds[i])
  }

  lemma ChainGrows(middles: seq<Streams>, rounds: seq<Round>, up: bool, r: Round, next: Streams)
    requires Chain(middles, rounds, up) && r.up == up
    requires r.stream in middles[|rounds|] && middles[|rounds|][r.stream].Offers(r.vecs, r.fin)
    requires next == AfterRound(middles[|rounds|], r)
    ensures Chain(middles + [next], rounds + [r], up)
    ensures ValidStreams(next) && Measure(next) < Measure(middles[|rounds|])
  {
    RoundUsesWeight(middles[|rounds|], r);
  }

  lemma ChainFront(middles: seq<Streams>, rounds: seq<Round>, up: bool, n: nat)
    requires Chain(middles, rounds, up) && |rounds| == n + 1
    ensures Chain(middles[..n + 1], rounds[..n], up) && middles[..n + 1][n] == middles[n] && middles[..n + 1][0] == middles[0]
    ensures ValidStreams(middles[n]) && rounds[n].up == up
    ensures rounds[n].stream in middles[n] && middles[n][rounds[n].stream].Offers(rounds[n].vecs, rounds[n].fin)
    ensures middles[n + 1] == AfterRound(middles[n], rounds[n]) && rounds == rounds[..n] + [rounds[n]]
  {}

  lemma {:induction false} ChainDrains(middles: seq<Streams>, rounds: seq<Round>, up: bool)
    requires Chain(middles, rounds, up)
    ensures DrainsTo(middles[0], rounds, middles[|rounds|])
  {
    if rounds != [] {
      var n := |rounds| - 1;
      ChainFront(middles, rounds, up, n);
      ChainDrains(middles[..n + 1], rounds[..n], up);
      DrainsOneMore(middles[0], rounds[..n], middles[n], rounds[n]);
    }
  }

  /** One turn of the loop is three steps of the thread. */
  lemma RoundIsThreeSteps(s0: P.State, steps: seq<P.Step>, s: P.State, t: nat, r: Round)
    returns (more: seq<P.Step>, s': P.State)
    requires Leads(s0, steps, s) && t < |s.threads| && s.threads[t] == P.LoopHead
    requires r.stream in s.streams && s.streams[r.stream].Valid() && s.streams[r.stream].Offers(r.vecs, r.fin) && r.up == s.up
    ensures Leads(s0, more, s') && Shows(s', t, P.LoopHead, AfterRound(s.streams, r), s.pumping, s.up)
    ensures s'.threads == s.threads && s'.log == s.log + [r]
  {
    var drain, handOver, report := P.Drain(t, r.stream, r.vecs, r.fin), P.HandOver(t, r.accepted, r.stray), P.ReportOffset(t);
    LeadsOn(s0, steps, s, drain);
    var s1 := P.Apply(s, drain);
    LeadsOn(s0, steps + [drain], s1, handOver);
    var s2 := P.Apply(s1, handOver);
    LeadsOn(s0, steps + [drain] + [handOver], s2, report);
    more, s' := steps + [drain] + [handOver] + [report], P.Apply(s2, report);
    assert s'.threads == s.threads;
  }

  /** A chain of rounds is a path of the thread from the loop head back to it. */
  lemma {:induction false} ChainIsPath(s0: P.State, before: seq<P.Step>, first: P.State, t: nat,
                                       middles: seq<Streams>, rounds: seq<Round>)
    returns (steps: seq<P.Step>, s: P.State)
    requires Chain(middles, rounds, first.up)
    requires Leads(s0, before, first) && Shows(first, t, P.LoopHead, middles[0], first.pumping, first.up)
    ensures Leads(s0, steps, s) && Shows(s, t, P.LoopHead, middles[|rounds|], first.pumping, first.up)
    ensures s.threads == first.threads && s.log == first.log + rounds
    decreases |rounds|
  {
    if rounds == [] {
      steps, s := before, first;
    } else {
      var n := |rounds| - 1;
      ChainFront(middles, rounds, first.up, n);
      steps, s := ChainIsPath(s0, before, first, t, middles[..n + 1], rounds[..n]);
      steps, s := RoundIsThreeSteps(s0, steps, s, t, rounds[n]);
      assert first.log + rounds[..n] + [rounds[n]] == first.log + rounds;
    }
  }

  /** Submitting and testing the flag are two steps. */
  lemma StartIsTwoSteps(s0: P.State, t: nat, work: Work) returns (steps: seq<P.Step>, s: P.State)
    requires t < |s0.threads| && s0.threads[t] == P.Outside && CanSubmit(s0.streams, work)
    ensures Leads(s0, steps, s)
    ensures Shows(s, t, if s0.pumping then P.Outside else P.LoopHead, Submit(s0.streams, work), true, s0.up)
    ensures s.threads == s0.threads[t := s.threads[t]] && s.log == s0.log
  {
    LeadsOn(s0, [], s0, P.SubmitWork(t, work));
    var s1 := P.Apply(s0, P.SubmitWork(t, work));
    LeadsOn(s0, [] + [P.SubmitWork(t, work)], s1, P.TestAndSet(t));
    steps, s := [] + [P.SubmitWork(t, work)] + [P.TestAndSet(t)], P.Apply(s1, P.TestAndSet(t));
  }

  /** Finding nothing to drain and clearing the flag are two steps. */
  lemma EndIsTwoSteps(s0: P.State, steps: seq<P.Step>, s: P.State, t: nat, empty: bool)
    returns (more: seq<P.Step>, s': P.State)
    requires Leads(s0, steps, s) && t < |s.threads| && s.threads[t] == P.LoopHead && (empty ==> NoWork(s.streams))
    ensures Leads(s0, more, s') && Shows(s', t, P.Outside, s.streams, false, s.up)
    ensures s'.threads == s.threads[t := P.Outside] && s'.log == s.log
  {
    var step := if empty then P.DrainEmpty(t) else P.DrainFails(t);
    LeadsOn(s0, steps, s, step);
    var s1 := P.Apply(s, step);
    LeadsOn(s0, steps + [step], s1, P.ClearFlag(t));
    more, s' := steps + [step] + [P.ClearFlag(t)], P.Apply(s1, P.ClearFlag(t));
  }

  /** What a call of Send does to the library's streams. */
  ghost predicate SendEffect(before: Streams, work: Work, pumping: bool, outcome: Outcome, rounds: seq<Round>, after: Streams) {
    if outcome.SubmitFailed? then after == before && rounds == []
    else
      && CanSubmit(before, work)
      && (outcome.AnotherPumps? <==> pumping)
      && DrainsTo(Submit(before, work), rounds, after)
      && (outcome.AnotherPumps? ==> rounds == [] && after == Submit(before, work))
      && (outcome.Drained? ==>
            NoWork(after) && forall id | id in after :: OfferedBytes(rounds, id) == Submit(before, work)[id].Pending())
  }

  lemma TurnedAwayEffect(before: Streams, work: Work)
    requires ValidStreams(before) && CanSubmit(before, work)
    ensures SendEffect(before, work, true, AnotherPumps, [], Submit(before, work))
  {
    SubmitMeasure(before, work);
  }

  lemma PumpedEffect(before: Streams, work: Work, outcome: Outcome, middles: seq<Streams>, rounds: seq<Round>, up: bool)
    requires CanSubmit(before, work) && (outcome.Drained? || outcome.LibraryFailed?)
    requires Chain(middles, rounds, up) && middles[0] == Submit(before, work)
    requires outcome.Drained? ==> NoWork(middles[|rounds|])
    ensures SendEffect(before, work, false, outcome, rounds, middles[|rounds|])
  {
    ChainDrains(middles, rounds, up);
    if outcome.Drained? {
      DrainedTakesAll(Submit(before, work), rounds, middles[|rounds|]);
    }
  }

  /** The rounds of a call that pumped are a chain from what the submission left to what the call left. */
  ghost predicate PumpedChain(before: Streams, work: Work, outcome: Outcome, middles: seq<Streams>, rounds: seq<Round>,
                              up: bool, after: Streams)
  {
    outcome.Drained? || outcome.LibraryFailed? ==>
      Chain(middles, rounds, up) && middles[0] == Submit(before, work) && middles[|rounds|] == after
  }

  /** From any state of the step machine that shows the client before the call, the call is a path of the thread back. */
  lemma SendIsPath(s0: P.State, t: nat, work: Work, outcome: Outcome, middles: seq<Streams>, rounds: seq<Round>, after: Streams)
    returns (steps: seq<P.Step>, s: P.State)
    requires t < |s0.threads| && s0.threads[t] == P.Outside
    requires SendEffect(s0.streams, work, s0.pumping, outcome, rounds, after)
    requires PumpedChain(s0.streams, work, outcome, middles, rounds, s0.up, after)
    ensures Leads(s0, steps, s) && Shows(s, t, P.Outside, after, s0.pumping, s0.up)
    ensures s.threads == s0.threads && s.log == s0.log + rounds
  {
    if outcome.SubmitFailed? {
      LeadsOn(s0, [], s0, P.SubmitFails(t));
      steps, s := [] + [P.SubmitFails(t)], P.Apply(s0, P.SubmitFails(t));
    } else {
      steps, s := StartIsTwoSteps(s0, t, work);
      if !outcome.AnotherPumps? {
        steps, s := ChainIsPath(s0, steps, s, t, middles, rounds);
        steps, s := EndIsTwoSteps(s0, steps, s, t, outcome.Drained?);
      }
    }
  }

  /** The library's streams, and what it and the transport have been asked. */
  datatype Trace = Trace(streams: Streams, asked: seq<LibraryCall>, sent: seq<SendCall>)

  /** These rounds, one after the other, lead from one trace to another. */
  ghost predicate Traced(up: bool, streamMap: map<StreamId, Handle>, start: Trace, middles: seq<Streams>, rounds: seq<Round>,
                         now: Trace)
  {
    && Chain(middles, rounds, up) && middles[0] == start.streams && middles[|rounds|] == now.streams
    && AskedFor(start.asked, rounds, now.asked)
    && SentBy(start.sent, streamMap, rounds, now.sent)
  }

  lemma TracedOneMore(up: bool, streamMap: map<StreamId, Handle>, start: Trace, middles: seq<Streams>, rounds: seq<Round>,
                      before: Trace, r: Round, now: Trace)
    requires Traced(up, streamMap, start, middles, rounds, before)
    requires r.up == up && r.stream in streamMap
    requires r.stream in before.streams && before.streams[r.stream].Offers(r.vecs, r.fin)
    requires now.streams == AfterRound(before.streams, r)
    requires now.asked == before.asked + RoundCalls(r) && now.sent == before.sent + SendsOf(streamMap, r)
    ensures Traced(up, streamMap, start, middles + [now.streams], rounds + [r], now)
    ensures ValidStreams(now.streams) && Measure(now.streams) < Measure(before.streams)
  {
    ChainGrows(middles, rounds, up, r, now.streams);
    SendsOneMore(start.sent, streamMap, rounds, before.sent, r);
    AskedForOneMore(start.asked, rounds, before.asked, r);
  }

  /** What a stream has when these bytes are all that was queued on it. */
  ghost predicate Queued(streams: Streams, id: StreamId, bytes: Bytes) {
    id in streams && streams[id] == FRESH.Append(Opening(bytes))
  }

  lemma QueuedFirst(streams: Streams, id: StreamId, bytes: Bytes)
    requires id !in streams
    ensures Queued(Submit(streams, map[id := Opening(bytes)]), id, bytes)
  {}

  lemma QueuedStays(streams: Streams, other: StreamId, more: Bytes, id: StreamId, bytes: Bytes)
    requires Queued(streams, id, bytes) && id != other
    ensures Queued(Submit(streams, map[other := Opening(more)]), id, bytes)
  {}

  class ClientHttp3 {
    const http3: Http3Connection
    const connection: ClientConnection
    var pumping: bool

    /**
     Binds the control and the two QPACK streams, once each, and ignores whether
     that worked; a bind that did has queued that stream's type, and the settings
     on the control stream. Whatever is queued then, any number of threads start
     from it as Http3Pump says.
     */
    constructor (connection: ClientConnection, control: StreamId, encoder: StreamId, decoder: StreamId, settings: Bytes)
      ensures this.connection == connection && fresh(http3) && !pumping
      ensures ValidStreams(http3.streams) && http3.streams.Keys <= {control, encoder, decoder}
      ensures forall n: nat, up: bool :: P.Init(P.AtStart(n, up, http3.streams))
      ensures |http3.calls| == 2
      ensures var bind := http3.calls[0];
              && bind.BindControl? && bind.stream == control
              && (!bind.failed && control != encoder && control != decoder ==>
                    Queued(http3.streams, control, [CONTROL_TYPE] + settings))
      ensures var bind := http3.calls[1];
              && bind.BindQpack? && bind.encoder == encoder && bind.decoder == decoder
              && (!bind.failed && control != encoder && control != decoder && encoder != decoder ==>
                    Queued(http3.streams, encoder, [ENCODER_TYPE]) && Queued(http3.streams, decoder, [DECODER_TYPE]))
    {
      this.connection, pumping := connection, false;
      http3 := new Http3Connection(settings);
      new;
      QueuedFirst(map[], control, [CONTROL_TYPE] + settings);
      var failed := http3.BindControlStream(control);
      ghost var bound := http3.streams;
      failed := http3.BindQpackStreams(encoder, decoder);
      ghost var one := Submit(bound, map[encoder := Opening([ENCODER_TYPE])]);
      if control != encoder {
        QueuedFirst(bound, encoder, [ENCODER_TYPE]);
        if control in bound { QueuedStays(bound, encoder, [ENCODER_TYPE], control, [CONTROL_TYPE] + settings); }
        if control != decoder && encoder != decoder {
          QueuedFirst(one, decoder, [DECODER_TYPE]);
          QueuedStays(one, decoder, [DECODER_TYPE], encoder, [ENCODER_TYPE]);
        }
        if control != decoder && control in bound {
          QueuedStays(one, decoder, [DECODER_TYPE], control, [CONTROL_TYPE] + settings);
        }
      }
    }

    /** Every stream the library may send on is in the stream map. */
    ghost predicate Ready()
      reads this, http3, connection
    {
      ValidStreams(http3.streams) && http3.streams.Keys <= connection.streamMap.Keys
    }

    /** One turn of the drain loop, with the flag set: ask, convert, hand over, report; or ask and find nothing. */
    method PumpRound() returns (stream: StreamId, failed: bool, ghost round: Round)
      requires Ready() && pumping
      modifies http3, connection.transport
      ensures stream < 0 ==>
                && http3.streams == old(http3.streams) && connection.transport.calls == old(connection.transport.calls)
                && (failed || NoWork(http3.streams))
                && http3.calls == old(http3.calls) + [NoOfferCall(failed)]
      ensures 0 <= stream ==>
                && round.stream == stream && stream in old(http3.streams)
                && old(http3.streams)[stream].Offers(round.vecs, round.fin)
                && http3.streams == AfterRound(old(http3.streams), round)
                && http3.calls == old(http3.calls) + RoundCalls(round)
                && round.up == connection.connectionOk
                && connection.transport.calls == old(connection.transport.calls) + SendsOf(connection.streamMap, round)
    {
      var fin, vecs, mem;
      stream, fin, vecs, failed, mem := http3.WritevStream();
      round := Round(stream, vecs, fin, false, false, []);
      if 0 <= stream {
        var buffers, bytes := NgVec2QuicBuffer(vecs);
        if vecs != [] { NamedByConverted(mem, vecs, 0); }
        ghost var announced;
        var accepted;
        accepted, announced := connection.StreamSendById(mem, stream, buffers, fin);
        round := Round(stream, vecs, fin, connection.connectionOk, accepted, if vecs == [] then announced else []);
        http3.AddWriteOffset(stream, bytes);
      }
    }

    /**
     Submits the request, once; the call ends there exactly if the library
     refused it, or if the flag was taken. Else it drains the library, round by
     round, until it is offered nothing: if no call of the library failed, the
     rounds are exactly what was pending, stream by stream, and nothing is left.
     */
    method SubmitAndDrain(work: Work) returns (outcome: Outcome, ghost rounds: seq<Round>, ghost middles: seq<Streams>)
      requires Ready() && work.Keys <= connection.streamMap.Keys
      modifies this`pumping, http3, connection.transport
      ensures Ready() && pumping == old(pumping)
      ensures SentBy(old(connection.transport.calls), connection.streamMap, rounds, connection.transport.calls)
      ensures http3.calls == old(http3.calls) + CallsOfSend(work, outcome, rounds)
      ensures SendEffect(old(http3.streams), work, old(pumping), outcome, rounds, http3.streams)
      ensures PumpedChain(old(http3.streams), work, outcome, middles, rounds, connection.connectionOk, http3.streams)
    {
      NothingSent(connection.transport.calls, connection.streamMap);
      rounds, middles := [], [];
      var failed := http3.SubmitRequest(work);
      if failed { return SubmitFailed, [], []; }
      if pumping {
        TurnedAwayEffect(old(http3.streams), work);
        return AnotherPumps, [], [];
      }
      pumping := true;
      outcome, rounds, middles := DrainLoop();
      pumping := false;
      PumpedCalls(old(http3.calls), work, outcome, rounds, http3.calls);
      PumpedEffect(old(http3.streams), work, outcome, middles, rounds, connection.connectionOk);
    }

    /** The call, seen from any state of the step machine: a path of thread t back to where it started. */
    method Send(work: Work, ghost s0: P.State, ghost t: nat)
      returns (outcome: Outcome, ghost rounds: seq<Round>, ghost steps: seq<P.Step>, ghost s: P.State)
      requires Ready() && work.Keys <= connection.streamMap.Keys
      requires Shows(s0, t, P.Outside, http3.streams, pumping, connection.connectionOk)
      modifies this`pumping, http3, connection.transport
      ensures Ready() && pumping == old(pumping)
      ensures SentBy(old(connection.transport.calls), connection.streamMap, rounds, connection.transport.calls)
      ensures http3.calls == old(http3.calls) + CallsOfSend(work, outcome, rounds)
      ensures !old(pumping) && NoneFailed(old(http3.calls), http3.calls) ==> outcome.Drained?
      ensures SendEffect(old(http3.streams), work, old(pumping), outcome, rounds, http3.streams)
      ensures Leads(s0, steps, s) && s.threads == s0.threads && s.log == s0.log + rounds
      ensures Shows(s, t, P.Outside, http3.streams, pumping, connection.connectionOk)
    {
      ghost var middles;
      outcome, rounds, middles := SubmitAndDrain(work);
      steps, s := SendIsPath(s0, t, work, outcome, middles, rounds, http3.streams);
      if outcome.SubmitFailed? || outcome.LibraryFailed? {
        FailureWasAnswered(old(http3.calls), work, outcome, rounds);
      }
    }

    /** The loop of Send, with the flag set: rounds until the library has none to give; `middles` are its streams around each. */
    method DrainLoop() returns (outcome: Outcome, ghost rounds: seq<Round>, ghost middles: seq<Streams>)
      requires Ready() && pumping
      modifies http3, connection.transport
      ensures Ready() && (outcome == Drained || outcome == LibraryFailed)
      ensures outcome.Drained? ==> NoWork(http3.streams)
      ensures http3.calls == old(http3.calls) + (LibraryCalls(rounds) + [NoOfferCall(outcome.LibraryFailed?)])
      ensures SentBy(old(connection.transport.calls), connection.streamMap, rounds, connection.transport.calls)
      ensures Chain(middles, rounds, connection.connectionOk)
      ensures middles[0] == old(http3.streams) && middles[|rounds|] == http3.streams
      ensures DrainsTo(old(http3.streams), rounds, http3.streams)
    {
      ghost var start := Trace(http3.streams, http3.calls, connection.transport.calls);
      ghost var now := start;
      ghost var up, streamMap := connection.connectionOk, connection.streamMap;
      NothingSent(start.sent, streamMap);
      rounds, middles, outcome := [], [http3.streams], Drained;
      while true
        invariant Ready() && now == Trace(http3.streams, http3.calls, connection.transport.calls)
        invariant Traced(up, streamMap, start, middles, rounds, now)
        decreases Measure(http3.streams)
      {
        ghost var before := now;
        ghost var round;
        var stream, failed;
        stream, failed, round := PumpRound();
        if stream < 0 {
          outcome := if failed then LibraryFailed else Drained;
          LastAnswer(start.asked, rounds, before.asked, failed);
          break;
        }
        now := Trace(http3.streams, http3.calls, connection.transport.calls);
        TracedOneMore(up, streamMap, start, middles, rounds, before, round, now);
        rounds, middles := rounds + [round], middles + [http3.streams];
      }
      ChainDrains(middles, rounds, up);
    }
  }
}
