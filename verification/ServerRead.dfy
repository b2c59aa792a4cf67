/**
 The server's receive loop: the buffers of one receive event are fed to an
 incremental HTTP/3 parser, with FIN marked only on the last one.
 */
module ServerRead {
  import opened Bytes

  /** The parser: from its state, some bytes and a FIN mark, to a new state and a consumed count or a negative error. */
  type Parser<!S> = (S, Bytes, bool) -> (S, int)

  /** One call of the parser and its answer. */
  datatype Call = Call(bytes: Bytes, fin: bool, answer: int)

  datatype Fed<S> = Fed(state: S, result: int, calls: seq<Call>)

  function Feed<S>(parse: Parser<S>, state: S, buffers: seq<Bytes>, finFlag: bool): Fed<S> {
    if buffers == [] then Fed(state, 0, [])
    else
      var fin := finFlag && |buffers| == 1;
      var (next, n) := parse(state, buffers[0], fin);
      var call := Call(buffers[0], fin, n);
      if n < 0 then Fed(next, n, [call])
      else After(n, [call], Feed(parse, next, buffers[1..], finFlag))
  }

  /** The rest of the loop, after some calls that consumed `total` bytes. */
  function After<S>(total: int, calls: seq<Call>, rest: Fed<S>): Fed<S> {
    Fed(rest.state, if rest.result < 0 then rest.result else total + rest.result, calls + rest.calls)
  }

  /** One turn of the loop on buffer i. */
  lemma OneTurn<S>(parse: Parser<S>, state: S, buffers: seq<Bytes>, finFlag: bool, i: nat, total: int, calls: seq<Call>)
    requires i < |buffers| && 0 <= total
    ensures var fin := finFlag && i + 1 == |buffers|;
            var (next, n) := parse(state, buffers[i], fin);
            var more := calls + [Call(buffers[i], fin, n)];
            After(total, calls, Feed(parse, state, buffers[i..], finFlag))
              == if n < 0 then Fed(next, n, more) else After(total + n, more, Feed(parse, next, buffers[i + 1..], finFlag))
  {
    assert buffers[i..][1..] == buffers[i + 1..];
    var fin := finFlag && i + 1 == |buffers|;
    var (next, n) := parse(state, buffers[i], fin);
    var rest := Feed(parse, next, buffers[i + 1..], finFlag).calls;
    assert calls + ([Call(buffers[i], fin, n)] + rest) == calls + [Call(buffers[i], fin, n)] + rest;
  }

  class ServerHttp3<S> {
    const readStream: Parser<S>
    var connection: S

    constructor (parser: Parser<S>, initial: S)
      ensures readStream == parser && connection == initial
    {
      readStream, connection := parser, initial;
    }

    method Read(buffers: seq<Bytes>, finFlag: bool) returns (result: int, ghost calls: seq<Call>)
      modifies this`connection
      ensures Fed(connection, result, calls) == Feed(readStream, old(connection), buffers, finFlag)
    {
      var total := 0;
      calls := [];
      for i := 0 to |buffers|
        invariant 0 <= total
        invariant Feed(readStream, old(connection), buffers, finFlag)
               == After(total, calls, Feed(readStream, connection, buffers[i..], finFlag))
      {
        OneTurn(readStream, connection, buffers, finFlag, i, total, calls);
        var fin := finFlag && i + 1 == |buffers|;
        var (next, n) := readStream(connection, buffers[i], fin);
        connection := next;
        calls := calls + [Call(buffers[i], fin, n)];
        if n < 0 { return n, calls; }
        total := total + n;
      }
      result := total;
    }
  }

  // ----- FIN and errors -----

  function Consumed(calls: seq<Call>): int {
    if calls == [] then 0 else calls[0].answer + Consumed(calls[1..])
  }

  /** Buffer i may be the one that carries FIN. */
  predicate CarriesFin(finFlag: bool, buffers: seq<Bytes>, i: nat) {
    finFlag && i == |buffers| - 1
  }

  /** The calls are made on the buffers from the front on, each with the right FIN mark. */
  predicate OnBuffers(calls: seq<Call>, finFlag: bool, buffers: seq<Bytes>) {
    && |calls| <= |buffers|
    && forall i | 0 <= i < |calls| ::
      calls[i].bytes == buffers[i] && (calls[i].fin <==> CarriesFin(finFlag, buffers, i))
  }

  lemma OnBuffersGrows(first: Call, calls: seq<Call>, finFlag: bool, buffers: seq<Bytes>)
    requires buffers != [] && OnBuffers(calls, finFlag, buffers[1..])
    requires first.bytes == buffers[0] && (first.fin <==> finFlag && |buffers| == 1)
    ensures OnBuffers([first] + calls, finFlag, buffers)
  {
    forall i | 1 <= i < |calls| + 1 ensures CarriesFin(finFlag, buffers, i) <==> CarriesFin(finFlag, buffers[1..], i - 1) {}
  }

  predicate NoneFails(calls: seq<Call>) {
    forall i | 0 <= i < |calls| :: 0 <= calls[i].answer
  }

  /**
   The parser sees the buffers in order up to the first error, which is returned;
   without one, the result is the sum of the answers.
   */
  lemma {:induction false} CallsInOrder<S>(parse: Parser<S>, state: S, buffers: seq<Bytes>, finFlag: bool)
    ensures var f := Feed(parse, state, buffers, finFlag);
            && OnBuffers(f.calls, finFlag, buffers)
            && (f.result < 0 ==> f.calls != [] && f.calls[|f.calls| - 1].answer == f.result
                                 && NoneFails(f.calls[..|f.calls| - 1]))
            && (0 <= f.result ==> |f.calls| == |buffers| && NoneFails(f.calls) && f.result == Consumed(f.calls))
  {
    if buffers != [] {
      var fin := finFlag && |buffers| == 1;
      var (next, n) := parse(state, buffers[0], fin);
      var first := Call(buffers[0], fin, n);
      if 0 <= n {
        CallsInOrder(parse, next, buffers[1..], finFlag);
        var rest := Feed(parse, next, buffers[1..], finFlag);
        OnBuffersGrows(first, rest.calls, finFlag, buffers);
        assert ([first] + rest.calls)[1..] == rest.calls;
        if rest.calls != [] {
          assert ([first] + rest.calls)[..|rest.calls|] == [first] + rest.calls[..|rest.calls| - 1];
        }
      }
    }
  }

  /** FIN reaches the parser exactly if the flag is set, there is a buffer, and no earlier buffer failed; then once, last. */
  lemma FinDelivery<S>(parse: Parser<S>, state: S, buffers: seq<Bytes>, finFlag: bool)
    ensures var calls := Feed(parse, state, buffers, finFlag).calls;
            && ((exists i | 0 <= i < |calls| :: calls[i].fin) <==> finFlag && buffers != [] && |calls| == |buffers|)
            && forall i | 0 <= i < |calls| && calls[i].fin :: i == |buffers| - 1
    ensures var calls := Feed(parse, state, buffers, finFlag).calls;
            |calls| == |buffers| <==> forall i | 0 <= i < |calls| && i < |buffers| - 1 :: 0 <= calls[i].answer
  {
    CallsInOrder(parse, state, buffers, finFlag);
    var f := Feed(parse, state, buffers, finFlag);
    if finFlag && buffers != [] && |f.calls| == |buffers| {
      assert CarriesFin(finFlag, buffers, |f.calls| - 1) && f.calls[|f.calls| - 1].fin;
    }
    if |f.calls| < |buffers| {
      assert f.calls[|f.calls| - 1].answer < 0;
    }
  }

  // ----- chunking does not matter -----

  /** A second call on what the first one left behind, unless that failed. */
  function Then<S>(parse: Parser<S>, first: (S, int), bytes: Bytes, fin: bool): (S, int) {
    if first.1 < 0 then first
    else
      var (next, n) := parse(first.0, bytes, fin);
      (next, if n < 0 then n else first.1 + n)
  }

  /** Parsing a concatenation is parsing one part after the other. */
  ghost predicate Incremental<S(!new)>(parse: Parser<S>) {
    forall s: S, a: Bytes, b: Bytes, fin: bool :: parse(s, a + b, fin) == Then(parse, parse(s, a, false), b, fin)
  }

  /** Feeding a non-empty list of buffers is feeding their concatenation, errors included. */
  lemma {:induction false} ChunkingInsensitive<S(!new)>(parse: Parser<S>, state: S, buffers: seq<Bytes>, finFlag: bool)
    requires Incremental(parse) && buffers != []
    ensures var f := Feed(parse, state, buffers, finFlag);
            (f.state, f.result) == parse(state, Concat(buffers), finFlag)
  {
    var head, tail := buffers[0], buffers[1..];
    if tail == [] {
      assert Concat(buffers) == head + Concat(tail) == head;
    } else {
      assert Concat(buffers) == head + Concat(tail);
      var (next, n) := parse(state, head, false);
      if 0 <= n {
        ChunkingInsensitive(parse, next, tail, finFlag);
      }
    }
  }

  /** Two ways of cutting the same bytes leave the parser in the same state with the same answer. */
  lemma SameBytesSameEffect<S(!new)>(parse: Parser<S>, state: S, one: seq<Bytes>, other: seq<Bytes>, finFlag: bool)
    requires Incremental(parse) && one != [] && other != [] && Concat(one) == Concat(other)
    ensures var f, g := Feed(parse, state, one, finFlag), Feed(parse, state, other, finFlag);
            f.state == g.state && f.result == g.result
  {
    ChunkingInsensitive(parse, state, one, finFlag);
    ChunkingInsensitive(parse, state, other, finFlag);
  }
}
