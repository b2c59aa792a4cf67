/**
 The rounds of the drain loop: what the library offered, what became of the
 transport call, and the bytes that reached the transport, per stream.
 */
module PumpRounds {
  import opened Bytes
  import opened Http3Library

  /**
   One hand-over. The transport call always announces one buffer, whatever the
   number of vectors. `up` and `accepted` say whether the connection was up and
   the call succeeded. With no vector at all the announced buffer lies outside
   the converted array: `stray` is whatever was found there.
   */
  datatype Round = Round(stream: StreamId, vecs: seq<Vec>, fin: bool, up: bool, accepted: bool, stray: Bytes) {

    /** What the one announced buffer names; lengths are converted to 32 bits. */
    function Announced(): Bytes {
      if vecs == [] then stray else vecs[0].data[..|vecs[0].data| % TWO_32]
    }

    /** The bytes the transport was given. */
    function Handed(): Bytes {
      if up && accepted then Announced() else []
    }

    function Weight(): nat { |Payload(vecs)| + if fin then 1 else 0 }

    /** Bytes reported to the library as written although the transport never got them. */
    function Lost(): nat
      requires vecs != []
    {
      if !up || !accepted then |Payload(vecs)|
      else |Payload(vecs[1..])| + |vecs[0].data| - |vecs[0].data| % TWO_32
    }

    /** The guards: an empty round must not reach a buffer, any other must fit into its first vector and go out. */
    predicate Faithful() {
      if vecs == [] then !up || !accepted || stray == []
      else Payload(vecs) == [] || (up && accepted && |vecs[0].data| < 0x1_0000_0000 && Payload(vecs[1..]) == [])
    }
  }

  lemma PayloadSplit(vecs: seq<Vec>)
    requires vecs != []
    ensures Payload(vecs) == vecs[0].data + Payload(vecs[1..])
  {
    assert Datas(vecs)[1..] == Datas(vecs[1..]);
  }

  /** A round with a vector loses nothing exactly under its guards; lost and handed bytes are all the bytes. */
  lemma LosesNothingExactly(r: Round)
    requires r.vecs != []
    ensures |r.Handed()| + r.Lost() == |Payload(r.vecs)|
    ensures r.Lost() == 0 <==> r.Faithful()
    ensures r.Lost() == 0 <==> r.Handed() == Payload(r.vecs)
  {
    PayloadSplit(r.vecs);
  }

  /** Any round, with or without a vector, hands over its payload exactly under its guards. */
  lemma FaithfulExactly(r: Round)
    ensures r.Faithful() <==> r.Handed() == Payload(r.vecs)
  {
    if r.vecs == [] {
      assert Datas([]) == [];
    } else {
      LosesNothingExactly(r);
    }
  }

  /** Everything offered for a stream over a log of rounds. */
  function OfferedBytes(log: seq<Round>, id: StreamId): Bytes {
    if log == [] then []
    else
      var last := log[|log| - 1];
      OfferedBytes(log[..|log| - 1], id) + if last.stream == id then Payload(last.vecs) else []
  }

  /** Everything the transport was given for a stream. */
  function HandedBytes(log: seq<Round>, id: StreamId): Bytes {
    if log == [] then []
    else
      var last := log[|log| - 1];
      HandedBytes(log[..|log| - 1], id) + if last.stream == id then last.Handed() else []
  }

  function LostBytes(log: seq<Round>, id: StreamId): nat
    requires NoEmptyRound(log, id)
  {
    if log == [] then 0
    else
      var last := log[|log| - 1];
      LostBytes(log[..|log| - 1], id) + if last.stream == id then last.Lost() else 0
  }

  function Spent(log: seq<Round>): nat {
    if log == [] then 0 else Spent(log[..|log| - 1]) + log[|log| - 1].Weight()
  }

  predicate NoEmptyRound(log: seq<Round>, id: StreamId) {
    forall k | 0 <= k < |log| && log[k].stream == id :: log[k].vecs != []
  }

  predicate AllFaithful(log: seq<Round>, id: StreamId) {
    forall k | 0 <= k < |log| && log[k].stream == id :: log[k].Faithful()
  }

  lemma OfferedSnoc(log: seq<Round>, r: Round, id: StreamId)
    ensures OfferedBytes(log + [r], id) == OfferedBytes(log, id) + if r.stream == id then Payload(r.vecs) else []
  {
    assert (log + [r])[..|log|] == log;
  }

  lemma SpentSnoc(log: seq<Round>, r: Round)
    ensures Spent(log + [r]) == Spent(log) + r.Weight()
  {
    assert (log + [r])[..|log|] == log;
  }

  lemma {:induction false} SpentBound(log: seq<Round>)
    requires forall k | 0 <= k < |log| :: 1 <= log[k].Weight()
    ensures |log| <= Spent(log)
  {
    if log != [] {
      SpentBound(log[..|log| - 1]);
    }
  }

  /** Faithful rounds hand over what they offer. */
  lemma {:induction false} FaithfulRounds(log: seq<Round>, id: StreamId)
    requires AllFaithful(log, id)
    ensures HandedBytes(log, id) == OfferedBytes(log, id)
  {
    if log != [] {
      FaithfulRounds(log[..|log| - 1], id);
      FaithfulExactly(log[|log| - 1]);
    }
  }

  /**
   The offset runs ahead of the hand-over by exactly the bytes lost, and the
   transport was given the offered bytes themselves exactly if every round kept
   its guards.
   */
  lemma {:induction false} Shortfall(log: seq<Round>, id: StreamId)
    requires NoEmptyRound(log, id)
    ensures |HandedBytes(log, id)| + LostBytes(log, id) == |OfferedBytes(log, id)|
    ensures HandedBytes(log, id) == OfferedBytes(log, id) <==> LostBytes(log, id) == 0
    ensures LostBytes(log, id) == 0 <==> AllFaithful(log, id)
  {
    if log != [] {
      var front, last := log[..|log| - 1], log[|log| - 1];
      Shortfall(front, id);
      AllFaithfulSnoc(front, last, id);
      assert log == front + [last];
      if last.stream == id {
        LosesNothingExactly(last);
      }
    }
  }

  lemma AllFaithfulSnoc(log: seq<Round>, r: Round, id: StreamId)
    ensures AllFaithful(log + [r], id) <==> AllFaithful(log, id) && (r.stream == id ==> r.Faithful())
  {
    var longer := log + [r];
    assert longer[|log|] == r;
    if AllFaithful(longer, id) {
      forall k | 0 <= k < |log| && log[k].stream == id ensures log[k].Faithful() { assert longer[k] == log[k]; }
    }
  }
}
