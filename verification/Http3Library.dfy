/**
 The sending half of the HTTP/3 library, as far as the client can see it: per
 stream, the bytes the library has produced so far, how many of them were
 reported as written, and the end-of-stream mark. The library is an environment;
 only its promises are fixed here.
 */
module Http3Library {
  import opened Bytes
  import opened Totals

  /** A 64-bit stream id; the library answers "no stream" with a negative one. */
  type StreamId = int

  /** One vector filled by the library: where its bytes are, and the bytes. */
  datatype Vec = Vec(base: nat, data: Bytes)

  const MAX_VECS := 16

  function Datas(vecs: seq<Vec>): (datas: seq<Bytes>)
    ensures |datas| == |vecs|
  {
    seq(|vecs|, i requires 0 <= i < |vecs| => vecs[i].data)
  }

  /** The bytes of a list of vectors, in order. */
  function Payload(vecs: seq<Vec>): Bytes {
    Concat(Datas(vecs))
  }

  lemma PayloadOfOne(vec: Vec)
    ensures Payload([vec]) == vec.data
  {
    assert Datas([vec]) == [vec.data];
    ConcatSnoc([], vec.data);
    assert [] + [vec.data] == [vec.data];
  }

  /** What a submission adds to one stream. */
  datatype Piece = Piece(bytes: Bytes, eof: bool) {
    predicate IsEmpty() { bytes == [] && !eof }
    function Weight(): nat { |bytes| + if eof then 1 else 0 }
  }

  datatype Outgoing = Outgoing(submitted: Bytes, offset: nat, eof: bool, finOffered: bool, finDone: bool) {
    predicate Valid() {
      && offset <= |submitted|
      && (finDone ==> eof && offset == |submitted|)
    }

    /** Bytes not yet reported as written. */
    function Pending(): Bytes
      requires Valid()
    {
      submitted[offset..]
    }

    predicate HasWork() {
      offset < |submitted| || (eof && !finDone)
    }

    /** Pending bytes plus a pending end-of-stream mark. */
    function Weight(): nat
      requires Valid()
    {
      |submitted| - offset + if eof && !finDone then 1 else 0
    }

    function Append(piece: Piece): Outgoing {
      this.(submitted := submitted + piece.bytes, eof := eof || piece.eof)
    }

    /** What one call for pending data may answer for this stream. */
    ghost predicate Offers(vecs: seq<Vec>, fin: bool)
      requires Valid()
    {
      && |vecs| <= MAX_VECS
      && Payload(vecs) <= Pending()
      && |Payload(vecs)| < TWO_64
      && (fin ==> eof && !finDone && Payload(vecs) == Pending())
      && (Payload(vecs) == [] ==> fin)
    }

    /** The effect of reporting n written bytes after an offer. */
    function Advance(n: nat): Outgoing {
      this.(offset := offset + n, finDone := finDone || finOffered, finOffered := false)
    }
  }

  const FRESH := Outgoing([], 0, false, false, false)

  type Streams = map<StreamId, Outgoing>
  type Work = map<StreamId, Piece>

  ghost predicate ValidStreams(streams: Streams) {
    forall id | id in streams :: 0 <= id && streams[id].Valid()
  }

  ghost predicate NoWork(streams: Streams) {
    forall id | id in streams :: !streams[id].HasWork()
  }

  /** The library never adds anything to a stream after its end. */
  ghost predicate CanSubmit(streams: Streams, work: Work) {
    forall id | id in work ::
      && 0 <= id
      && !work[id].IsEmpty()
      && (id in streams ==> !streams[id].eof)
  }

  function StreamOf(streams: Streams, id: StreamId): Outgoing {
    if id in streams then streams[id] else FRESH
  }

  function Submit(streams: Streams, work: Work): Streams {
    map id | id in streams.Keys + work.Keys ::
      if id in work then StreamOf(streams, id).Append(work[id]) else streams[id]
  }

  function Offered(streams: Streams, id: StreamId, fin: bool): Streams
    requires id in streams
  {
    streams[id := streams[id].(finOffered := fin)]
  }

  function ReportWritten(streams: Streams, id: StreamId, n: nat): Streams
    requires id in streams
  {
    streams[id := streams[id].Advance(n)]
  }

  /** Everything still to be drained: pending bytes plus pending marks. */
  ghost function Measure(streams: Streams): nat
    requires ValidStreams(streams)
  {
    Total(map id | id in streams :: streams[id].Weight())
  }

  ghost function WorkWeight(work: Work): nat {
    Total(map id | id in work :: work[id].Weight())
  }

  /** Nothing is left to drain exactly if no stream has work. */
  lemma NoWorkExactly(streams: Streams)
    requires ValidStreams(streams)
    ensures Measure(streams) == 0 <==> NoWork(streams)
  {
    var weights := map id | id in streams :: streams[id].Weight();
    TotalZeroExactly(weights);
    if Measure(streams) == 0 {
      forall id | id in streams ensures !streams[id].HasWork() { assert weights[id] == 0; }
    }
    if NoWork(streams) {
      forall id | id in weights ensures weights[id] == 0 { assert !streams[id].HasWork(); }
    }
  }

  lemma AppendWeight(o: Outgoing, piece: Piece)
    requires o.Valid() && !o.eof
    ensures o.Append(piece).Valid() && o.Append(piece).Weight() == o.Weight() + piece.Weight()
  {}

  lemma SubmitWeights(streams: Streams, work: Work, id: StreamId)
    requires ValidStreams(streams) && CanSubmit(streams, work) && id in Submit(streams, work)
    ensures 0 <= id && Submit(streams, work)[id].Valid()
    ensures Submit(streams, work)[id].Weight()
         == (if id in streams then streams[id].Weight() else 0) + (if id in work then work[id].Weight() else 0)
  {
    if id in work { AppendWeight(StreamOf(streams, id), work[id]); }
  }

  lemma SubmitMeasure(streams: Streams, work: Work)
    requires ValidStreams(streams) && CanSubmit(streams, work)
    ensures ValidStreams(Submit(streams, work))
    ensures Measure(Submit(streams, work)) == Measure(streams) + WorkWeight(work)
  {
    var after := Submit(streams, work);
    forall id | id in after ensures 0 <= id && after[id].Valid() { SubmitWeights(streams, work, id); }
    var m := map id | id in after :: after[id].Weight();
    var a := map id | id in streams :: streams[id].Weight();
    var b := map id | id in work :: work[id].Weight();
    assert m.Keys == a.Keys + b.Keys;
    forall id ensures Get(m, id) == Get(a, id) + Get(b, id) {
      if id in after { SubmitWeights(streams, work, id); }
    }
    TotalSum(m, a, b);
  }

  lemma OfferedMeasure(streams: Streams, id: StreamId, fin: bool)
    requires ValidStreams(streams) && id in streams
    ensures ValidStreams(Offered(streams, id, fin))
    ensures Measure(Offered(streams, id, fin)) == Measure(streams)
  {
    var after := Offered(streams, id, fin);
    assert (map i | i in after :: after[i].Weight()) == (map i | i in streams :: streams[i].Weight());
  }

  /** Reporting an offered round, even an empty one that only carries FIN, uses up its weight. */
  lemma ReportMeasure(streams: Streams, id: StreamId, vecs: seq<Vec>, fin: bool)
    requires ValidStreams(streams) && id in streams
    requires streams[id].Offers(vecs, fin) && streams[id].finOffered == fin
    ensures ValidStreams(ReportWritten(streams, id, |Payload(vecs)|))
    ensures Measure(streams) == Measure(ReportWritten(streams, id, |Payload(vecs)|)) + |Payload(vecs)| + (if fin then 1 else 0)
  {
    var after := ReportWritten(streams, id, |Payload(vecs)|);
    var w := map i | i in streams :: streams[i].Weight();
    TotalUpdate(w, id, after[id].Weight());
    assert (map i | i in after :: after[i].Weight()) == w[id := after[id].Weight()];
  }
}
