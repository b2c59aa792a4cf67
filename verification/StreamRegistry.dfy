/**
 The map from stream ids to streams, kept by client and server alike, and the
 client's opening of the three HTTP/3 streams.
 */
module StreamRegistry {
  import opened Bytes

  /** An unsigned 64-bit stream id. */
  type StreamId = x: int | 0 <= x < TWO_64

  type Handle = nat

  datatype Status = Idle | Open | HalfClosedLocal | HalfClosedRemote | Closed | Error

  datatype Element = Element(stream: Handle, status: Status)

  datatype Option<+T> = None | Some(value: T)

  /** Bit 1 of an id tells the direction (section 2.1 of RFC 9000). */
  predicate IsBidirection(id: StreamId) {
    id / 2 % 2 == 0
  }

  function Inserted(streams: map<StreamId, Element>, id: StreamId, e: Element): map<StreamId, Element> {
    if id in streams then streams else streams[id := e]
  }

  class StreamMap {
    var streams: map<StreamId, Element>

    constructor ()
      ensures streams == map[]
    {
      streams := map[];
    }

    /** The checked lookup; None is its exception. */
    method GetStreamById(id: StreamId) returns (e: Option<Element>)
      ensures e == if id in streams then Some(streams[id]) else None
    {
      if id in streams { return Some(streams[id]); }
      return None;
    }

    method InsertStream(id: StreamId, e: Element)
      modifies this
      ensures streams == Inserted(old(streams), id, e)
    {
      if id !in streams {
        streams := streams[id := e];
      }
    }
  }

  // ----- runs: every caller only inserts -----

  datatype Registration = Registration(id: StreamId, element: Element)

  function Registered(h: seq<Registration>): map<StreamId, Element> {
    if h == [] then map[]
    else
      var last := h[|h| - 1];
      Inserted(Registered(h[..|h| - 1]), last.id, last.element)
  }

  /** Whatever is registered later, an id finds the stream first registered under it. */
  lemma {:induction false} FirstWins(h: seq<Registration>, k: nat)
    requires k < |h| && forall j | 0 <= j < k :: h[j].id != h[k].id
    ensures h[k].id in Registered(h) && Registered(h)[h[k].id] == h[k].element
  {
    var front := h[..|h| - 1];
    if k < |front| {
      FirstWins(front, k);
    } else {
      OnlyRegistered(front, h[k].id);
    }
  }

  /** An id is found exactly if it was registered. */
  lemma {:induction false} OnlyRegistered(h: seq<Registration>, id: StreamId)
    ensures id in Registered(h) <==> exists j | 0 <= j < |h| :: h[j].id == id
  {
    if h != [] {
      var front := h[..|h| - 1];
      OnlyRegistered(front, id);
      if j :| 0 <= j < |h| && h[j].id == id && j < |front| {
        assert front[j].id == id;
      }
    }
  }

  /** With unique ids every stream stays reachable under its own id. */
  lemma UniqueIdsAllFound(h: seq<Registration>)
    requires forall i, j | 0 <= i < j < |h| :: h[i].id != h[j].id
    ensures forall k | 0 <= k < |h| :: h[k].id in Registered(h) && Registered(h)[h[k].id] == h[k].element
  {
    forall k | 0 <= k < |h| ensures h[k].id in Registered(h) && Registered(h)[h[k].id] == h[k].element {
      FirstWins(h, k);
    }
  }

  // ----- the client's HTTP/3 streams -----

  datatype StreamType = Bidirection | Unidirection

  /** What the transport does: no stream, or a stream whose id it does or does not tell yet. */
  datatype Opening = Fails | Opens(handle: Handle, idKnown: bool)

  /** The n-th id of a type among the streams a client starts (section 2.1 of RFC 9000). */
  function ClientId(t: StreamType, n: nat): nat {
    4 * n + if t == Unidirection then 2 else 0
  }

  /** Streams of one type that can be numbered. */
  const MAX_STREAMS := 0x1000_0000_0000_0000

  lemma ClientIdFacts(t: StreamType, n: nat)
    requires n < MAX_STREAMS
    ensures ClientId(t, n) < TWO_64
    ensures IsBidirection(ClientId(t, n)) <==> t == Bidirection
  {
    assert ClientId(t, n) / 2 == 2 * n + if t == Unidirection then 1 else 0;
  }

  /** The stream map and the ids after some openings. */
  datatype Opened = Opened(streams: map<StreamId, Element>, ids: seq<StreamId>)

  /** The id read for an opened stream: its number among the unidirectional ones, or 0 if the transport does not tell yet. */
  function IdRead(opening: Opening, n: nat): (id: StreamId)
    requires opening.Opens? && n < MAX_STREAMS
  {
    ClientIdFacts(Unidirection, n);
    if opening.idKnown then ClientId(Unidirection, n) else 0
  }

  function AddOpened(streams: map<StreamId, Element>, n: nat, opening: Opening): map<StreamId, Element>
    requires opening.Opens? && n < MAX_STREAMS
  {
    Inserted(streams, IdRead(opening, n), Element(opening.handle, Idle))
  }

  /** Opens one stream after the other and stops at the first that fails. */
  function OpenUnidirectional(streams: map<StreamId, Element>, n: nat, openings: seq<Opening>): (o: Opened)
    requires n + |openings| <= MAX_STREAMS
    ensures |o.ids| <= |openings|
    decreases |openings|
  {
    if openings == [] || openings[0].Fails? then Opened(streams, [])
    else
      var rest := OpenUnidirectional(AddOpened(streams, n, openings[0]), n + 1, openings[1..]);
      Opened(rest.streams, [IdRead(openings[0], n)] + rest.ids)
  }

  lemma OpenedOneByOne(streams: map<StreamId, Element>, n: nat, first: Opening, second: Opening, third: Opening)
    requires n + 3 <= MAX_STREAMS
    ensures OpenUnidirectional(streams, n, [first, second, third])
         == if first.Fails? then Opened(streams, [])
            else
              var s1 := AddOpened(streams, n, first);
              if second.Fails? then Opened(s1, [IdRead(first, n)])
              else
                var s2 := AddOpened(s1, n + 1, second);
                if third.Fails? then Opened(s2, [IdRead(first, n), IdRead(second, n + 1)])
                else Opened(AddOpened(s2, n + 2, third), [IdRead(first, n), IdRead(second, n + 1), IdRead(third, n + 2)])
  {
    assert [first, second, third][1..] == [second, third] && [second, third][1..] == [third] && [third][1..] == [];
    if first.Opens? && second.Opens? {
      var s2 := AddOpened(AddOpened(streams, n, first), n + 1, second);
      assert OpenUnidirectional(s2, n + 2, [third]).ids == if third.Fails? then [] else [IdRead(third, n + 2)];
    }
  }

  /** Exactly the streams before the first failure are opened; their ids are in the map then, and nothing in it is replaced. */
  lemma {:induction false} OpensUpToFailure(streams: map<StreamId, Element>, n: nat, openings: seq<Opening>)
    requires n + |openings| <= MAX_STREAMS
    ensures var o := OpenUnidirectional(streams, n, openings);
            && (forall i | 0 <= i < |o.ids| :: openings[i].Opens? && o.ids[i] in o.streams)
            && (|o.ids| < |openings| ==> openings[|o.ids|].Fails?)
            && (forall id | id in streams :: id in o.streams && o.streams[id] == streams[id])
    decreases |openings|
  {
    if openings != [] && openings[0].Opens? {
      var next := AddOpened(streams, n, openings[0]);
      OpensUpToFailure(next, n + 1, openings[1..]);
      var o, rest := OpenUnidirectional(streams, n, openings), OpenUnidirectional(next, n + 1, openings[1..]);
      forall i | 0 <= i < |o.ids| ensures openings[i].Opens? && o.ids[i] in o.streams {
        if i > 0 { assert o.ids[i] == rest.ids[i - 1] && openings[i] == openings[1..][i - 1]; }
      }
    }
  }

  /** No unidirectional id from the n-th on is in the map. */
  ghost predicate FreshFrom(streams: map<StreamId, Element>, n: nat) {
    forall m: nat | n <= m :: ClientId(Unidirection, m) !in streams
  }

  /** Three opened streams: their ids are unidirectional exactly if all were told, and then distinct and registered. */
  lemma ThreeOpened(streams: map<StreamId, Element>, n: nat, first: Opening, second: Opening, third: Opening)
    requires n + 3 <= MAX_STREAMS && FreshFrom(streams, n) && first.Opens? && second.Opens? && third.Opens?
    ensures var a, b, c := IdRead(first, n), IdRead(second, n + 1), IdRead(third, n + 2);
            var known := first.idKnown && second.idKnown && third.idKnown;
            && (known <==> !IsBidirection(a) && !IsBidirection(b) && !IsBidirection(c))
            && (known ==>
                  && a != b && a != c && b != c
                  && AddOpened(AddOpened(AddOpened(streams, n, first), n + 1, second), n + 2, third)
                  == streams[a := Element(first.handle, Idle)][b := Element(second.handle, Idle)][c := Element(third.handle, Idle)])
  {
    ClientIdFacts(Unidirection, n);
    ClientIdFacts(Unidirection, n + 1);
    ClientIdFacts(Unidirection, n + 2);
  }

  class ClientConnection {
    const streamMap: StreamMap
    var connectionOk: bool
    var http3StreamOk: bool
    var control: StreamId
    var encoder: StreamId
    var decoder: StreamId
    /** Streams of each type the transport has numbered. */
    var uni: nat
    var bidi: nat

    /** No unidirectional id is in the map before the transport has given it out. */
    ghost predicate Valid()
      reads this, streamMap
    {
      FreshFrom(streamMap.streams, uni)
    }

    constructor (ok: bool)
      ensures Valid() && connectionOk == ok && !http3StreamOk && uni == bidi == 0
    {
      streamMap := new StreamMap();
      connectionOk, http3StreamOk, uni, bidi := ok, false, 0, 0;
      control, encoder, decoder := 0, 0, 0;
    }

    /** Opens and registers a stream. The status of the id query is ignored: an unknown id is read as 0. */
    method OpenStream(t: StreamType, opening: Opening) returns (ok: bool, id: StreamId)
      requires Valid() && uni < MAX_STREAMS && bidi < MAX_STREAMS
      modifies this`uni, this`bidi, streamMap
      ensures Valid() && (ok <==> opening.Opens?)
      ensures !ok ==> uni == old(uni) && bidi == old(bidi) && streamMap.streams == old(streamMap.streams)
      ensures ok ==>
                && uni == old(uni) + (if t == Unidirection then 1 else 0)
                && bidi == old(bidi) + (if t == Bidirection then 1 else 0)
                && id == (if opening.idKnown then ClientId(t, old(if t == Unidirection then uni else bidi)) else 0)
                && streamMap.streams == Inserted(old(streamMap.streams), id, Element(opening.handle, Idle))
    {
      if opening.Fails? { return false, 0; }
      var n := if t == Unidirection then uni else bidi;
      ClientIdFacts(t, n);
      if t == Unidirection { uni := uni + 1; } else { bidi := bidi + 1; }
      id := if opening.idKnown then ClientId(t, n) else 0;
      streamMap.InsertStream(id, Element(opening.handle, Idle));
      ok := true;
    }

    /**
     Opens the control and the two QPACK streams, in this order, up to the first
     that fails. After success they are distinct, unidirectional and registered
     exactly if the transport knew all three ids when asked.
     */
    method Http3Init(first: Opening, second: Opening, third: Opening) returns (ok: bool)
      requires Valid() && uni + 3 <= MAX_STREAMS && bidi < MAX_STREAMS
      modifies this`http3StreamOk, this`control, this`encoder, this`decoder, this`uni, this`bidi, streamMap
      ensures Valid() && bidi == old(bidi)
      ensures ok <==> connectionOk && first.Opens? && second.Opens? && third.Opens?
      ensures http3StreamOk == if connectionOk then ok else old(http3StreamOk)
      ensures var o := OpenUnidirectional(old(streamMap.streams), old(uni), if connectionOk then [first, second, third] else []);
              && streamMap.streams == o.streams && uni == old(uni) + |o.ids|
              && control == (if |o.ids| > 0 then o.ids[0] else old(control))
              && encoder == (if |o.ids| > 1 then o.ids[1] else old(encoder))
              && decoder == (if |o.ids| > 2 then o.ids[2] else old(decoder))
      ensures ok ==>
                (first.idKnown && second.idKnown && third.idKnown <==>
                   && !IsBidirection(control) && !IsBidirection(encoder) && !IsBidirection(decoder))
      ensures ok && first.idKnown && second.idKnown && third.idKnown ==>
                && control != encoder && control != decoder && encoder != decoder
                && streamMap.streams == old(streamMap.streams)[control := Element(first.handle, Idle)]
                                                              [encoder := Element(second.handle, Idle)]
                                                              [decoder := Element(third.handle, Idle)]
    {
      if !connectionOk { return false; }
      if first.Opens? && second.Opens? && third.Opens? { ThreeOpened(streamMap.streams, uni, first, second, third); }
      OpenedOneByOne(streamMap.streams, uni, first, second, third);
      var id;
      ok, id := OpenStream(Unidirection, first);
      if ok {
        control := id;
        ok, id := OpenStream(Unidirection, second);
        if ok {
          encoder := id;
          ok, id := OpenStream(Unidirection, third);
          if ok { decoder := id; }
        }
      }
      http3StreamOk := ok;
    }
  }
}
