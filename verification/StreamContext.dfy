/**
 The per-stream state behind the server's HTTP/3 callbacks. Each callback
 changes fields in place; the lemmas say that the fields are always a plain
 function of the events since the stream began.
 */
module StreamContext {
  import opened Bytes
  import R = ServerRead

  datatype Option<+T> = None | Some(value: T)

  /** The JSON request: null at first, an object with or without a "body" later. */
  datatype Request = Null | Object(body: Option<Bytes>)

  datatype Nv = Nv(name: string, value: string)

  /**
   What the parser reports. A header entry comes with `moved`, the text of its
   strings after they were moved into the stores: the language leaves it open.
   */
  datatype Event =
    | BeginHeaders
    | Header(name: string, value: string, moved: Nv)
    | Data(bytes: Bytes)

  datatype Fields = Fields(
    verb: string, scheme: string, authority: string, path: string,
    request: Request,
    nameStore: seq<string>, valueStore: seq<string>, nvs: seq<Nv>,
    sendOffset: nat, appConsumed: nat, creditReported: nat,
    receiveCompleted: nat)

  const METHOD := ":method"
  const SCHEME := ":scheme"
  const AUTHORITY := ":authority"
  const PATH := ":path"

  datatype Kind = Method | Scheme | Authority | Path | Regular

  function KindOf(name: string): Kind {
    if name == METHOD then Method
    else if name == SCHEME then Scheme
    else if name == AUTHORITY then Authority
    else if name == PATH then Path
    else Regular
  }

  /** The four request pseudo-headers (section 4.3.1 of RFC 9114), and nothing else, have fields of their own. */
  lemma KindOfNames(name: string)
    ensures KindOf(":method") == Method && KindOf(":scheme") == Scheme
    ensures KindOf(":authority") == Authority && KindOf(":path") == Path
    ensures KindOf(name) == Regular <==> name !in {":method", ":scheme", ":authority", ":path"}
  {
    assert ":method"[1] != ":scheme"[1];
    assert |":method"| == 7 && |":scheme"| == 7 && |":authority"| == 10 && |":path"| == 5;
  }

  /** The effect of one callback. */
  function Step(f: Fields, e: Event): Fields {
    match e
    case BeginHeaders =>
      f.(request := Object(None), nameStore := [], valueStore := [], nvs := [],
         sendOffset := 0, appConsumed := 0, creditReported := 0)
    case Header(name, value, moved) =>
      match KindOf(name) {
        case Method => f.(verb := value)
        case Scheme => f.(scheme := value)
        case Authority => f.(authority := value)
        case Path => f.(path := value)
        case Regular =>
          f.(nameStore := f.nameStore + [name], valueStore := f.valueStore + [value], nvs := f.nvs + [moved])
      }
    case Data(bytes) =>
      f.(request := Object(Some(BodyOf(f.request) + bytes)), receiveCompleted := f.receiveCompleted + |bytes|)
  }

  /** The body so far; a missing one counts as empty. */
  function BodyOf(request: Request): Bytes {
    match request
    case Object(Some(body)) => body
    case _ => []
  }

  /** A new context; the send offset has no initial value in the program. */
  function Initial(garbage: nat): Fields {
    Fields("", "", "", "", Null, [], [], [], garbage, 0, 0, 0)
  }

  function Run(garbage: nat, h: seq<Event>): Fields {
    if h == [] then Initial(garbage) else Step(Run(garbage, h[..|h| - 1]), h[|h| - 1])
  }

  class StreamCtx {
    var verb: string
    var scheme: string
    var authority: string
    var path: string
    var request: Request
    var nameStore: seq<string>
    var valueStore: seq<string>
    var nvs: seq<Nv>
    var sendOffset: nat
    var appConsumed: nat
    var creditReported: nat
    /** Bytes passed to the transport's receive-complete call. */
    var receiveCompleted: nat
    ghost var history: seq<Event>
    ghost const garbage: nat

    ghost function Value(): Fields
      reads this
    {
      Fields(verb, scheme, authority, path, request, nameStore, valueStore, nvs,
             sendOffset, appConsumed, creditReported, receiveCompleted)
    }

    ghost predicate Valid()
      reads this
    {
      Value() == Run(garbage, history)
    }

    constructor (offset: nat)
      ensures Valid() && history == [] && garbage == offset
    {
      verb, scheme, authority, path, request := "", "", "", "", Null;
      nameStore, valueStore, nvs := [], [], [];
      sendOffset, appConsumed, creditReported, receiveCompleted := offset, 0, 0, 0;
      history, garbage := [], offset;
    }

    method OnBeginHeaders() returns (status: int)
      requires Valid()
      modifies this
      ensures Valid() && history == old(history) + [BeginHeaders]
      ensures Value() == Step(old(Value()), BeginHeaders) && status == 0
    {
      request := Object(None);
      nameStore, valueStore, nvs := [], [], [];
      sendOffset, appConsumed, creditReported := 0, 0, 0;
      assert Value() == Step(old(Value()), BeginHeaders);
      history := history + [BeginHeaders];
      assert history[..|history| - 1] == old(history);
      status := 0;
    }

    method OnRecvHeader(name: string, value: string, moved: Nv) returns (status: int)
      requires Valid()
      modifies this
      ensures Valid() && history == old(history) + [Header(name, value, moved)]
      ensures Value() == Step(old(Value()), Header(name, value, moved)) && status == 0
    {
      if name == METHOD {
        verb := value;
      } else if name == SCHEME {
        scheme := value;
      } else if name == AUTHORITY {
        authority := value;
      } else if name == PATH {
        path := value;
      } else {
        nameStore := nameStore + [name];
        valueStore := valueStore + [value];
        nvs := nvs + [moved];
      }
      assert Value() == Step(old(Value()), Header(name, value, moved));
      history := history + [Header(name, value, moved)];
      assert history[..|history| - 1] == old(history);
      status := 0;
    }

    method OnRecvData(data: Bytes) returns (status: int)
      requires Valid()
      modifies this
      ensures Valid() && history == old(history) + [Data(data)]
      ensures Value() == Step(old(Value()), Data(data)) && status == 0
    {
      ghost var before := Value();
      var body := BodyOf(request);
      request := Object(Some(body + data));
      receiveCompleted := receiveCompleted + |data|;
      assert Value() == before.(request := Object(Some(body + data)), receiveCompleted := before.receiveCompleted + |data|);
      assert Value() == Step(before, Data(data));
      history := history + [Data(data)];
      assert history[..|history| - 1] == old(history);
      status := 0;
    }
  }

  // ----- the fields as a function of the history -----

  /** The events since the latest begin-headers, or all of them if there was none. */
  function Section(h: seq<Event>): seq<Event> {
    if h == [] || h[|h| - 1].BeginHeaders? then []
    else Section(h[..|h| - 1]) + [h[|h| - 1]]
  }

  function Payloads(h: seq<Event>): seq<Bytes> {
    if h == [] then []
    else if h[|h| - 1].Data? then Payloads(h[..|h| - 1]) + [h[|h| - 1].bytes]
    else Payloads(h[..|h| - 1])
  }

  predicate IsRegular(e: Event) {
    e.Header? && KindOf(e.name) == Regular
  }

  /** Header fields other than the four request pseudo-headers, in order. */
  function RegularFields(h: seq<Event>): seq<Event> {
    if h == [] then []
    else if IsRegular(h[|h| - 1]) then RegularFields(h[..|h| - 1]) + [h[|h| - 1]]
    else RegularFields(h[..|h| - 1])
  }

  /** The value of the last header of this kind, or the empty string. */
  function LastValue(h: seq<Event>, kind: Kind): string {
    if h == [] then ""
    else
      var e := h[|h| - 1];
      if e.Header? && KindOf(e.name) == kind then e.value else LastValue(h[..|h| - 1], kind)
  }

  predicate HasBegin(h: seq<Event>) { BeginHeaders in h }

  lemma OneMore(garbage: nat, h: seq<Event>, e: Event)
    ensures Run(garbage, h + [e]) == Step(Run(garbage, h), e)
    ensures Section(h + [e]) == if e.BeginHeaders? then [] else Section(h) + [e]
    ensures Payloads(h + [e]) == if e.Data? then Payloads(h) + [e.bytes] else Payloads(h)
    ensures RegularFields(h + [e]) == if IsRegular(e) then RegularFields(h) + [e] else RegularFields(h)
    ensures HasBegin(h + [e]) <==> HasBegin(h) || e.BeginHeaders?
    ensures forall kind :: LastValue(h + [e], kind) == if e.Header? && KindOf(e.name) == kind then e.value else LastValue(h, kind)
  {
    assert (h + [e])[..|h|] == h;
  }

  /** Section is what it says: a tail without begin-headers, right after one or covering everything. */
  lemma {:induction false} SectionIsLatest(h: seq<Event>) returns (start: nat)
    ensures IsLatestSection(h, Section(h), start)
  {
    if h == [] {
      start := 0;
    } else if h[|h| - 1].BeginHeaders? {
      start := |h|;
    } else {
      var front, e := h[..|h| - 1], h[|h| - 1];
      start := SectionIsLatest(front);
      LatestSectionGrows(front, Section(front), start, e);
      assert h == front + [e];
    }
  }

  predicate IsLatestSection(h: seq<Event>, section: seq<Event>, start: nat) {
    && start <= |h| && section == h[start..]
    && (forall j | start <= j < |h| :: h[j] != BeginHeaders)
    && (start == 0 || h[start - 1] == BeginHeaders)
  }

  lemma LatestSectionGrows(h: seq<Event>, section: seq<Event>, start: nat, e: Event)
    requires IsLatestSection(h, section, start) && !e.BeginHeaders?
    ensures IsLatestSection(h + [e], section + [e], start)
  {}

  /** The DATA payloads of the current section. */
  function SectionPayloads(h: seq<Event>): seq<Bytes> {
    Payloads(Section(h))
  }

  lemma OneMoreInSection(garbage: nat, h: seq<Event>, e: Event)
    ensures SectionPayloads(h + [e]) == match e
                                        case BeginHeaders => []
                                        case Header(_, _, _) => SectionPayloads(h)
                                        case Data(bytes) => SectionPayloads(h) + [bytes]
  {
    OneMore(garbage, h, e);
    OneMore(garbage, Section(h), e);
  }

  /** The body is what came in DATA since the latest begin-headers, absent if nothing did. */
  lemma {:induction false} BodyIsSection(garbage: nat, h: seq<Event>)
    ensures var request := Run(garbage, h).request;
            var parts := SectionPayloads(h);
            && BodyOf(request) == Concat(parts)
            && (request == Null <==> !HasBegin(h) && parts == [])
            && (request == Object(None) <==> HasBegin(h) && parts == [])
  {
    if h != [] {
      var front, e := h[..|h| - 1], h[|h| - 1];
      assert h == front + [e];
      BodyIsSection(garbage, front);
      OneMore(garbage, front, e);
      OneMoreInSection(garbage, front, e);
      if e.Data? {
        ConcatSnoc(SectionPayloads(front), e.bytes);
      }
    }
  }

  /** Flow control: the bytes reported as received are all payload bytes of the whole run. */
  lemma {:induction false} CreditIsTotal(garbage: nat, h: seq<Event>)
    ensures Run(garbage, h).receiveCompleted == |Concat(Payloads(h))|
  {
    if h != [] {
      var front, e := h[..|h| - 1], h[|h| - 1];
      assert h == front + [e];
      CreditIsTotal(garbage, front);
      OneMore(garbage, front, e);
      if e.Data? {
        ConcatSnoc(Payloads(front), e.bytes);
      }
    }
  }

  /** The stores hold these header events, in order; the nv entries hold their moved-from text. */
  predicate Stores(f: Fields, regular: seq<Event>) {
    && |f.nameStore| == |f.valueStore| == |f.nvs| == |regular|
    && forall i | 0 <= i < |regular| ::
      regular[i] == Header(f.nameStore[i], f.valueStore[i], f.nvs[i])
  }

  /** The regular header fields of the current section. */
  function SectionFields(h: seq<Event>): seq<Event> {
    RegularFields(Section(h))
  }

  lemma OneMoreField(garbage: nat, h: seq<Event>, e: Event)
    ensures SectionFields(h + [e]) == if e.BeginHeaders? then []
                                      else if IsRegular(e) then SectionFields(h) + [e]
                                      else SectionFields(h)
  {
    OneMore(garbage, h, e);
    OneMore(garbage, Section(h), e);
  }

  lemma StoresGrow(f: Fields, regular: seq<Event>, e: Event)
    requires Stores(f, regular)
    ensures Stores(Step(f, e), if e.BeginHeaders? then [] else if IsRegular(e) then regular + [e] else regular)
  {}

  /** The stores hold, in order, the regular fields of the current section, with one nv entry for each. */
  lemma {:induction false} HeadersAreSection(garbage: nat, h: seq<Event>)
    ensures Stores(Run(garbage, h), SectionFields(h))
  {
    if h != [] {
      var front, e := h[..|h| - 1], h[|h| - 1];
      assert h == front + [e];
      HeadersAreSection(garbage, front);
      OneMoreField(garbage, front, e);
      StoresGrow(Run(garbage, front), SectionFields(front), e);
    }
  }

  /** The field a pseudo-header sets. */
  function FieldOf(f: Fields, kind: Kind): string
    requires kind != Regular
  {
    match kind
    case Method => f.verb
    case Scheme => f.scheme
    case Authority => f.authority
    case Path => f.path
  }

  /** The pseudo-header fields are never reset: each holds the last value of the whole run. */
  lemma {:induction false} PseudoHeadersAreLast(garbage: nat, h: seq<Event>, kind: Kind)
    requires kind != Regular
    ensures FieldOf(Run(garbage, h), kind) == LastValue(h, kind)
  {
    if h != [] {
      var front, e := h[..|h| - 1], h[|h| - 1];
      assert h == front + [e];
      PseudoHeadersAreLast(garbage, front, kind);
      OneMore(garbage, front, e);
    }
  }

  /** The counters start again with every header section. */
  lemma {:induction false} CountersRestart(garbage: nat, h: seq<Event>)
    ensures Run(garbage, h).sendOffset == if HasBegin(h) then 0 else garbage
    ensures Run(garbage, h).appConsumed == 0 && Run(garbage, h).creditReported == 0
  {
    if h != [] {
      var front, e := h[..|h| - 1], h[|h| - 1];
      assert h == front + [e];
      CountersRestart(garbage, front);
      OneMore(garbage, front, e);
    }
  }

  /** The section brought a header of this kind. */
  predicate Brings(section: seq<Event>, kind: Kind) {
    exists i | 0 <= i < |section| :: section[i].Header? && KindOf(section[i].name) == kind
  }

  lemma BringsSnoc(section: seq<Event>, e: Event, kind: Kind)
    ensures Brings(section + [e], kind) <==> Brings(section, kind) || (e.Header? && KindOf(e.name) == kind)
  {
    var longer := section + [e];
    assert longer[|section|] == e;
    if i :| 0 <= i < |section| && section[i].Header? && KindOf(section[i].name) == kind {
      assert longer[i] == section[i];
    }
    if i :| 0 <= i < |longer| && longer[i].Header? && KindOf(longer[i].name) == kind {
      assert i < |section| ==> section[i] == longer[i];
    }
  }

  /** The section's own last value is that of the whole run if it brings one, and the empty string if not. */
  lemma {:induction false} SectionValue(garbage: nat, h: seq<Event>, kind: Kind)
    ensures LastValue(Section(h), kind) == if Brings(Section(h), kind) then LastValue(h, kind) else ""
  {
    if h != [] {
      var front, e := h[..|h| - 1], h[|h| - 1];
      assert h == front + [e];
      SectionValue(garbage, front, kind);
      OneMore(garbage, front, e);
      OneMore(garbage, Section(front), e);
      BringsSnoc(Section(front), e, kind);
    }
  }

  /**
   A field shows what the current header section says exactly if the section
   brought that pseudo-header, or none of the run left a value behind.
   */
  lemma FreshExactly(garbage: nat, h: seq<Event>, kind: Kind)
    requires kind != Regular
    ensures FieldOf(Run(garbage, h), kind) == LastValue(Section(h), kind) <==>
              Brings(Section(h), kind) || LastValue(h, kind) == ""
  {
    PseudoHeadersAreLast(garbage, h, kind);
    SectionValue(garbage, h, kind);
  }

  /** A section that does not bring the pseudo-header is seen with the value from before it. */
  lemma StaleValue(garbage: nat, h: seq<Event>, section: seq<Event>, kind: Kind)
    requires kind != Regular && !Brings(section, kind)
    ensures FieldOf(Run(garbage, h + [BeginHeaders] + section), kind) == FieldOf(Run(garbage, h), kind)
  {
    PseudoHeadersAreLast(garbage, h, kind);
    PseudoHeadersAreLast(garbage, h + [BeginHeaders] + section, kind);
    LastValueSkips(h, [BeginHeaders] + section, kind);
    assert h + [BeginHeaders] + section == h + ([BeginHeaders] + section);
  }

  lemma {:induction false} LastValueSkips(h: seq<Event>, more: seq<Event>, kind: Kind)
    requires forall i | 0 <= i < |more| :: !(more[i].Header? && KindOf(more[i].name) == kind)
    ensures LastValue(h + more, kind) == LastValue(h, kind)
  {
    if more == [] {
      assert h + more == h;
    } else {
      assert (h + more)[..|h + more| - 1] == h + more[..|more| - 1];
      LastValueSkips(h, more[..|more| - 1], kind);
    }
  }

  /** The name a pseudo-header comes under. */
  function NameOf(kind: Kind): string
    requires kind != Regular
  {
    match kind
    case Method => METHOD
    case Scheme => SCHEME
    case Authority => AUTHORITY
    case Path => PATH
  }

  /** Any of the four fields, any value: a second section without the pseudo-header is seen with it. */
  lemma StaleRun(garbage: nat, kind: Kind, value: string) returns (h: seq<Event>)
    requires kind != Regular && value != ""
    ensures |h| == 3 && !Brings(Section(h), kind) && LastValue(Section(h), kind) == ""
    ensures FieldOf(Run(garbage, h), kind) == value
  {
    var header := Header(NameOf(kind), value, Nv("", ""));
    KindOfNames(header.name);
    h := [BeginHeaders, header, BeginHeaders];
    assert Section(h) == [];
    StaleValue(garbage, [BeginHeaders, header], [], kind);
    PseudoHeadersAreLast(garbage, [BeginHeaders, header], kind);
    assert h == [BeginHeaders, header] + [BeginHeaders] + [];
  }

  // ----- the callbacks behind the receive loop -----

  /** The effect of several callbacks, one after the other. */
  function Play(f: Fields, events: seq<Event>): Fields {
    if events == [] then f else Step(Play(f, events[..|events| - 1]), events[|events| - 1])
  }

  /** What one call of the library reports, and the bytes it counts as consumed or a negative error. */
  datatype Parsed<P> = Parsed(next: P, events: seq<Event>, answer: int)

  type Library<!P> = (P, Bytes, bool) -> Parsed<P>

  /** The library with its callbacks: a parser of the receive loop, over its own state and the fields. */
  function Driven<P>(library: Library<P>): R.Parser<(P, Fields)> {
    (s: (P, Fields), bytes: Bytes, fin: bool) =>
      var p := library(s.0, bytes, fin);
      ((p.next, Play(s.1, p.events)), p.answer)
  }

  lemma {:induction false} PlayedCredit(f: Fields, events: seq<Event>)
    ensures Play(f, events).receiveCompleted == f.receiveCompleted + |Concat(Payloads(events))|
  {
    if events != [] {
      var front, e := events[..|events| - 1], events[|events| - 1];
      PlayedCredit(f, front);
      if e.Data? {
        ConcatSnoc(Payloads(front), e.bytes);
      }
    }
  }

  /**
   The library counts every byte it is given except DATA payload, which it
   reports instead, and holds nothing back.
   */
  ghost predicate CountsPayloadApart<P(!new)>(library: Library<P>) {
    forall p: P, bytes: Bytes, fin: bool ::
      var parsed := library(p, bytes, fin);
      0 <= parsed.answer ==> parsed.answer + |Concat(Payloads(parsed.events))| == |bytes|
  }

  /**
   No byte is credited twice and none is forgotten: what a receive event returns
   and what its callbacks pass to receive-complete are together its bytes.
   */
  lemma {:induction false} EveryByteOnce<P(!new)>(library: Library<P>, p: P, f: Fields, buffers: seq<Bytes>, finFlag: bool)
    requires CountsPayloadApart(library)
    ensures var fed := R.Feed(Driven(library), (p, f), buffers, finFlag);
            0 <= fed.result ==>
              fed.result + (fed.state.1.receiveCompleted - f.receiveCompleted) == |Concat(buffers)|
    decreases |buffers|
  {
    if buffers != [] {
      var parsed := library(p, buffers[0], finFlag && |buffers| == 1);
      var played := Play(f, parsed.events);
      PlayedCredit(f, parsed.events);
      EveryByteOnce(library, parsed.next, played, buffers[1..], finFlag);
    }
  }

  /** However the transport cuts the bytes, the fields, the credit and the result come out as for the whole. */
  lemma FieldsReadInPieces<P(!new)>(library: Library<P>, p: P, f: Fields, buffers: seq<Bytes>, finFlag: bool)
    requires R.Incremental(Driven(library)) && buffers != []
    ensures var fed := R.Feed(Driven(library), (p, f), buffers, finFlag);
            var whole := library(p, Concat(buffers), finFlag);
            fed.state == (whole.next, Play(f, whole.events)) && fed.result == whole.answer
  {
    R.ChunkingInsensitive(Driven(library), (p, f), buffers, finFlag);
  }

  /** The library in the middle of a DATA frame: it reports the payload and counts none of it. */
  function InPayload(seen: nat, bytes: Bytes, fin: bool): Parsed<nat> {
    Parsed(seen + |bytes|, if bytes == [] then [] else [Data(bytes)], 0)
  }

  lemma PlayedPayload(seen: nat, f: Fields, bytes: Bytes, fin: bool)
    ensures Driven(InPayload)((seen, f), bytes, fin)
         == ((seen + |bytes|, if bytes == [] then f else Step(f, Data(bytes))), 0)
  {
    var events := InPayload(seen, bytes, fin).events;
    if bytes != [] {
      assert events[..|events| - 1] == [];
    }
    assert Play(f, events) == if bytes == [] then f else Step(f, Data(bytes));
  }

  lemma InPayloadIncremental()
    ensures R.Incremental(Driven(InPayload))
  {
    var parse := Driven(InPayload);
    forall s: (nat, Fields), a: Bytes, b: Bytes, fin: bool
      ensures parse(s, a + b, fin) == R.Then(parse, parse(s, a, false), b, fin)
    {
      PlayedPayload(s.0, s.1, a, false);
      PlayedPayload(s.0, s.1, a + b, fin);
      var after := parse(s, a, false).0;
      PlayedPayload(after.0, after.1, b, fin);
      assert BodyOf(s.1.request) + (a + b) == BodyOf(s.1.request) + a + b;
      assert a == [] ==> a + b == b;
      assert b == [] ==> a + b == a;
    }
  }

  /** However a DATA payload is cut, body and credit are those of the whole, and none of it is counted again. */
  lemma BodyReadInPieces(seen: nat, f: Fields, buffers: seq<Bytes>, finFlag: bool)
    requires Concat(buffers) != []
    ensures var fed := R.Feed(Driven(InPayload), (seen, f), buffers, finFlag);
            && fed.state.1.request == Object(Some(BodyOf(f.request) + Concat(buffers)))
            && fed.state.1.receiveCompleted == f.receiveCompleted + |Concat(buffers)|
            && fed.result == 0
  {
    InPayloadIncremental();
    FieldsReadInPieces(InPayload, seen, f, buffers, finFlag);
    PlayedPayload(seen, f, Concat(buffers), finFlag);
  }
}
