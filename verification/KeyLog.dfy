/**
 The TLS key log: a printer that encodes each secret into one reused,
 zero-terminated scratch buffer, and a reader for the lines it prints
 (SSLKEYLOGFILE format, section 2 of draft-ietf-tls-keylogfile).
 */
module KeyLog {
  import opened Bytes

  const RANDOM_LEN := 32
  const MAX_SECRET_LEN := 64
  const NUL: char := '\0'

  /** An 8-bit length or counter. */
  newtype uint8 = x: int | 0 <= x < 256

  // ----- hexadecimal -----

  /** The digit of a value below 16: 'a' and up from ten on. */
  function HexDigit(x: nat): char
    requires x < 16
  {
    if x > 9 then 'a' + (x - 10) as char else '0' + x as char
  }

  function HexOf(b: byte): string {
    [HexDigit(b as int / 16), HexDigit(b as int % 16)]
  }

  function Hex(data: Bytes): (s: string)
    ensures |s| == 2 * |data|
  {
    if data == [] then [] else Hex(data[..|data| - 1]) + HexOf(data[|data| - 1])
  }

  predicate IsHexDigit(c: char) {
    '0' <= c <= '9' || 'a' <= c <= 'f'
  }

  function DigitValue(c: char): (x: nat)
    requires IsHexDigit(c)
    ensures x < 16
  {
    if '0' <= c <= '9' then (c - '0') as int else (c - 'a') as int + 10
  }

  predicate IsHex(s: string) {
    |s| % 2 == 0 && forall i | 0 <= i < |s| :: IsHexDigit(s[i])
  }

  /** The inverse of Hex. */
  function UnHex(s: string): Bytes
    requires IsHex(s)
  {
    if s == [] then []
    else
      var n := |s|;
      UnHex(s[..n - 2]) + [(DigitValue(s[n - 2]) * 16 + DigitValue(s[n - 1])) as byte]
  }

  /** The sixteen digits, as the program's character arithmetic gives them. */
  lemma HexDigits(x: nat)
    requires x < 16
    ensures HexDigit(x) == "0123456789abcdef"[x]
  {}

  lemma DigitRoundTrip(x: nat)
    requires x < 16
    ensures IsHexDigit(HexDigit(x)) && DigitValue(HexDigit(x)) == x
  {}

  /** Every byte string can be told from its hexadecimal form, which has no other characters. */
  lemma {:induction false} HexRoundTrip(data: Bytes)
    ensures IsHex(Hex(data)) && UnHex(Hex(data)) == data
  {
    if data != [] {
      var front, b := data[..|data| - 1], data[|data| - 1];
      HexRoundTrip(front);
      DigitRoundTrip(b as int / 16);
      DigitRoundTrip(b as int % 16);
      var s := Hex(data);
      assert s[..|s| - 2] == Hex(front);
    }
  }

  /** Writes the hexadecimal form to the front of the string; the 8-bit counter never wraps. */
  method EncodeHexBuffer(buffer: array<byte>, bufferLen: uint8, hexString: array<char>)
    requires bufferLen as int <= buffer.Length && 2 * bufferLen as int <= hexString.Length
    modifies hexString
    ensures hexString[..] == Hex(buffer[..bufferLen as int]) + old(hexString[2 * bufferLen as int..])
  {
    var i: uint8 := 0;
    while i < bufferLen
      invariant i <= bufferLen
      invariant hexString[..2 * i as int] == Hex(buffer[..i as int])
      invariant hexString[2 * i as int..] == old(hexString[2 * i as int..])
    {
      ghost var front := hexString[..2 * i as int];
      hexString[i as int * 2] := HexDigit(buffer[i as int] as int / 16);
      hexString[i as int * 2 + 1] := HexDigit(buffer[i as int] as int % 16);
      assert hexString[..2 * i as int + 2] == front + HexOf(buffer[i as int]);
      assert buffer[..i as int + 1][..i as int] == buffer[..i as int];
      i := i + 1;
    }
    assert hexString[..] == hexString[..2 * i as int] + hexString[2 * i as int..];
  }

  // ----- the printer -----

  /** The secrets: fixed storage, of which the common length is used, and which of them are set. */
  datatype Secrets = Secrets(
    clientRandom: Bytes, clientRandomSet: bool, secretLength: uint8,
    clientEarly: Bytes, clientEarlySet: bool,
    clientHandshake: Bytes, clientHandshakeSet: bool,
    serverHandshake: Bytes, serverHandshakeSet: bool,
    clientTraffic: Bytes, clientTrafficSet: bool,
    serverTraffic: Bytes, serverTrafficSet: bool)
  {
    /** The storage sizes, and a length within them. */
    predicate Valid() {
      && |clientRandom| == RANDOM_LEN && secretLength as int <= MAX_SECRET_LEN
      && |clientEarly| == |clientHandshake| == |serverHandshake| == |clientTraffic| == |serverTraffic| == MAX_SECRET_LEN
    }

    /** What stands for the client random in every line: nothing if it is not set. */
    function Random(): Bytes { if clientRandomSet then clientRandom else [] }
  }

  const COMMENT := "# TLS 1.3 secrets log file, generated by msquic"

  const CLIENT_EARLY := "CLIENT_EARLY_TRAFFIC_SECRET"
  const CLIENT_HANDSHAKE := "CLIENT_HANDSHAKE_TRAFFIC_SECRET"
  const SERVER_HANDSHAKE := "SERVER_HANDSHAKE_TRAFFIC_SECRET"
  const CLIENT_TRAFFIC := "CLIENT_TRAFFIC_SECRET_0"
  const SERVER_TRAFFIC := "SERVER_TRAFFIC_SECRET_0"

  function Line(tag: string, random: Bytes, secret: Bytes): string {
    tag + " " + Hex(random) + " " + Hex(secret) + "\n"
  }

  /** A line for a secret that is set, cut to the common length; nothing otherwise. */
  function OptionalLine(tag: string, isSet: bool, random: Bytes, secret: Bytes, len: nat): string
    requires len <= |secret|
  {
    if isSet then Line(tag, random, secret[..len]) else []
  }

  function Lines(s: Secrets): string
    requires s.Valid()
  {
    var (random, len) := (s.Random(), s.secretLength as int);
    OptionalLine(CLIENT_EARLY, s.clientEarlySet, random, s.clientEarly, len)
    + (OptionalLine(CLIENT_HANDSHAKE, s.clientHandshakeSet, random, s.clientHandshake, len)
    + (OptionalLine(SERVER_HANDSHAKE, s.serverHandshakeSet, random, s.serverHandshake, len)
    + (OptionalLine(CLIENT_TRAFFIC, s.clientTrafficSet, random, s.clientTraffic, len)
    + OptionalLine(SERVER_TRAFFIC, s.serverTrafficSet, random, s.serverTraffic, len))))
  }

  function Printed(s: Secrets): string
    requires s.Valid()
  {
    COMMENT + ("\n" + Lines(s))
  }

  /** What "%s" prints: the characters before the first NUL. */
  function CString(s: string): string {
    if s == [] || s[0] == NUL then [] else [s[0]] + CString(s[1..])
  }

  predicate NoNul(s: string) { NUL !in s }

  lemma {:induction false} CStringStops(s: string, rest: string)
    requires NoNul(s) && rest != [] && rest[0] == NUL
    ensures CString(s + rest) == s
  {
    if s == [] {
      assert s + rest == rest;
    } else {
      assert (s + rest)[1..] == s[1..] + rest;
      CStringStops(s[1..], rest);
    }
  }

  lemma HexHasNoNul(data: Bytes)
    ensures NoNul(Hex(data))
  {
    HexRoundTrip(data);
  }

  /** Scratch space that prints as text: everything from `used` on is NUL, and there is at least one. */
  predicate ZeroFrom(s: string, used: nat) {
    used < |s| && forall i | used <= i < |s| :: s[i] == NUL
  }

  /** One conditional line, through the scratch buffer. No tail of an earlier secret shows: the length is the same. */
  method PrintSecret(tag: string, isSet: bool, secret: Bytes, len: uint8, ghost randomBytes: Bytes, random: array<char>,
                     scratch: array<char>, out: string)
    returns (longer: string)
    requires |secret| == MAX_SECRET_LEN && len as int <= MAX_SECRET_LEN
    requires scratch.Length == 2 * MAX_SECRET_LEN + 1 && random != scratch && ZeroFrom(scratch[..], 2 * len as int)
    requires CString(random[..]) == Hex(randomBytes)
    modifies scratch
    ensures ZeroFrom(scratch[..], 2 * len as int)
    ensures longer == out + OptionalLine(tag, isSet, randomBytes, secret, len as int)
  {
    longer := out;
    if isSet {
      var bytes := new byte[MAX_SECRET_LEN](i requires 0 <= i < MAX_SECRET_LEN && |secret| == MAX_SECRET_LEN => secret[i]);
      assert bytes[..len as int] == secret[..len as int];
      ghost var tail := scratch[2 * len as int..];
      EncodeHexBuffer(bytes, len, scratch);
      assert scratch[..] == Hex(secret[..len as int]) + tail;
      HexHasNoNul(secret[..len as int]);
      CStringStops(Hex(secret[..len as int]), tail);
      longer := out + (tag + " " + CString(random[..]) + " " + CString(scratch[..]) + "\n");
    } else {
      assert out + [] == out;
    }
  }

  /** The client random as text: a zeroed buffer, filled only if the random is set. */
  method EncodeRandom(s: Secrets) returns (random: array<char>)
    requires s.Valid()
    ensures fresh(random) && CString(random[..]) == Hex(s.Random())
  {
    random := new char[2 * RANDOM_LEN + 1](_ => NUL);
    if s.clientRandomSet {
      var bytes := new byte[RANDOM_LEN](i requires 0 <= i < RANDOM_LEN && |s.clientRandom| == RANDOM_LEN => s.clientRandom[i]);
      assert bytes[..RANDOM_LEN] == s.clientRandom;
      EncodeHexBuffer(bytes, RANDOM_LEN as uint8, random);
      HexHasNoNul(s.clientRandom);
      CStringStops(Hex(s.clientRandom), [NUL]);
      assert random[..] == Hex(s.clientRandom) + [NUL];
    } else {
      assert random[..][0] == NUL;
    }
  }

  method WriteSslKeyLogFile(s: Secrets) returns (out: string)
    requires s.Valid()
    ensures out == Printed(s)
  {
    var random := EncodeRandom(s);
    var scratch := new char[2 * MAX_SECRET_LEN + 1](_ => NUL);
    ghost var r, n := s.Random(), s.secretLength as int;
    out := PrintSecret(CLIENT_EARLY, s.clientEarlySet, s.clientEarly, s.secretLength, r, random, scratch, COMMENT + "\n");
    out := PrintSecret(CLIENT_HANDSHAKE, s.clientHandshakeSet, s.clientHandshake, s.secretLength, r, random, scratch, out);
    out := PrintSecret(SERVER_HANDSHAKE, s.serverHandshakeSet, s.serverHandshake, s.secretLength, r, random, scratch, out);
    out := PrintSecret(CLIENT_TRAFFIC, s.clientTrafficSet, s.clientTraffic, s.secretLength, r, random, scratch, out);
    out := PrintSecret(SERVER_TRAFFIC, s.serverTrafficSet, s.serverTraffic, s.secretLength, r, random, scratch, out);
    Associate(COMMENT, "\n",
              OptionalLine(CLIENT_EARLY, s.clientEarlySet, r, s.clientEarly, n),
              OptionalLine(CLIENT_HANDSHAKE, s.clientHandshakeSet, r, s.clientHandshake, n),
              OptionalLine(SERVER_HANDSHAKE, s.serverHandshakeSet, r, s.serverHandshake, n),
              OptionalLine(CLIENT_TRAFFIC, s.clientTrafficSet, r, s.clientTraffic, n),
              OptionalLine(SERVER_TRAFFIC, s.serverTrafficSet, r, s.serverTraffic, n));
  }

  lemma Associate(a: string, b: string, c: string, d: string, e: string, f: string, g: string)
    ensures a + b + c + d + e + f + g == a + (b + (c + (d + (e + (f + g)))))
  {}

  // ----- reading it back -----

  datatype Option<+T> = None | Some(value: T)
  datatype Entry = Entry(tag: string, random: Bytes, secret: Bytes)

  /** The text before the first separator and the text after it. */
  function SplitAt(s: string, sep: char): (r: Option<(string, string)>)
    ensures r.Some? ==> |r.value.1| < |s|
  {
    if s == [] then None
    else if s[0] == sep then Some(([], s[1..]))
    else
      match SplitAt(s[1..], sep)
      case None => None
      case Some((front, rest)) => Some(([s[0]] + front, rest))
  }

  lemma {:induction false} SplitsAtFirst(front: string, sep: char, rest: string)
    requires sep !in front
    ensures SplitAt(front + ([sep] + rest), sep) == Some((front, rest))
  {
    var s := front + ([sep] + rest);
    if front == [] {
      assert s[0] == sep && s[1..] == rest;
    } else {
      assert s[1..] == front[1..] + ([sep] + rest);
      SplitsAtFirst(front[1..], sep, rest);
      assert s[0] == front[0] && front[0] in front;
      assert [front[0]] + front[1..] == front;
    }
  }

  /** One line: a tag, the random and the secret, separated by blanks. */
  function ParseLine(s: string): (r: Option<(Entry, string)>)
    ensures r.Some? ==> |r.value.1| < |s|
  {
    match SplitAt(s, ' ')
    case None => None
    case Some((tag, s1)) =>
      match SplitAt(s1, ' ')
      case None => None
      case Some((random, s2)) =>
        match SplitAt(s2, '\n')
        case None => None
        case Some((secret, rest)) =>
          if IsHex(random) && IsHex(secret) then Some((Entry(tag, UnHex(random), UnHex(secret)), rest)) else None
  }

  function ParseLines(s: string): Option<seq<Entry>>
    decreases |s|
  {
    if s == [] then Some([])
    else
      match ParseLine(s)
      case None => None
      case Some((entry, rest)) =>
        match ParseLines(rest)
        case None => None
        case Some(entries) => Some([entry] + entries)
  }

  /** The reader skips the first line, which is a comment. */
  function Parse(s: string): Option<seq<Entry>> {
    if s == [] || s[0] != '#' then None
    else
      match SplitAt(s, '\n')
      case None => None
      case Some((comment, rest)) => ParseLines(rest)
  }

  predicate PlainTag(tag: string) { ' ' !in tag }

  lemma LineSplits(tag: string, random: string, secret: string, rest: string)
    ensures tag + " " + random + " " + secret + "\n" + rest
         == tag + ([' '] + (random + ([' '] + (secret + (['\n'] + rest)))))
  {}

  lemma LineParses(tag: string, random: Bytes, secret: Bytes, rest: string)
    requires PlainTag(tag)
    ensures ParseLine(Line(tag, random, secret) + rest) == Some((Entry(tag, random, secret), rest))
  {
    HexRoundTrip(random);
    HexRoundTrip(secret);
    var s2 := Hex(secret) + (['\n'] + rest);
    var s1 := Hex(random) + ([' '] + s2);
    LineSplits(tag, Hex(random), Hex(secret), rest);
    SplitsAtFirst(tag, ' ', s1);
    SplitsAtFirst(Hex(random), ' ', s2);
    SplitsAtFirst(Hex(secret), '\n', rest);
  }

  function OptionalEntry(tag: string, isSet: bool, random: Bytes, secret: Bytes, len: nat): seq<Entry>
    requires len <= |secret|
  {
    if isSet then [Entry(tag, random, secret[..len])] else []
  }

  /** What a reader should find: the set secrets, in order, under the labels of the file format, cut to the common length. */
  function Entries(s: Secrets): seq<Entry>
    requires s.Valid()
  {
    var (random, len) := (s.Random(), s.secretLength as int);
    OptionalEntry("CLIENT_EARLY_TRAFFIC_SECRET", s.clientEarlySet, random, s.clientEarly, len)
    + (OptionalEntry("CLIENT_HANDSHAKE_TRAFFIC_SECRET", s.clientHandshakeSet, random, s.clientHandshake, len)
    + (OptionalEntry("SERVER_HANDSHAKE_TRAFFIC_SECRET", s.serverHandshakeSet, random, s.serverHandshake, len)
    + (OptionalEntry("CLIENT_TRAFFIC_SECRET_0", s.clientTrafficSet, random, s.clientTraffic, len)
    + OptionalEntry("SERVER_TRAFFIC_SECRET_0", s.serverTrafficSet, random, s.serverTraffic, len))))
  }

  lemma OptionalLineParses(tag: string, isSet: bool, random: Bytes, secret: Bytes, len: nat, rest: string, entries: seq<Entry>)
    requires PlainTag(tag) && len <= |secret| && ParseLines(rest) == Some(entries)
    ensures ParseLines(OptionalLine(tag, isSet, random, secret, len) + rest)
         == Some(OptionalEntry(tag, isSet, random, secret, len) + entries)
  {
    if isSet {
      LineParses(tag, random, secret[..len], rest);
    } else {
      assert [] + rest == rest && [] + entries == entries;
    }
  }

  lemma TagsArePlain()
    ensures PlainTag(CLIENT_EARLY) && PlainTag(CLIENT_HANDSHAKE) && PlainTag(SERVER_HANDSHAKE)
    ensures PlainTag(CLIENT_TRAFFIC) && PlainTag(SERVER_TRAFFIC)
  {}

  lemma CommentParts(front: string, back: string)
    requires front == "# TLS 1.3 secrets log" && back == " file, generated by msquic"
    ensures COMMENT == front + back
  {}

  lemma CommentIsOneLine()
    ensures '\n' !in COMMENT && COMMENT[0] == '#'
  {
    var front, back := "# TLS 1.3 secrets log", " file, generated by msquic";
    CommentParts(front, back);
    assert front[0] == '#' && '\n' !in front && '\n' !in back;
  }

  lemma LinesParse(s: Secrets)
    requires s.Valid()
    ensures ParseLines(Lines(s)) == Some(Entries(s))
  {
    var r, n := s.Random(), s.secretLength as int;
    TagsArePlain();
    var l5 := OptionalLine(SERVER_TRAFFIC, s.serverTrafficSet, r, s.serverTraffic, n);
    var e5 := OptionalEntry(SERVER_TRAFFIC, s.serverTrafficSet, r, s.serverTraffic, n);
    OptionalLineParses(SERVER_TRAFFIC, s.serverTrafficSet, r, s.serverTraffic, n, [], []);
    assert l5 + [] == l5 && e5 + [] == e5;
    var l4 := OptionalLine(CLIENT_TRAFFIC, s.clientTrafficSet, r, s.clientTraffic, n) + l5;
    var e4 := OptionalEntry(CLIENT_TRAFFIC, s.clientTrafficSet, r, s.clientTraffic, n) + e5;
    OptionalLineParses(CLIENT_TRAFFIC, s.clientTrafficSet, r, s.clientTraffic, n, l5, e5);
    var l3 := OptionalLine(SERVER_HANDSHAKE, s.serverHandshakeSet, r, s.serverHandshake, n) + l4;
    var e3 := OptionalEntry(SERVER_HANDSHAKE, s.serverHandshakeSet, r, s.serverHandshake, n) + e4;
    OptionalLineParses(SERVER_HANDSHAKE, s.serverHandshakeSet, r, s.serverHandshake, n, l4, e4);
    var l2 := OptionalLine(CLIENT_HANDSHAKE, s.clientHandshakeSet, r, s.clientHandshake, n) + l3;
    var e2 := OptionalEntry(CLIENT_HANDSHAKE, s.clientHandshakeSet, r, s.clientHandshake, n) + e3;
    OptionalLineParses(CLIENT_HANDSHAKE, s.clientHandshakeSet, r, s.clientHandshake, n, l3, e3);
    OptionalLineParses(CLIENT_EARLY, s.clientEarlySet, r, s.clientEarly, n, l2, e2);
  }

  /**
   Reading the log recovers exactly the set secrets, in order, each cut to the
   common length, with the client random if that is set and nothing if not.
   */
  lemma KeyLogRoundTrip(s: Secrets)
    requires s.Valid()
    ensures Parse(Printed(s)) == Some(Entries(s))
  {
    CommentIsOneLine();
    LinesParse(s);
    SplitsAtFirst(COMMENT, '\n', Lines(s));
  }
}
