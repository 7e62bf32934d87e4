/** The Market-by-Price datagram walk: from a datagram's bytes to one record per decoded
    message, each stamped with its message's index. */
module Datagrams {
  import opened Wrappers
  import opened ShardSpec

  type Byte = b: nat | b < 256

  /** What a message's body decodes to. An unknown type and a malformed body are
      skipped; anything else that fails takes the datagram with it. */
  datatype Decoded = Decoded(inst: nat, body: Body) | UnknownType | MalformedBody | Failed

  datatype Header = Header(ch: nat, seqNo: nat, count: Byte, resetCount: nat)

  type Decoder = (Byte, seq<Byte>) -> Decoded

  datatype Datagram = Datagram(header: Header, port: nat, messages: seq<seq<Byte>>)

  const MAGIC := 0x4442
  const SCHEMAS: set<Byte> := {1, 3}
  const DATAGRAM_HEADER := 24
  const MESSAGE_HEADER := 4

  /** Ports are numbers here; this one carries snapshots. */
  const SNAPSHOT_PORT := 2

  // ---- the datagram header ----

  /** Little-endian bytes, and what they say. */
  function Value(bytes: seq<Byte>): nat {
    if bytes == [] then 0 else bytes[0] + 256 * Value(bytes[1..])
  }

  function Bytes(n: nat, width: nat): (bytes: seq<Byte>)
    ensures |bytes| == width
  {
    if width == 0 then [] else [n % 256] + Bytes(n / 256, width - 1)
  }

  function Limit(width: nat): nat {
    if width == 0 then 1 else 256 * Limit(width - 1)
  }

  lemma {:induction false} BytesSay(n: nat, width: nat)
    requires n < Limit(width)
    ensures Value(Bytes(n, width)) == n
  {
    if width > 0 {
      BytesSay(n / 256, width - 1);
      assert Bytes(n, width)[1..] == Bytes(n / 256, width - 1);
    }
  }

  /** The header's stamp for records, and the schema its bodies follow. */
  datatype Prefix = Prefix(header: Header, schema: Byte)

  /** A header that is whole, of this format and an accepted schema, whose Frame Length
      is the datagram's, and that announces a message. */
  function ParseHeader(datagram: seq<Byte>): Option<Prefix> {
    if |datagram| < DATAGRAM_HEADER then None
    else if Value(datagram[..2]) != MAGIC || datagram[2] !in SCHEMAS then None
    else if Value(datagram[22..24]) != |datagram| || datagram[20] == 0 then None
    else Some(Prefix(Header(datagram[3], Value(datagram[4..12]), datagram[20], datagram[21]), datagram[2]))
  }

  /** A datagram as a publisher writes it. `time` is its send timestamp. */
  function Written(p: Prefix, time: nat, ms: seq<seq<Byte>>): seq<Byte>
    requires p.header.ch < 256 && p.header.resetCount < 256
  {
    var ch: Byte, resets: Byte := p.header.ch, p.header.resetCount;
    Bytes(MAGIC, 2) + [p.schema, ch] + Bytes(p.header.seqNo, 8) + Bytes(time, 8) +
    [p.header.count, resets] + Bytes(DATAGRAM_HEADER + |Join(ms)|, 2) + Join(ms)
  }

  /** A message whose Message Length byte is its length. */
  predicate WellFormed(m: seq<Byte>) {
    MESSAGE_HEADER <= |m| && m[1] == |m|
  }

  function Join(ms: seq<seq<Byte>>): seq<Byte> {
    if ms == [] then [] else ms[0] + Join(ms[1..])
  }

  /** `ms` are the messages of a body that declares `count` of them. */
  ghost predicate Splits(body: seq<Byte>, count: nat, ms: seq<seq<Byte>>) {
    |ms| == count && Join(ms) == body && forall m :: m in ms ==> WellFormed(m)
  }

  function Decode(decode: Decoder, m: seq<Byte>): Decoded
    requires WellFormed(m)
  {
    decode(m[0], m[MESSAGE_HEADER..])
  }

  function Stamp(hdr: Header, port: nat, index: nat, d: Decoded): seq<Record> {
    if d.Decoded? then [Record(hdr.ch, port, hdr.seqNo, index, d.inst, hdr.resetCount, d.body)] else []
  }

  /** One record per decodable message, in order, with the message's own index. */
  function RecordsOf(hdr: Header, port: nat, decode: Decoder, ms: seq<seq<Byte>>): seq<Record>
    requires forall m :: m in ms ==> WellFormed(m)
  {
    if ms == [] then []
    else
      var n := |ms| - 1;
      RecordsOf(hdr, port, decode, ms[..n]) + Stamp(hdr, port, n, Decode(decode, ms[n]))
  }

  function Skipped(decode: Decoder, ms: seq<seq<Byte>>, what: Decoded): nat
    requires forall m :: m in ms ==> WellFormed(m)
  {
    if ms == [] then 0
    else Skipped(decode, ms[..|ms| - 1], what) + if Decode(decode, ms[|ms| - 1]) == what then 1 else 0
  }

  /** Messages whose snapshot flag disagrees with the port they came in on. */
  function Mismatched(port: nat, ms: seq<seq<Byte>>): nat
    requires forall m :: m in ms ==> WellFormed(m)
  {
    if ms == [] then 0 else Mismatched(port, ms[..|ms| - 1]) + Mismatch(port, ms[|ms| - 1])
  }

  function Mismatch(port: nat, m: seq<Byte>): nat
    requires WellFormed(m)
  {
    if (port == SNAPSHOT_PORT) != (m[2] % 2 == 1) then 1 else 0
  }

  // ---- the messages of a body are determined ----

  lemma {:induction false} JoinSnoc(ms: seq<seq<Byte>>, m: seq<Byte>)
    ensures Join(ms + [m]) == Join(ms) + m
  {
    if ms == [] {
      assert ms + [m] == [m] && [m][1..] == [];
      assert m + [] == m;
    } else {
      assert (ms + [m])[1..] == ms[1..] + [m];
      JoinSnoc(ms[1..], m);
      assert ms[0] + (Join(ms[1..]) + m) == (ms[0] + Join(ms[1..])) + m;
    }
  }

  lemma SameFirst(m: seq<Byte>, a: seq<Byte>, n: seq<Byte>, b: seq<Byte>)
    requires WellFormed(m) && WellFormed(n) && m + a == n + b
    ensures m == n && a == b
  {
    var bytes := m + a;
    assert bytes[1] == m[1] == n[1];
    assert m == bytes[..|m|] == n;
    assert a == bytes[|m|..] == b;
  }

  /** Two ways to cut the same bytes agree as far as the shorter goes. */
  lemma {:induction false} CutsAgree(ms: seq<seq<Byte>>, rest: seq<Byte>, all: seq<seq<Byte>>)
    requires |ms| <= |all| && Join(ms) + rest == Join(all)
    requires forall m :: m in ms + all ==> WellFormed(m)
    ensures ms == all[..|ms|] && rest == Join(all[|ms|..])
  {
    if ms == [] {
      assert [] + rest == rest && all[0..] == all;
    } else {
      var m, n := ms[0], all[0];
      assert m in ms + all && n in ms + all;
      assert m + (Join(ms[1..]) + rest) == Join(ms) + rest;
      SameFirst(m, Join(ms[1..]) + rest, n, Join(all[1..]));
      assert forall x :: x in ms[1..] + all[1..] ==> x in ms + all;
      CutsAgree(ms[1..], rest, all[1..]);
      assert all[1..][|ms| - 1..] == all[|ms|..];
    }
  }

  lemma JoinNothing(all: seq<seq<Byte>>)
    requires forall m :: m in all ==> WellFormed(m)
    ensures Join(all) == [] <==> all == []
  {
    if all != [] {
      assert WellFormed(all[0]);
    }
  }

  /** There is at most one way to cut a body into messages. */
  lemma SplitIsUnique(body: seq<Byte>, a: nat, ms: seq<seq<Byte>>, b: nat, ns: seq<seq<Byte>>)
    requires Splits(body, a, ms) && Splits(body, b, ns)
    ensures ms == ns
  {
    if a <= b {
      assert Join(ms) + [] == Join(ns);
      CutsAgree(ms, [], ns);
      JoinNothing(ns[a..]);
    } else {
      assert Join(ns) + [] == Join(ms);
      CutsAgree(ns, [], ms);
      JoinNothing(ms[b..]);
    }
  }

  /** What is left of the body starts with the next message of any cut of the whole. */
  lemma NextMessage(body: seq<Byte>, ms: seq<seq<Byte>>, rest: seq<Byte>, all: seq<seq<Byte>>)
    requires Join(ms) + rest == body == Join(all) && |ms| < |all|
    requires forall m :: m in ms + all ==> WellFormed(m)
    ensures MESSAGE_HEADER <= |rest| && MESSAGE_HEADER <= rest[1] <= |rest| && all[|ms|] == rest[..rest[1]]
    ensures ms == all[..|ms|]
  {
    CutsAgree(ms, rest, all);
    var tail := all[|ms|..];
    assert tail[0] in ms + all;
    assert rest == tail[0] + Join(tail[1..]);
  }

  // ---- the walk ----

  datatype Parsed = Parsed(records: seq<Record>, unknown: nat, malformed: nat, mismatched: nat)

  /** What the messages of a datagram come to. */
  function Reading(hdr: Header, port: nat, decode: Decoder, ms: seq<seq<Byte>>): Parsed
    requires forall m :: m in ms ==> WellFormed(m)
  {
    Parsed(RecordsOf(hdr, port, decode, ms), Skipped(decode, ms, UnknownType), Skipped(decode, ms, MalformedBody),
           Mismatched(port, ms))
  }

  /** A body that can be parsed: it cuts into the declared number of messages with
      nothing left over, and no message fails hard. */
  ghost predicate Parses(body: seq<Byte>, count: nat, decode: Decoder, ms: seq<seq<Byte>>) {
    Splits(body, count, ms) && forall m :: m in ms ==> Decode(decode, m) != Failed
  }

  predicate AllDecode(ms: seq<seq<Byte>>, decode: Decoder) {
    forall m :: m in ms ==> WellFormed(m) && Decode(decode, m) != Failed
  }

  /** The loop's state: `ms` cut off so far, `rest` to go. */
  ghost predicate Walked(body: seq<Byte>, hdr: Header, port: nat, decode: Decoder, ms: seq<seq<Byte>>, rest: seq<Byte>,
                         p: Parsed) {
    && AllDecode(ms, decode) && Join(ms) + rest == body
    && p == Reading(hdr, port, decode, ms)
  }

  lemma WalkOn(body: seq<Byte>, hdr: Header, port: nat, decode: Decoder, ms: seq<seq<Byte>>, rest: seq<Byte>, p: Parsed,
               m: seq<Byte>, left: seq<Byte>, q: Parsed)
    requires Walked(body, hdr, port, decode, ms, rest, p) && rest == m + left
    requires WellFormed(m) && Decode(decode, m) != Failed
    requires q == Parsed(p.records + Stamp(hdr, port, |ms|, Decode(decode, m)),
                         p.unknown + (if Decode(decode, m) == UnknownType then 1 else 0),
                         p.malformed + (if Decode(decode, m) == MalformedBody then 1 else 0),
                         p.mismatched + Mismatch(port, m))
    ensures Walked(body, hdr, port, decode, ms + [m], left, q)
  {
    JoinSnoc(ms, m);
    assert Join(ms) + (m + left) == (Join(ms) + m) + left;
    assert (ms + [m])[..|ms|] == ms;
  }

  lemma NextParses(body: seq<Byte>, count: nat, decode: Decoder, ms: seq<seq<Byte>>, rest: seq<Byte>, all: seq<seq<Byte>>)
    requires AllDecode(ms, decode) && Join(ms) + rest == body && |ms| < count && Parses(body, count, decode, all)
    ensures MESSAGE_HEADER <= |rest| && MESSAGE_HEADER <= rest[1] <= |rest|
    ensures decode(rest[0], rest[MESSAGE_HEADER..rest[1]]) != Failed
  {
    NextMessage(body, ms, rest, all);
    assert all[|ms|] in all && Decode(decode, all[|ms|]) != Failed;
    assert rest[..rest[1]][MESSAGE_HEADER..] == rest[MESSAGE_HEADER..rest[1]];
  }

  /** A message that cannot be cut off here, or fails hard, cannot in any cut. */
  lemma NoParse(body: seq<Byte>, count: nat, decode: Decoder, ms: seq<seq<Byte>>, rest: seq<Byte>, all: seq<seq<Byte>>)
    requires AllDecode(ms, decode) && Join(ms) + rest == body && |ms| < count
    requires |rest| < MESSAGE_HEADER || rest[1] < MESSAGE_HEADER || rest[1] > |rest| ||
             decode(rest[0], rest[MESSAGE_HEADER..rest[1]]) == Failed
    ensures !Parses(body, count, decode, all)
  {
    if Parses(body, count, decode, all) {
      NextParses(body, count, decode, ms, rest, all);
    }
  }

  /** Cut the body message by message. Each message that decodes becomes a record;
      one of an unknown type or with a malformed body is skipped and counted, and its
      index with it. Anything else that does not fit fails the datagram. */
  method WalkBody(hdr: Header, port: nat, datagramBody: seq<Byte>, decode: Decoder) returns (r: Option<Parsed>)
    ensures r.Some? <==> exists ms :: Parses(datagramBody, hdr.count, decode, ms)
    ensures forall ms | Parses(datagramBody, hdr.count, decode, ms) :: r == Some(Reading(hdr, port, decode, ms))
  {
    var body: seq<Byte> := datagramBody;
    var p := Parsed([], 0, 0, 0);
    ghost var ms: seq<seq<Byte>> := [];
    for i := 0 to hdr.count
      invariant |ms| == i && Walked(datagramBody, hdr, port, decode, ms, body, p)
    {
      if |body| < MESSAGE_HEADER || body[1] < MESSAGE_HEADER || body[1] > |body| {
        forall all ensures !Parses(datagramBody, hdr.count, decode, all) {
          NoParse(datagramBody, hdr.count, decode, ms, body, all);
        }
        return None;
      }
      var m: seq<Byte>, left: seq<Byte> := body[..body[1]], body[body[1]..];
      assert m[MESSAGE_HEADER..] == body[MESSAGE_HEADER..body[1]];
      var d := decode(m[0], m[MESSAGE_HEADER..]);
      if d == Failed {
        forall all ensures !Parses(datagramBody, hdr.count, decode, all) {
          NoParse(datagramBody, hdr.count, decode, ms, body, all);
        }
        return None;
      }
      var q := Parsed(p.records + Stamp(hdr, port, i, d),
                      p.unknown + (if d == UnknownType then 1 else 0),
                      p.malformed + (if d == MalformedBody then 1 else 0),
                      p.mismatched + Mismatch(port, m));
      WalkOn(datagramBody, hdr, port, decode, ms, body, p, m, left, q);
      body, p, ms := left, q, ms + [m];
    }
    WalkEnded(datagramBody, hdr, port, decode, ms, body, p);
    if body != [] {
      return None;
    }
    return Some(p);
  }

  /** After the last message: parsed exactly when nothing is left over. */
  lemma WalkEnded(body: seq<Byte>, hdr: Header, port: nat, decode: Decoder, ms: seq<seq<Byte>>, rest: seq<Byte>, p: Parsed)
    requires |ms| == hdr.count && Walked(body, hdr, port, decode, ms, rest, p)
    ensures rest == [] ==> Parses(body, hdr.count, decode, ms)
    ensures forall all :: Parses(body, hdr.count, decode, all) ==> rest == [] && all == ms
  {
    if rest == [] {
      assert Join(ms) + [] == Join(ms);
    }
    forall all | Parses(body, hdr.count, decode, all) ensures rest == [] && all == ms {
      CutsAgree(ms, rest, all);
      assert all[|ms|..] == [] && all[..|ms|] == all;
    }
  }

  /** Every message is a record, an unknown type or a malformed body. */
  lemma {:induction false} EveryMessageIsCounted(hdr: Header, port: nat, decode: Decoder, ms: seq<seq<Byte>>)
    requires AllDecode(ms, decode)
    ensures |RecordsOf(hdr, port, decode, ms)| + Skipped(decode, ms, UnknownType) + Skipped(decode, ms, MalformedBody) == |ms|
  {
    if ms != [] {
      EveryMessageIsCounted(hdr, port, decode, ms[..|ms| - 1]);
    }
  }

  /** A whole datagram: header, then walk. `decodes` gives the body decoder of a schema
      version. */
  method ParseDatagram(port: nat, datagram: seq<Byte>, decodes: Byte -> Decoder) returns (r: Option<Parsed>)
    ensures r.Some? <==> exists ms :: ParsesWhole(datagram, decodes, ms)
    ensures forall ms | ParsesWhole(datagram, decodes, ms) ::
              var p := ParseHeader(datagram).value; r == Some(Reading(p.header, port, decodes(p.schema), ms))
  {
    var prefix := ParseHeader(datagram);
    if prefix.None? {
      return None;
    }
    r := WalkBody(prefix.value.header, port, datagram[DATAGRAM_HEADER..], decodes(prefix.value.schema));
    if ms :| Parses(datagram[DATAGRAM_HEADER..], prefix.value.header.count, decodes(prefix.value.schema), ms) {
      assert ParsesWhole(datagram, decodes, ms);
    }
  }

  ghost predicate ParsesWhole(datagram: seq<Byte>, decodes: Byte -> Decoder, ms: seq<seq<Byte>>) {
    && ParseHeader(datagram).Some? && DATAGRAM_HEADER <= |datagram|
    && var p := ParseHeader(datagram).value;
       Parses(datagram[DATAGRAM_HEADER..], p.header.count, decodes(p.schema), ms)
  }

  // ---- round trip ----

  lemma WrittenParts(p: Prefix, time: nat, ms: seq<seq<Byte>>)
    requires p.header.ch < 256 && p.header.resetCount < 256
    ensures var d := Written(p, time, ms);
            && |d| == DATAGRAM_HEADER + |Join(ms)| && d[DATAGRAM_HEADER..] == Join(ms)
            && d[..2] == Bytes(MAGIC, 2) && d[2] == p.schema && d[3] == p.header.ch
            && d[4..12] == Bytes(p.header.seqNo, 8) && d[20] == p.header.count && d[21] == p.header.resetCount
            && d[22..24] == Bytes(DATAGRAM_HEADER + |Join(ms)|, 2)
  {
  }

  /** What a publisher writes is what is read: the messages, under the header's stamp. */
  lemma WrittenIsRead(p: Prefix, time: nat, ms: seq<seq<Byte>>, decodes: Byte -> Decoder)
    requires p.header.ch < 256 && p.header.resetCount < 256 && p.schema in SCHEMAS
    requires p.header.seqNo < Limit(8) && DATAGRAM_HEADER + |Join(ms)| < Limit(2)
    requires p.header.count == |ms| > 0 && AllDecode(ms, decodes(p.schema))
    ensures ParseHeader(Written(p, time, ms)) == Some(p)
    ensures ParsesWhole(Written(p, time, ms), decodes, ms)
  {
    WrittenParts(p, time, ms);
    BytesSay(MAGIC, 2);
    BytesSay(p.header.seqNo, 8);
    BytesSay(DATAGRAM_HEADER + |Join(ms)|, 2);
  }

  lemma {:induction false} SaidBytes(bytes: seq<Byte>)
    ensures Bytes(Value(bytes), |bytes|) == bytes
    decreases |bytes|
  {
    if bytes != [] {
      SaidBytes(bytes[1..]);
      assert Value(bytes) % 256 == bytes[0] && Value(bytes) / 256 == Value(bytes[1..]);
      assert bytes == [bytes[0]] + bytes[1..];
    }
  }

  /** Nothing else is read: a datagram whose header is accepted and whose body cuts into
      the messages it announces is one a publisher writes, of an accepted schema, with
      at least one message. */
  lemma ReadIsWritten(d: seq<Byte>, p: Prefix, ms: seq<seq<Byte>>)
    requires ParseHeader(d) == Some(p) && Splits(d[DATAGRAM_HEADER..], p.header.count, ms)
    ensures (p.schema == 1 || p.schema == 3) && ms != [] && p.header.count == |ms|
    ensures p.header.ch < 256 && p.header.resetCount < 256 && d == Written(p, Value(d[12..20]), ms)
  {
    SaidBytes(d[..2]);
    SaidBytes(d[4..12]);
    SaidBytes(d[12..20]);
    SaidBytes(d[22..24]);
    assert |d| == DATAGRAM_HEADER + |Join(ms)|;
    var ch: Byte, resets: Byte := p.header.ch, p.header.resetCount;
    PartsOf(d, p.schema, ch, p.header.count, resets);
  }

  /** A datagram is its parts. */
  lemma PartsOf(d: seq<Byte>, schema: Byte, ch: Byte, count: Byte, resets: Byte)
    requires |d| >= DATAGRAM_HEADER && d[2] == schema && d[3] == ch && d[20] == count && d[21] == resets
    ensures d == d[..2] + [schema, ch] + d[4..12] + d[12..20] + [count, resets] + d[22..24] + d[24..]
  {
    assert d == d[..2] + d[2..4] + d[4..12] + d[12..20] + d[20..22] + d[22..24] + d[24..];
    assert d[2..4] == [schema, ch] && d[20..22] == [count, resets];
  }

  /** The snapshot flag is the lowest bit of a message's third byte. */
  predicate Disagrees(port: nat, m: seq<Byte>) {
    |m| > 2 && ((m[2] % 2 == 1 && port != 2) || (m[2] % 2 == 0 && port == 2))
  }

  /** Exactly the messages that carry the snapshot flag on another port, or lack it on the
      snapshot port, count as mismatched. */
  lemma {:induction false} MismatchedCounts(port: nat, ms: seq<seq<Byte>>)
    requires forall m :: m in ms ==> WellFormed(m)
    ensures Mismatched(port, ms) == |set j: nat | j < |ms| && Disagrees(port, ms[j])|
    decreases |ms|
  {
    var all := set j: nat | j < |ms| && Disagrees(port, ms[j]);
    if ms == [] {
      assert all == {};
    } else {
      var n := |ms| - 1;
      var some := set j: nat | j < n && Disagrees(port, ms[..n][j]);
      MismatchedCounts(port, ms[..n]);
      assert ms[n] in ms;
      assert all == some + if Disagrees(port, ms[n]) then {n} else {};
    }
  }
}
