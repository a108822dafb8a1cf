/**
 Netlink framing and attributes, in the byte order of the little-endian targets
 the daemon is built for.  Message headers follow section 2.3.2 of RFC 3549.
 */
module Codec {
  import opened IpKeys

  type Half = x: int | 0 <= x < 0x1_0000

  const NLA_HEADER_LEN: nat := 4
  const NLMSG_HEADER_LEN: nat := 16

  // -------------------------------------------------------------------
  // Integers
  // -------------------------------------------------------------------

  function Le16(v: Half): (s: seq<Byte>)
    ensures |s| == 2
  {
    [v % 256, v / 256]
  }

  function FromLe16(a: Byte, b: Byte): Half {
    var lo: int, hi: int := a, b;
    lo + 256 * hi
  }

  function ToLittle(v: nat, n: nat): (s: seq<Byte>)
    ensures |s| == n
  {
    if n == 0 then [] else [v % 256] + ToLittle(v / 256, n - 1)
  }

  function FromLittle(s: seq<Byte>): (v: nat)
    ensures v < Pow256(|s|)
  {
    if s == [] then 0 else s[0] + 256 * FromLittle(s[1..])
  }

  lemma {:induction false} LittleRoundTrip(v: nat, n: nat)
    requires v < Pow256(n)
    ensures FromLittle(ToLittle(v, n)) == v
  {
    if n > 0 {
      LittleRoundTrip(v / 256, n - 1);
      assert ToLittle(v, n)[1..] == ToLittle(v / 256, n - 1);
    }
  }

  function Le32(v: Word): (s: seq<Byte>)
    ensures |s| == 4
  {
    ToLittle(v, 4)
  }

  function FromLe32(s: seq<Byte>): Word
    requires |s| >= 4
  {
    PowersUsed();
    FromLittle(s[..4])
  }

  lemma Le32RoundTrip(v: Word, tail: seq<Byte>)
    ensures FromLe32(Le32(v) + tail) == v
  {
    PowersUsed();
    assert (Le32(v) + tail)[..4] == Le32(v);
    LittleRoundTrip(v, 4);
  }

  function Align(n: nat): (r: nat)
    ensures n <= r < n + 4 && r % 4 == 0
  {
    (n + 3) / 4 * 4
  }

  function Zeros(n: nat): (s: seq<Byte>)
    ensures |s| == n
  {
    seq(n, i => 0)
  }

  // -------------------------------------------------------------------
  // Attributes
  // -------------------------------------------------------------------

  datatype Attr = Attr(typ: Half, value: seq<Byte>)

  /** One attribute on the wire; its length field holds sixteen bits only. */
  function EncodeAttr(a: Attr): (s: seq<Byte>)
    ensures |s| == Align(NLA_HEADER_LEN + |a.value|)
  {
    var n := NLA_HEADER_LEN + |a.value|;
    Le16(n % 0x1_0000) + Le16(a.typ) + a.value + Zeros(Align(n) - n)
  }

  function EncodeAttrs(attrs: seq<Attr>): seq<Byte> {
    if attrs == [] then [] else EncodeAttr(attrs[0]) + EncodeAttrs(attrs[1..])
  }

  /** The attributes handed to the callback, and whether the walk ended without an error. */
  datatype Parsed = Parsed(attrs: seq<Attr>, ok: bool)

  /** The attribute at the front: the walk ends here, ends right after it, or goes on after `step` bytes. */
  datatype Nla = End(ok: bool) | Last(a: Attr) | More(a: Attr, step: nat)

  function NextNla(raw: seq<Byte>): (r: Nla)
    ensures r.More? ==> NLA_HEADER_LEN <= r.step <= |raw|
    ensures !r.End? ==> |r.a.value| <= 65531
  {
    if |raw| < NLA_HEADER_LEN then End(raw == [])
    else
      var len := FromLe16(raw[0], raw[1]);
      if len < NLA_HEADER_LEN || len > |raw| then End(false)
      else
        var a := Attr(FromLe16(raw[2], raw[3]), raw[NLA_HEADER_LEN..len]);
        if Align(len) > |raw| then Last(a) else More(a, Align(len))
  }

  function ParseNlas(raw: seq<Byte>): Parsed {
    match NextNla(raw)
    case End(ok) => Parsed([], ok)
    case Last(a) => Parsed([a], false)
    case More(a, step) => Parsed([a] + ParseNlas(raw[step..]).attrs, ParseNlas(raw[step..]).ok)
  }

  lemma AttrHead(len: Half, typ: Half, rest: seq<Byte>)
    ensures var raw := Le16(len) + Le16(typ) + rest;
            FromLe16(raw[0], raw[1]) == len && FromLe16(raw[2], raw[3]) == typ && raw[NLA_HEADER_LEN..] == rest
  {
  }

  lemma AttrAtFront(raw: seq<Byte>, len: Half, a: Attr)
    requires NLA_HEADER_LEN <= len <= Align(len) <= |raw|
    requires FromLe16(raw[0], raw[1]) == len && FromLe16(raw[2], raw[3]) == a.typ && raw[NLA_HEADER_LEN..len] == a.value
    ensures NextNla(raw) == More(a, Align(len))
  {
  }

  lemma SliceOfFront(raw: seq<Byte>, rest: seq<Byte>, value: seq<Byte>, more: seq<Byte>)
    requires |raw| >= NLA_HEADER_LEN && raw[NLA_HEADER_LEN..] == rest == value + more
    ensures NLA_HEADER_LEN + |value| <= |raw| && raw[NLA_HEADER_LEN..NLA_HEADER_LEN + |value|] == value
  {
    assert raw[NLA_HEADER_LEN..NLA_HEADER_LEN + |value|] == rest[..|value|];
  }

  /** The bytes start with this attribute, padded somehow to a multiple of four, and go on with `tail`. */
  ghost predicate StartsWith(raw: seq<Byte>, a: Attr, pad: seq<Byte>, tail: seq<Byte>) {
    var n := NLA_HEADER_LEN + |a.value|;
    n < 0x1_0000 && |pad| == Align(n) - n && raw == Le16(n) + Le16(a.typ) + a.value + pad + tail
  }

  lemma Regroup(a: seq<Byte>, b: seq<Byte>, c: seq<Byte>, d: seq<Byte>)
    ensures a + b + c + d == a + (b + (c + d))
  {
  }

  lemma AttrFirst(raw: seq<Byte>, a: Attr, pad: seq<Byte>, tail: seq<Byte>)
    requires StartsWith(raw, a, pad, tail)
    ensures var r := NextNla(raw); r == More(a, Align(NLA_HEADER_LEN + |a.value|)) && raw[r.step..] == tail
  {
    var n, rest := NLA_HEADER_LEN + |a.value|, a.value + (pad + tail);
    Regroup(Le16(n) + Le16(a.typ), a.value, pad, tail);
    AttrHead(n, a.typ, rest);
    SliceOfFront(raw, rest, a.value, pad + tail);
    AttrAtFront(raw, n, a);
    assert raw[Align(n)..] == rest[Align(n) - NLA_HEADER_LEN..] == tail;
  }

  lemma FirstAttr(raw: seq<Byte>)
    requires NextNla(raw).More?
    ensures var r := NextNla(raw); StartsWith(raw, r.a, raw[NLA_HEADER_LEN + |r.a.value|..r.step], raw[r.step..])
  {
    var r := NextNla(raw);
    var n := NLA_HEADER_LEN + |r.a.value|;
    assert Le16(n) == raw[..2] && Le16(r.a.typ) == raw[2..4];
    assert raw[n..] == raw[n..r.step] + raw[r.step..];
    assert raw[NLA_HEADER_LEN..] == r.a.value + raw[n..];
    assert raw == raw[..2] + raw[2..4] + raw[NLA_HEADER_LEN..];
    Regroup(raw[..2] + raw[2..4], r.a.value, raw[n..r.step], raw[r.step..]);
  }

  /** The bytes are these attributes one after the other, each padded somehow. */
  ghost predicate LaidOut(raw: seq<Byte>, attrs: seq<Attr>)
    decreases |attrs|
  {
    if attrs == [] then raw == []
    else exists pad, tail :: StartsWith(raw, attrs[0], pad, tail) && LaidOut(tail, attrs[1..])
  }

  lemma {:induction false} LaidOutParses(raw: seq<Byte>, attrs: seq<Attr>)
    requires LaidOut(raw, attrs)
    ensures ParseNlas(raw) == Parsed(attrs, true)
    decreases |attrs|
  {
    if attrs != [] {
      var pad, tail :| StartsWith(raw, attrs[0], pad, tail) && LaidOut(tail, attrs[1..]);
      AttrFirst(raw, attrs[0], pad, tail);
      LaidOutParses(tail, attrs[1..]);
    }
  }

  lemma LaidOutCons(raw: seq<Byte>, a: Attr, pad: seq<Byte>, tail: seq<Byte>, attrs: seq<Attr>)
    requires StartsWith(raw, a, pad, tail) && LaidOut(tail, attrs)
    ensures LaidOut(raw, [a] + attrs)
  {
    var all := [a] + attrs;
    assert all[0] == a && all[1..] == attrs;
    assert StartsWith(raw, all[0], pad, tail) && LaidOut(tail, all[1..]);
  }

  lemma {:induction false} ParsedIsLaidOut(raw: seq<Byte>)
    requires ParseNlas(raw).ok
    ensures LaidOut(raw, ParseNlas(raw).attrs)
    decreases |raw|
  {
    var r := NextNla(raw);
    if r.More? {
      var tail := raw[r.step..];
      ParsedIsLaidOut(tail);
      FirstAttr(raw);
      LaidOutCons(raw, r.a, raw[NLA_HEADER_LEN + |r.a.value|..r.step], tail, ParseNlas(tail).attrs);
    }
  }

  /** The walk accepts exactly the bytes that are attributes one after the other, however padded, and hands those out. */
  lemma WalkIsExact(raw: seq<Byte>, attrs: seq<Attr>)
    ensures ParseNlas(raw) == Parsed(attrs, true) <==> LaidOut(raw, attrs)
  {
    if ParseNlas(raw).ok {
      ParsedIsLaidOut(raw);
    }
    if LaidOut(raw, attrs) {
      LaidOutParses(raw, attrs);
    }
  }

  lemma EncodedStarts(a: Attr, tail: seq<Byte>)
    requires |a.value| <= 65531
    ensures var n := NLA_HEADER_LEN + |a.value|; StartsWith(EncodeAttr(a) + tail, a, Zeros(Align(n) - n), tail)
  {
    assert (NLA_HEADER_LEN + |a.value|) % 0x1_0000 == NLA_HEADER_LEN + |a.value|;
  }

  lemma EncodedAttrFirst(a: Attr, tail: seq<Byte>)
    requires |a.value| <= 65531
    ensures NextNla(EncodeAttr(a) + tail) == More(a, |EncodeAttr(a)|)
  {
    var n := NLA_HEADER_LEN + |a.value|;
    EncodedStarts(a, tail);
    AttrFirst(EncodeAttr(a) + tail, a, Zeros(Align(n) - n), tail);
  }

  lemma ParseEncodedAttr(a: Attr, tail: seq<Byte>)
    requires |a.value| <= 65531
    ensures ParseNlas(EncodeAttr(a) + tail) == Parsed([a] + ParseNlas(tail).attrs, ParseNlas(tail).ok)
  {
    EncodedAttrFirst(a, tail);
    var raw := EncodeAttr(a) + tail;
    assert raw[|EncodeAttr(a)|..] == tail;
  }

  lemma {:induction false} ParsedValuesAreShort(raw: seq<Byte>)
    ensures forall i :: 0 <= i < |ParseNlas(raw).attrs| ==> |ParseNlas(raw).attrs[i].value| <= 65531
  {
    var r := NextNla(raw);
    if r.More? {
      ParsedValuesAreShort(raw[r.step..]);
    }
  }

  lemma {:induction false} ShortAttrsParse(attrs: seq<Attr>)
    requires forall i :: 0 <= i < |attrs| ==> |attrs[i].value| <= 65531
    ensures ParseNlas(EncodeAttrs(attrs)) == Parsed(attrs, true)
  {
    if attrs != [] {
      ParseEncodedAttr(attrs[0], EncodeAttrs(attrs[1..]));
      ShortAttrsParse(attrs[1..]);
    }
  }

  /** A list of attributes is read back in order exactly when no payload exceeds 65531 bytes. */
  lemma AttrsRoundTripIff(attrs: seq<Attr>)
    ensures ParseNlas(EncodeAttrs(attrs)) == Parsed(attrs, true)
            <==> forall i :: 0 <= i < |attrs| ==> |attrs[i].value| <= 65531
  {
    ParsedValuesAreShort(EncodeAttrs(attrs));
    if forall i :: 0 <= i < |attrs| ==> |attrs[i].value| <= 65531 {
      ShortAttrsParse(attrs);
    }
  }

  lemma WalkStep(done: seq<Attr>, raw: seq<Byte>)
    ensures var r := NextNla(raw);
            r.More? ==> done + ParseNlas(raw).attrs == done + [r.a] + ParseNlas(raw[r.step..]).attrs
  {
  }

  /** The walk itself. */
  method WalkNlas(input: seq<Byte>) returns (attrs: seq<Attr>, ok: bool)
    ensures Parsed(attrs, ok) == ParseNlas(input)
  {
    var raw := input;
    attrs := [];
    while |raw| >= NLA_HEADER_LEN
      invariant ParseNlas(input) == Parsed(attrs + ParseNlas(raw).attrs, ParseNlas(raw).ok)
      decreases |raw|
    {
      WalkStep(attrs, raw);
      var len := FromLe16(raw[0], raw[1]);
      var typ := FromLe16(raw[2], raw[3]);
      if len < NLA_HEADER_LEN || len > |raw| {
        return attrs, false;
      }
      attrs := attrs + [Attr(typ, raw[NLA_HEADER_LEN..len])];
      var step := Align(len);
      if step > |raw| {
        return attrs, false;
      }
      raw := raw[step..];
    }
    ok := raw == [];
  }

  // -------------------------------------------------------------------
  // Messages
  // -------------------------------------------------------------------

  datatype Header = Header(len: Word, typ: Half, flags: Half, seqNo: Word, pid: Word)

  function EncodeHeader(h: Header): (s: seq<Byte>)
    ensures |s| == NLMSG_HEADER_LEN
  {
    Le32(h.len) + Le16(h.typ) + Le16(h.flags) + Le32(h.seqNo) + Le32(h.pid)
  }

  function ReadHeader(raw: seq<Byte>): Header
    requires |raw| >= NLMSG_HEADER_LEN
  {
    Header(FromLe32(raw), FromLe16(raw[4], raw[5]), FromLe16(raw[6], raw[7]), FromLe32(raw[8..]), FromLe32(raw[12..]))
  }

  lemma HeaderRoundTrip(h: Header, tail: seq<Byte>)
    ensures ReadHeader(EncodeHeader(h) + tail) == h
  {
    var s := EncodeHeader(h) + tail;
    var rest := Le16(h.typ) + Le16(h.flags) + Le32(h.seqNo) + Le32(h.pid) + tail;
    assert s == Le32(h.len) + rest;
    Le32RoundTrip(h.len, rest);
    assert s[4] == Le16(h.typ)[0] && s[5] == Le16(h.typ)[1] && s[6] == Le16(h.flags)[0] && s[7] == Le16(h.flags)[1];
    assert s[8..] == Le32(h.seqNo) + (Le32(h.pid) + tail);
    Le32RoundTrip(h.seqNo, Le32(h.pid) + tail);
    assert s[12..] == Le32(h.pid) + tail;
    Le32RoundTrip(h.pid, tail);
  }

  /** What the iterator yields: a view whose data starts at offset `at` of the buffer, or an error. */
  datatype Item = Msg(header: Header, at: nat, data: seq<Byte>) | Bad

  /** The message at the front of the bytes, and how many bytes to skip to the next one. */
  datatype Cut = Broken | Piece(header: Header, body: seq<Byte>, step: nat)

  function NextMsg(raw: seq<Byte>): (c: Cut)
    ensures c.Piece? ==> NLMSG_HEADER_LEN + |c.body| <= c.step <= |raw|
    ensures c.Piece? ==> c.body == raw[NLMSG_HEADER_LEN..NLMSG_HEADER_LEN + |c.body|]
  {
    if |raw| < NLMSG_HEADER_LEN then Broken
    else
      var header := ReadHeader(raw);
      if header.len < NLMSG_HEADER_LEN || header.len > |raw| || Align(header.len) > |raw| then Broken
      else Piece(header, raw[NLMSG_HEADER_LEN..header.len], Align(header.len))
  }

  /** All items of the bytes `raw`, which start at offset `base` of the buffer, as `cut` cuts messages off. */
  function FramesBy(cut: seq<Byte> -> Cut, raw: seq<Byte>, base: nat): seq<Item>
    decreases |raw|
  {
    if raw == [] then []
    else
      var c := cut(raw);
      if c.Piece? && 0 < c.step <= |raw|
      then [Msg(c.header, base + NLMSG_HEADER_LEN, c.body)] + FramesBy(cut, raw[c.step..], base + c.step)
      else [Bad]
  }

  function Frames(raw: seq<Byte>, base: nat): seq<Item> {
    FramesBy(NextMsg, raw, base)
  }

  ghost predicate InBuffer(buffer: seq<Byte>, m: Item) {
    m.Msg? ==> m.at + |m.data| <= |buffer| && m.data == buffer[m.at..m.at + |m.data|]
  }

  /** Items read from offset `base` on: views in the buffer, in order and apart, and an error only at the end. */
  ghost predicate SafeItems(buffer: seq<Byte>, base: nat, items: seq<Item>) {
    && (forall i :: 0 <= i < |items| ==> InBuffer(buffer, items[i]))
    && (forall i :: 0 <= i < |items| && items[i].Bad? ==> i == |items| - 1)
    && (forall i :: 0 <= i < |items| && items[i].Msg? ==> base + NLMSG_HEADER_LEN <= items[i].at)
    && (forall i, j :: 0 <= i < j < |items| && items[i].Msg? && items[j].Msg? ==>
          items[i].at + |items[i].data| + NLMSG_HEADER_LEN <= items[j].at)
  }

  lemma SafeCons(buffer: seq<Byte>, base: nat, m: Item, next: nat, rest: seq<Item>)
    requires m.Msg? && InBuffer(buffer, m) && m.at == base + NLMSG_HEADER_LEN
    requires m.at + |m.data| <= next && SafeItems(buffer, next, rest)
    ensures SafeItems(buffer, base, [m] + rest)
  {
  }

  lemma SafeEnds(buffer: seq<Byte>, base: nat)
    ensures SafeItems(buffer, base, []) && SafeItems(buffer, base, [Bad])
  {
  }

  /** A message is cut off within the bytes, its body right after its header. */
  ghost predicate CutsWithin(cut: seq<Byte> -> Cut) {
    forall raw :: cut(raw).Piece? ==>
      var c := cut(raw);
      NLMSG_HEADER_LEN + |c.body| <= c.step <= |raw| && c.body == raw[NLMSG_HEADER_LEN..NLMSG_HEADER_LEN + |c.body|]
  }

  lemma {:induction false} FramesBySafe(cut: seq<Byte> -> Cut, buffer: seq<Byte>, base: nat)
    requires CutsWithin(cut) && base <= |buffer|
    ensures SafeItems(buffer, base, FramesBy(cut, buffer[base..], base))
    decreases |buffer| - base
  {
    var raw := buffer[base..];
    var c := cut(raw);
    if c.Piece? && raw != [] {
      var next := base + c.step;
      FramesBySafe(cut, buffer, next);
      assert raw[c.step..] == buffer[next..];
      ViewIsSafe(buffer, base, raw, c.header, c.body, next, FramesBy(cut, buffer[next..], next));
    } else {
      SafeEnds(buffer, base);
    }
  }

  /** On arbitrary bytes the iterator yields safe items only. */
  lemma FramesAreSafe(buffer: seq<Byte>, base: nat)
    requires base <= |buffer|
    ensures SafeItems(buffer, base, Frames(buffer[base..], base))
  {
    FramesBySafe(NextMsg, buffer, base);
  }

  /** A body that lies right after its header, in front of safe items. */
  lemma ViewIsSafe(buffer: seq<Byte>, base: nat, raw: seq<Byte>, header: Header, body: seq<Byte>, next: nat,
                   rest: seq<Item>)
    requires base <= |buffer| && raw == buffer[base..] && NLMSG_HEADER_LEN + |body| <= |raw|
    requires body == raw[NLMSG_HEADER_LEN..NLMSG_HEADER_LEN + |body|]
    requires base + NLMSG_HEADER_LEN + |body| <= next && SafeItems(buffer, next, rest)
    ensures SafeItems(buffer, base, [Msg(header, base + NLMSG_HEADER_LEN, body)] + rest)
  {
    var m := Msg(header, base + NLMSG_HEADER_LEN, body);
    assert m.data == buffer[m.at..m.at + |m.data|];
    SafeCons(buffer, base, m, next, rest);
  }

  /** A message on the wire: header, body and padding. */
  function EncodeMsg(h: Header, body: seq<Byte>): (s: seq<Byte>)
    ensures |s| == Align(NLMSG_HEADER_LEN + |body|)
  {
    var n := NLMSG_HEADER_LEN + |body|;
    EncodeHeader(h) + body + Zeros(Align(n) - n)
  }

  lemma EncodedMsgFirst(h: Header, body: seq<Byte>, tail: seq<Byte>)
    requires h.len == NLMSG_HEADER_LEN + |body|
    ensures NextMsg(EncodeMsg(h, body) + tail) == Piece(h, body, |EncodeMsg(h, body)|)
  {
    var raw := EncodeMsg(h, body) + tail;
    var pad := Zeros(Align(h.len) - h.len);
    assert raw == EncodeHeader(h) + (body + pad + tail);
    HeaderRoundTrip(h, body + pad + tail);
    assert raw[NLMSG_HEADER_LEN..h.len] == body;
  }

  datatype Packet = Packet(header: Header, body: seq<Byte>)

  function Join(parts: seq<seq<Byte>>): seq<Byte> {
    if parts == [] then [] else parts[0] + Join(parts[1..])
  }

  /** The views of a run of messages, laid out as `parts` from offset `base` on. */
  function Views(ps: seq<Packet>, parts: seq<seq<Byte>>, base: nat): seq<Item>
    requires |ps| == |parts|
  {
    if ps == [] then []
    else [Msg(ps[0].header, base + NLMSG_HEADER_LEN, ps[0].body)] + Views(ps[1..], parts[1..], base + |parts[0]|)
  }

  /** The joined bytes are cut into these messages, part by part. */
  ghost predicate CutsAs(cut: seq<Byte> -> Cut, parts: seq<seq<Byte>>, ps: seq<Packet>)
    requires |ps| == |parts|
  {
    ps == [] || (&& parts[0] != [] && cut(Join(parts)) == Piece(ps[0].header, ps[0].body, |parts[0]|)
                 && CutsAs(cut, parts[1..], ps[1..]))
  }

  lemma {:induction false} FramesOfJoin(cut: seq<Byte> -> Cut, ps: seq<Packet>, parts: seq<seq<Byte>>, base: nat)
    requires |ps| == |parts| && CutsAs(cut, parts, ps)
    ensures FramesBy(cut, Join(parts), base) == Views(ps, parts, base)
    decreases |ps|
  {
    if ps != [] {
      FramesOfJoin(cut, ps[1..], parts[1..], base + |parts[0]|);
      assert Join(parts)[|parts[0]|..] == Join(parts[1..]);
    }
  }

  function Wires(ps: seq<Packet>): (parts: seq<seq<Byte>>)
    ensures |parts| == |ps|
  {
    seq(|ps|, i requires 0 <= i < |ps| => EncodeMsg(ps[i].header, ps[i].body))
  }

  lemma {:induction false} WiresCutAs(ps: seq<Packet>)
    requires forall i :: 0 <= i < |ps| ==> ps[i].header.len == NLMSG_HEADER_LEN + |ps[i].body|
    ensures CutsAs(NextMsg, Wires(ps), ps)
    decreases |ps|
  {
    if ps != [] {
      WiresCutAs(ps[1..]);
      assert Wires(ps)[1..] == Wires(ps[1..]);
      EncodedMsgFirst(ps[0].header, ps[0].body, Join(Wires(ps[1..])));
    }
  }

  /** Any run of aligned messages is taken apart again, message by message, each at its own offset. */
  lemma FramesOfConcat(ps: seq<Packet>, base: nat)
    requires forall i :: 0 <= i < |ps| ==> ps[i].header.len == NLMSG_HEADER_LEN + |ps[i].body|
    ensures Frames(Join(Wires(ps)), base) == Views(ps, Wires(ps), base)
  {
    WiresCutAs(ps);
    FramesOfJoin(NextMsg, ps, Wires(ps), base);
  }

  // Which bytes the iterator takes without an error.

  lemma {:induction false} LittleBack(s: seq<Byte>)
    ensures ToLittle(FromLittle(s), |s|) == s
  {
    if s != [] {
      LittleBack(s[1..]);
      assert FromLittle(s) / 256 == FromLittle(s[1..]) && FromLittle(s) % 256 == s[0];
    }
  }

  lemma Le32Back(s: seq<Byte>)
    requires |s| >= 4
    ensures Le32(FromLe32(s)) == s[..4]
  {
    LittleBack(s[..4]);
  }

  lemma HeaderBack(raw: seq<Byte>)
    requires |raw| >= NLMSG_HEADER_LEN
    ensures EncodeHeader(ReadHeader(raw)) == raw[..NLMSG_HEADER_LEN]
  {
    Le32Back(raw);
    Le32Back(raw[8..]);
    Le32Back(raw[12..]);
    assert raw[..4] + raw[4..6] + raw[6..8] + raw[8..12] + raw[12..16] == raw[..16];
    assert raw[8..][..4] == raw[8..12] && raw[12..][..4] == raw[12..16];
    assert Le16(FromLe16(raw[4], raw[5])) == raw[4..6] && Le16(FromLe16(raw[6], raw[7])) == raw[6..8];
  }

  /** The bytes start with this message, padded somehow to a multiple of four, and go on with `tail`. */
  ghost predicate OpensWith(raw: seq<Byte>, p: Packet, pad: seq<Byte>, tail: seq<Byte>) {
    && p.header.len == NLMSG_HEADER_LEN + |p.body| && |pad| == Align(p.header.len) - p.header.len
    && raw == EncodeHeader(p.header) + (p.body + (pad + tail))
  }

  lemma MsgFirst(raw: seq<Byte>, p: Packet, pad: seq<Byte>, tail: seq<Byte>)
    requires OpensWith(raw, p, pad, tail)
    ensures var c := NextMsg(raw); c == Piece(p.header, p.body, Align(p.header.len)) && raw[c.step..] == tail
  {
    var rest, n := p.body + (pad + tail), p.header.len;
    HeaderRoundTrip(p.header, rest);
    assert raw[NLMSG_HEADER_LEN..n] == rest[..|p.body|] == p.body;
    assert raw[Align(n)..] == rest[Align(n) - NLMSG_HEADER_LEN..] == tail;
  }

  lemma FrameFirst(raw: seq<Byte>, base: nat, p: Packet, pad: seq<Byte>, tail: seq<Byte>)
    requires OpensWith(raw, p, pad, tail)
    ensures Frames(raw, base)
            == [Msg(p.header, base + NLMSG_HEADER_LEN, p.body)] + Frames(tail, base + Align(p.header.len))
  {
    MsgFirst(raw, p, pad, tail);
  }

  lemma FirstMsg(raw: seq<Byte>)
    requires NextMsg(raw).Piece?
    ensures var c := NextMsg(raw); OpensWith(raw, Packet(c.header, c.body), raw[c.header.len..c.step], raw[c.step..])
  {
    var c := NextMsg(raw);
    var n := c.header.len;
    HeaderBack(raw);
    assert raw[n..] == raw[n..c.step] + raw[c.step..];
    assert raw[NLMSG_HEADER_LEN..] == c.body + raw[n..];
    assert raw == raw[..NLMSG_HEADER_LEN] + raw[NLMSG_HEADER_LEN..];
  }

  /** The bytes are these messages one after the other, each padded somehow. */
  ghost predicate StrungTogether(raw: seq<Byte>, ps: seq<Packet>)
    decreases |ps|
  {
    if ps == [] then raw == []
    else exists pad, tail :: OpensWith(raw, ps[0], pad, tail) && StrungTogether(tail, ps[1..])
  }

  /** The items are views of these messages, and no error is among them. */
  predicate Shows(items: seq<Item>, ps: seq<Packet>) {
    && |items| == |ps|
    && forall i :: 0 <= i < |ps| ==> items[i].Msg? && Packet(items[i].header, items[i].data) == ps[i]
  }

  lemma ShowsCons(p: Packet, at: nat, items: seq<Item>, ps: seq<Packet>)
    requires Shows(items, ps)
    ensures Shows([Msg(p.header, at, p.body)] + items, [p] + ps)
  {
  }

  lemma StringStep(raw: seq<Byte>, base: nat, p: Packet, pad: seq<Byte>, tail: seq<Byte>, ps: seq<Packet>)
    requires OpensWith(raw, p, pad, tail) && Shows(Frames(tail, base + Align(p.header.len)), ps)
    ensures Shows(Frames(raw, base), [p] + ps)
  {
    FrameFirst(raw, base, p, pad, tail);
    ShowsCons(p, base + NLMSG_HEADER_LEN, Frames(tail, base + Align(p.header.len)), ps);
  }

  lemma {:induction false} StringIsShown(raw: seq<Byte>, base: nat, ps: seq<Packet>)
    requires StrungTogether(raw, ps)
    ensures Shows(Frames(raw, base), ps)
    decreases |ps|
  {
    if ps != [] {
      var p, more := ps[0], ps[1..];
      var pad, tail :| OpensWith(raw, p, pad, tail) && StrungTogether(tail, more);
      StringIsShown(tail, base + Align(p.header.len), more);
      StringStep(raw, base, p, pad, tail, more);
      assert ps == [p] + more;
    }
  }

  lemma {:induction false} ShownIsString(raw: seq<Byte>, base: nat, ps: seq<Packet>)
    requires Shows(Frames(raw, base), ps)
    ensures StrungTogether(raw, ps)
    decreases |raw|
  {
    if raw != [] {
      var c, items := NextMsg(raw), Frames(raw, base);
      assert items[0].Msg?;
      FirstMsg(raw);
      assert items[1..] == Frames(raw[c.step..], base + c.step);
      ShownIsString(raw[c.step..], base + c.step, ps[1..]);
      assert ps[0] == Packet(c.header, c.body);
    }
  }

  /** The iterator yields messages without an error exactly for bytes that are these messages, whatever the padding. */
  lemma FramesAreExact(raw: seq<Byte>, base: nat, ps: seq<Packet>)
    ensures Shows(Frames(raw, base), ps) <==> StrungTogether(raw, ps)
  {
    if Shows(Frames(raw, base), ps) {
      ShownIsString(raw, base, ps);
    }
    if StrungTogether(raw, ps) {
      StringIsShown(raw, base, ps);
    }
  }

  /** The iterator: it shrinks its slice and never yields after an error. */
  class MessageIter {
    var raw: seq<Byte>
    var base: nat

    constructor (bytes: seq<Byte>)
      ensures raw == bytes && base == 0
    {
      raw, base := bytes, 0;
    }

    method Next() returns (item: Option<Item>)
      modifies this
      ensures old(raw) == [] ==> item.None? && raw == []
      ensures old(raw) != [] ==> item.Some? && |raw| < |old(raw)|
      ensures item.Some? ==> Frames(old(raw), old(base)) == [item.value] + Frames(raw, base)
      ensures item.Some? && item.value.Bad? ==> raw == []
    {
      if raw == [] {
        return None;
      }
      if |raw| < NLMSG_HEADER_LEN {
        raw := [];
        return Some(Bad);
      }
      var header := ReadHeader(raw);
      if header.len < NLMSG_HEADER_LEN || header.len > |raw| {
        raw := [];
        return Some(Bad);
      }
      var body := raw[NLMSG_HEADER_LEN..header.len];
      var step := Align(header.len);
      if step > |raw| {
        raw := [];
        return Some(Bad);
      }
      item := Some(Msg(header, base + NLMSG_HEADER_LEN, body));
      raw, base := raw[step..], base + step;
    }
  }

  // -------------------------------------------------------------------
  // Building
  // -------------------------------------------------------------------

  function Overwrite(bytes: seq<Byte>, at: nat, s: seq<Byte>): (r: seq<Byte>)
    requires at + |s| <= |bytes|
    ensures |r| == |bytes|
  {
    bytes[..at] + s + bytes[at + |s|..]
  }

  /** A growing byte vector. */
  class Buffer {
    var bytes: seq<Byte>

    constructor ()
      ensures bytes == []
    {
      bytes := [];
    }

    method AppendZeros(n: nat)
      modifies this
      ensures bytes == old(bytes) + Zeros(n)
    {
      bytes := bytes + Zeros(n);
    }

    /** Overwrites part of the vector. */
    method CopyAt(at: nat, s: seq<Byte>)
      requires at + |s| <= |bytes|
      modifies this
      ensures bytes == Overwrite(old(bytes), at, s)
    {
      bytes := bytes[..at] + s + bytes[at + |s|..];
    }

    method AppendNla(typ: Half, payload: seq<Byte>)
      modifies this
      ensures bytes == old(bytes) + EncodeAttr(Attr(typ, payload))
    {
      var len := NLA_HEADER_LEN + |payload|;
      var start := |bytes|;
      AppendZeros(Align(len));
      CopyAt(start, Le16(len % 0x1_0000));
      CopyAt(start + 2, Le16(typ));
      CopyAt(start + NLA_HEADER_LEN, payload);
      Overlay(old(bytes), Align(len), Le16(len % 0x1_0000), Le16(typ), payload);
    }
  }

  /** Overwriting a run of zeros with three consecutive pieces leaves the pieces and the remaining zeros. */
  lemma Overlay(front: seq<Byte>, n: nat, a: seq<Byte>, b: seq<Byte>, c: seq<Byte>)
    requires |a| == 2 && |b| == 2 && 4 + |c| <= n
    ensures var k := |front|;
            Overwrite(Overwrite(Overwrite(front + Zeros(n), k, a), k + 2, b), k + 4, c)
            == front + (a + b + c + Zeros(n - (4 + |c|)))
  {
    var k := |front|;
    var s1 := Overwrite(front + Zeros(n), k, a);
    assert s1 == front + a + Zeros(n - 2);
    var s2 := Overwrite(s1, k + 2, b);
    assert s2 == front + a + b + Zeros(n - 4);
    var s3 := Overwrite(s2, k + 4, c);
    assert s3 == front + a + b + c + Zeros(n - (4 + |c|));
  }
}
