/**
 Rule messages: building a request, and finding the daemon's own rules in a dump.
 */
module RuleMessages {
  import opened IpKeys
  import opened AckTracking
  import opened Codec

  const AF_INET: Byte := 2
  const AF_INET6: Byte := 10
  const RTM_NEWRULE: Half := 32
  const RTM_DELRULE: Half := 33
  const NLM_F_REQUEST: Half := 0x1
  const NLM_F_ACK: Half := 0x4
  const NLM_F_EXCL: Half := 0x200
  const NLM_F_CREATE: Half := 0x400
  const RTPROT_BOOT: Byte := 3
  const RT_SCOPE_UNIVERSE: Byte := 0
  const RTN_UNICAST: Byte := 1
  const FRA_ATTR_DST: Half := 1
  const FRA_ATTR_PRIORITY: Half := 6
  const FRA_ATTR_TABLE: Half := 15
  const RTMSG_LEN: nat := 12

  datatype RuleContext = RuleContext(pref: Word, tableId: Word)

  function Family(a: IpAddr): Byte {
    if a.Inet? then AF_INET else AF_INET6
  }

  // -------------------------------------------------------------------
  // Building
  // -------------------------------------------------------------------

  function RtMsg(ctx: RuleContext, a: IpAddr): (s: seq<Byte>)
    ensures |s| == RTMSG_LEN
  {
    [Family(a), if a.Inet? then 32 else 128, 0, 0,
     if ctx.tableId <= 255 then ctx.tableId else 0, RTPROT_BOOT, RT_SCOPE_UNIVERSE, RTN_UNICAST,
     0, 0, 0, 0]
  }

  function RuleAttrs(ctx: RuleContext, a: IpAddr): seq<Attr> {
    [Attr(FRA_ATTR_DST, a.octets), Attr(FRA_ATTR_PRIORITY, Le32(ctx.pref)), Attr(FRA_ATTR_TABLE, Le32(ctx.tableId))]
  }

  function RuleBody(ctx: RuleContext, a: IpAddr): seq<Byte> {
    RtMsg(ctx, a) + EncodeAttrs(RuleAttrs(ctx, a))
  }

  /** Total length: 16 + 12 + (4 + address) + 8 + 8, a multiple of four for both families. */
  function RuleMessageLen(a: IpAddr): Word {
    if a.Inet? then 52 else 64
  }

  function RuleHeader(a: IpAddr, action: RuleAction, seqNo: Word): Header {
    if action.Add?
    then Header(RuleMessageLen(a), RTM_NEWRULE, NLM_F_REQUEST + NLM_F_ACK + NLM_F_CREATE + NLM_F_EXCL, seqNo, 0)
    else Header(RuleMessageLen(a), RTM_DELRULE, NLM_F_REQUEST + NLM_F_ACK, seqNo, 0)
  }

  function RuleMessage(ctx: RuleContext, a: IpAddr, action: RuleAction, seqNo: Word): seq<Byte> {
    EncodeMsg(RuleHeader(a, action, seqNo), RuleBody(ctx, a))
  }

  lemma AttrBytes(ctx: RuleContext, a: IpAddr)
    ensures EncodeAttrs(RuleAttrs(ctx, a))
            == EncodeAttr(RuleAttrs(ctx, a)[0]) + EncodeAttr(RuleAttrs(ctx, a)[1]) + EncodeAttr(RuleAttrs(ctx, a)[2])
    ensures |EncodeAttrs(RuleAttrs(ctx, a))| == 20 + |a.octets|
  {
    var attrs := RuleAttrs(ctx, a);
    assert attrs[1..][1..] == [attrs[2]];
    assert EncodeAttrs([attrs[2]]) == EncodeAttr(attrs[2]);
    assert EncodeAttrs(attrs[1..]) == EncodeAttr(attrs[1]) + EncodeAttrs(attrs[1..][1..]);
  }

  lemma LengthFits(ctx: RuleContext, a: IpAddr)
    ensures RuleMessageLen(a) == NLMSG_HEADER_LEN + |RuleBody(ctx, a)|
  {
    AttrBytes(ctx, a);
  }

  method AppendRuleAttrs(dst: Buffer, ctx: RuleContext, a: IpAddr)
    modifies dst
    ensures dst.bytes == old(dst.bytes) + EncodeAttrs(RuleAttrs(ctx, a))
  {
    AttrBytes(ctx, a);
    dst.AppendNla(FRA_ATTR_DST, a.octets);
    dst.AppendNla(FRA_ATTR_PRIORITY, Le32(ctx.pref));
    dst.AppendNla(FRA_ATTR_TABLE, Le32(ctx.tableId));
  }

  lemma BodyInPlace(front: seq<Byte>, rt: seq<Byte>, n: nat)
    requires |rt| == RTMSG_LEN && n == NLMSG_HEADER_LEN + RTMSG_LEN
    ensures Overwrite(front + Zeros(n), |front| + NLMSG_HEADER_LEN, rt) == front + Zeros(NLMSG_HEADER_LEN) + rt
  {
  }

  lemma HeaderInPlace(front: seq<Byte>, rt: seq<Byte>, attrs: seq<Byte>, h: seq<Byte>)
    requires |h| == NLMSG_HEADER_LEN
    ensures Overwrite(front + Zeros(NLMSG_HEADER_LEN) + rt + attrs, |front|, h) == front + (h + (rt + attrs))
  {
  }

  lemma NoPadding(ctx: RuleContext, a: IpAddr, action: RuleAction, seqNo: Word)
    ensures RuleMessage(ctx, a, action, seqNo) == EncodeHeader(RuleHeader(a, action, seqNo)) + RuleBody(ctx, a)
    ensures Align(RuleMessageLen(a)) == RuleMessageLen(a)
  {
    LengthFits(ctx, a);
    assert Zeros(0) == [];
  }

  /** Appends one request to the send buffer. */
  method BuildRuleMessageInto(dst: Buffer, ctx: RuleContext, a: IpAddr, action: RuleAction, seqNo: Word)
    modifies dst
    ensures dst.bytes == old(dst.bytes) + RuleMessage(ctx, a, action, seqNo)
  {
    LengthFits(ctx, a);
    NoPadding(ctx, a, action, seqNo);
    var flags: int := NLM_F_REQUEST + NLM_F_ACK;
    if action.Add? {
      flags := flags + NLM_F_CREATE + NLM_F_EXCL;
    }
    var start := |dst.bytes|;
    dst.AppendZeros(NLMSG_HEADER_LEN + RTMSG_LEN);
    dst.CopyAt(start + NLMSG_HEADER_LEN, RtMsg(ctx, a));
    BodyInPlace(old(dst.bytes), RtMsg(ctx, a), NLMSG_HEADER_LEN + RTMSG_LEN);
    AppendRuleAttrs(dst, ctx, a);
    var msgLen := |dst.bytes| - start;
    var h := Header(msgLen, if action.Add? then RTM_NEWRULE else RTM_DELRULE, flags, seqNo, 0);
    dst.CopyAt(start, EncodeHeader(h));
    HeaderInPlace(old(dst.bytes), RtMsg(ctx, a), EncodeAttrs(RuleAttrs(ctx, a)), EncodeHeader(h));
    dst.AppendZeros(Align(msgLen) - msgLen);
    assert Zeros(0) == [];
  }

  // -------------------------------------------------------------------
  // Reading a dumped rule
  // -------------------------------------------------------------------

  datatype Found = NoMatch | Match(addr: IpAddr) | Malformed

  /** The local variables of the parser while its callback runs; `bad` is an error the callback returned. */
  datatype Scan = Scan(tableId: Word, pref: Option<Word>, dst: Option<seq<Byte>>, bad: bool)

  function Visit(s: Scan, a: Attr): Scan {
    if s.bad then s
    else if a.typ == FRA_ATTR_PRIORITY && |a.value| >= 4 then s.(pref := Some(FromLe32(a.value)))
    else if a.typ == FRA_ATTR_TABLE && |a.value| >= 4 then s.(tableId := FromLe32(a.value))
    else if a.typ == FRA_ATTR_DST then
      if |a.value| == 0 || |a.value| > 16 then s.(bad := true) else s.(dst := Some(a.value))
    else s
  }

  function VisitAll(s: Scan, attrs: seq<Attr>): Scan
    decreases |attrs|
  {
    if attrs == [] then s else VisitAll(Visit(s, attrs[0]), attrs[1..])
  }

  function AddrFromNetlink(family: Byte, raw: seq<Byte>): Option<IpAddr> {
    if family == AF_INET && |raw| >= 4 then Some(Inet(raw[..4]))
    else if family == AF_INET6 && |raw| >= 16 then Some(Inet6(raw[..16]))
    else None
  }

  function Verdict(s: Scan, ok: bool, ctx: RuleContext, family: Byte): Found {
    if s.bad || !ok then Malformed
    else if s.dst.None? || s.pref != Some(ctx.pref) || s.tableId != ctx.tableId then NoMatch
    else
      match AddrFromNetlink(family, s.dst.value)
      case None => NoMatch
      case Some(addr) => Match(addr)
  }

  /** The address of the daemon's rule that a dump message describes under this context and family. */
  function CleanupRuleAddr(data: seq<Byte>, ctx: RuleContext, family: int): Found {
    if |data| < RTMSG_LEN || data[0] != family then NoMatch
    else if family == AF_INET && data[1] != 32 then NoMatch
    else if family == AF_INET6 && data[1] != 128 then NoMatch
    else
      var walk := ParseNlas(data[RTMSG_LEN..]);
      Verdict(VisitAll(Scan(data[4], None, None, false), walk.attrs), walk.ok, ctx, data[0])
  }

  lemma VisitRuleAttrs(ctx: RuleContext, a: IpAddr, table: Word)
    ensures VisitAll(Scan(table, None, None, false), RuleAttrs(ctx, a))
            == Scan(ctx.tableId, Some(ctx.pref), Some(a.octets), false)
  {
    var attrs := RuleAttrs(ctx, a);
    var s0 := Scan(table, None, None, false);
    var s1 := s0.(dst := Some(a.octets));
    assert Visit(s0, attrs[0]) == s1;
    Le32RoundTrip(ctx.pref, []);
    assert Le32(ctx.pref) + [] == Le32(ctx.pref);
    var s2 := s1.(pref := Some(ctx.pref));
    assert Visit(s1, attrs[1]) == s2;
    Le32RoundTrip(ctx.tableId, []);
    assert Le32(ctx.tableId) + [] == Le32(ctx.tableId);
    var s3 := s2.(tableId := ctx.tableId);
    assert Visit(s2, attrs[2]) == s3;
    assert attrs[1..][1..] == [attrs[2]];
    assert VisitAll(s2, [attrs[2]]) == VisitAll(s3, [attrs[2]][1..]);
    assert VisitAll(s1, attrs[1..]) == VisitAll(s2, attrs[1..][1..]);
    assert VisitAll(s0, attrs) == VisitAll(s1, attrs[1..]);
  }

  lemma BodyParts(ctx: RuleContext, a: IpAddr)
    ensures |RuleBody(ctx, a)| >= RTMSG_LEN
    ensures RuleBody(ctx, a)[..RTMSG_LEN] == RtMsg(ctx, a)
    ensures RuleBody(ctx, a)[RTMSG_LEN..] == EncodeAttrs(RuleAttrs(ctx, a))
  {
  }

  lemma VerdictOnRule(ctx: RuleContext, a: IpAddr, other: RuleContext)
    ensures Verdict(Scan(ctx.tableId, Some(ctx.pref), Some(a.octets), false), true, other, Family(a))
            == if other == ctx then Match(a) else NoMatch
  {
    assert a.octets[..|a.octets|] == a.octets;
  }

  lemma ScanOfParts(data: seq<Byte>, rt: seq<Byte>, attrs: seq<Attr>, s: Scan, ctx: RuleContext, family: int)
    requires |rt| == RTMSG_LEN && |data| >= RTMSG_LEN && data[..RTMSG_LEN] == rt
    requires (rt[0] == AF_INET && rt[1] == 32) || (rt[0] == AF_INET6 && rt[1] == 128)
    requires ParseNlas(data[RTMSG_LEN..]) == Parsed(attrs, true)
    requires VisitAll(Scan(rt[4], None, None, false), attrs) == s
    ensures CleanupRuleAddr(data, ctx, family) == if family != rt[0] then NoMatch else Verdict(s, true, ctx, rt[0])
  {
    assert data[0] == rt[0] && data[1] == rt[1] && data[4] == rt[4];
  }

  lemma PartsAreReadBack(data: seq<Byte>, ctx: RuleContext, a: IpAddr, other: RuleContext, family: int)
    requires |data| >= RTMSG_LEN && data[..RTMSG_LEN] == RtMsg(ctx, a)
    requires ParseNlas(data[RTMSG_LEN..]) == Parsed(RuleAttrs(ctx, a), true)
    ensures CleanupRuleAddr(data, other, family)
            == if other == ctx && family == Family(a) then Match(a) else NoMatch
  {
    var rt, s := RtMsg(ctx, a), Scan(ctx.tableId, Some(ctx.pref), Some(a.octets), false);
    VisitRuleAttrs(ctx, a, rt[4]);
    ScanOfParts(data, rt, RuleAttrs(ctx, a), s, other, family);
    VerdictOnRule(ctx, a, other);
  }

  lemma BodyIsReadBack(ctx: RuleContext, a: IpAddr, other: RuleContext, family: int)
    ensures CleanupRuleAddr(RuleBody(ctx, a), other, family)
            == if other == ctx && family == Family(a) then Match(a) else NoMatch
  {
    BodyParts(ctx, a);
    ShortAttrsParse(RuleAttrs(ctx, a));
    PartsAreReadBack(RuleBody(ctx, a), ctx, a, other, family);
  }

  /**
   A built request is framed as one message and read back as its address, under
   its own context and family only.  Taken for a dump message, only an add is a rule.
   */
  lemma RuleMessageRoundTrip(ctx: RuleContext, a: IpAddr, action: RuleAction, seqNo: Word,
                             other: RuleContext, family: int)
    ensures Frames(RuleMessage(ctx, a, action, seqNo), 0)
            == [Msg(RuleHeader(a, action, seqNo), NLMSG_HEADER_LEN, RuleBody(ctx, a))]
    ensures CleanupRuleAddr(RuleBody(ctx, a), other, family)
            == if other == ctx && family == Family(a) then Match(a) else NoMatch
    ensures TargetOf(RuleHeader(a, action, seqNo).typ, RuleBody(ctx, a), other, family)
            == if action.Add? && other == ctx && family == Family(a) then Match(a) else NoMatch
  {
    LengthFits(ctx, a);
    var ps := [Packet(RuleHeader(a, action, seqNo), RuleBody(ctx, a))];
    FramesOfConcat(ps, 0);
    assert Join(Wires(ps)) == RuleMessage(ctx, a, action, seqNo);
    assert Views(ps, Wires(ps), 0) == [Msg(ps[0].header, NLMSG_HEADER_LEN, ps[0].body)];
    BodyIsReadBack(ctx, a, other, family);
  }

  /**
   The request as the kernel reads it, in plain numbers.  An add is message 32 with
   flags REQUEST, ACK, EXCL and CREATE, a delete message 33 with REQUEST and ACK;
   the rule is for one address, of boot protocol and unicast type, with the table
   in its byte if it fits; the attributes are destination, priority and table.
   */
  lemma RequestOnTheWire(ctx: RuleContext, a: IpAddr, action: RuleAction, seqNo: Word)
    ensures var items := Frames(RuleMessage(ctx, a, action, seqNo), 0);
            && |items| == 1 && items[0].Msg? && |items[0].data| >= 12
            && var h, data := items[0].header, items[0].data;
            && h.typ == (if action.Add? then 32 else 33) && h.flags == (if action.Add? then 0x605 else 0x5)
            && h.seqNo == seqNo && h.pid == 0 && h.len == |RuleMessage(ctx, a, action, seqNo)|
            && h.len == (if a.Inet? then 52 else 64)
            && data[..12] == [if a.Inet? then 2 else 10, if a.Inet? then 32 else 128, 0, 0,
                              if ctx.tableId <= 255 then ctx.tableId else 0, 3, 0, 1, 0, 0, 0, 0]
            && ParseNlas(data[12..])
               == Parsed([Attr(1, a.octets), Attr(6, Four(ctx.pref)), Attr(15, Four(ctx.tableId))], true)
  {
    RuleMessageRoundTrip(ctx, a, action, seqNo, ctx, 0);
    LengthFits(ctx, a);
    NoPadding(ctx, a, action, seqNo);
    BodyParts(ctx, a);
    ShortAttrsParse(RuleAttrs(ctx, a));
    FourBytes(ctx.pref);
    FourBytes(ctx.tableId);
  }

  /** A number in four bytes, lowest first. */
  function Four(v: Word): seq<Byte> {
    [v % 256, v / 256 % 256, v / 0x1_0000 % 256, v / 0x100_0000]
  }

  lemma FourBytes(v: Word)
    ensures Le32(v) == Four(v)
  {
    var a := v / 256;
    var b := a / 256;
    var c := b / 256;
    assert b == v / 0x1_0000 && c == v / 0x100_0000;
    assert ToLittle(c, 1) == [c % 256] + ToLittle(c / 256, 0);
    assert ToLittle(b, 2) == [b % 256] + ToLittle(c, 1);
    assert ToLittle(a, 3) == [a % 256] + ToLittle(b, 2);
    assert ToLittle(v, 4) == [v % 256] + ToLittle(a, 3);
  }

  /** The same byte by byte: header, rule, and each attribute with its length and type in front. */
  lemma RequestBytes(ctx: RuleContext, a: IpAddr, action: RuleAction, seqNo: Word)
    ensures RuleMessage(ctx, a, action, seqNo)
            == [if a.Inet? then 52 else 64, 0, 0, 0, if action.Add? then 32 else 33, 0, 5, if action.Add? then 6 else 0]
               + Four(seqNo) + [0, 0, 0, 0]
               + [if a.Inet? then 2 else 10, if a.Inet? then 32 else 128, 0, 0,
                  if ctx.tableId <= 255 then ctx.tableId else 0, 3, 0, 1, 0, 0, 0, 0]
               + [if a.Inet? then 8 else 20, 0, 1, 0] + a.octets
               + [8, 0, 6, 0] + Four(ctx.pref)
               + [8, 0, 15, 0] + Four(ctx.tableId)
  {
    NoPadding(ctx, a, action, seqNo);
    HeaderBytes(a, action, seqNo);
    AttrBytes(ctx, a);
    var attrs := RuleAttrs(ctx, a);
    PlainAttr(attrs[0]);
    PlainAttr(attrs[1]);
    PlainAttr(attrs[2]);
    FourBytes(ctx.pref);
    FourBytes(ctx.tableId);
  }

  lemma HeaderBytes(a: IpAddr, action: RuleAction, seqNo: Word)
    ensures EncodeHeader(RuleHeader(a, action, seqNo))
            == [if a.Inet? then 52 else 64, 0, 0, 0, if action.Add? then 32 else 33, 0, 5, if action.Add? then 6 else 0]
               + Four(seqNo) + [0, 0, 0, 0]
  {
    FourBytes(RuleMessageLen(a));
    FourBytes(seqNo);
    FourBytes(0);
  }

  /** An attribute whose payload needs no padding. */
  lemma PlainAttr(a: Attr)
    requires |a.value| < 200 && |a.value| % 4 == 0 && a.typ < 256
    ensures EncodeAttr(a) == [4 + |a.value|, 0, a.typ, 0] + a.value
  {
    assert Zeros(0) == [];
    assert Align(4 + |a.value|) == 4 + |a.value|;
  }

  /** Requests that differ in address, action, sequence or context differ on the wire. */
  lemma RequestsAreUnambiguous(c1: RuleContext, a1: IpAddr, act1: RuleAction, n1: Word,
                               c2: RuleContext, a2: IpAddr, act2: RuleAction, n2: Word)
    requires RuleMessage(c1, a1, act1, n1) == RuleMessage(c2, a2, act2, n2)
    ensures c1 == c2 && a1 == a2 && act1 == act2 && n1 == n2
  {
    RuleMessageRoundTrip(c1, a1, act1, n1, c1, Family(a1));
    RuleMessageRoundTrip(c2, a2, act2, n2, c1, Family(a1));
    var items := Frames(RuleMessage(c1, a1, act1, n1), 0);
    assert items[0].header == RuleHeader(a1, act1, n1) && items[0].header == RuleHeader(a2, act2, n2);
    assert items[0].data == RuleBody(c1, a1) && items[0].data == RuleBody(c2, a2);
  }

  /** The parser, over the walk of the attributes. */
  method ParseCleanupRuleAddr(data: seq<Byte>, ctx: RuleContext, family: int) returns (r: Found)
    ensures r == CleanupRuleAddr(data, ctx, family)
  {
    if |data| < RTMSG_LEN || data[0] != family {
      return NoMatch;
    }
    if (family == AF_INET && data[1] != 32) || (family == AF_INET6 && data[1] != 128) {
      return NoMatch;
    }
    var tableId: Word, pref: Word, hasPref := data[4], 0, false;
    var dst: Option<seq<Byte>> := None;
    var attrs, ok := WalkNlas(data[RTMSG_LEN..]);
    ghost var final := VisitAll(Scan(data[4], None, None, false), attrs);
    var i := 0;
    while i < |attrs|
      invariant 0 <= i <= |attrs|
      invariant VisitAll(Scan(tableId, if hasPref then Some(pref) else None, dst, false), attrs[i..]) == final
    {
      var typ, value := attrs[i].typ, attrs[i].value;
      if typ == FRA_ATTR_PRIORITY && |value| >= 4 {
        pref, hasPref := FromLe32(value), true;
      } else if typ == FRA_ATTR_TABLE && |value| >= 4 {
        tableId := FromLe32(value);
      } else if typ == FRA_ATTR_DST {
        if |value| == 0 || |value| > 16 {
          BadStays(Scan(tableId, if hasPref then Some(pref) else None, dst, true), attrs[i..][1..]);
          return Malformed;
        }
        dst := Some(value);
      }
      assert attrs[i..][1..] == attrs[i + 1..];
      i := i + 1;
    }
    if !ok {
      return Malformed;
    }
    if dst.None? || !hasPref || pref != ctx.pref || tableId != ctx.tableId {
      return NoMatch;
    }
    var addr := AddrFromNetlink(data[0], dst.value);
    r := if addr.None? then NoMatch else Match(addr.value);
  }

  lemma {:induction false} BadStays(s: Scan, attrs: seq<Attr>)
    requires s.bad
    ensures VisitAll(s, attrs) == s
    decreases |attrs|
  {
    if attrs != [] {
      BadStays(s, attrs[1..]);
    }
  }

  // -------------------------------------------------------------------
  // Which dumped rules are the daemon's
  // -------------------------------------------------------------------

  /** The last attribute of this type that has at least n bytes. */
  function LastOf(attrs: seq<Attr>, typ: Half, n: nat): Option<seq<Byte>> {
    if attrs == [] then None
    else
      var a := attrs[|attrs| - 1];
      if a.typ == typ && |a.value| >= n then Some(a.value) else LastOf(attrs[..|attrs| - 1], typ, n)
  }

  /** Every destination attribute has one to sixteen bytes. */
  ghost predicate GoodDestinations(attrs: seq<Attr>) {
    forall i :: 0 <= i < |attrs| && attrs[i].typ == 1 ==> 1 <= |attrs[i].value| <= 16
  }

  function NumberOr(value: Option<seq<Byte>>, default: Word): Word
    requires value.Some? ==> |value.value| >= 4
  {
    if value.Some? then FromLe32(value.value) else default
  }

  lemma {:induction false} LastIsLong(attrs: seq<Attr>, typ: Half, n: nat)
    ensures LastOf(attrs, typ, n).Some? ==> |LastOf(attrs, typ, n).value| >= n
  {
    if attrs != [] {
      LastIsLong(attrs[..|attrs| - 1], typ, n);
    }
  }

  lemma {:induction false} VisitSnoc(s: Scan, attrs: seq<Attr>, a: Attr)
    ensures VisitAll(s, attrs + [a]) == Visit(VisitAll(s, attrs), a)
    decreases |attrs|
  {
    if attrs == [] {
      assert [a][1..] == [] && attrs + [a] == [a];
    } else {
      assert (attrs + [a])[1..] == attrs[1..] + [a];
      VisitSnoc(Visit(s, attrs[0]), attrs[1..], a);
    }
  }

  /** What the scan holds in the end: the last attribute of each kind, unless a destination is malformed. */
  lemma {:induction false} ScanHolds(table: Word, attrs: seq<Attr>)
    ensures var s := VisitAll(Scan(table, None, None, false), attrs);
            && (s.bad <==> !GoodDestinations(attrs))
            && (!s.bad ==>
                  && s.dst == LastOf(attrs, 1, 1)
                  && (LastOf(attrs, 6, 4).Some? ==> |LastOf(attrs, 6, 4).value| >= 4)
                  && s.pref == (if LastOf(attrs, 6, 4).Some? then Some(FromLe32(LastOf(attrs, 6, 4).value)) else None)
                  && (LastOf(attrs, 15, 4).Some? ==> |LastOf(attrs, 15, 4).value| >= 4)
                  && s.tableId == NumberOr(LastOf(attrs, 15, 4), table))
    decreases |attrs|
  {
    if attrs != [] {
      var n := |attrs| - 1;
      var front, a := attrs[..n], attrs[n];
      ScanHolds(table, front);
      assert attrs == front + [a];
      VisitSnoc(Scan(table, None, None, false), front, a);
      LastIsLong(attrs, 6, 4);
      LastIsLong(attrs, 15, 4);
      assert GoodDestinations(attrs) <==> GoodDestinations(front) && (a.typ == 1 ==> 1 <= |a.value| <= 16);
    }
  }

  /** The rule is for a single address of this family. */
  predicate SingleAddress(data: seq<Byte>, family: int) {
    |data| >= 12 && data[0] == family && (family == 2 ==> data[1] == 32) && (family == 10 ==> data[1] == 128)
  }

  /** The address a destination attribute holds. */
  predicate Holds(dst: seq<Byte>, family: int, a: IpAddr) {
    (family == 2 && |dst| >= 4 && a == Inet(dst[..4])) || (family == 10 && |dst| >= 16 && a == Inet6(dst[..16]))
  }

  /**
   A dumped rule is taken for the daemon's rule on address a exactly if it is for a
   single address, its attributes are well formed, the last priority is the daemon's,
   the last table attribute, or the table byte if there is none, is the daemon's, and
   the last destination holds a.  Ill-formed attributes of such a rule are an error.
   */
  lemma DumpedRuleIsOursIff(data: seq<Byte>, ctx: RuleContext, family: int, a: IpAddr)
    ensures var walk := ParseNlas(if |data| >= 12 then data[12..] else []);
            var pref, table, dst := LastOf(walk.attrs, 6, 4), LastOf(walk.attrs, 15, 4), LastOf(walk.attrs, 1, 1);
            CleanupRuleAddr(data, ctx, family) == Match(a) <==>
            && SingleAddress(data, family) && walk.ok && GoodDestinations(walk.attrs)
            && pref.Some? && |pref.value| >= 4 && FromLe32(pref.value) == ctx.pref
            && (table.Some? ==> |table.value| >= 4) && NumberOr(table, data[4]) == ctx.tableId
            && dst.Some? && Holds(dst.value, family, a)
    ensures CleanupRuleAddr(data, ctx, family) == Malformed <==>
            SingleAddress(data, family) && !(ParseNlas(data[12..]).ok && GoodDestinations(ParseNlas(data[12..]).attrs))
  {
    if SingleAddress(data, family) {
      ScanHolds(data[4], ParseNlas(data[12..]).attrs);
    }
  }

  // -------------------------------------------------------------------
  // Targets of a dump
  // -------------------------------------------------------------------

  /** One message of a dump, as the collector tells it apart. */
  function TargetOf(typ: Half, data: seq<Byte>, ctx: RuleContext, family: int): Found {
    if typ != RTM_NEWRULE then NoMatch else CleanupRuleAddr(data, ctx, family)
  }

  ghost function Matches(found: seq<Found>): set<IpAddr> {
    set i | 0 <= i < |found| && found[i].Match? :: found[i].addr
  }

  /** The addresses emitted for a run of messages: the first occurrence of each match. */
  function Targets(found: seq<Found>): seq<IpAddr> {
    if found == [] then []
    else
      var before := Targets(found[..|found| - 1]);
      var last := found[|found| - 1];
      if last.Match? && last.addr !in before then before + [last.addr] else before
  }

  /** Every matching address is emitted, nothing else is, and none twice. */
  lemma {:induction false} TargetsAreExact(found: seq<Found>)
    ensures forall a :: a in Targets(found) <==> a in Matches(found)
    ensures forall i, j :: 0 <= i < j < |Targets(found)| ==> Targets(found)[i] != Targets(found)[j]
  {
    if found != [] {
      var n := |found| - 1;
      TargetsAreExact(found[..n]);
      var last := found[n];
      assert Matches(found) == Matches(found[..n]) + if last.Match? then {last.addr} else {} by {
        assert forall i :: 0 <= i < n ==> found[i] == found[..n][i];
      }
    }
  }

  class CleanupDumpScratch {
    var seen: set<IpAddr>
    ghost var found: seq<Found>

    ghost predicate Valid()
      reads this
    {
      seen == Matches(found)
    }

    constructor ()
      ensures Valid() && found == []
    {
      seen, found := {}, [];
    }

    method BeginFamily()
      modifies this
      ensures Valid() && found == []
    {
      seen, found := {}, [];
    }

    /** One message of the dump: the targets emitted so far grow by `target`, if any. */
    method OnMessage(typ: Half, data: seq<Byte>, ctx: RuleContext, family: int)
      returns (failed: bool, target: Option<IpAddr>)
      requires Valid()
      modifies this
      ensures Valid()
      ensures found == old(found) + [TargetOf(typ, data, ctx, family)]
      ensures failed == TargetOf(typ, data, ctx, family).Malformed?
      ensures Targets(found) == Targets(old(found)) + if target.Some? then [target.value] else []
    {
      failed, target := false, None;
      var r := NoMatch;
      if typ == RTM_NEWRULE {
        r := ParseCleanupRuleAddr(data, ctx, family);
      }
      TargetsAreExact(found);
      ghost var before := found;
      found := found + [r];
      assert found[..|found| - 1] == before;
      assert Matches(found) == Matches(before) + if r.Match? then {r.addr} else {} by {
        assert forall i :: 0 <= i < |before| ==> found[i] == before[i];
        assert found[|before|] == r;
      }
      if r.Malformed? {
        failed := true;
      } else if r.Match? && r.addr !in seen {
        seen := seen + {r.addr};
        target := Some(r.addr);
      }
    }
  }
}
