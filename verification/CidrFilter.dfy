/**
 The ignore filter: single addresses and networks, the networks bucketed by
 prefix length.  Addresses are their big-endian numbers, with 32 or 128 bits.
 */
module CidrFilter {
  import opened IpKeys

  // -------------------------------------------------------------------
  // Masks
  // -------------------------------------------------------------------

  function Pow2(n: nat): (r: nat)
    ensures r > 0
  {
    if n == 0 then 1 else 2 * Pow2(n - 1)
  }

  lemma {:induction false} Pow2Adds(a: nat, b: nat)
    ensures Pow2(a + b) == Pow2(a) * Pow2(b)
  {
    if a > 0 {
      Pow2Adds(a - 1, b);
      assert Pow2(a) * Pow2(b) == 2 * (Pow2(a - 1) * Pow2(b));
    }
  }

  lemma Widths()
    ensures Pow2(32) == 0x1_0000_0000
    ensures Pow2(128) == 0x1_0000_0000_0000_0000_0000_0000_0000_0000
  {
    Squares(4, 16);
    Squares(8, 256);
    Squares(16, 0x1_0000);
    Squares(32, 0x1_0000_0000);
    Squares(64, 0x1_0000_0000_0000_0000);
  }

  lemma Squares(n: nat, v: nat)
    requires Pow2(n) == v
    ensures Pow2(2 * n) == v * v
  {
    Pow2Adds(n, n);
  }

  /** Bitwise conjunction. */
  function BitAnd(x: nat, y: nat): (r: nat) {
    if x == 0 then 0 else 2 * BitAnd(x / 2, y / 2) + if x % 2 == 1 && y % 2 == 1 then 1 else 0
  }

  /** Left shift in a word of `w` bits: what leaves the word is lost. */
  function ShiftLeft(x: nat, k: nat, w: nat): nat {
    x * Pow2(k) % Pow2(w)
  }

  /** The mask, as computed: the all-ones word shifted up, then conjunction. */
  function Masked(value: nat, prefix: nat, w: nat): nat
    requires prefix <= w
  {
    if prefix == 0 then 0 else BitAnd(value, ShiftLeft(Pow2(w) - 1, w - prefix, w))
  }

  lemma {:induction false} AndOnes(v: nat, p: nat)
    requires v < Pow2(p)
    ensures BitAnd(v, Pow2(p) - 1) == v
  {
    if v > 0 {
      AndOnes(v / 2, p - 1);
      assert (Pow2(p) - 1) / 2 == Pow2(p - 1) - 1;
    }
  }

  /** `p` ones followed by `k` zeros. */
  function HighOnes(p: nat, k: nat): nat {
    if k == 0 then Pow2(p) - 1 else 2 * HighOnes(p, k - 1)
  }

  lemma {:induction false} HighOnesIs(p: nat, k: nat)
    ensures HighOnes(p, k) == (Pow2(p) - 1) * Pow2(k)
  {
    if k > 0 {
      HighOnesIs(p, k - 1);
      TwiceOut(Pow2(p) - 1, Pow2(k - 1));
    }
  }

  lemma TwiceOut(a: int, b: int)
    ensures a * (2 * b) == 2 * (a * b)
  {
  }

  /** The low `k` bits cleared, bit by bit. */
  function Cleared(v: nat, k: nat): nat {
    if k == 0 then v else 2 * Cleared(v / 2, k - 1)
  }

  lemma {:induction false} AndHigh(v: nat, p: nat, k: nat)
    requires v < Pow2(p + k)
    ensures BitAnd(v, HighOnes(p, k)) == Cleared(v, k)
    decreases k
  {
    if k == 0 {
      AndOnes(v, p);
    } else {
      AndHigh(v / 2, p, k - 1);
    }
  }

  lemma {:induction false} ClearedParts(v: nat, k: nat) returns (q: nat, r: nat)
    ensures Cleared(v, k) == q * Pow2(k) && v == q * Pow2(k) + r && r < Pow2(k)
  {
    if k == 0 {
      q, r := v, 0;
    } else {
      var s;
      q, s := ClearedParts(v / 2, k - 1);
      r := 2 * s + v % 2;
      TwiceOut(q, Pow2(k - 1));
    }
  }

  lemma AtLeastOnce(t: int, d: nat)
    requires t >= 1
    ensures t * d >= d
  {
    assert t * d == (t - 1) * d + d;
    assert (t - 1) * d >= 0;
  }

  lemma QuotientIs(x: nat, d: nat, q: nat, r: nat)
    requires r < d && x == q * d + r
    ensures x / d == q && x % d == r
  {
    var p, s := x / d, x % d;
    assert p * d + s == x;
    assert (p - q) * d == p * d - q * d;
    assert (q - p) * d == q * d - p * d;
    if p > q {
      AtLeastOnce(p - q, d);
    } else if p < q {
      AtLeastOnce(q - p, d);
    }
  }

  lemma ShiftedOnes(p: nat, k: nat)
    requires p > 0
    ensures ShiftLeft(Pow2(p + k) - 1, k, p + k) == HighOnes(p, k)
  {
    HighOnesIs(p, k);
    Pow2Adds(p, k);
    OnesRemainder(Pow2(p), Pow2(k));
  }

  lemma OnesRemainder(a: nat, b: nat)
    requires a > 0 && b > 0
    ensures a * b > 0 && (a * b - 1) * b % (a * b) == (a - 1) * b
  {
    var n := a * b;
    assert (a - 1) * b == n - b;
    AtLeastOnce(a, b);
    calc {
      (n - 1) * b;
      n * b - b;
      (b - 1) * n + (n - b);
    }
    QuotientIs((n - 1) * b, n, b - 1, n - b);
  }

  /** Masking rounds down to a multiple of a power of two: it keeps the leading `prefix` bits and clears the rest. */
  lemma MaskRoundsDown(value: nat, prefix: nat, w: nat)
    requires prefix <= w && value < Pow2(w)
    ensures Masked(value, prefix, w) == value / Pow2(w - prefix) * Pow2(w - prefix)
    ensures Masked(value, prefix, w) == value - value % Pow2(w - prefix)
  {
    var k := w - prefix;
    if prefix == 0 {
      assert value / Pow2(k) == 0 by { QuotientIs(value, Pow2(k), 0, value); }
    } else {
      ShiftedOnes(prefix, k);
      AndHigh(value, prefix, k);
      var q, r := ClearedParts(value, k);
      QuotientIs(value, Pow2(k), q, r);
    }
    RoundedDown(value, Pow2(k));
  }

  lemma RoundedDown(v: nat, d: nat)
    requires d > 0
    ensures v / d * d == v - v % d
  {
  }

  /** Two values of `w` bits agree on their leading `prefix` bits. */
  predicate SameLeadingBits(x: nat, y: nat, prefix: nat, w: nat)
    requires prefix <= w
  {
    x / Pow2(w - prefix) == y / Pow2(w - prefix)
  }

  lemma MaskedEqualIff(x: nat, y: nat, prefix: nat, w: nat)
    requires prefix <= w && x < Pow2(w) && y < Pow2(w)
    ensures Masked(x, prefix, w) == Masked(y, prefix, w) <==> SameLeadingBits(x, y, prefix, w)
  {
    MaskRoundsDown(x, prefix, w);
    MaskRoundsDown(y, prefix, w);
    MultiplesEqual(x / Pow2(w - prefix), y / Pow2(w - prefix), Pow2(w - prefix));
  }

  lemma MultiplesEqual(a: nat, b: nat, d: nat)
    requires d > 0
    ensures a * d == b * d <==> a == b
  {
    if a * d == b * d {
      QuotientIs(a * d, d, a, 0);
      QuotientIs(b * d, d, b, 0);
    }
  }

  // -------------------------------------------------------------------
  // The matcher
  // -------------------------------------------------------------------

  datatype Cidr = Cidr(addr: IpKey, prefix: nat)

  function Width(k: IpKey): nat {
    if k.V4? then 32 else 128
  }

  function Number(k: IpKey): (v: nat)
    ensures v < Pow2(Width(k))
  {
    Widths();
    if k.V4? then k.v4 else k.v6
  }

  /** The configuration refuses longer prefixes. */
  predicate ValidCidr(c: Cidr) {
    c.prefix <= Width(c.addr)
  }

  /** The network holds the address. */
  predicate Holds(c: Cidr, a: IpKey)
    requires ValidCidr(c)
  {
    c.addr.V4? == a.V4? && SameLeadingBits(Number(c.addr), Number(a), c.prefix, Width(a))
  }

  datatype Bucket = Bucket(prefix: nat, nets: set<nat>)

  datatype CidrMatcher = CidrMatcher(v4: seq<Bucket>, v6: seq<Bucket>)

  /** `nets` files exactly the masked networks of one family (`v4` or not) in `cidrs`, by prefix. */
  ghost predicate Files(nets: map<nat, set<nat>>, cidrs: seq<Cidr>, v4: bool)
    requires forall i :: 0 <= i < |cidrs| ==> ValidCidr(cidrs[i])
  {
    && (forall i :: 0 <= i < |cidrs| && cidrs[i].addr.V4? == v4 ==> Filed(nets, cidrs[i]))
    && (forall p, x :: p in nets && x in nets[p] ==> Origin(cidrs, v4, p, x))
    && (forall p :: p in nets ==> p <= if v4 then 32 else 128)
  }

  /** The network's address with the host bits cleared. */
  function Net(c: Cidr): nat
    requires ValidCidr(c)
  {
    Masked(Number(c.addr), c.prefix, Width(c.addr))
  }

  ghost predicate Filed(nets: map<nat, set<nat>>, c: Cidr)
    requires ValidCidr(c)
  {
    c.prefix in nets && Net(c) in nets[c.prefix]
  }

  ghost predicate IsFrom(c: Cidr, v4: bool, p: nat, x: nat) {
    ValidCidr(c) && c.addr.V4? == v4 && c.prefix == p && Net(c) == x
  }

  ghost predicate Origin(cidrs: seq<Cidr>, v4: bool, p: nat, x: nat) {
    exists i :: 0 <= i < |cidrs| && IsFrom(cidrs[i], v4, p, x)
  }

  /** Enters one masked network under its prefix. */
  function Enter(nets: map<nat, set<nat>>, prefix: nat, x: nat): map<nat, set<nat>> {
    nets[prefix := (if prefix in nets then nets[prefix] else {}) + {x}]
  }

  lemma EnterFiles(nets: map<nat, set<nat>>, cidrs: seq<Cidr>, c: Cidr)
    requires forall i :: 0 <= i < |cidrs| ==> ValidCidr(cidrs[i])
    requires ValidCidr(c) && Files(nets, cidrs, c.addr.V4?)
    ensures Files(Enter(nets, c.prefix, Net(c)), cidrs + [c], c.addr.V4?)
  {
    var x := Net(c);
    var after, all, v4 := Enter(nets, c.prefix, x), cidrs + [c], c.addr.V4?;
    forall p, y | p in after && y in after[p] ensures Origin(all, v4, p, y) {
      if p == c.prefix && y == x {
        assert IsFrom(all[|cidrs|], v4, p, y);
      } else {
        assert p in nets && y in nets[p];
        OriginGrows(cidrs, c, v4, p, y);
      }
    }
  }

  lemma OriginGrows(cidrs: seq<Cidr>, c: Cidr, v4: bool, p: nat, x: nat)
    requires Origin(cidrs, v4, p, x)
    ensures Origin(cidrs + [c], v4, p, x)
  {
    var i :| 0 <= i < |cidrs| && IsFrom(cidrs[i], v4, p, x);
    assert IsFrom((cidrs + [c])[i], v4, p, x);
  }

  lemma OtherFamilyFiles(nets: map<nat, set<nat>>, cidrs: seq<Cidr>, c: Cidr, v4: bool)
    requires forall i :: 0 <= i < |cidrs| ==> ValidCidr(cidrs[i])
    requires ValidCidr(c) && c.addr.V4? != v4 && Files(nets, cidrs, v4)
    ensures Files(nets, cidrs + [c], v4)
  {
    forall p, y | p in nets && y in nets[p] ensures Origin(cidrs + [c], v4, p, y) {
      OriginGrows(cidrs, c, v4, p, y);
    }
  }

  /** The buckets of a map: one per prefix, longest prefix first. */
  ghost predicate Buckets(bs: seq<Bucket>, nets: map<nat, set<nat>>) {
    && (forall i :: 0 <= i < |bs| ==> bs[i].prefix in nets && bs[i].nets == nets[bs[i].prefix])
    && (forall p :: p in nets ==> exists i :: 0 <= i < |bs| && bs[i].prefix == p)
    && (forall i, j :: 0 <= i < j < |bs| ==> bs[i].prefix > bs[j].prefix)
  }

  /** Collects the buckets and orders them by falling prefix; prefixes are distinct, so the order is determined. */
  method SortedBuckets(nets: map<nat, set<nat>>, w: nat) returns (bs: seq<Bucket>)
    requires forall p :: p in nets ==> p <= w
    ensures Buckets(bs, nets)
  {
    bs := [];
    var left := w + 1;
    while left > 0
      invariant 0 <= left <= w + 1
      invariant forall i :: 0 <= i < |bs| ==>
                  bs[i].prefix in nets && bs[i].nets == nets[bs[i].prefix] && bs[i].prefix >= left
      invariant forall p :: p in nets && p >= left ==> exists i :: 0 <= i < |bs| && bs[i].prefix == p
      invariant forall i, j :: 0 <= i < j < |bs| ==> bs[i].prefix > bs[j].prefix
    {
      left := left - 1;
      if left in nets {
        var longer := bs;
        bs := bs + [Bucket(left, nets[left])];
        assert bs[|longer|].prefix == left;
        assert forall i :: 0 <= i < |longer| ==> bs[i] == longer[i];
      }
    }
  }

  /** The matcher was built from these networks. */
  ghost predicate BuiltFrom(m: CidrMatcher, cidrs: seq<Cidr>)
    requires forall i :: 0 <= i < |cidrs| ==> ValidCidr(cidrs[i])
  {
    exists v4, v6 :: Files(v4, cidrs, true) && Files(v6, cidrs, false) && Buckets(m.v4, v4) && Buckets(m.v6, v6)
  }

  method NewMatcher(cidrs: seq<Cidr>) returns (m: CidrMatcher)
    requires forall i :: 0 <= i < |cidrs| ==> ValidCidr(cidrs[i])
    ensures BuiltFrom(m, cidrs)
  {
    var v4: map<nat, set<nat>>, v6: map<nat, set<nat>> := map[], map[];
    var i := 0;
    while i < |cidrs|
      invariant 0 <= i <= |cidrs|
      invariant Files(v4, cidrs[..i], true) && Files(v6, cidrs[..i], false)
    {
      var c := cidrs[i];
      var x := Net(c);
      assert cidrs[..i + 1] == cidrs[..i] + [c];
      if c.addr.V4? {
        EnterFiles(v4, cidrs[..i], c);
        OtherFamilyFiles(v6, cidrs[..i], c, false);
        v4 := Enter(v4, c.prefix, x);
      } else {
        EnterFiles(v6, cidrs[..i], c);
        OtherFamilyFiles(v4, cidrs[..i], c, true);
        v6 := Enter(v6, c.prefix, x);
      }
      i := i + 1;
    }
    assert cidrs[..i] == cidrs;
    var b4 := SortedBuckets(v4, 32);
    var b6 := SortedBuckets(v6, 128);
    m := CidrMatcher(b4, b6);
  }

  /** Some bucket holds the masked address. */
  ghost predicate Hit(bs: seq<Bucket>, a: IpKey)
    requires forall i :: 0 <= i < |bs| ==> bs[i].prefix <= Width(a)
  {
    exists i :: 0 <= i < |bs| && Masked(Number(a), bs[i].prefix, Width(a)) in bs[i].nets
  }

  /** Looking an address up in the buckets of its family is the same as comparing it with every network. */
  lemma HitIffHeld(bs: seq<Bucket>, nets: map<nat, set<nat>>, cidrs: seq<Cidr>, a: IpKey)
    requires forall i :: 0 <= i < |cidrs| ==> ValidCidr(cidrs[i])
    requires Files(nets, cidrs, a.V4?) && Buckets(bs, nets)
    ensures Hit(bs, a) <==> exists i :: 0 <= i < |cidrs| && Holds(cidrs[i], a)
  {
    if Hit(bs, a) {
      var i :| 0 <= i < |bs| && Masked(Number(a), bs[i].prefix, Width(a)) in bs[i].nets;
      var p, x := bs[i].prefix, Masked(Number(a), bs[i].prefix, Width(a));
      assert Origin(cidrs, a.V4?, p, x);
      var j :| 0 <= j < |cidrs| && IsFrom(cidrs[j], a.V4?, p, x);
      MaskedEqualIff(Number(cidrs[j].addr), Number(a), p, Width(a));
      assert Holds(cidrs[j], a);
    }
    if j :| 0 <= j < |cidrs| && Holds(cidrs[j], a) {
      var p := cidrs[j].prefix;
      MaskedEqualIff(Number(cidrs[j].addr), Number(a), p, Width(a));
      assert Filed(nets, cidrs[j]);
      var i :| 0 <= i < |bs| && bs[i].prefix == p;
      assert Masked(Number(a), bs[i].prefix, Width(a)) in bs[i].nets;
    }
  }

  method Lookup(bs: seq<Bucket>, a: IpKey) returns (r: bool)
    requires forall i :: 0 <= i < |bs| ==> bs[i].prefix <= Width(a)
    ensures r <==> Hit(bs, a)
  {
    var i := 0;
    while i < |bs|
      invariant 0 <= i <= |bs|
      invariant forall j :: 0 <= j < i ==> Masked(Number(a), bs[j].prefix, Width(a)) !in bs[j].nets
    {
      if Masked(Number(a), bs[i].prefix, Width(a)) in bs[i].nets {
        return true;
      }
      i := i + 1;
    }
    r := false;
  }

  /** The matcher accepts an address exactly when some configured network of its family holds it. */
  method Contains(m: CidrMatcher, a: IpKey, ghost cidrs: seq<Cidr>) returns (r: bool)
    requires forall i :: 0 <= i < |cidrs| ==> ValidCidr(cidrs[i])
    requires BuiltFrom(m, cidrs)
    ensures r <==> exists i :: 0 <= i < |cidrs| && Holds(cidrs[i], a)
  {
    ghost var v4, v6 :| Files(v4, cidrs, true) && Files(v6, cidrs, false) && Buckets(m.v4, v4) && Buckets(m.v6, v6);
    if a.V4? {
      HitIffHeld(m.v4, v4, cidrs, a);
      r := Lookup(m.v4, a);
    } else {
      HitIffHeld(m.v6, v6, cidrs, a);
      r := Lookup(m.v6, a);
    }
  }

  // -------------------------------------------------------------------
  // The filter
  // -------------------------------------------------------------------

  /** IPv4-mapped IPv6 addresses, ::ffff:a.b.c.d. */
  predicate Mapped(k: IpKey) {
    k.V6? && k.v6 / 0x1_0000_0000 == 0xffff
  }

  function Unmap(k: IpKey): (r: IpKey)
    ensures !Mapped(r)
  {
    if Mapped(k) then V4(k.v6 % 0x1_0000_0000) else k
  }

  datatype IgnoreFilters = IgnoreFilters(ips: set<IpKey>, matcher: CidrMatcher)

  method NewFilters(ips: seq<IpKey>, cidrs: seq<Cidr>) returns (f: IgnoreFilters)
    requires forall i :: 0 <= i < |cidrs| ==> ValidCidr(cidrs[i])
    ensures f.ips == set i | 0 <= i < |ips| :: Unmap(ips[i])
    ensures BuiltFrom(f.matcher, cidrs)
  {
    var s: set<IpKey> := {};
    var i := 0;
    while i < |ips|
      invariant 0 <= i <= |ips|
      invariant s == set j | 0 <= j < i :: Unmap(ips[j])
    {
      s := s + {Unmap(ips[i])};
      i := i + 1;
    }
    var m := NewMatcher(cidrs);
    f := IgnoreFilters(s, m);
  }

  method ShouldIgnoreAddr(f: IgnoreFilters, addr: IpKey, ghost cidrs: seq<Cidr>) returns (r: bool)
    requires forall i :: 0 <= i < |cidrs| ==> ValidCidr(cidrs[i])
    requires BuiltFrom(f.matcher, cidrs)
    ensures r <==> Unmap(addr) in f.ips || exists i :: 0 <= i < |cidrs| && Holds(cidrs[i], Unmap(addr))
  {
    var a := Unmap(addr);
    if a in f.ips {
      return true;
    }
    r := Contains(f.matcher, a, cidrs);
  }

  /** The first address of a network of fewer than 96 leading bits is not a mapped one. */
  lemma ShortNetworkStart(v: nat, prefix: nat) returns (start: nat)
    requires prefix < 96 && v < Pow2(128)
    ensures start <= v && SameLeadingBits(start, v, prefix, 128)
    ensures start / 0x1_0000_0000 != 0xffff
  {
    var n: nat := 95 - prefix;
    LongBlock(n);
    start := BlockStart(v, Pow2(33 + n), Pow2(n));
  }

  lemma LongBlock(n: nat)
    ensures Pow2(33 + n) == 0x2_0000_0000 * Pow2(n)
  {
    Widths();
    Pow2Adds(33, n);
  }

  lemma RoundedDownAgain(v: nat, d: nat) returns (start: nat)
    requires d > 0
    ensures start == v / d * d && start <= v && start / d == v / d
  {
    RoundedDown(v, d);
    start := v / d * d;
    QuotientIs(start, d, v / d, 0);
  }

  lemma BlockStart(v: nat, d: nat, e: nat) returns (start: nat)
    requires d > 0 && d == 0x2_0000_0000 * e
    ensures start <= v && start / d == v / d
    ensures start / 0x1_0000_0000 % 2 == 0
  {
    start := RoundedDownAgain(v, d);
    EvenBlock(start, v / d, d, e);
  }

  lemma EvenBlock(x: nat, q: nat, d: nat, e: nat)
    requires x == q * d && d == 0x2_0000_0000 * e
    ensures x / 0x1_0000_0000 % 2 == 0
  {
    var b := q * e;
    calc {
      x;
      q * (0x2_0000_0000 * e);
      0x2_0000_0000 * b;
    }
  }

  /**
   A configured network takes effect for some address unless it is written as
   an IPv4-mapped IPv6 network of 96 or more leading bits: addresses are
   unmapped before they are looked up, networks are not.
   */
  lemma NetworkTakesEffectIff(c: Cidr)
    requires ValidCidr(c)
    ensures (exists a :: Holds(c, Unmap(a))) <==> !(Mapped(c.addr) && c.prefix >= 96)
  {
    if Mapped(c.addr) && c.prefix >= 96 {
      forall a ensures !Holds(c, Unmap(a)) {
        var u := Unmap(a);
        if Holds(c, u) {
          LongNetworkIsMapped(c.addr.v6, u.v6, c.prefix);
        }
      }
    } else if Mapped(c.addr) {
      Widths();
      var start := ShortNetworkStart(c.addr.v6, c.prefix);
      assert Holds(c, Unmap(V6(start)));
    } else {
      assert Holds(c, Unmap(c.addr));
    }
  }

  lemma LongNetworkIsMapped(x: nat, y: nat, prefix: nat)
    requires 96 <= prefix <= 128 && SameLeadingBits(x, y, prefix, 128)
    ensures x / 0x1_0000_0000 == y / 0x1_0000_0000
  {
    var d, e := Pow2(128 - prefix), Pow2(prefix - 96);
    Pow2Adds(128 - prefix, prefix - 96);
    Widths();
    NestedQuotient(x, d, e);
    NestedQuotient(y, d, e);
  }

  lemma NestedQuotient(x: nat, d: nat, e: nat)
    requires d > 0 && e > 0
    ensures d * e > 0 && x / (d * e) == x / d / e
  {
    var q, r := x / d, x % d;
    var s, u := q / e, q % e;
    DivParts(x, d);
    DivParts(q, e);
    NestedParts(x, d, e, q, r, s, u);
  }

  lemma DivParts(x: nat, d: nat)
    requires d > 0
    ensures x == x / d * d + x % d && 0 <= x % d < d
  {
  }

  lemma NestedParts(x: nat, d: nat, e: nat, q: nat, r: nat, s: nat, u: nat)
    requires x == q * d + r && q == s * e + u && r < d && u < e
    ensures d * e > 0 && x / (d * e) == s
  {
    DigitFits(u, r, d, e);
    Digits(s, u, r, d, e);
    QuotientIs(x, d * e, s, u * d + r);
  }

  lemma DigitFits(u: nat, r: nat, d: nat, e: nat)
    requires u < e && r < d
    ensures u * d + r < d * e
  {
    AtLeastOnce(e - u, d);
    assert (e - u) * d == e * d - u * d;
  }

  lemma Digits(s: nat, u: nat, r: nat, d: nat, e: nat)
    ensures (s * e + u) * d + r == s * (d * e) + (u * d + r)
  {
    assert (s * e + u) * d == s * e * d + u * d;
    assert s * e * d == s * (d * e);
  }
}
