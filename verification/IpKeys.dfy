/**
 Addresses and the ordered integer keys the daemon tracks them by.

 An address is the octet string the operating system uses; a key is the same
 address as one big-endian number.  Keys are ordered by family and then by
 number, which is the order the resync merge walks in.
 */
module IpKeys {

  datatype Option<+T> = None | Some(value: T)

  type Byte = b: int | 0 <= b < 256

  type Word = x: int | 0 <= x < 0x1_0000_0000

  type Wide = x: int | 0 <= x < 0x1_0000_0000_0000_0000_0000_0000_0000_0000

  datatype IpKey = V4(v4: Word) | V6(v6: Wide)

  datatype RawAddr = Inet(octets: seq<Byte>) | Inet6(octets: seq<Byte>)

  type IpAddr = a: RawAddr | |a.octets| == (if a.Inet? then 4 else 16) witness Inet([0, 0, 0, 0])

  // -------------------------------------------------------------------
  // Big-endian numbers
  // -------------------------------------------------------------------

  function Pow256(n: nat): (r: nat)
    ensures r > 0
  {
    if n == 0 then 1 else 256 * Pow256(n - 1)
  }

  lemma PowersUsed()
    ensures Pow256(4) == 0x1_0000_0000
    ensures Pow256(16) == 0x1_0000_0000_0000_0000_0000_0000_0000_0000
  {
    assert Pow256(4) == 256 * 256 * 256 * 256;
    assert Pow256(8) == 256 * 256 * 256 * 256 * Pow256(4);
    assert Pow256(12) == 256 * 256 * 256 * 256 * Pow256(8);
    assert Pow256(16) == 256 * 256 * 256 * 256 * Pow256(12);
  }

  function FromBigEndian(s: seq<Byte>): (v: nat)
    ensures v < Pow256(|s|)
  {
    if s == [] then 0 else 256 * FromBigEndian(s[..|s| - 1]) + s[|s| - 1]
  }

  function ToBigEndian(v: nat, n: nat): (s: seq<Byte>)
    ensures |s| == n
  {
    if n == 0 then [] else ToBigEndian(v / 256, n - 1) + [v % 256]
  }

  lemma {:induction false} BytesOfNumber(v: nat, n: nat)
    requires v < Pow256(n)
    ensures FromBigEndian(ToBigEndian(v, n)) == v
  {
    if n > 0 {
      BytesOfNumber(v / 256, n - 1);
      var s := ToBigEndian(v, n);
      assert s[..|s| - 1] == ToBigEndian(v / 256, n - 1);
    }
  }

  lemma LastDigit(x: nat, b: Byte)
    ensures (256 * x + b) / 256 == x && (256 * x + b) % 256 == b
  {
  }

  lemma {:induction false} NumberOfBytes(s: seq<Byte>)
    ensures ToBigEndian(FromBigEndian(s), |s|) == s
  {
    if s != [] {
      var front, last := s[..|s| - 1], s[|s| - 1];
      NumberOfBytes(front);
      LastDigit(FromBigEndian(front), last);
      assert ToBigEndian(FromBigEndian(s), |s|) == ToBigEndian(FromBigEndian(front), |front|) + [last];
      assert s == front + [last];
    }
  }

  // -------------------------------------------------------------------
  // Keys
  // -------------------------------------------------------------------

  function FromIp(a: IpAddr): IpKey {
    PowersUsed();
    if a.Inet? then V4(FromBigEndian(a.octets)) else V6(FromBigEndian(a.octets))
  }

  function IntoIp(k: IpKey): IpAddr {
    match k
    case V4(v) => Inet(ToBigEndian(v, 4))
    case V6(v) => Inet6(ToBigEndian(v, 16))
  }

  /** Keys and addresses are in bijection, so the reactor may work on keys alone. */
  lemma KeyBijection(a: IpAddr, k: IpKey)
    ensures IntoIp(FromIp(a)) == a
    ensures FromIp(IntoIp(k)) == k
  {
    PowersUsed();
    NumberOfBytes(a.octets);
    match k
    case V4(v) => BytesOfNumber(v, 4);
    case V6(v) => BytesOfNumber(v, 16);
  }

  predicate KeyLess(a: IpKey, b: IpKey) {
    match (a, b)
    case (V4(x), V4(y)) => x < y
    case (V6(x), V6(y)) => x < y
    case (V4(_), V6(_)) => true
    case (V6(_), V4(_)) => false
  }

  ghost predicate Sorted(s: seq<IpKey>) {
    forall i, j :: 0 <= i < j < |s| ==> KeyLess(s[i], s[j])
  }

  function KeySet(s: seq<IpKey>): set<IpKey> {
    set k | k in s
  }

  // -------------------------------------------------------------------
  // The sorted, duplicate-free listing of a set of keys
  // -------------------------------------------------------------------

  ghost predicate IsLeast(k: IpKey, s: set<IpKey>) {
    k in s && forall j :: j in s && j != k ==> KeyLess(k, j)
  }

  lemma LeastExists(s: set<IpKey>) returns (k: IpKey)
    requires s != {}
    ensures IsLeast(k, s)
    decreases |s|
  {
    var x :| x in s;
    var rest := s - {x};
    if rest == {} {
      assert s == {x};
      k := x;
    } else {
      var m := LeastExists(rest);
      k := if KeyLess(x, m) then x else m;
      assert forall j :: j in s ==> j == x || j in rest;
    }
  }

  lemma SomeLeast(s: set<IpKey>)
    requires s != {}
    ensures exists k :: IsLeast(k, s)
  {
    var k := LeastExists(s);
  }

  ghost function Least(s: set<IpKey>): (k: IpKey)
    requires s != {}
    ensures IsLeast(k, s)
  {
    SomeLeast(s);
    var k :| IsLeast(k, s);
    k
  }

  ghost function SortKeys(s: set<IpKey>): seq<IpKey>
    decreases |s|
  {
    if s == {} then [] else [Least(s)] + SortKeys(s - {Least(s)})
  }

  lemma {:induction false} SortKeysLists(s: set<IpKey>)
    ensures Sorted(SortKeys(s))
    ensures KeySet(SortKeys(s)) == s && |SortKeys(s)| == |s|
    decreases |s|
  {
    if s != {} {
      var k := Least(s);
      var t := SortKeys(s - {k});
      SortKeysLists(s - {k});
      ConsSorted(k, t);
    }
  }

  lemma ConsSorted(k: IpKey, t: seq<IpKey>)
    requires Sorted(t) && forall j :: j in KeySet(t) ==> KeyLess(k, j)
    ensures Sorted([k] + t) && KeySet([k] + t) == {k} + KeySet(t)
  {
    var r := [k] + t;
    forall i, j | 0 <= i < j < |r| ensures KeyLess(r[i], r[j]) {
      assert t[j - 1] in KeySet(t);
    }
  }

  lemma {:induction false} SortedListingUnique(a: seq<IpKey>, b: seq<IpKey>)
    requires Sorted(a) && Sorted(b) && KeySet(a) == KeySet(b)
    ensures a == b
  {
    NonEmptyListing(a);
    NonEmptyListing(b);
    if a != [] && b != [] {
      assert a[0] in KeySet(b);
      assert b[0] in KeySet(a);
      var i :| 0 <= i < |b| && b[i] == a[0];
      var j :| 0 <= j < |a| && a[j] == b[0];
      assert a[0] == b[0];
      TailSet(a);
      TailSet(b);
      SortedListingUnique(a[1..], b[1..]);
      assert a == [a[0]] + a[1..];
      assert b == [b[0]] + b[1..];
    }
  }

  lemma NonEmptyListing(a: seq<IpKey>)
    ensures a != [] ==> KeySet(a) != {}
  {
    if a != [] {
      assert a[0] in KeySet(a);
    }
  }

  lemma TailSet(a: seq<IpKey>)
    requires a != [] && Sorted(a)
    ensures KeySet(a[1..]) == KeySet(a) - {a[0]}
  {
    assert a == [a[0]] + a[1..];
    assert a[0] !in a[1..];
  }

  /** Where a key belongs in a sorted list. */
  method InsertionPoint(r: seq<IpKey>, k: IpKey) returns (at: nat)
    requires Sorted(r)
    ensures at <= |r|
    ensures forall i :: 0 <= i < at ==> KeyLess(r[i], k)
    ensures forall i :: at <= i < |r| ==> !KeyLess(r[i], k)
  {
    at := 0;
    while at < |r| && KeyLess(r[at], k)
      invariant at <= |r|
      invariant forall i :: 0 <= i < at ==> KeyLess(r[i], k)
    {
      at := at + 1;
    }
  }

  lemma InsertSorted(r: seq<IpKey>, at: nat, k: IpKey)
    requires Sorted(r) && at <= |r| && k !in KeySet(r)
    requires forall i :: 0 <= i < at ==> KeyLess(r[i], k)
    requires forall i :: at <= i < |r| ==> !KeyLess(r[i], k)
    ensures var grown := r[..at] + [k] + r[at..];
            Sorted(grown) && KeySet(grown) == KeySet(r) + {k}
  {
    GrownSet(r, at, k);
    forall i | at <= i < |r| ensures KeyLess(k, r[i]) {
      assert r[i] in KeySet(r);
    }
  }

  lemma GrownSet(r: seq<IpKey>, at: nat, k: IpKey)
    requires at <= |r|
    ensures KeySet(r[..at] + [k] + r[at..]) == KeySet(r) + {k}
  {
    var grown := r[..at] + [k] + r[at..];
    assert r == r[..at] + r[at..];
    assert forall x :: x in grown <==> x == k || x in r;
  }

  /** Copying a hash set into a vector, sorting it and dropping duplicates. */
  method SortedListing(s: set<IpKey>) returns (r: seq<IpKey>)
    ensures r == SortKeys(s)
  {
    r := [];
    var left := s;
    while left != {}
      invariant left <= s
      invariant Sorted(r) && KeySet(r) == s - left
      decreases left
    {
      var k :| k in left;
      var at := InsertionPoint(r, k);
      InsertSorted(r, at, k);
      r := r[..at] + [k] + r[at..];
      left := left - {k};
    }
    SortKeysLists(s);
    SortedListingUnique(r, SortKeys(s));
  }
}
