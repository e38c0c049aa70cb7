/** The 64-bit key that both sides compute from (pid, uid), bit for bit. */
module CompositeKey {
  import opened Types

  const TWO32 := 0x1_0000_0000
  const TWO64 := 0x1_0000_0000_0000_0000

  /** Bitwise or. */
  function Or(a: nat, b: nat): nat {
    if a == 0 && b == 0 then 0
    else (if a % 2 == 1 || b % 2 == 1 then 1 else 0) + 2 * Or(a / 2, b / 2)
  }

  /** Conversion of an int to uint64_t: negative values sign-extend. */
  function ToU64(x: int): (u: nat)
    ensures u < TWO64
  {
    x % TWO64
  }

  function ToS64(u: nat): int
    requires u < TWO64
  {
    if u < 0x8000_0000_0000_0000 then u else u - TWO64
  }

  /** (int64_t)((((uint64_t)uid) << 32) | (uint64_t)pid) */
  function Composite(k: Key): int {
    ToS64(Word64(k) % TWO64)
  }

  function Word64(k: Key): nat {
    Or(ToU64(k.uid) * TWO32 % TWO64, ToU64(k.pid))
  }

  function Pow2(n: nat): (p: nat)
    ensures p > 0
  {
    if n == 0 then 1 else 2 * Pow2(n - 1)
  }

  lemma {:induction false} OrZero(a: nat)
    ensures Or(a, 0) == a && Or(0, a) == a
  {
    if a > 0 { OrZero(a / 2); }
  }

  /** Or-ing ones over an n-bit number gives ones. */
  lemma {:induction false} OrOnes(a: nat, n: nat)
    requires a < Pow2(n)
    ensures Or(a, Pow2(n) - 1) == Pow2(n) - 1
  {
    if n > 0 { OrOnes(a / 2, n - 1); }
  }

  /** The low n bits and the bits above them are or-ed independently. */
  lemma {:induction false} OrSplit(n: nat, hi: nat, lo: nat, hi': nat, lo': nat)
    requires lo < Pow2(n) && lo' < Pow2(n)
    ensures Or(hi * Pow2(n) + lo, hi' * Pow2(n) + lo') == Or(hi, hi') * Pow2(n) + Or(lo, lo')
  {
    if n == 0 {
      OrZero(0);
    } else {
      var p := Pow2(n - 1);
      OrSplit(n - 1, hi, lo / 2, hi', lo' / 2);
      HalfOf(hi, p, lo);
      HalfOf(hi', p, lo');
      DoubleOf(Or(hi, hi'), p);
    }
  }

  lemma HalfOf(h: nat, p: nat, l: nat)
    ensures (h * (2 * p) + l) / 2 == h * p + l / 2 && (h * (2 * p) + l) % 2 == l % 2
  {
    assert h * (2 * p) == 2 * (h * p);
  }

  lemma DoubleOf(h: nat, p: nat)
    ensures 2 * (h * p) == h * (2 * p)
  {}

  lemma TwoTo32()
    ensures Pow2(32) == TWO32
  {
    assert Pow2(8) == 256;
    assert Pow2(16) == 65536;
    assert Pow2(24) == 0x100_0000;
  }

  lemma ShiftedUid(u: Int32)
    ensures ToU64(u) * TWO32 % TWO64 == (u % TWO32) * TWO32
  {
    var h := if u < 0 then TWO32 - 1 else 0;
    assert ToU64(u) == h * TWO32 + u % TWO32;
    assert ToU64(u) * TWO32 == h * TWO64 + (u % TWO32) * TWO32;
  }

  lemma ExtendedPid(p: Int32)
    ensures ToU64(p) == (if p < 0 then TWO32 - 1 else 0) * TWO32 + p % TWO32
  {}

  lemma OrWords(u: nat, h: nat, p: nat)
    requires u < TWO32 && p < TWO32 && (h == 0 || h == TWO32 - 1)
    ensures Or(u * TWO32, h * TWO32 + p) == (if h == 0 then u else h) * TWO32 + p
  {
    TwoTo32();
    OrSplit(32, u, 0, h, p);
    OrZero(p);
    if h == 0 { OrZero(u); } else { OrOnes(u, 32); }
  }

  lemma SignedValue(p: Int32, u: Int32, word: nat)
    requires word == (if p < 0 then TWO32 - 1 else u % TWO32) * TWO32 + p % TWO32
    ensures ToS64(word % TWO64) == if p < 0 then p else u * TWO32 + p
  {}

  lemma WordValue(k: Key)
    ensures Word64(k) == (if k.pid < 0 then TWO32 - 1 else k.uid % TWO32) * TWO32 + k.pid % TWO32
  {
    ShiftedUid(k.uid);
    ExtendedPid(k.pid);
    OrWords(k.uid % TWO32, if k.pid < 0 then TWO32 - 1 else 0, k.pid % TWO32);
  }

  /** The key as arithmetic: sign extension lets a negative pid wipe out the uid. */
  lemma CompositeValue(k: Key)
    ensures Composite(k) == if k.pid < 0 then k.pid else k.uid * TWO32 + k.pid
  {
    WordValue(k);
    SignedValue(k.pid, k.uid, Word64(k));
  }

  lemma ValuesCollide(p: Int32, u: Int32, q: Int32, v: Int32)
    ensures (if p < 0 then p else u * TWO32 + p) == (if q < 0 then q else v * TWO32 + q)
       <==> p == q && (u == v || p < 0)
  {}

  /** Exact collision law. */
  lemma CompositeCollision(a: Key, b: Key)
    ensures Composite(a) == Composite(b) <==> a.pid == b.pid && (a.uid == b.uid || a.pid < 0)
  {
    CompositeValue(a);
    CompositeValue(b);
    ValuesCollide(a.pid, a.uid, b.pid, b.uid);
  }

  /** The keys in use are told apart by their composite keys. */
  ghost predicate CollisionFree(live: iset<Key>) {
    forall a, b :: a in live && b in live && Composite(a) == Composite(b) ==> a == b
  }

  /** The user map tells the live channels apart exactly when no negative pid is shared by
      two of them. */
  lemma CollisionFreeIff(live: iset<Key>)
    ensures CollisionFree(live) <==>
            forall a, b :: a in live && b in live && a.pid == b.pid && a.pid < 0 ==> a.uid == b.uid
  {
    forall a, b | a in live && b in live
      ensures Composite(a) == Composite(b) <==> a.pid == b.pid && (a.uid == b.uid || a.pid < 0)
    {
      CompositeCollision(a, b);
    }
    if CollisionFree(live) {
      forall a, b | a in live && b in live && a.pid == b.pid && a.pid < 0
        ensures a.uid == b.uid
      {
        CompositeCollision(a, b);
      }
    }
  }
}
