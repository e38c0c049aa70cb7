/** Counting laws of the shared FIFOs: the bus drains, and sequence numbers are in order. */
module Traffic {
  import opened Types
  import opened Nodes
  import opened CompositeKey
  import opened SharedBus

  // ---------- the bus always drains ----------

  ghost function FullBoxes(u: User): set<int> {
    set c | c in u.nodes && u.nodes[c].data != []
  }

  /** How many hops the traffic on the bus still has to make, at most. */
  ghost function Hops(s: Bus): nat {
    4 * |s.k2u| + 3 * |FullBoxes(s.user)| + 2 * |s.user.hands| + |s.u2k|
  }

  lemma SubsetSize(a: set<int>, b: set<int>)
    requires a <= b
    ensures |a| <= |b|
  {
    assert b == a + (b - a);
  }

  lemma RoutedBoxes(u: User, m: Msg)
    ensures |FullBoxes(Routed(u, m))| <= |FullBoxes(u)| + 1
  {
    SubsetSize(FullBoxes(Routed(u, m)), FullBoxes(u) + {Composite(m.key)});
  }

  lemma FetchedBoxes(u: User, key: Key)
    requires CanFetch(u, key)
    ensures |FullBoxes(Fetched(u, key))| == |FullBoxes(u)| - 1
    ensures |Fetched(u, key).hands| == |u.hands| + 1
  {
    assert FullBoxes(Fetched(u, key)) == FullBoxes(u) - {Composite(key)};
    assert Fetched(u, key).hands.Keys == u.hands.Keys + {key};
  }

  /** Each step of a dispatcher or an app thread is a hop: replies never breed traffic. */
  lemma TransportHops(cfg: Config, s: Bus, l: Label)
    requires Enabled(cfg, s, l) && Transport(l)
    ensures Hops(Next(cfg, s, l)) < Hops(s)
  {
    match l
    case Callback =>
    case Dispatch => RoutedBoxes(s.user, s.k2u[0]);
    case Fetch(key) => FetchedBoxes(s.user, key);
    case Echo(key, err) => assert (s.user.hands - {key}).Keys == s.user.hands.Keys - {key};
  }

  /** Without new sends every run is finite, and its length is bounded by the hops. */
  lemma {:induction false} BusDrains(cfg: Config, s: Bus, ls: seq<Label>)
    requires Legal(cfg, s, ls) && forall i :: 0 <= i < |ls| ==> Transport(ls[i])
    ensures |ls| + Hops(After(cfg, s, ls)) <= Hops(s)
    decreases |ls|
  {
    if ls != [] {
      TransportHops(cfg, s, ls[0]);
      BusDrains(cfg, Next(cfg, s, ls[0]), ls[1..]);
    }
  }

  // ---------- sequence numbers ----------

  /** The numbers carried by the messages of node incarnation `id`, oldest first. */
  function Numbers(log: seq<Msg>, id: nat): seq<Word> {
    if log == [] then []
    else
      var last := log[|log| - 1];
      Numbers(log[..|log| - 1], id) + (if last.tag == id then [last.seqNo] else [])
  }

  lemma NumbersAppend(log: seq<Msg>, m: Msg, id: nat)
    ensures Numbers(log + [m], id) == Numbers(log, id) + (if m.tag == id then [m.seqNo] else [])
  {
    assert (log + [m])[..|log|] == log;
  }

  /** The number that a node's counter shows before its message number `i`, counted from 0. */
  function Count(i: nat): Word {
    if i == 0 then 1 else NextSeq(Count(i - 1))
  }

  lemma WrapSuccessor(n: nat)
    ensures (n % TWO32 + 1) % TWO32 == (n + 1) % TWO32
  {
    var q, r := n / TWO32, n % TWO32;
    assert n == q * TWO32 + r;
    if r + 1 == TWO32 {
      assert n + 1 == (q + 1) * TWO32;
    } else {
      assert n + 1 == q * TWO32 + (r + 1);
    }
  }

  /** It is i + 1, wrapped at 2^32. */
  lemma {:induction false} CountValue(i: nat)
    ensures Count(i) == (i + 1) % TWO32
  {
    if i > 0 {
      CountValue(i - 1);
      WrapSuccessor(i);
    }
  }

  ghost predicate InOrder(log: seq<Msg>, id: nat, counter: Word) {
    && (forall i :: 0 <= i < |Numbers(log, id)| ==> Numbers(log, id)[i] == Count(i))
    && counter == Count(|Numbers(log, id)|)
  }

  ghost predicate Numbered(s: Bus) {
    && |s.k2u| <= |s.log| && s.k2u == s.log[|s.log| - |s.k2u|..]
    && (forall i :: 0 <= i < |s.log| ==> s.log[i].tag in s.kern.heap)
    && (forall id :: id in s.kern.heap ==> InOrder(s.log, id, s.kern.heap[id].seqNo))
  }

  lemma {:induction false} NoNumbers(log: seq<Msg>, id: nat)
    requires forall i :: 0 <= i < |log| ==> log[i].tag != id
    ensures Numbers(log, id) == []
  {
    if log != [] { NoNumbers(log[..|log| - 1], id); }
  }

  lemma InOrderAppend(log: seq<Msg>, m: Msg, id: nat, counter: Word)
    requires InOrder(log, id, counter) && (m.tag == id ==> m.seqNo == counter)
    ensures InOrder(log + [m], id, if m.tag == id then NextSeq(counter) else counter)
  {
    NumbersAppend(log, m, id);
  }

  lemma SendNumbered(cfg: Config, s: Bus, id: nat, op: Byte, data: seq<Byte>)
    requires Numbered(s) && Enabled(cfg, s, Send(id, op, data))
    ensures Numbered(Next(cfg, s, Send(id, op, data)))
  {
    var s' := Next(cfg, s, Send(id, op, data));
    var m := Outgoing(s.kern.heap[id], id, op, data);
    forall i | i in s'.kern.heap
      ensures InOrder(s'.log, i, s'.kern.heap[i].seqNo)
    {
      InOrderAppend(s.log, m, i, s.kern.heap[i].seqNo);
    }
  }

  /** The callback receives without touching any counter. */
  lemma ReceivedKeepsCounters(fallThrough: bool, kn: Kern, m: Msg)
    requires m.key in kn.table ==> Has(kn, m.key)
    ensures var kn' := Received(fallThrough, kn, m);
            kn'.heap.Keys == kn.heap.Keys && forall id :: id in kn.heap ==> kn'.heap[id].seqNo == kn.heap[id].seqNo
  {}

  /** A step that sends nothing and leaves the counters alone. */
  lemma SilentNumbered(s: Bus, s': Bus)
    requires Numbered(s) && s'.log == s.log
    requires s'.k2u == s.k2u || (s.k2u != [] && s'.k2u == s.k2u[1..])
    requires s'.kern.heap.Keys == s.kern.heap.Keys
    requires forall id :: id in s.kern.heap ==> s'.kern.heap[id].seqNo == s.kern.heap[id].seqNo
    ensures Numbered(s')
  {}

  lemma CreateNumbered(cfg: Config, s: Bus, key: Key, id: nat, request: seq<Byte>)
    requires Numbered(s) && Enabled(cfg, s, Create(key, id, request))
    ensures Numbered(Next(cfg, s, Create(key, id, request)))
  {
    NoNumbers(s.log, id);
  }

  lemma NumberedStep(cfg: Config, s: Bus, l: Label)
    requires Numbered(s) && Enabled(cfg, s, l)
    ensures Numbered(Next(cfg, s, l))
  {
    match l
    case Create(key, id, request) => CreateNumbered(cfg, s, key, id, request);
    case Send(id, op, data) => SendNumbered(cfg, s, id, op, data);
    case Callback =>
      ReceivedKeepsCounters(cfg.mode.fallThrough, s.kern, s.u2k[0]);
      SilentNumbered(s, Next(cfg, s, l));
    case _ => SilentNumbered(s, Next(cfg, s, l));
  }

  lemma {:induction false} NumberedRun(cfg: Config, s: Bus, ls: seq<Label>)
    requires Numbered(s) && Legal(cfg, s, ls)
    ensures Numbered(After(cfg, s, ls))
    decreases |ls|
  {
    if ls != [] {
      NumberedStep(cfg, s, ls[0]);
      NumberedRun(cfg, Next(cfg, s, ls[0]), ls[1..]);
    }
  }

  lemma InitNumbered()
    ensures Numbered(InitBus())
  {
    assert [Hello()] == [] + [Hello()];
    NumbersAppend([], Hello(), 0);
    assert Count(1) == NextSeq(Count(0));
  }

  /** Over any run, what one node incarnation sent carries 1, 2, 3, ... modulo 2^32 in the
      order of the FIFO, across handshake, requests, reports and release. */
  lemma SequenceDiscipline(cfg: Config, s: Bus, id: nat, i: nat)
    requires Reachable(cfg, s) && id in s.kern.heap
    ensures |s.k2u| <= |s.log| && s.k2u == s.log[|s.log| - |s.k2u|..]
    ensures i < |Numbers(s.log, id)| ==> Numbers(s.log, id)[i] == (i + 1) % TWO32
  {
    var ls :| Legal(cfg, InitBus(), ls) && After(cfg, InitBus(), ls) == s;
    InitNumbered();
    NumberedRun(cfg, InitBus(), ls);
    CountValue(i);
  }
}
