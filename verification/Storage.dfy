/** The kernel's hash table of channel nodes: 256 buckets of singly linked chains, relinked in
    place. Every operation is tied to the chains as sequences, and through them to a map from
    keys to stacks of nodes. */
module Storage {
  import opened Types
  import opened Nodes
  import opened CompositeKey

  const BUCKETS := 256  // HASH_SIZE of a table of width CHAN_HT_WIDTH = 8

  /** struct chan_node */
  class ChanNode {
    const pid: Int32
    const uid: Int32
    var state: ChanState
    var seqNo: Word
    var rspmsg: seq<Byte>
    var rspmsgLen: nat
    var userRet: Byte
    var next: ChanNode?
    /** Which incarnation of its key this object is, for the protocol's view. */
    ghost var inc: nat

    constructor (pid: Int32, uid: Int32)
      ensures this.pid == pid && this.uid == uid && state == Init && seqNo == 1
      ensures rspmsg == [] && rspmsgLen == 0 && userRet == 0 && next == null
    {
      this.pid, this.uid := pid, uid;
      state, seqNo := Init, 1;
      rspmsg, rspmsgLen, userRet := [], 0, 0;
      next := null;
    }

    function Name(): Key {
      Key(pid, uid)
    }
  }

  // ---------- chains as sequences ----------

  /** The nodes of one key in a chain, newest first: the stack of that key. */
  function Select(c: seq<ChanNode>, k: Key): (r: seq<ChanNode>)
    ensures |r| <= |c|
    ensures forall i :: 0 <= i < |r| ==> r[i] in c && r[i].Name() == k
  {
    if c == [] then []
    else if c[0].Name() == k then [c[0]] + Select(c[1..], k)
    else Select(c[1..], k)
  }

  lemma SelectPush(n: ChanNode, c: seq<ChanNode>, k: Key)
    ensures Select([n] + c, k) == if n.Name() == k then [n] + Select(c, k) else Select(c, k)
  {
    assert ([n] + c)[1..] == c;
  }

  lemma {:induction false} SelectNone(c: seq<ChanNode>, k: Key)
    requires forall i :: 0 <= i < |c| ==> c[i].Name() != k
    ensures Select(c, k) == []
  {
    if c != [] { SelectNone(c[1..], k); }
  }

  /** The first node of a key in the chain is the top of its stack. */
  lemma {:induction false} SelectTop(c: seq<ChanNode>, i: nat)
    requires i < |c| && forall j :: 0 <= j < i ==> c[j].Name() != c[i].Name()
    ensures Select(c, c[i].Name()) != [] && Select(c, c[i].Name())[0] == c[i]
  {
    if i > 0 { SelectTop(c[1..], i - 1); }
  }

  /** Taking it out pops that stack and no other. */
  lemma {:induction false} SelectPop(c: seq<ChanNode>, i: nat, k: Key)
    requires i < |c| && forall j :: 0 <= j < i ==> c[j].Name() != c[i].Name()
    ensures k == c[i].Name() ==> Select(c, k) != []
    ensures Select(c[..i] + c[i + 1..], k)
         == if k == c[i].Name() then Select(c, k)[1..] else Select(c, k)
  {
    if i == 0 {
      assert c[..0] + c[1..] == c[1..];
    } else {
      var d := c[1..];
      var e := d[..i - 1] + d[i..];
      SelectPop(d, i - 1, k);
      assert c[..i] + c[i + 1..] == [c[0]] + e;
      assert ([c[0]] + e)[1..] == e;
    }
  }

  /** The chain starting at `head` is exactly `c`. */
  ghost predicate Linked(head: ChanNode?, c: seq<ChanNode>)
    reads set i | 0 <= i < |c| :: c[i]`next
  {
    && head == (if c == [] then null else c[0])
    && (forall i {:trigger c[i].next} :: 0 <= i < |c| ==> c[i].next == (if i + 1 < |c| then c[i + 1] else null))
  }

  ghost predicate Distinct(c: seq<ChanNode>) {
    forall i, j :: 0 <= i < j < |c| ==> c[i] != c[j]
  }

  lemma DistinctWithout(c: seq<ChanNode>, i: nat)
    requires Distinct(c) && i < |c|
    ensures Distinct(c[..i] + c[i + 1..])
    ensures forall j :: 0 <= j < |c| - 1 ==> (c[..i] + c[i + 1..])[j] == if j < i then c[j] else c[j + 1]
  {}

  /** __hlist_del and INIT_HLIST_NODE on one chain: the link that points at `cur`, in `prev` or
      in the bucket, skips it. Returns the new head. */
  method Detach(head: ChanNode?, prev: ChanNode?, cur: ChanNode, ghost c: seq<ChanNode>, ghost i: nat)
    returns (head': ChanNode?)
    requires Linked(head, c) && Distinct(c) && i < |c| && cur == c[i]
    requires prev == (if i > 0 then c[i - 1] else null)
    modifies cur`next, (if prev == null then {} else {prev})`next
    ensures cur.next == null && (prev != null ==> head' == head)
    ensures Linked(head', c[..i] + c[i + 1..]) && Distinct(c[..i] + c[i + 1..])
  {
    DistinctWithout(c, i);
    head' := head;
    if prev == null {
      head' := cur.next;
    } else {
      prev.next := cur.next;
    }
    cur.next := null;
  }

  /** struct kubix_channels with its functions. `slot` is the bucket of a key: any hash of its
      composite key. */
  class ChanTable {
    const slot: Key -> int
    const buckets: array<ChanNode?>
    ghost var chains: seq<seq<ChanNode>>
    ghost var spine: set<ChanNode>
    /** The table as a map: the stack of nodes of every key, newest first. */
    ghost var stacks: imap<Key, seq<ChanNode>>

    ghost predicate Shaped()
      reads this, buckets, spine`next
    {
      && (forall k :: 0 <= slot(k) < BUCKETS)
      && buckets.Length == BUCKETS == |chains|
      && (forall b, i :: 0 <= b < BUCKETS && 0 <= i < |chains[b]| ==>
            chains[b][i] in spine && slot(chains[b][i].Name()) == b)
      && (forall b :: 0 <= b < BUCKETS ==> Distinct(chains[b]) && Linked(buckets[b], chains[b]))
    }

    ghost predicate Valid()
      reads this, buckets, spine`next
    {
      && Shaped()
      && (forall k :: k in stacks)
      && (forall k {:trigger Select(chains[slot(k)], k)} :: stacks[k] == Select(chains[slot(k)], k))
    }

    /** kubix_store_init */
    constructor (hash: int -> int)
      requires forall x :: 0 <= hash(x) < BUCKETS
      ensures Valid() && fresh(buckets) && spine == {}
      ensures forall k :: slot(k) == hash(Composite(k))
      ensures forall k :: stacks[k] == []
    {
      slot := (k: Key) => hash(Composite(k));
      buckets := new ChanNode?[BUCKETS](_ => null);
      chains := seq(BUCKETS, _ => []);
      stacks := imap k: Key :: Select([], k);
      spine := {};
    }

    /** add_chan_node: hash_add puts the new node at the head of its chain. */
    method Add(pid: Int32, uid: Int32) returns (n: ChanNode)
      requires Valid()
      modifies this`chains, this`spine, this`stacks, buckets
      ensures Valid() && fresh(n) && spine == old(spine) + {n}
      ensures n.Name() == Key(pid, uid) && n.state == Init && n.seqNo == 1
      ensures n.rspmsg == [] && n.rspmsgLen == 0 && n.userRet == 0
      ensures stacks == old(stacks)[Key(pid, uid) := [n] + old(stacks)[Key(pid, uid)]]
    {
      n := new ChanNode(pid, uid);
      ghost var k := Key(pid, uid);
      HashAdd(n);
      stacks := stacks[k := [n] + stacks[k]];
      forall k' ensures stacks[k'] == Select(chains[slot(k')], k') {
        assert old(stacks)[k'] == Select(old(chains)[slot(k')], k');
        SelectPush(n, old(chains)[slot(k)], k');
      }
    }

    /** hash_add: the node becomes the head of its chain. */
    method HashAdd(n: ChanNode)
      requires Shaped() && n !in spine
      modifies this`chains, this`spine, buckets, n`next
      ensures Shaped() && spine == old(spine) + {n}
      ensures chains == old(chains)[slot(n.Name()) := [n] + old(chains)[slot(n.Name())]]
    {
      var b := slot(n.Name());
      ghost var c := chains[b];
      assert forall b', j :: 0 <= b' < BUCKETS && 0 <= j < |chains[b']| ==> chains[b'][j] != n;
      n.next := buckets[b];
      buckets[b] := n;
      chains := chains[b := [n] + c];
      spine := spine + {n};
      assert Linked(n, [n] + c) && Distinct([n] + c);
    }

    /** find_chan_node: the newest node of the key. */
    method Find(pid: Int32, uid: Int32) returns (found: ChanNode?)
      requires Valid()
      ensures found == null <==> stacks[Key(pid, uid)] == []
      ensures found != null ==> found == stacks[Key(pid, uid)][0] && found.Name() == Key(pid, uid) && found in spine
    {
      var k := Key(pid, uid);
      ghost var c := chains[slot(k)];
      assert stacks[k] == Select(c, k);
      ghost var i := 0;
      var cur := buckets[slot(k)];
      found := null;
      while cur != null
        invariant 0 <= i <= |c| && cur == (if i < |c| then c[i] else null)
        invariant forall j :: 0 <= j < i ==> c[j].Name() != k
        decreases |c| - i
      {
        if cur.pid == pid && cur.uid == uid {
          SelectTop(c, i);
          return cur;
        }
        cur := cur.next;
        i := i + 1;
      }
      SelectNone(c, k);
    }

    /** del_chan_node: the newest node of the key leaves the table. */
    method Del(pid: Int32, uid: Int32) returns (found: ChanNode?)
      requires Valid()
      modifies this`chains, this`stacks, buckets, spine`next
      ensures Valid()
      ensures found == null <==> old(stacks)[Key(pid, uid)] == []
      ensures found != null ==> found == old(stacks)[Key(pid, uid)][0] && found.next == null
      ensures stacks == if found == null then old(stacks)
                        else old(stacks)[Key(pid, uid) := old(stacks)[Key(pid, uid)][1..]]
    {
      ghost var k := Key(pid, uid);
      ghost var c := chains[slot(k)];
      ghost var i: nat;
      assert stacks[k] == Select(c, k);
      found, i := UnlinkFirst(pid, uid);
      if found == null {
        SelectNone(c, k);
      } else {
        SelectTop(c, i);
        stacks := stacks[k := stacks[k][1..]];
        forall k' ensures stacks[k'] == Select(chains[slot(k')], k') {
          assert old(stacks)[k'] == Select(old(chains)[slot(k')], k');
          if slot(k') == slot(k) { SelectPop(c, i, k'); }
        }
      }
    }

    /** Its walk: hash_del unlinks the node and clears its link, which ends the walk at the
        first match. */
    method UnlinkFirst(pid: Int32, uid: Int32) returns (found: ChanNode?, ghost i: nat)
      requires Shaped()
      modifies this`chains, buckets, spine`next
      ensures Shaped()
      ensures var k := Key(pid, uid);
              var c := old(chains)[slot(k)];
              if found == null then
                chains == old(chains) && forall j :: 0 <= j < |c| ==> c[j].Name() != k
              else
                && i < |c| && found == c[i] && found.Name() == k && found.next == null
                && (forall j :: 0 <= j < i ==> c[j].Name() != k)
                && chains == old(chains)[slot(k) := c[..i] + c[i + 1..]]
    {
      var k := Key(pid, uid);
      var b := slot(k);
      ghost var c := chains[b];
      var prev: ChanNode? := null;
      var cur := buckets[b];
      found, i := null, 0;
      while cur != null
        invariant 0 <= i <= |c| && Shaped()
        invariant found == null ==>
          && chains == old(chains)
          && cur == (if i < |c| then c[i] else null)
          && prev == (if i > 0 then c[i - 1] else null)
        invariant forall j :: 0 <= j < i ==> c[j].Name() != k
        invariant found != null ==>
          && cur == null && found.next == null
          && i < |c| && found == c[i] && found.Name() == k
          && chains == old(chains)[b := c[..i] + c[i + 1..]]
        decreases if found == null then |c| - i else -1
      {
        if cur.pid == pid && cur.uid == uid {
          found := cur;
          Unlink(b, prev, cur, i);
        } else {
          prev := cur;
          i := i + 1;
        }
        cur := cur.next;
      }
    }

    /** hash_del: `prev` is the node whose link points at `cur`, null for the bucket itself. */
    method Unlink(b: int, prev: ChanNode?, cur: ChanNode, ghost i: nat)
      requires Shaped() && 0 <= b < BUCKETS && i < |chains[b]| && cur == chains[b][i]
      requires prev == (if i > 0 then chains[b][i - 1] else null)
      modifies this`chains, buckets, spine`next
      ensures Shaped() && cur.next == null
      ensures chains == old(chains)[b := old(chains)[b][..i] + old(chains)[b][i + 1..]]
    {
      ghost var c := chains[b];
      assert forall b', j :: 0 <= b' < BUCKETS && b' != b && 0 <= j < |chains[b']| ==>
        chains[b'][j] != cur && chains[b'][j] != prev;
      var head := Detach(buckets[b], prev, cur, c, i);
      if prev == null {
        buckets[b] := head;
      }
      chains := chains[b := c[..i] + c[i + 1..]];
    }

    /** The table is empty as a map exactly when all its buckets are. */
    lemma EmptyIff()
      requires Valid()
      ensures (forall k :: k in stacks && stacks[k] == []) <==> (forall b :: 0 <= b < BUCKETS ==> chains[b] == [])
    {
      if b :| 0 <= b < BUCKETS && chains[b] != [] {
        var k := chains[b][0].Name();
        SelectTop(chains[b], 0);
        assert stacks[k] == Select(chains[slot(k)], k);
      }
      if forall b :: 0 <= b < BUCKETS ==> chains[b] == [] {
        forall k ensures k in stacks && stacks[k] == [] {
          assert stacks[k] == Select(chains[slot(k)], k);
        }
      }
    }

    /** purify_chan_buckets as written, with unlinked nodes still readable: hash_del clears the
        link that the walk is about to follow, so every bucket loses one node. The table is
        empty afterwards exactly when no bucket held two. */
    method Purify()
      requires Valid()
      modifies this`chains, this`stacks, buckets, spine`next
      ensures Valid()
      ensures forall b :: 0 <= b < BUCKETS ==>
                chains[b] == if old(chains[b]) == [] then [] else old(chains[b])[1..]
      ensures (forall k :: k in stacks && stacks[k] == [])
         <==> (forall b :: 0 <= b < BUCKETS ==> |old(chains[b])| <= 1)
    {
      var b := 0;
      while b < BUCKETS
        invariant 0 <= b <= BUCKETS && Shaped()
        invariant forall j :: 0 <= j < b ==>
          chains[j] == if old(chains[j]) == [] then [] else old(chains[j])[1..]
        invariant forall j :: b <= j < BUCKETS ==> chains[j] == old(chains[j])
      {
        label walk:
        var cur := buckets[b];
        while cur != null
          invariant Shaped()
          invariant forall j :: 0 <= j < BUCKETS && j != b ==> chains[j] == old@walk(chains[j])
          invariant cur != null ==> cur == buckets[b] && chains[b] == old@walk(chains[b])
          invariant cur == null ==>
            chains[b] == if old@walk(chains[b]) == [] then [] else old@walk(chains[b])[1..]
          decreases if cur == null then 0 else 1
        {
          Unlink(b, null, cur, 0);
          cur := cur.next;
        }
        b := b + 1;
      }
      stacks := imap k: Key :: Select(chains[slot(k)], k);
      EmptyIff();
      assert forall j :: 0 <= j < BUCKETS ==> (chains[j] == [] <==> |old(chains[j])| <= 1);
    }
  }

  /** Two nodes in one bucket are enough: a purge leaves the table with a node in it. */
  method PurgeLeavesOne(hash: int -> int, a: Key, b: Key) returns (t: ChanTable)
    requires forall x :: 0 <= hash(x) < BUCKETS
    requires hash(Composite(a)) == hash(Composite(b))
    ensures t.Valid() && exists k :: k in t.stacks && t.stacks[k] != []
  {
    t := new ChanTable(hash);
    var n := t.Add(a.pid, a.uid);
    var m := t.Add(b.pid, b.uid);
    ghost var c := t.chains[t.slot(a)];
    assert t.stacks[a] == Select(c, a) && t.stacks[b] == Select(c, b);
    assert n in c && m in c;
    t.Purify();
  }
}
