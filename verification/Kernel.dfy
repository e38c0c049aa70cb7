/** The kernel end as a program: the hash table and the functions of the channel module, each
    split at the points where other threads can get in between. */
module Kernel {
  import opened Types
  import opened Nodes
  import opened SharedBus
  import opened Storage
  import opened Frame

  /** The fields of the object hold the value `n`. */
  predicate Mirrors(obj: ChanNode, n: KNode)
    reads obj`state, obj`seqNo, obj`rspmsg, obj`rspmsgLen, obj`userRet
  {
    && obj.Name() == n.key && obj.state == n.state && obj.seqNo == n.seqNo
    && obj.rspmsg == n.rsp && obj.rspmsgLen == |n.rsp| && obj.userRet == n.userRet
  }

  /** Every node of the protocol has its own object, which holds the node's value; the node
      `skip` may be in the middle of a change. */
  ghost predicate Mirrored(kn: Kern, objs: map<nat, ChanNode>, spine: set<ChanNode>, skip: int)
    reads spine
  {
    && objs.Keys == kn.heap.Keys
    && (forall id :: id in objs ==>
          objs[id] in spine && objs[id].inc == id && (id != skip ==> Mirrors(objs[id], kn.heap[id])))
  }

  /** What the protocol's table names is there, and still in the table. */
  ghost predicate Listed(kn: Kern) {
    forall key :: key in kn.table ==>
      var id := kn.table[key]; id in kn.heap && kn.heap[id].key == key && !kn.heap[id].removed
  }

  /** The hash table holds at most one node per key, the one the protocol says. */
  ghost function Shelf(kn: Kern, objs: map<nat, ChanNode>, k: Key): seq<ChanNode> {
    if k in kn.table && kn.table[k] in objs then [objs[kn.table[k]]] else []
  }

  ghost predicate Shelved(kn: Kern, objs: map<nat, ChanNode>, stacks: imap<Key, seq<ChanNode>>) {
    forall k :: k in stacks && stacks[k] == Shelf(kn, objs, k)
  }

  lemma MirroredPut(kn: Kern, objs: map<nat, ChanNode>, spine: set<ChanNode>, id: nat, value: KNode)
    requires Mirrored(kn, objs, spine, id) && id in objs && Mirrors(objs[id], value)
    ensures Mirrored(Put(kn, id, value), objs, spine, -1)
  {}

  lemma MirroredMade(kn: Kern, objs: map<nat, ChanNode>, spine: set<ChanNode>,
                     id: nat, n: ChanNode, key: Key, request: seq<Byte>)
    requires Mirrored(kn, objs, spine, -1) && id !in objs && n in spine && n.inc == id
    requires Mirrors(n, NewNode(key, request))
    ensures Mirrored(Made(kn, key, id, request), objs[id := n], spine, -1)
  {}

  lemma ShelvedMade(kn: Kern, objs: map<nat, ChanNode>, stacks: imap<Key, seq<ChanNode>>,
                    id: nat, n: ChanNode, key: Key, request: seq<Byte>)
    requires Listed(kn) && objs.Keys == kn.heap.Keys && id !in objs && key !in kn.table
    requires forall k :: k in stacks && stacks[k] == if k == key then [n] else Shelf(kn, objs, k)
    ensures Listed(Made(kn, key, id, request)) && Shelved(Made(kn, key, id, request), objs[id := n], stacks)
  {}

  lemma ShelvedDropped(kn: Kern, objs: map<nat, ChanNode>, stacks: imap<Key, seq<ChanNode>>, key: Key, value: KNode)
    requires Listed(kn) && key in kn.table
    requires forall k :: k in stacks && stacks[k] == if k == key then [] else Shelf(kn, objs, k)
    ensures Listed(Dropped(kn, key, value)) && Shelved(Dropped(kn, key, value), objs, stacks)
  {
    assert forall k :: k in kn.table && k != key ==> kn.table[k] != kn.table[key];
  }

  /** What get_verified_channel does first: it goes on with a new node, or it is done. */
  datatype Opening = GoOn(chan: ChanNode) | Done(ret: int, node: ChanNode?)

  /** What the value of a received message is to the callback; who it answers is not in it. */
  function Heard(p: Parsed): Msg {
    Msg(Key(p.pid, p.uid), p.op, p.ret, p.data, 0, 0)
  }

  /** The frame that carries a kernel message. */
  function FrameOf(cnId: CnId, m: Msg): seq<Byte> {
    KernelFrame(cnId, m.seqNo, m.key.pid, m.key.uid, m.op, m.ret, m.data)
  }

  /** kubix_handshake: what the main node makes of any message. */
  method KubixHandshake(n: ChanNode, ghost v: KNode, fallThrough: bool, p: Parsed)
    requires Mirrors(n, v) && v.key == MAIN
    modifies n`state
    ensures Mirrors(n, OnUserMessage(fallThrough, v, Heard(p)))
    ensures n.state == if p.op == KUBIX_CHANNEL then Netlink else old(n.state)
  {
    if p.op == KUBIX_CHANNEL {
      n.state := Netlink;
    }
  }

  /** The switch of cn_user_msg_callback on any other node; `gone` when it deletes the node. */
  method Switch(n: ChanNode, ghost v: KNode, fallThrough: bool, p: Parsed) returns (gone: bool)
    requires Mirrors(n, v) && v.key != MAIN && !v.removed
    modifies n`state, n`rspmsg, n`rspmsgLen, n`userRet
    ensures gone == OnUserMessage(fallThrough, v, Heard(p)).removed
    ensures Mirrors(n, OnUserMessage(fallThrough, v, Heard(p)))
    ensures old(n.state) == Init ==> !gone && n.state == Init && n.rspmsg == p.data && n.userRet == 255
    ensures old(n.state) == Handshake && p.op != KUBIX_CHANNEL ==>
              !gone && n.state == Handshake && n.rspmsg == p.data && n.userRet == 254
    ensures old(n.state) == Handshake && p.op == KUBIX_CHANNEL ==>
              && !gone && n.state == (if p.ret == 0 then Netlink else Handshake)
              && n.rspmsg == p.data && n.userRet == p.ret
    ensures old(n.state) == Netlink ==>
              if p.op in {KUBIX_CHANNEL, KERNEL_REQUEST, KERNEL_RELEASE, KERNEL_REPORT, NO_ACTION} then
                !gone && n.state == Netlink && n.rspmsg == old(n.rspmsg) && n.userRet == old(n.userRet)
              else
                && gone == fallThrough && n.state == (if p.op == USER_RELEASE then Destroy else Netlink)
                && n.rspmsg == (if fallThrough then old(n.rspmsg) else p.data)
                && n.userRet == (if fallThrough then old(n.userRet) else p.ret)
    ensures old(n.state) == Destroy ==>
              gone && n.state == Destroy && n.rspmsg == old(n.rspmsg) && n.userRet == old(n.userRet)
  {
    var ret, store := p.ret, true;
    gone := false;
    match n.state {
      case Init => ret := IMPOSSIBLE_STATE;
      case Handshake =>
        if p.op != KUBIX_CHANNEL {
          ret := IMPOSSIBLE_OP;
        } else if ret == 0 {
          n.state := Netlink;
        }
      case Netlink =>
        if RejectedWhenOpen(p.op) {
          store := false;
        } else {
          if p.op == USER_RELEASE {
            n.state := Destroy;
          }
          if fallThrough {
            gone, store := true, false;
          }
        }
      case Destroy => gone, store := true, false;
    }
    if store {
      n.rspmsg, n.rspmsgLen, n.userRet := p.data, |p.data|, ret;
    }
  }

  /** The key has an open channel. */
  ghost predicate OpenAt(kn: Kern, k: Key) {
    Has(kn, k) && At(kn, k).state.Netlink?
  }

  /** Receiving is rewriting the node, and dropping it when the callback deletes. */
  lemma ReceivedInTwo(fallThrough: bool, kn: Kern, p: Parsed, v': KNode)
    requires var k := Key(p.pid, p.uid);
             Has(kn, k) && v' == OnUserMessage(fallThrough, At(kn, k), Heard(p))
    ensures var k := Key(p.pid, p.uid);
            var kn1 := Put(kn, kn.table[k], v'.(removed := false));
            && Received(fallThrough, kn, Heard(p)) == (if v'.removed then Dropped(kn1, k, v') else kn1)
            && (v'.removed ==> v' == At(kn1, k).(removed := true))
  {}

  class KernelSide {
    const table: ChanTable
    const cnId: CnId
    const fallThrough: bool
    /** The protocol's view: `objs` are the objects behind its nodes, removed ones included. */
    ghost var model: Kern
    ghost var objs: map<nat, ChanNode>
    ghost var nextId: nat

    ghost predicate Valid()
      reads this, table, table.buckets, table.spine
    {
      && table.Valid()
      && (forall id :: id in objs ==> id < nextId)
      && Mirrored(model, objs, table.spine, -1) && Listed(model) && Shelved(model, objs, table.stacks)
    }

    /** A thread of the kernel points at incarnation `id`. */
    ghost predicate Holds(n: ChanNode, id: nat)
      reads this
    {
      id in objs && objs[id] == n && id in model.heap
    }

    /** The newest node of the key in the hash table. */
    ghost function Top(k: Key): ChanNode?
      requires Valid()
      reads this, table, table.buckets, table.spine
    {
      if table.stacks[k] == [] then null else table.stacks[k][0]
    }

    /** kubix_store_init: an empty table. */
    constructor (hash: int -> int, cnId: CnId, fallThrough: bool)
      requires forall x :: 0 <= hash(x) < BUCKETS
      ensures Valid() && fresh(table) && fresh(table.buckets) && table.spine == {}
      ensures this.cnId == cnId && this.fallThrough == fallThrough
      ensures model == Kern(map[], map[]) && nextId == 0
    {
      this.cnId, this.fallThrough := cnId, fallThrough;
      table := new ChanTable(hash);
      model, objs, nextId := Kern(map[], map[]), map[], 0;
    }

    /** find_chan_node, seen from the protocol. */
    method Lookup(pid: Int32, uid: Int32) returns (n: ChanNode?)
      requires Valid()
      ensures n == null <==> Key(pid, uid) !in model.table
      ensures n != null ==> Holds(n, model.table[Key(pid, uid)]) && n in table.spine
      ensures n == Top(Key(pid, uid))
    {
      n := table.Find(pid, uid);
    }

    /** The protocol follows a change made to one object. */
    ghost method Settle(n: ChanNode, id: nat, value: KNode)
      requires table.Valid() && (forall i :: i in objs ==> i < nextId) && Holds(n, id)
      requires Mirrored(model, objs, table.spine, id) && Listed(model) && Shelved(model, objs, table.stacks)
      requires Mirrors(n, value) && value.removed == model.heap[id].removed && value.key == model.heap[id].key
      modifies this`model
      ensures Valid() && model == Put(old(model), id, value)
    {
      MirroredPut(model, objs, table.spine, id, value);
      model := Put(model, id, value);
    }

    /** A protocol state that fits the objects becomes the view. */
    ghost method Adopt(kn: Kern, all: map<nat, ChanNode>, bound: nat)
      requires table.Valid() && (forall id :: id in all ==> id < bound)
      requires Mirrored(kn, all, table.spine, -1) && Listed(kn) && Shelved(kn, all, table.stacks)
      modifies this`model, this`objs, this`nextId
      ensures Valid() && model == kn && objs == all && nextId == bound
    {
      model, objs, nextId := kn, all, bound;
    }

    /** The protocol takes in an object that the table just got. */
    ghost method Include(n: ChanNode, key: Key, request: seq<Byte>)
      requires table.Valid() && (forall id :: id in objs ==> id < nextId) && n.inc == nextId
      requires Mirrored(model, objs, table.spine, -1) && Listed(model) && key !in model.table
      requires n in table.spine && Mirrors(n, NewNode(key, request))
      requires forall k :: k in table.stacks && table.stacks[k] == if k == key then [n] else Shelf(model, objs, k)
      modifies this`model, this`objs, this`nextId
      ensures Valid() && old(nextId) !in old(model.heap) && Holds(n, old(nextId))
      ensures model == Made(old(model), key, old(nextId), request)
    {
      MirroredMade(model, objs, table.spine, nextId, n, key, request);
      ShelvedMade(model, objs, table.stacks, nextId, n, key, request);
      Adopt(Made(model, key, nextId, request), objs[nextId := n], nextId + 1);
    }

    /** The protocol follows a node out of the table. */
    ghost method Follow(key: Key, value: KNode)
      requires table.Valid() && (forall id :: id in objs ==> id < nextId)
      requires Mirrored(model, objs, table.spine, -1) && Listed(model) && key in model.table
      requires value == At(model, key).(removed := true)
      requires forall k :: k in table.stacks && table.stacks[k] == if k == key then [] else Shelf(model, objs, k)
      modifies this`model
      ensures Valid() && model == Dropped(old(model), key, value)
    {
      ShelvedDropped(model, objs, table.stacks, key, value);
      MirroredPut(model, objs, table.spine, model.table[key], value);
      model := Dropped(model, key, value);
    }

    /** create_chan_node, seen from the protocol. */
    method Enroll(pid: Int32, uid: Int32, ghost request: seq<Byte>) returns (n: ChanNode)
      requires Valid() && Key(pid, uid) !in model.table
      modifies this`model, this`objs, this`nextId, table, table.buckets
      ensures Valid() && fresh(n) && table.spine == old(table.spine) + {n}
      ensures old(nextId) !in old(model.heap) && Holds(n, old(nextId))
      ensures model == Made(old(model), Key(pid, uid), old(nextId), request)
    {
      n := table.Add(pid, uid);
      n.inc := nextId;
      Include(n, Key(pid, uid), request);
    }

    /** del_chan_node, seen from the protocol: the node stays readable for whoever holds it. */
    method Expel(pid: Int32, uid: Int32, ghost value: KNode)
      requires Valid() && Key(pid, uid) in model.table
      requires value == At(model, Key(pid, uid)).(removed := true)
      modifies this`model, table`chains, table`stacks, table.buckets, table.spine`next
      ensures Valid() && model == Dropped(old(model), Key(pid, uid), value)
    {
      ghost var k := Key(pid, uid);
      assert table.stacks[k] == [objs[model.table[k]]];
      var n := table.Del(pid, uid);
      Follow(k, value);
    }

    /** get_verified_channel up to the new node, find and create as one step. */
    method OpenBegin(pid: Int32, uid: Int32, ghost request: seq<Byte>) returns (r: Opening)
      requires Valid()
      modifies this, table, table.buckets, table.spine
      ensures Valid() && fresh(table.spine - old(table.spine))
      ensures var k := Key(pid, uid);
              if k !in old(model.table) then
                && r.GoOn? && fresh(r.chan) && old(nextId) !in old(model.heap) && Holds(r.chan, old(nextId))
                && model == Made(old(model), k, old(nextId), request)
              else
                r.Done? && match old(At(model, k)).state
                case Init => r.ret == -2 && model == old(model)
                case Handshake => r.ret == -3 && model == old(model)
                case Netlink => r.ret == 0 && r.node == old(objs[model.table[k]]) && model == old(model)
                case Destroy => r.ret == -1 && model == Dropped(old(model), k, old(At(model, k)).(removed := true))
      ensures var k := Key(pid, uid);
              && (r.GoOn? <==> old(Top(k)) == null)
              && (r.GoOn? ==> r.chan == Top(k) && r.chan.state == Init)
              && (r.Done? ==> r.ret == match old(Top(k).state)
                                       case Init => -2 case Handshake => -3 case Netlink => 0 case Destroy => -1)
              && (r.Done? ==> (r.node != null <==> r.ret == 0))
              && (r.Done? && r.node != null ==> r.node == Top(k) && r.node.state == Netlink)
    {
      var n := Lookup(pid, uid);
      if n == null {
        n := Enroll(pid, uid, request);
        return GoOn(n);
      }
      match n.state
      case Init => r := Done(-2, null);
      case Handshake => r := Done(-3, null);
      case Netlink => r := Done(0, n);
      case Destroy =>
        Expel(pid, uid, At(model, Key(pid, uid)).(removed := true));
        r := Done(-1, null);
    }

    /** The message leaves with the node's number and the number moves on: `seq++` and
        send_message_to_user as one step. */
    method SendFrom(n: ChanNode, ghost id: nat, op: Byte, data: seq<Byte>) returns (frame: seq<Byte>)
      requires Valid() && Holds(n, id) && CanSend(model.heap[id], op, data)
      modifies this`model, n`seqNo
      ensures Valid() && model == Put(old(model), id, AfterSend(old(model.heap[id]), op))
      ensures frame == FrameOf(cnId, Outgoing(old(model.heap[id]), id, op, data))
      ensures frame == KernelFrame(cnId, old(n.seqNo), n.pid, n.uid, op, 0, data)
      ensures n.seqNo == (old(n.seqNo) + 1) % 0x1_0000_0000
    {
      var seqNo := n.seqNo;
      n.seqNo := NextSeq(seqNo);
      frame := KernelFrame(cnId, seqNo, n.pid, n.uid, op, 0, data);
      Settle(n, id, AfterSend(model.heap[id], op));
    }

    /** send_kubix_handshake */
    method SendKubixHandshake(n: ChanNode) returns (frame: seq<Byte>)
      requires Valid() && Holds(n, 0) && model.heap[0] == NewNode(MAIN, HELLO)
      modifies this`model, n`seqNo
      ensures Valid() && model == Put(old(model), 0, MainNode()) && frame == FrameOf(cnId, Hello())
      ensures frame == KernelFrame(cnId, 1, 0, -10, KUBIX_CHANNEL, 0, HELLO) && n.seqNo == 2
    {
      var seqNo := n.seqNo;
      n.seqNo := NextSeq(seqNo);
      frame := KernelFrame(cnId, seqNo, MAIN.pid, MAIN.uid, KUBIX_CHANNEL, 0, HELLO);
      Settle(n, 0, MainNode());
    }

    /** kubix_init: the main node, and its hello on the way to the user side. */
    method KubixInit() returns (frame: seq<Byte>)
      requires Valid() && model == Kern(map[], map[]) && nextId == 0
      modifies this, table, table.buckets, table.spine
      ensures Valid() && fresh(table.spine - old(table.spine))
      ensures model == Kern(map[0 := MainNode()], map[MAIN := 0])
      ensures frame == FrameOf(cnId, Hello())
    {
      var n := Enroll(MAIN.pid, MAIN.uid, HELLO);
      frame := SendKubixHandshake(n);
    }

    /** get_verified_channel, line 382. */
    method AssignHandshake(n: ChanNode, ghost id: nat)
      requires Valid() && Holds(n, id) && CanAct(model.heap[id], MarkHandshake)
      modifies this`model, n`state
      ensures Valid() && model == Put(old(model), id, AfterAct(old(model.heap[id]), MarkHandshake))
      ensures n.state == Handshake
    {
      n.state := Handshake;
      Settle(n, id, AfterAct(model.heap[id], MarkHandshake));
    }

    /** send_message_to_userspace, line 465. */
    method AssignDestroy(n: ChanNode, ghost id: nat)
      requires Valid() && Holds(n, id) && CanAct(model.heap[id], MarkDestroy)
      modifies this`model, n`state
      ensures Valid() && model == Put(old(model), id, AfterAct(old(model.heap[id]), MarkDestroy))
      ensures n.state == Destroy
    {
      n.state := Destroy;
      Settle(n, id, AfterAct(model.heap[id], MarkDestroy));
    }

    /** get_user_message behind its wait, full slot or interrupted: the slot is emptied into the
        caller's hands. */
    method GetUserMessage(n: ChanNode, ghost id: nat, pid: Int32, uid: Int32, ghost act: Action)
      returns (ret: int, rsp: seq<Byte>, len: nat)
      requires Valid() && Holds(n, id) && (act.TakeReply? || act.FinishRead?)
      requires n.Name() == Key(pid, uid) ==> CanAct(model.heap[id], act)
      modifies this`model, n`rspmsg, n`rspmsgLen
      ensures Valid() && len == |rsp|
      ensures n.Name() != Key(pid, uid) ==> ret == -1 && rsp == [] && model == old(model)
      ensures n.Name() == Key(pid, uid) ==>
                && ret == old(model.heap[id].userRet) && rsp == old(model.heap[id].rsp)
                && model == Put(old(model), id, AfterAct(old(model.heap[id]), act))
      ensures n.Name() == Key(pid, uid) ==>
                && ret == old(n.userRet) && rsp == old(n.rspmsg)
                && n.rspmsg == [] && n.rspmsgLen == 0 && n.userRet == old(n.userRet) && n.state == old(n.state)
    {
      ret, rsp, len := -1, [], 0;
      if n.pid != pid || n.uid != uid {
        return;
      }
      len, rsp, ret := n.rspmsgLen, n.rspmsg, n.userRet;
      n.rspmsgLen, n.rspmsg := 0, [];
      Settle(n, id, AfterAct(model.heap[id], act));
    }

    /** get_message_from_userspace up to its wait; null when it gives up with -1. */
    method ReadBegin(pid: Int32, uid: Int32) returns (ret: int, n: ChanNode?, ghost id: nat)
      requires Valid()
      modifies this`model
      ensures Valid() && ret == -1 && (n != null <==> OpenAt(old(model), Key(pid, uid)))
      ensures var top := old(Top(Key(pid, uid)));
              n == if top != null && top.state == Netlink then top else null
      ensures n == null ==> model == old(model)
      ensures n != null ==>
                && Holds(n, id) && id == old(model).table[Key(pid, uid)]
                && model == Put(old(model), id, AfterAct(old(model).heap[id], StartRead))
    {
      ret, id := -1, 0;
      n := Lookup(pid, uid);
      if n == null {
        return;
      }
      if n.state != Netlink {
        n := null;
        return;
      }
      id := model.table[Key(pid, uid)];
      Settle(n, id, AfterAct(model.heap[id], StartRead));
    }

    /** send_message_to_userspace up to its send: null when it gives up, and what it then returns.
        Nothing is locked; the node may be closed or gone when the send comes. */
    method SendMessageBegin(pid: Int32, uid: Int32, op: Byte) returns (ret: int, n: ChanNode?, ghost id: nat)
      requires Valid()
      modifies this`model
      ensures Valid() && (n != null <==> Sendable(op) && OpenAt(old(model), Key(pid, uid)))
      ensures var top := old(Top(Key(pid, uid)));
              var known := op == KERNEL_REQUEST || op == KERNEL_RELEASE || op == KERNEL_REPORT;
              && n == (if known && top != null && top.state == Netlink then top else null)
              && ret == if top != null && !known then -2 else -1
      ensures n == null ==> model == old(model)
      ensures n != null ==>
                && Holds(n, id) && id == old(model).table[Key(pid, uid)]
                && model == Put(old(model), id, AfterAct(old(model).heap[id], StartSend))
    {
      ret, id := -1, 0;
      n := Lookup(pid, uid);
      if n == null {
        return;
      }
      if !Sendable(op) {
        ret, n := -2, null;
        return;
      }
      if n.state != Netlink {
        n := null;
        return;
      }
      id := model.table[Key(pid, uid)];
      Settle(n, id, AfterAct(model.heap[id], StartSend));
    }

    /** The callback changes the fields of the node it found; `gone` when it has to delete it. */
    method Apply(n: ChanNode, ghost id: nat, p: Parsed, ghost v': KNode) returns (gone: bool)
      requires Valid() && Holds(n, id) && !model.heap[id].removed
      requires v' == OnUserMessage(fallThrough, model.heap[id], Heard(p))
      modifies this`model, n`state, n`rspmsg, n`rspmsgLen, n`userRet
      ensures Valid() && gone == v'.removed && model == Put(old(model), id, v'.(removed := false))
    {
      gone := false;
      if n.pid == MAIN.pid && n.uid == MAIN.uid {
        KubixHandshake(n, model.heap[id], fallThrough, p);
      } else {
        gone := Switch(n, model.heap[id], fallThrough, p);
      }
      Settle(n, id, v'.(removed := false));
    }

    /** cn_user_msg_callback on the node it found. */
    method Deliver(n: ChanNode, ghost id: nat, p: Parsed)
      requires Valid() && Key(p.pid, p.uid) in model.table && id == model.table[Key(p.pid, p.uid)] && Holds(n, id)
      modifies this`model, table`chains, table`stacks, table.buckets, table.spine
      ensures Valid()
      ensures model == Received(fallThrough, old(model), Heard(p))
    {
      ghost var v' := OnUserMessage(fallThrough, model.heap[id], Heard(p));
      ReceivedInTwo(fallThrough, model, p, v');
      var gone := Apply(n, id, p, v');
      if gone {
        Expel(p.pid, p.uid, v');
      }
    }

    /** cn_user_msg_callback */
    method UserMsgCallback(frame: seq<Byte>)
      requires Valid()
      modifies this`model, table`chains, table`stacks, table.buckets, table.spine
      ensures Valid()
      ensures var p := Parse(frame);
              model == if p.Some? && p.value.id == cnId then Received(fallThrough, old(model), Heard(p.value))
                       else old(model)
    {
      var parsed := Parse(frame);
      if parsed == None || parsed.value.id != cnId {
        return;
      }
      var p := parsed.value;
      var n := Lookup(p.pid, p.uid);
      if n != null {
        Deliver(n, model.table[Key(p.pid, p.uid)], p);
      }
    }
  }

  /** Find-then-create as one step keeps every stack of the hash table at height one. */
  lemma OneNodePerKey(side: KernelSide, k: Key)
    requires side.Valid()
    ensures k in side.table.stacks && |side.table.stacks[k]| == if k in side.model.table then 1 else 0
    ensures k in side.model.table ==> side.Holds(side.table.stacks[k][0], side.model.table[k])
  {}
}
