/** The user end as a program: class Node with its one-place mailbox, and class Kubix with the
    dispatcher, the app threads and the framing of replies. */
module KubixLib {
  import opened Types
  import opened Nodes
  import opened CompositeKey
  import opened SharedBus
  import opened Frame

  /** class Node. `tag` belongs to the protocol's view of the last stored message. */
  class Node {
    var pid: Int32
    var uid: Int32
    var opt: Byte
    var ret: Byte
    var recvLen: nat
    const recvBuffer: array<Byte>
    ghost var tag: nat
    /** The composite key this object is filed under. */
    ghost var home: int

    ghost predicate Valid()
      reads this
    {
      recvBuffer.Length == PAYLOAD_MAX_SIZE && recvLen <= PAYLOAD_MAX_SIZE
    }

    /** The mailbox this object is. */
    ghost function Box(): Mailbox
      requires Valid()
      reads this, recvBuffer
    {
      Mailbox(Key(pid, uid), opt, ret, recvBuffer[..recvLen], tag)
    }

    constructor (pid: Int32, uid: Int32)
      ensures Valid() && fresh(recvBuffer) && Box() == NewMailbox(Key(pid, uid))
      ensures this.pid == pid && this.uid == uid && opt == KUBIX_CHANNEL && ret == 0 && recvLen == 0
    {
      this.pid, this.uid := pid, uid;
      opt, ret, recvLen, tag := KUBIX_CHANNEL, 0, 0, 0;
      recvBuffer := new Byte[PAYLOAD_MAX_SIZE](_ => 0);
    }

    /** The end of Kubix::dispatch: an empty payload leaves buffer and length alone. */
    method Put(p: Parsed, ghost tag: nat)
      requires Valid() && |p.data| <= PAYLOAD_MAX_SIZE
      modifies this, recvBuffer
      ensures Valid() && home == old(home)
      ensures Box() == Nodes.Store(old(Box()), Answered(p, tag))
      ensures pid == p.pid && uid == p.uid && opt == p.op && ret == p.ret
      ensures recvBuffer[..recvLen] == if p.data == [] then old(recvBuffer[..recvLen]) else p.data
    {
      if p.data != [] {
        Clear(recvBuffer);
        Copy(recvBuffer, p.data);
        recvLen := |p.data|;
      }
      pid, uid, opt, ret := p.pid, p.uid, p.op, p.ret;
      this.tag := tag;
    }

    /** The critical section of getMessage, behind its wait. */
    method Take() returns (op: Byte, ret: Byte, data: seq<Byte>)
      requires Valid() && recvLen > 0
      modifies this, recvBuffer
      ensures Valid() && home == old(home) && Box() == Drained(old(Box()))
      ensures op == old(Box()).op && ret == old(Box()).ret && data == old(Box()).data && data != []
    {
      data, op, ret := recvBuffer[..recvLen], opt, this.ret;
      Clear(recvBuffer);
      recvLen := 0;
    }
  }

  /** memset(buffer, 0, size) */
  method Clear(buffer: array<Byte>)
    modifies buffer
    ensures forall i :: 0 <= i < buffer.Length ==> buffer[i] == 0
  {
    for i := 0 to buffer.Length
      invariant forall j :: 0 <= j < i ==> buffer[j] == 0
    {
      buffer[i] := 0;
    }
  }

  /** memcpy(buffer, data, len) */
  method Copy(buffer: array<Byte>, data: seq<Byte>)
    requires |data| <= buffer.Length
    modifies buffer
    ensures buffer[..|data|] == data
  {
    for i := 0 to |data|
      invariant buffer[..i] == data[..i]
    {
      buffer[i] := data[i];
    }
  }

  // ---------- send2kernel: one frame buffer, filled field by field ----------

  method PutWord(a: array<Byte>, o: nat, w: Word)
    requires o + 4 <= a.Length
    modifies a
    ensures a[o..o + 4] == Le32(w)
    ensures forall i :: 0 <= i < a.Length && !(o <= i < o + 4) ==> a[i] == old(a[i])
  {
    var b := Le32(w);
    a[o], a[o + 1], a[o + 2], a[o + 3] := b[0], b[1], b[2], b[3];
  }

  method PutHalf(a: array<Byte>, o: nat, h: int)
    requires o + 2 <= a.Length
    modifies a
    ensures a[o] == h % 0x100 && a[o + 1] == h / 0x100 % 0x100
    ensures forall i :: 0 <= i < a.Length && !(o <= i < o + 2) ==> a[i] == old(a[i])
  {
    a[o], a[o + 1] := h % 0x100, h / 0x100 % 0x100;
  }

  /** A 16-bit field with zeroes behind it is a word. */
  lemma HalfBytes(h: int)
    requires 0 <= h < 0x1_0000
    ensures Le32(h) == [h % 0x100, h / 0x100 % 0x100, 0, 0]
  {}

  lemma TailBytes(a: int, b: int, l: int)
    requires 0 <= a < 0x100 && 0 <= b < 0x100 && 0 <= l < 0x1_0000
    ensures Le32(a + 0x100 * b + 0x1_0000 * l) == [a, b, l % 0x100, l / 0x100 % 0x100]
  {
    var w := a + 0x100 * b + 0x1_0000 * l;
    assert w / 0x100 == b + 0x100 * l;
    assert w / 0x1_0000 == l;
    assert w / 0x100_0000 == l / 0x100;
  }

  lemma TailIs(op: int, ret: int, len: nat)
    requires len < 0x1_0000
    ensures Le32(Tail(op, ret, len)) == [op % 0x100, ret % 0x100, len % 0x100, len / 0x100 % 0x100]
  {
    assert len % 0x1_0000 == len;
    TailBytes(op % 0x100, ret % 0x100, len);
  }

  lemma SliceJoin(s: seq<Byte>, i: nat, j: nat, k: nat)
    requires i <= j <= k <= |s|
    ensures s[i..k] == s[i..j] + s[j..k]
  {}

  /** smsg.nl_hdr */
  method PutNetlink(a: array<Byte>, len: int, port: Word)
    requires a.Length >= HEADER && 0 <= len <= FRAME_MAX
    requires forall i :: 0 <= i < 16 ==> a[i] == 0
    modifies a
    ensures a[..16] == Flat([len, NLMSG_DONE]) + Flat([0, port])
    ensures forall i :: 16 <= i < a.Length ==> a[i] == old(a[i])
  {
    PutWord(a, 0, len);
    PutWord(a, 12, port);
    PutHalf(a, 4, NLMSG_DONE);
    HalfBytes(NLMSG_DONE);
    assert Le32(0) == [0, 0, 0, 0];
    FlatTwo(len, NLMSG_DONE);
    FlatTwo(0, port);
    SliceJoin(a[..], 0, 4, 8);
    SliceJoin(a[..], 8, 12, 16);
    SliceJoin(a[..], 0, 8, 16);
  }

  /** smsg.cn_msg */
  method PutConnector(a: array<Byte>, id: CnId, len: int)
    requires a.Length >= HEADER && 0 <= len <= FRAME_MAX
    requires forall i :: 16 <= i < 36 ==> a[i] == 0
    modifies a
    ensures a[16..36] == Flat([id.idx, id.val]) + Flat([0, 0]) + Flat([len])
    ensures forall i :: 0 <= i < a.Length && !(16 <= i < 36) ==> a[i] == old(a[i])
  {
    PutWord(a, 16, id.idx);
    PutWord(a, 20, id.val);
    PutHalf(a, 32, len);
    HalfBytes(len);
    assert Le32(0) == [0, 0, 0, 0];
    FlatTwo(id.idx, id.val);
    FlatTwo(0, 0);
    FlatOne(len);
    SliceJoin(a[..], 16, 20, 24);
    SliceJoin(a[..], 24, 28, 32);
    SliceJoin(a[..], 16, 24, 32);
    SliceJoin(a[..], 16, 32, 36);
  }

  /** smsg.kbx_msg */
  method PutKubix(a: array<Byte>, pid: Int32, uid: Int32, op: int, ret: int, len: nat)
    requires a.Length >= HEADER && len <= PAYLOAD_MAX_SIZE
    modifies a
    ensures a[36..48] == Flat([ToWord(pid), ToWord(uid)]) + Flat([Tail(op, ret, len)])
    ensures forall i :: 0 <= i < a.Length && !(36 <= i < 48) ==> a[i] == old(a[i])
  {
    var o: Byte, r: Byte := op % 0x100, ret % 0x100;
    TailIs(op, ret, len);
    PutWord(a, 36, ToWord(pid));
    PutWord(a, 40, ToWord(uid));
    a[44] := o;
    a[45] := r;
    PutHalf(a, 46, len);
    FlatTwo(ToWord(pid), ToWord(uid));
    FlatOne(Tail(op, ret, len));
    assert a[44..48] == [o, r, len % 0x100, len / 0x100 % 0x100];
    SliceJoin(a[..], 36, 40, 44);
    SliceJoin(a[..], 36, 44, 48);
  }

  /** The three headers on a zeroed buffer. */
  method PutHeaders(a: array<Byte>, port: Word, id: CnId, pid: Int32, uid: Int32, op: int, ret: int, len: nat)
    requires a.Length >= HEADER && len <= PAYLOAD_MAX_SIZE
    requires forall i :: 0 <= i < a.Length ==> a[i] == 0
    modifies a
    ensures a[..HEADER] == Flat(Words(0, port, id, pid, uid, op, ret, len))
    ensures forall i :: HEADER <= i < a.Length ==> a[i] == 0
  {
    PutNetlink(a, HEADER + len, port);
    ghost var nl := a[..16];
    PutConnector(a, id, 12 + len);
    ghost var cn := a[16..36];
    assert a[..16] == nl;
    PutKubix(a, pid, uid, op, ret, len);
    assert a[..16] == nl && a[16..36] == cn;
    assert a[..HEADER] == nl + cn + a[36..48];
    HeadersAreWords(port, id, pid, uid, op, ret, len);
  }

  lemma HeadersAreWords(port: Word, id: CnId, pid: Int32, uid: Int32, op: int, ret: int, len: nat)
    requires len <= PAYLOAD_MAX_SIZE
    ensures Flat(Words(0, port, id, pid, uid, op, ret, len))
         == (Flat([HEADER + len, NLMSG_DONE]) + Flat([0, port]))
            + (Flat([id.idx, id.val]) + Flat([0, 0]) + Flat([12 + len]))
            + (Flat([ToWord(pid), ToWord(uid)]) + Flat([Tail(op, ret, len)]))
  {
    var nl1, nl2: seq<Word> := [HEADER + len, NLMSG_DONE], [0, port];
    var cn1, cn2: seq<Word>, cn3: seq<Word> := [id.idx, id.val], [0, 0], [12 + len];
    var kb1, kb2 := [ToWord(pid), ToWord(uid)], [Tail(op, ret, len)];
    ShortWords(port, id, pid, uid, op, ret, len);
    assert Words(0, port, id, pid, uid, op, ret, len) == (nl1 + nl2) + (cn1 + cn2 + cn3) + (kb1 + kb2);
    FlatAppend((nl1 + nl2) + (cn1 + cn2 + cn3), kb1 + kb2);
    FlatAppend(nl1 + nl2, cn1 + cn2 + cn3);
    FlatAppend(nl1, nl2);
    FlatAppend(cn1 + cn2, cn3);
    FlatAppend(cn1, cn2);
    FlatAppend(kb1, kb2);
  }

  lemma ShortWords(port: Word, id: CnId, pid: Int32, uid: Int32, op: int, ret: int, len: nat)
    requires len <= PAYLOAD_MAX_SIZE
    ensures Words(0, port, id, pid, uid, op, ret, len)
         == [HEADER + len, NLMSG_DONE, 0, port, id.idx, id.val, 0, 0, 12 + len,
             ToWord(pid), ToWord(uid), Tail(op, ret, len)]
  {}

  /** The first 64 + len bytes from the start of the buffer on. */
  lemma FrameCut(buf: seq<Byte>, head: seq<Byte>, payload: seq<Byte>, behind: Behind)
    requires |buf| == FRAME_MAX && |head| == HEADER && |payload| <= PAYLOAD_MAX_SIZE
    requires buf[..HEADER] == head && buf[HEADER..HEADER + |payload|] == payload
    requires forall j :: HEADER + |payload| <= j < FRAME_MAX ==> buf[j] == 0
    ensures (buf + behind)[..16 + HEADER + |payload|] == head + payload + Pad(|payload|, behind)
  {
    var frame := (buf + behind)[..16 + HEADER + |payload|];
    var tail := frame[HEADER + |payload|..];
    assert tail == Pad(|payload|, behind);
    assert buf[..HEADER + |payload|] == head + payload;
    assert frame == buf[..HEADER + |payload|] + tail;
  }

  /** Kubix::send2kernel: the bytes handed to send(), which for the longest payloads reads on
      `behind` the buffer. The caller's payload fits the buffer. */
  method Send2Kernel(port: Word, id: CnId, pid: Int32, uid: Int32, op: int, ret: int, payload: seq<Byte>,
                     behind: Behind)
    returns (frame: seq<Byte>)
    requires |payload| <= PAYLOAD_MAX_SIZE
    ensures frame == UserFrame(port, id, pid, uid, op, ret, payload, behind)
  {
    var len := |payload|;
    ghost var ws := Words(0, port, id, pid, uid, op, ret, len);
    var smsg := new Byte[FRAME_MAX](_ => 0);
    PutHeaders(smsg, port, id, pid, uid, op, ret, len);
    for i := 0 to len
      invariant smsg[..HEADER] == Flat(ws)
      invariant smsg[HEADER..HEADER + i] == payload[..i]
      invariant forall j :: HEADER + i <= j < FRAME_MAX ==> smsg[j] == 0
    {
      smsg[HEADER + i] := payload[i];
    }
    frame := (smsg[..] + behind)[..16 + 48 + len];
    FrameCut(smsg[..], Flat(ws), payload, behind);
  }

  // ---------- class Kubix ----------

  /** The local variables of an app thread between getMessage and its answer. */
  datatype Held = Held(op: Byte, ret: Byte, data: seq<Byte>)

  /** A received kernel message, with the incarnation it was sent for. */
  function Answered(p: Parsed, tag: nat): Msg {
    Msg(Key(p.pid, p.uid), p.op, p.ret, p.data, p.seqNo, tag)
  }

  /** The payload length in the receive buffer is neither negative nor longer than the buffer:
      the copy into the mailbox is defined. */
  ghost predicate Readable(frame: seq<Byte>) {
    Parse(Rmsg(frame)).Some?
  }

  /** What one received frame does to the user side: only data frames are looked at. */
  ghost function RoutedFrame(u: User, frame: seq<Byte>, tag: nat): User
    requires Readable(frame)
  {
    var p := Parse(Rmsg(frame)).value;
    if p.kind == NLMSG_DONE then Routed(u, Answered(p, tag)) else u
  }

  /** What a series of them does. */
  ghost function RoutedFrames(u: User, frames: seq<seq<Byte>>, tags: seq<nat>): User
    requires |tags| == |frames| && forall i :: 0 <= i < |frames| ==> Readable(frames[i])
    decreases |frames|
  {
    if frames == [] then u else RoutedFrames(RoutedFrame(u, frames[0], tags[0]), frames[1..], tags[1..])
  }

  lemma RoutedNext(u: User, frames: seq<seq<Byte>>, tags: seq<nat>, i: nat)
    requires |tags| == |frames| && i < |frames| && forall j :: 0 <= j < |frames| ==> Readable(frames[j])
    ensures RoutedFrames(u, frames[i..], tags[i..])
         == RoutedFrames(RoutedFrame(u, frames[i], tags[i]), frames[i + 1..], tags[i + 1..])
  {
    assert frames[i..][1..] == frames[i + 1..] && tags[i..][1..] == tags[i + 1..];
  }

  /** `threads` counts the app threads started for each context. `model` is the protocol's view
      of all this. */
  class Kubix {
    const port: Word
    const cnId: CnId
    var nodes: map<int, Node>
    var threads: multiset<Key>
    var hands: map<Key, Held>
    ghost var model: User
    ghost var owner: map<array<Byte>, int>

    ghost function Repr(): set<object>
      reads this
    {
      (set c | c in nodes :: nodes[c] as object) + (set c | c in nodes :: nodes[c].recvBuffer as object)
    }

    ghost predicate Filed()
      reads this, Repr()
    {
      forall c :: c in nodes ==>
        var n := nodes[c];
        && n.home == c && n.recvBuffer in owner && owner[n.recvBuffer] == c && n.Valid()
        && c in model.nodes && n.Box() == model.nodes[c]
    }

    ghost predicate Valid()
      reads this, Repr()
    {
      && nodes.Keys == model.nodes.Keys && Filed()
      && threads == model.threads && hands.Keys == model.hands.Keys
      && forall k :: k in hands ==>
           var m := model.hands[k]; hands[k] == Held(m.op, m.ret, m.data) && m.key == k && m.seqNo == 0
    }

    constructor (port: Word, cnId: CnId)
      ensures Valid() && Repr() == {} && this.port == port && this.cnId == cnId
      ensures model == User(map[], multiset{}, map[])
    {
      this.port, this.cnId := port, cnId;
      nodes, threads, hands := map[], multiset{}, map[];
      model, owner := User(map[], multiset{}, map[]), map[];
    }

    method FindNode(pid: Int32, uid: Int32) returns (found: bool, node: Node?)
      ensures found <==> Composite(Key(pid, uid)) in nodes
      ensures node == if found then nodes[Composite(Key(pid, uid))] else null
    {
      var key := Composite(Key(pid, uid));
      found, node := key in nodes, null;
      if found {
        node := nodes[key];
      }
    }

    /** createNode never refuses: it tests the enum constant NLC_DESTROY, which is 1, so a node
        that is in the way is deleted and replaced. */
    method CreateNode(pid: Int32, uid: Int32) returns (ok: bool, node: Node)
      requires Valid()
      modifies this`nodes, this`model, this`owner
      ensures ok && Valid() && fresh(node) && fresh(node.recvBuffer)
      ensures fresh(Repr() - old(Repr()))
      ensures var k := Key(pid, uid);
              && nodes == old(nodes)[Composite(k) := node]
              && model == old(model).(nodes := old(model).nodes[Composite(k) := NewMailbox(k)])
    {
      var key := Composite(Key(pid, uid));
      node := new Node(pid, uid);
      node.home := key;
      nodes := nodes[key := node];
      File(key, node);
      ok := true;
    }

    /** The protocol's view of a new node. */
    ghost method File(key: int, n: Node)
      requires n.Valid() && n.home == key && key in nodes && nodes[key] == n
      requires nodes.Keys == model.nodes.Keys + {key}
      requires forall c :: c in nodes && c != key ==>
                 && nodes[c].home == c && nodes[c].recvBuffer in owner && owner[nodes[c].recvBuffer] == c
                 && nodes[c].recvBuffer != n.recvBuffer && nodes[c].Valid() && nodes[c].Box() == model.nodes[c]
      requires threads == model.threads && hands.Keys == model.hands.Keys
      requires forall k :: k in hands ==>
                 var m := model.hands[k]; hands[k] == Held(m.op, m.ret, m.data) && m.key == k && m.seqNo == 0
      modifies this`model, this`owner
      ensures Valid() && model == old(model).(nodes := old(model).nodes[key := n.Box()])
    {
      owner := owner[n.recvBuffer := key];
      model := model.(nodes := model.nodes[key := n.Box()]);
    }

    method EraseNode(pid: Int32, uid: Int32) returns (found: bool, node: Node?)
      requires Valid()
      modifies this`nodes, this`model
      ensures Valid() && (found <==> Composite(Key(pid, uid)) in old(nodes))
      ensures node == if found then old(nodes)[Composite(Key(pid, uid))] else null
      ensures nodes == old(nodes) - {Composite(Key(pid, uid))}
      ensures model == old(model).(nodes := old(model).nodes - {Composite(Key(pid, uid))})
    {
      found, node := FindNode(pid, uid);
      nodes := nodes - {Composite(Key(pid, uid))};
      model := model.(nodes := model.nodes - {Composite(Key(pid, uid))});
    }

    /** The store at the end of dispatch, in the node found or made for the message. */
    method StoreIn(node: Node, ghost c: int, p: Parsed, ghost tag: nat)
      requires Valid() && c in nodes && nodes[c] == node && |p.data| <= PAYLOAD_MAX_SIZE
      modifies this`model, node, node.recvBuffer
      ensures Valid()
      ensures model == old(model).(nodes :=
                old(model).nodes[c := Nodes.Store(old(model).nodes[c], Answered(p, tag))])
    {
      node.Put(p, tag);
      model := model.(nodes := model.nodes[c := Nodes.Store(model.nodes[c], Answered(p, tag))]);
    }

    /** The node of a message: found, made together with its app thread, or null when the
        message is not for a new channel. */
    method FindOrServe(p: Parsed) returns (node: Node?)
      requires Valid()
      modifies this`nodes, this`threads, this`model, this`owner
      ensures Valid() && fresh(Repr() - old(Repr()))
      ensures var k := Key(p.pid, p.uid);
              var c := Composite(k);
              && (node == null <==> c !in old(model).nodes && p.op != KUBIX_CHANNEL)
              && (node != null ==> c in nodes && nodes[c] == node)
              && model == if c in old(model).nodes || p.op != KUBIX_CHANNEL then old(model)
                          else old(model).(nodes := old(model).nodes[c := NewMailbox(k)],
                                           threads := old(model).threads + multiset{k})
    {
      var found;
      found, node := FindNode(p.pid, p.uid);
      if !found && p.op == KUBIX_CHANNEL {
        var ok;
        ok, node := CreateNode(p.pid, p.uid);
        threads := threads + multiset{Key(p.pid, p.uid)};
        model := model.(threads := model.threads + multiset{Key(p.pid, p.uid)});
      }
    }

    /** The message goes to its node. */
    method Route(p: Parsed, ghost tag: nat)
      requires Valid() && |p.data| <= PAYLOAD_MAX_SIZE
      modifies this, Repr()
      ensures Valid() && fresh(Repr() - old(Repr()))
      ensures model == Routed(old(model), Answered(p, tag))
    {
      var node := FindOrServe(p);
      if node != null {
        StoreIn(node, Composite(Key(p.pid, p.uid)), p, tag);
      }
    }

    /** One turn of the dispatch loop on a received frame. */
    method DispatchOne(frame: seq<Byte>, ghost tag: nat)
      requires Valid() && Readable(frame)
      modifies this, Repr()
      ensures Valid() && fresh(Repr() - old(Repr())) && model == RoutedFrame(old(model), frame, tag)
      ensures var p := Parse(Rmsg(frame)).value;
              && (p.kind == 3 ==> model == Routed(old(model), Answered(p, tag)))
              && (p.kind != 3 ==> model == old(model))
    {
      var p := Parse(Rmsg(frame)).value;
      if p.kind == NLMSG_DONE {
        Route(p, tag);
      }
    }

    /** Kubix::dispatch on the frames it receives while it is running. */
    method Dispatch(frames: seq<seq<Byte>>, ghost tags: seq<nat>)
      requires Valid() && |tags| == |frames| && forall i :: 0 <= i < |frames| ==> Readable(frames[i])
      modifies this, Repr()
      ensures Valid() && fresh(Repr() - old(Repr())) && model == RoutedFrames(old(model), frames, tags)
    {
      var i := 0;
      while i < |frames|
        invariant 0 <= i <= |frames| && Valid() && fresh(Repr() - old(Repr()))
        invariant RoutedFrames(model, frames[i..], tags[i..]) == RoutedFrames(old(model), frames, tags)
      {
        RoutedNext(model, frames, tags, i);
        DispatchOne(frames[i], tags[i]);
        i := i + 1;
      }
    }

    /** getMessage behind its wait; false when there is no such node. */
    method GetMessage(pid: Int32, uid: Int32) returns (ok: bool, held: Held)
      requires Valid()
      requires var c := Composite(Key(pid, uid)); c in model.nodes ==> model.nodes[c].data != []
      modifies this`model, Repr()
      ensures Valid() && Repr() == old(Repr()) && nodes == old(nodes)
      ensures var c := Composite(Key(pid, uid));
              && (ok <==> c in old(model).nodes)
              && (ok ==> var b := old(model).nodes[c];
                         && held == Held(b.op, b.ret, b.data)
                         && model == old(model).(nodes := old(model).nodes[c := Drained(b)]))
              && (!ok ==> model == old(model))
    {
      var node;
      ok, node := FindNode(pid, uid);
      held := Held(0, 0, []);
      if !ok {
        return;
      }
      ghost var c := Composite(Key(pid, uid));
      assert node == nodes[c] && node.Box() == model.nodes[c];
      var op, ret, data := node.Take();
      held := Held(op, ret, data);
      model := model.(nodes := model.nodes[c := Drained(model.nodes[c])]);
    }

    /** userAppThread of context `key`, first half of a turn. */
    method ThreadFetch(key: Key)
      requires Valid() && CanFetch(model, key)
      modifies this`model, this`hands, Repr()
      ensures Valid() && Repr() == old(Repr()) && model == Fetched(old(model), key)
    {
      ghost var b := model.nodes[Composite(key)];
      var ok, held := GetMessage(key.pid, key.uid);
      hands := hands[key := held];
      model := model.(hands := model.hands[key := Taken(b, key)]);
    }

    /** Second half: `err` is what the user callback returned; its own changes to the message
        are dropped, the thread echoes what it received. */
    method ThreadEcho(key: Key, err: int, behind: Behind) returns (frame: Option<seq<Byte>>)
      requires Valid() && key in hands && |hands[key].data| <= PAYLOAD_MAX_SIZE
      modifies this`model, this`hands
      ensures Valid() && Repr() == old(Repr())
      ensures model == old(model).(hands := old(model).hands - {key})
      ensures var m := old(model).hands[key];
              frame == if err != 0 then None
                       else Some(UserFrame(port, cnId, key.pid, key.uid, m.op, m.ret, m.data, behind))
    {
      var h := hands[key];
      hands := hands - {key};
      model := model.(hands := model.hands - {key});
      frame := None;
      if err == 0 {
        var f := Send2Kernel(port, cnId, key.pid, key.uid, h.op, h.ret, h.data, behind);
        frame := Some(f);
      }
    }
  }
}
