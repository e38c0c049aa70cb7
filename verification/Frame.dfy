/** The bytes of one netlink frame, little-endian: netlink header (16), connector header (20),
    Kubix header (12), payload. The headers are twelve 32-bit words. */
module Frame {
  import opened Types

  const HEADER := 48
  const NLMSG_DONE: Word := 3
  /** sizeof(smsg) in send2kernel and sizeof(rmsg) in dispatch. */
  const FRAME_MAX := 1072
  const PAYLOAD_MAX_SIZE := 1024
  /** The longest payload for which send() stays inside the frame buffer. */
  const PAYLOAD_FIT := 1008

  /** What lies in memory behind the frame buffer, as far as send() can see it. */
  type Behind = s: seq<Byte> | |s| == 16 witness seq(16, _ => 0)

  /** CN_SS_IDX and CN_SS_VAL, whatever the rebuilt kernel assigns. */
  datatype CnId = CnId(idx: Word, val: Word)

  // ---------- words and bytes ----------

  function Le32(w: Word): (b: seq<Byte>)
    ensures |b| == 4
  {
    [w % 0x100, w / 0x100 % 0x100, w / 0x1_0000 % 0x100, w / 0x100_0000]
  }

  function At32(f: seq<Byte>, o: nat): Word
    requires o + 4 <= |f|
  {
    var b0: int, b1: int, b2: int, b3: int := f[o], f[o + 1], f[o + 2], f[o + 3];
    b0 + 0x100 * b1 + 0x1_0000 * b2 + 0x100_0000 * b3
  }

  function Flat(ws: seq<Word>): (b: seq<Byte>)
    ensures |b| == 4 * |ws|
  {
    if ws == [] then [] else Le32(ws[0]) + Flat(ws[1..])
  }

  lemma Digits(w: nat)
    ensures w == w % 0x100 + 0x100 * (w / 0x100 % 0x100)
              + 0x1_0000 * (w / 0x1_0000 % 0x100) + 0x100_0000 * (w / 0x100_0000)
  {
    assert w / 0x1_0000 == w / 0x100 / 0x100;
    assert w / 0x100_0000 == w / 0x1_0000 / 0x100;
  }

  lemma Le32Read(w: Word, rest: seq<Byte>)
    ensures At32(Le32(w) + rest, 0) == w
  {
    Digits(w);
  }

  lemma At32Shift(a: seq<Byte>, f: seq<Byte>, o: nat)
    requires o + 4 <= |f|
    ensures At32(a + f, |a| + o) == At32(f, o)
  {}

  /** Word i is read back at offset 4 i, whatever follows the words. */
  lemma {:induction false} FlatAt(ws: seq<Word>, rest: seq<Byte>, i: nat)
    requires i < |ws|
    ensures At32(Flat(ws) + rest, 4 * i) == ws[i]
  {
    var more := Flat(ws[1..]) + rest;
    assert Flat(ws) + rest == Le32(ws[0]) + more;
    if i == 0 {
      Le32Read(ws[0], more);
    } else {
      FlatAt(ws[1..], rest, i - 1);
      At32Shift(Le32(ws[0]), more, 4 * (i - 1));
    }
  }

  lemma {:induction false} FlatAppend(x: seq<Word>, y: seq<Word>)
    ensures Flat(x + y) == Flat(x) + Flat(y)
  {
    if x == [] {
      assert x + y == y;
    } else {
      assert (x + y)[1..] == x[1..] + y;
      FlatAppend(x[1..], y);
    }
  }

  lemma FlatOne(w: Word)
    ensures Flat([w]) == Le32(w)
  {
    assert [w][1..] == [];
  }

  lemma FlatTwo(a: Word, b: Word)
    ensures Flat([a, b]) == Le32(a) + Le32(b)
  {
    FlatOne(a);
    FlatOne(b);
    FlatAppend([a], [b]);
    assert [a] + [b] == [a, b];
  }

  function ToWord(x: int): Word {
    x % 0x1_0000_0000
  }

  function ToInt32(w: Word): Int32 {
    if w < 0x8000_0000 then w else w - 0x1_0000_0000
  }

  function ToInt16(h: int): int
    requires 0 <= h < 0x1_0000
  {
    if h < 0x8000 then h else h - 0x1_0000
  }

  // ---------- layout ----------

  /** The last header word: u8 opt, u8 ret, s16 data_len. */
  function Tail(op: int, ret: int, len: nat): Word {
    op % 0x100 + 0x100 * (ret % 0x100) + 0x1_0000 * (len % 0x1_0000)
  }

  function Words(seqNo: Word, port: Word, id: CnId, pid: Int32, uid: Int32, op: int, ret: int, len: nat): seq<Word> {
    [ToWord(HEADER + len), NLMSG_DONE, seqNo, port,
     id.idx, id.val, seqNo, 0, (12 + len) % 0x1_0000,
     ToWord(pid), ToWord(uid), Tail(op, ret, len)]
  }

  /** The 16 bytes that follow the payload: zeroes of the buffer, then what is behind it. */
  function Pad(len: nat, behind: Behind): (p: seq<Byte>)
    ensures |p| == 16
  {
    if len <= PAYLOAD_FIT then seq(16, _ => 0)
    else if len <= PAYLOAD_MAX_SIZE then seq(PAYLOAD_MAX_SIZE - len, _ => 0) + behind[..len - PAYLOAD_FIT]
    else behind
  }

  /** What send2kernel hands to send(): nlmsg_len counts the netlink header once, smsg_len
      twice, so 16 bytes follow the payload. */
  function UserFrame(port: Word, id: CnId, pid: Int32, uid: Int32, op: int, ret: int,
                     payload: seq<Byte>, behind: Behind): seq<Byte>
  {
    Flat(Words(0, port, id, pid, uid, op, ret, |payload|)) + payload + Pad(|payload|, behind)
  }

  /** What the user side receives for one send_message_to_user. */
  function KernelFrame(id: CnId, seqNo: Word, pid: Int32, uid: Int32, op: int, ret: int,
                       payload: seq<Byte>): seq<Byte>
  {
    Flat(Words(seqNo, 0, id, pid, uid, op, ret, |payload|)) + payload
  }

  // ---------- reading a frame ----------

  datatype Parsed = Parsed(
    kind: int, id: CnId, seqNo: Word, pid: Int32, uid: Int32, op: Byte, ret: Byte, data: seq<Byte>)

  /** The fields that dispatch and cn_user_msg_callback read. None: the payload length does
      not fit the frame. */
  function Parse(f: seq<Byte>): Option<Parsed> {
    if |f| < HEADER then None
    else
      var tail := At32(f, 44);
      var len := ToInt16(tail / 0x1_0000);
      if len < 0 || HEADER + len > |f| then None
      else Some(Parsed(At32(f, 4) % 0x1_0000, CnId(At32(f, 16), At32(f, 20)), At32(f, 24),
                       ToInt32(At32(f, 36)), ToInt32(At32(f, 40)),
                       tail % 0x100, tail / 0x100 % 0x100, f[HEADER..HEADER + len]))
  }

  /** What dispatch has in its zeroed buffer after recv: a long frame is cut off, behind a short
      one there are zeroes. */
  function Rmsg(f: seq<Byte>): (r: seq<Byte>)
    ensures |r| == FRAME_MAX
    ensures forall i :: 0 <= i < FRAME_MAX ==> r[i] == if i < |f| then f[i] else 0
  {
    if |f| >= FRAME_MAX then f[..FRAME_MAX] else f + seq(FRAME_MAX - |f|, _ => 0)
  }

  /** The buffer shows every frame that fits it. */
  lemma RmsgParse(f: seq<Byte>)
    requires |f| <= FRAME_MAX && Parse(f).Some?
    ensures Parse(Rmsg(f)) == Parse(f)
  {
    var r := Rmsg(f);
    assert forall i :: 0 <= i < |f| ==> r[i] == f[i];
    assert At32(r, 44) == At32(f, 44);
    var len := ToInt16(At32(f, 44) / 0x1_0000);
    assert r[HEADER..HEADER + len] == f[HEADER..HEADER + len];
  }

  lemma TailFields(op: int, ret: int, len: nat)
    requires len < 0x8000
    ensures Tail(op, ret, len) / 0x1_0000 == len
    ensures Tail(op, ret, len) % 0x100 == op % 0x100
    ensures Tail(op, ret, len) / 0x100 % 0x100 == ret % 0x100
  {}

  lemma PayloadAt(head: seq<Byte>, rest: seq<Byte>, payload: seq<Byte>)
    requires |head| == HEADER && payload <= rest
    ensures HEADER + |payload| <= |head + rest| && (head + rest)[HEADER..HEADER + |payload|] == payload
  {}

  lemma ParseWords(ws: seq<Word>, rest: seq<Byte>, payload: seq<Byte>)
    requires |ws| == 12 && payload <= rest && |payload| < 0x8000
    requires ws[1] == NLMSG_DONE && ws[11] / 0x1_0000 == |payload|
    ensures Parse(Flat(ws) + rest)
         == Some(Parsed(NLMSG_DONE, CnId(ws[4], ws[5]), ws[6], ToInt32(ws[9]), ToInt32(ws[10]),
                        ws[11] % 0x100, ws[11] / 0x100 % 0x100, payload))
  {
    FlatAt(ws, rest, 1);
    FlatAt(ws, rest, 4);
    FlatAt(ws, rest, 5);
    FlatAt(ws, rest, 6);
    FlatAt(ws, rest, 9);
    FlatAt(ws, rest, 10);
    FlatAt(ws, rest, 11);
    var f := Flat(ws) + rest;
    assert At32(f, 4) == ws[1] && At32(f, 16) == ws[4] && At32(f, 20) == ws[5] && At32(f, 24) == ws[6];
    assert At32(f, 36) == ws[9] && At32(f, 40) == ws[10] && At32(f, 44) == ws[11];
    PayloadAt(Flat(ws), rest, payload);
  }

  lemma SignedRoundTrip(x: Int32)
    ensures ToInt32(ToWord(x)) == x
  {}

  /** A frame of the user side decodes to what was sent, code and result reduced to a byte. */
  lemma UserFrameRoundTrip(port: Word, id: CnId, pid: Int32, uid: Int32, op: int, ret: int, payload: seq<Byte>,
                           behind: Behind)
    requires |payload| < 0x8000
    ensures Parse(UserFrame(port, id, pid, uid, op, ret, payload, behind))
         == Some(Parsed(NLMSG_DONE, id, 0, pid, uid, op % 0x100, ret % 0x100, payload))
  {
    var ws := Words(0, port, id, pid, uid, op, ret, |payload|);
    var pad := Pad(|payload|, behind);
    TailFields(op, ret, |payload|);
    SignedRoundTrip(pid);
    SignedRoundTrip(uid);
    assert UserFrame(port, id, pid, uid, op, ret, payload, behind) == Flat(ws) + (payload + pad);
    ParseWords(ws, payload + pad, payload);
  }

  lemma KernelFrameRoundTrip(id: CnId, seqNo: Word, pid: Int32, uid: Int32, op: int, ret: int, payload: seq<Byte>)
    requires |payload| < 0x8000
    ensures Parse(KernelFrame(id, seqNo, pid, uid, op, ret, payload))
         == Some(Parsed(NLMSG_DONE, id, seqNo, pid, uid, op % 0x100, ret % 0x100, payload))
  {
    TailFields(op, ret, |payload|);
    SignedRoundTrip(pid);
    SignedRoundTrip(uid);
    ParseWords(Words(seqNo, 0, id, pid, uid, op, ret, |payload|), payload, payload);
  }

  /** nlmsg_len is 48 + len, and send() stays inside the buffer exactly up to 1008 bytes. */
  lemma FrameBounds(port: Word, id: CnId, pid: Int32, uid: Int32, op: int, ret: int, payload: seq<Byte>,
                    behind: Behind)
    requires |payload| <= PAYLOAD_MAX_SIZE
    ensures var f := UserFrame(port, id, pid, uid, op, ret, payload, behind);
            && At32(f, 0) == 48 + |payload|
            && (|f| <= FRAME_MAX <==> |payload| <= PAYLOAD_FIT)
    ensures |KernelFrame(id, port, pid, uid, op, ret, payload)| <= FRAME_MAX
  {
    var ws := Words(0, port, id, pid, uid, op, ret, |payload|);
    var rest := payload + Pad(|payload|, behind);
    assert UserFrame(port, id, pid, uid, op, ret, payload, behind) == Flat(ws) + rest;
    FlatAt(ws, rest, 0);
  }

  lemma ByteOfResult(ret: int)
    ensures -0x100 < ret < 0x100 ==> (ret % 0x100 == 0 <==> ret == 0)
    ensures -0x100 < ret < 0 ==> ret % 0x100 == 0x100 + ret
  {}

  /** A result travels as one byte: success stays success, and only multiples of 256 look
      like it; the error -n comes back as 256 - n. */
  lemma ResultByte(port: Word, id: CnId, pid: Int32, uid: Int32, op: int, ret: int, payload: seq<Byte>,
                   behind: Behind)
    returns (p: Parsed)
    requires |payload| < 0x8000
    ensures Parse(UserFrame(port, id, pid, uid, op, ret, payload, behind)) == Some(p)
    ensures -0x100 < ret < 0x100 ==> (p.ret == 0 <==> ret == 0)
    ensures -0x100 < ret < 0 ==> p.ret == 0x100 + ret
  {
    ByteOfResult(ret);
    UserFrameRoundTrip(port, id, pid, uid, op, ret, payload, behind);
    p := Parsed(NLMSG_DONE, id, 0, pid, uid, op % 0x100, ret % 0x100, payload);
  }

  /** Two bytes from offset `o` on. */
  function At16(f: seq<Byte>, o: nat): int
    requires o + 2 <= |f|
  {
    var b0: int, b1: int := f[o], f[o + 1];
    b0 + 0x100 * b1
  }

  /** Where the fields of struct nlmsghdr (at 0), cn_msg (at 16) and kubix_hdr (at 36) lie, and
      that the payload follows them. */
  ghost predicate LaidOut(f: seq<Byte>, id: CnId, seqNo: Word, port: Word, pid: Int32, uid: Int32, op: int, ret: int,
                          payload: seq<Byte>)
  {
    && |f| >= 48 + |payload|
    && At32(f, 0) == 48 + |payload| && At32(f, 4) == 3 && At32(f, 8) == seqNo && At32(f, 12) == port
    && At32(f, 16) == id.idx && At32(f, 20) == id.val && At32(f, 24) == seqNo && At32(f, 28) == 0
    && At32(f, 32) == 12 + |payload|
    && At32(f, 36) == pid % 0x1_0000_0000 && At32(f, 40) == uid % 0x1_0000_0000
    && f[44] == op % 0x100 && f[45] == ret % 0x100 && At16(f, 46) == |payload|
    && f[48..48 + |payload|] == payload
  }

  lemma FromDigits(b0: int, b1: int, h: int)
    requires 0 <= b0 < 0x100 && 0 <= b1 < 0x100
    ensures var v := b0 + 0x100 * b1 + 0x1_0000 * h;
            v % 0x100 == b0 && v / 0x100 % 0x100 == b1 && v / 0x1_0000 == h
  {
    var v := b0 + 0x100 * b1 + 0x1_0000 * h;
    assert v == b0 + 0x100 * (b1 + 0x100 * h);
    assert v / 0x100 == b1 + 0x100 * h;
  }

  /** The last word is four bytes: code, result, and the length with its low byte first. */
  lemma TailDigits(f: seq<Byte>, op: int, ret: int, len: nat)
    requires |f| >= 48 && len < 0x8000 && At32(f, 44) == Tail(op, ret, len)
    ensures f[44] == op % 0x100 && f[45] == ret % 0x100 && At16(f, 46) == len
  {
    TailFields(op, ret, len);
    FromDigits(f[44], f[45], At16(f, 46));
  }

  /** A frame of twelve words and what follows them has word i at offset 4 i. */
  lemma WordsAt(f: seq<Byte>, ws: seq<Word>, rest: seq<Byte>)
    requires |ws| == 12 && f == Flat(ws) + rest
    ensures At32(f, 0) == ws[0] && At32(f, 4) == ws[1] && At32(f, 8) == ws[2] && At32(f, 12) == ws[3]
    ensures At32(f, 16) == ws[4] && At32(f, 20) == ws[5] && At32(f, 24) == ws[6] && At32(f, 28) == ws[7]
    ensures At32(f, 32) == ws[8] && At32(f, 36) == ws[9] && At32(f, 40) == ws[10] && At32(f, 44) == ws[11]
  {
    FlatAt(ws, rest, 0);
    FlatAt(ws, rest, 1);
    FlatAt(ws, rest, 2);
    FlatAt(ws, rest, 3);
    FlatAt(ws, rest, 4);
    FlatAt(ws, rest, 5);
    FlatAt(ws, rest, 6);
    FlatAt(ws, rest, 7);
    FlatAt(ws, rest, 8);
    FlatAt(ws, rest, 9);
    FlatAt(ws, rest, 10);
    FlatAt(ws, rest, 11);
  }

  lemma HeaderValues(seqNo: Word, port: Word, id: CnId, pid: Int32, uid: Int32, op: int, ret: int, len: nat)
    returns (ws: seq<Word>)
    requires len < 0x8000
    ensures ws == Words(seqNo, port, id, pid, uid, op, ret, len) && |ws| == 12
    ensures ws[0] == 48 + len && ws[1] == 3 && ws[2] == seqNo && ws[3] == port
    ensures ws[4] == id.idx && ws[5] == id.val && ws[6] == seqNo && ws[7] == 0 && ws[8] == 12 + len
    ensures ws[9] == pid % 0x1_0000_0000 && ws[10] == uid % 0x1_0000_0000 && ws[11] == Tail(op, ret, len)
  {
    ws := Words(seqNo, port, id, pid, uid, op, ret, len);
  }

  lemma LaidOutBy(f: seq<Byte>, ws: seq<Word>, rest: seq<Byte>, id: CnId, seqNo: Word, port: Word,
                  pid: Int32, uid: Int32, op: int, ret: int, payload: seq<Byte>)
    requires |ws| == 12 && f == Flat(ws) + rest && payload <= rest && |payload| < 0x8000
    requires ws[0] == 48 + |payload| && ws[1] == 3 && ws[2] == seqNo && ws[3] == port
    requires ws[4] == id.idx && ws[5] == id.val && ws[6] == seqNo && ws[7] == 0 && ws[8] == 12 + |payload|
    requires ws[9] == pid % 0x1_0000_0000 && ws[10] == uid % 0x1_0000_0000 && ws[11] == Tail(op, ret, |payload|)
    ensures LaidOut(f, id, seqNo, port, pid, uid, op, ret, payload)
  {
    WordsAt(f, ws, rest);
    PayloadAt(Flat(ws), rest, payload);
    TailDigits(f, op, ret, |payload|);
  }

  /** The frame of send2kernel, field by field. */
  lemma UserFrameLayout(port: Word, id: CnId, pid: Int32, uid: Int32, op: int, ret: int, payload: seq<Byte>,
                        behind: Behind)
    requires |payload| < 0x8000
    ensures LaidOut(UserFrame(port, id, pid, uid, op, ret, payload, behind), id, 0, port, pid, uid, op, ret, payload)
  {
    var f, rest := UserFrame(port, id, pid, uid, op, ret, payload, behind), payload + Pad(|payload|, behind);
    var ws := HeaderValues(0, port, id, pid, uid, op, ret, |payload|);
    assert f == Flat(ws) + rest;
    LaidOutBy(f, ws, rest, id, 0, port, pid, uid, op, ret, payload);
  }

  /** The frame of send_message_to_user, field by field. */
  lemma KernelFrameLayout(id: CnId, seqNo: Word, pid: Int32, uid: Int32, op: int, ret: int, payload: seq<Byte>)
    requires |payload| < 0x8000
    ensures LaidOut(KernelFrame(id, seqNo, pid, uid, op, ret, payload), id, seqNo, 0, pid, uid, op, ret, payload)
  {
    var f := KernelFrame(id, seqNo, pid, uid, op, ret, payload);
    var ws := HeaderValues(seqNo, 0, id, pid, uid, op, ret, |payload|);
    LaidOutBy(f, ws, payload, id, seqNo, 0, pid, uid, op, ret, payload);
  }
}
