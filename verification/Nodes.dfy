/** The two ends of one channel as values, and what each atomic section of the
    program does to one end. */
module Nodes {
  import opened Types

  /** `fallThrough` is the missing `break` behind the inner switch of the callback: true is the
      code as written. `serial`: no opener makes a node while a sender of that key stands
      between its state check and its send; nothing in the code enforces it. */
  datatype Mode = Mode(fallThrough: bool, serial: bool)

  // ---------- kernel end: struct chan_node and the threads that hold a pointer to it ----------

  datatype ChanState = Init | Handshake | Netlink | Destroy

  /** Where the thread that created the node stands inside get_verified_channel. */
  datatype Opener =
    | NoOpener                                // the main node: made by module init
    | Created                                 // node created, request not sent
    | Sent                                    // request sent, HANDSHAKE not yet assigned
    | Waiting                                 // HANDSHAKE assigned, waiting for the reply
    | Returned(ret: Byte, reply: seq<Byte>)   // reply taken out of the slot

  /** `removed` is set when the node leaves the hash table; the object stays readable for
      the threads that still point to it. `senders` counts the threads between their state
      check and their send, `marks` those that sent KERNEL_RELEASE and have not yet assigned
      DESTROY, `readers` the threads that wait for the reply slot; `request` is the payload of
      the opening request. */
  datatype KNode = KNode(
    key: Key, state: ChanState, removed: bool, seqNo: Word,
    rsp: seq<Byte>, userRet: Byte,
    opener: Opener, senders: nat, marks: nat, readers: nat, request: seq<Byte>)

  function NewNode(key: Key, request: seq<Byte>): KNode {
    KNode(key, Init, false, 1, [], 0, Created, 0, 0, 0, request)
  }

  /** The main node and its handshake request, as module init leaves them. */
  function MainNode(): KNode {
    KNode(MAIN, Init, false, 2, [], 0, NoOpener, 0, 0, 0, HELLO)
  }

  function Hello(): Msg {
    Msg(MAIN, KUBIX_CHANNEL, 0, HELLO, 1, 0)
  }

  /** The message a kernel thread sends from node `id`, carrying the node's current number. */
  function Outgoing(n: KNode, id: nat, op: Byte, data: seq<Byte>): Msg {
    Msg(n.key, op, 0, data, n.seqNo, id)
  }

  predicate Sendable(op: Byte) {
    op == KERNEL_REQUEST || op == KERNEL_RELEASE || op == KERNEL_REPORT
  }

  /** The opener sends its request once; everybody else has passed the state check before,
      and sends even if the node was closed or removed since. */
  predicate CanSend(n: KNode, op: Byte, data: seq<Byte>) {
    if op == KUBIX_CHANNEL then n.opener.Created? && data == n.request
    else Sendable(op) && n.senders > 0
  }

  function AfterSend(n: KNode, op: Byte): KNode
    requires op == KUBIX_CHANNEL || n.senders > 0
  {
    n.(seqNo := NextSeq(n.seqNo),
       opener := if op == KUBIX_CHANNEL then Sent else n.opener,
       senders := if op == KUBIX_CHANNEL then n.senders else n.senders - 1,
       readers := if op == KERNEL_REQUEST then n.readers + 1 else n.readers,
       marks := if op == KERNEL_RELEASE then n.marks + 1 else n.marks)
  }

  /** What a kernel thread does to a node without sending anything. */
  datatype Action =
    | MarkHandshake  // get_verified_channel, after sending: the late HANDSHAKE assignment
    | TakeReply      // get_verified_channel: its wait ends and what is in the slot is taken
    | StartSend      // send_message_to_userspace passes its state check
    | MarkDestroy    // send_message_to_userspace, after sending a release: DESTROY
    | StartRead      // get_message_from_userspace passes its state check
    | FinishRead     // the wait of a reader or requester ends and the slot is taken

  /** A wait ends when the slot is full, or by an interrupt whatever is in it. */
  predicate CanAct(n: KNode, a: Action) {
    match a
    case MarkHandshake => n.opener.Sent?
    case TakeReply => n.opener.Waiting?
    case MarkDestroy => n.marks > 0
    case StartSend => !n.removed && n.state.Netlink?
    case StartRead => !n.removed && n.state.Netlink?
    case FinishRead => n.readers > 0
  }

  function AfterAct(n: KNode, a: Action): KNode
    requires CanAct(n, a)
  {
    match a
    case MarkHandshake => n.(state := Handshake, opener := Waiting)
    case TakeReply => n.(rsp := [], opener := Returned(n.userRet, n.rsp))
    case MarkDestroy => n.(state := Destroy, marks := n.marks - 1)
    case StartSend => n.(senders := n.senders + 1)
    case StartRead => n.(readers := n.readers + 1)
    case FinishRead => n.(rsp := [], readers := n.readers - 1)
  }

  /** cn_user_msg_callback on the node found for the message. */
  function OnUserMessage(fallThrough: bool, n: KNode, m: Msg): KNode {
    if n.key == MAIN then
      if m.op == KUBIX_CHANNEL then n.(state := Netlink) else n
    else
      match n.state
      case Init => n.(rsp := m.data, userRet := IMPOSSIBLE_STATE)
      case Handshake =>
        if m.op != KUBIX_CHANNEL then n.(rsp := m.data, userRet := IMPOSSIBLE_OP)
        else if m.ret == 0 then n.(state := Netlink, rsp := m.data, userRet := m.ret)
        else n.(rsp := m.data, userRet := m.ret)
      case Netlink =>
        if RejectedWhenOpen(m.op) then n
        else
          var n1 := if m.op == USER_RELEASE then n.(state := Destroy) else n;
          if fallThrough then n1.(removed := true) else n1.(rsp := m.data, userRet := m.ret)
      case Destroy => n.(removed := true)
  }

  predicate RejectedWhenOpen(op: Byte) {
    op == KUBIX_CHANNEL || op == KERNEL_REQUEST || op == KERNEL_RELEASE
    || op == KERNEL_REPORT || op == NO_ACTION
  }

  /** INIT < HANDSHAKE < NETLINK < DESTROY < removed. */
  function Rank(n: KNode): nat {
    if n.removed then 4
    else match n.state case Init => 0 case Handshake => 1 case Netlink => 2 case Destroy => 3
  }

  /** The channel of this node was accepted in HANDSHAKE. */
  predicate Opened(n: KNode) {
    n.state.Netlink? || n.state.Destroy?
  }

  // ---------- user end: class Node, the one-place mailbox ----------

  /** `data` is the filled part of `_recv_buffer`; the mailbox is full when it is not empty.
      `tag` follows `_opt`: it belongs to the last stored message. */
  datatype Mailbox = Mailbox(name: Key, op: Byte, ret: Byte, data: seq<Byte>, tag: nat)

  function NewMailbox(key: Key): Mailbox {
    Mailbox(key, KUBIX_CHANNEL, 0, [], 0)
  }

  /** The store at the end of Kubix::dispatch: an empty payload leaves the buffer alone. */
  function Store(b: Mailbox, m: Msg): Mailbox {
    Mailbox(m.key, m.op, m.ret, if m.data == [] then b.data else m.data, m.tag)
  }

  /** What getMessage hands to a thread of channel `key`, and what it leaves behind. */
  function Taken(b: Mailbox, key: Key): Msg {
    Msg(key, b.op, b.ret, b.data, 0, b.tag)
  }

  function Drained(b: Mailbox): Mailbox {
    b.(data := [])
  }

  // ---------- the steps of the protocol ----------

  datatype Label =
    | Create(key: Key, id: nat, request: seq<Byte>)  // get_verified_channel: none found, one made
    | Reap(key: Key)                                 // get_verified_channel: DESTROY node dropped
    | Send(id: nat, op: Byte, data: seq<Byte>)       // a request, release, report or opening leaves
    | Act(id: nat, act: Action)
    | Callback                                       // cn_user_msg_callback, oldest user message
    | Dispatch                                       // Kubix::dispatch, oldest kernel message
    | Fetch(key: Key)                                // an app thread returns from getMessage
    | Echo(key: Key, err: bool)                      // user callback, then the echo unless it fails
    | AppSend(key: Key, op: Byte, ret: Byte, data: seq<Byte>)  // the application calls send2kernel

  predicate Transport(l: Label) {
    l.Callback? || l.Dispatch? || l.Fetch? || l.Echo?
  }
}
