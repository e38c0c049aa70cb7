/** A private channel: one key, its own pair of FIFOs. It is the reference that the shared
    bus is compared with, and the place where the protocol's invariants are proved. */
module Channel {
  import opened Types
  import opened Nodes

  /** `cur` is the node in the kernel table, `mbox` the node in the user table, `hand` the
      message its app thread is working on. */
  datatype Chan = Chan(
    heap: map<nat, KNode>, cur: Option<nat>, k2u: seq<Msg>,
    mbox: Option<Mailbox>, threads: nat, hand: Option<Msg>, u2k: seq<Msg>)

  ghost function InitChan(k: Key): Chan {
    if k == MAIN then
      Chan(map[0 := MainNode()], Some(0), [Hello()], None, 0, None, [])
    else
      Chan(map[], None, [], None, 0, None, [])
  }

  /** No thread stands between its state check and its send. */
  ghost predicate NoSenders(c: Chan) {
    forall id :: id in c.heap ==> c.heap[id].senders == 0
  }

  ghost predicate Enabled(mode: Mode, k: Key, c: Chan, l: Label) {
    match l
    case Create(key, id, _) => key == k && k != MAIN && c.cur.None? && id !in c.heap && (mode.serial ==> NoSenders(c))
    case Reap(key) =>
      key == k && k != MAIN && c.cur.Some? && c.cur.value in c.heap && c.heap[c.cur.value].state.Destroy?
    case Send(id, op, data) => id in c.heap && CanSend(c.heap[id], op, data)
    case Act(id, a) => id in c.heap && CanAct(c.heap[id], a)
    case Callback => c.u2k != [] && (c.cur.Some? ==> c.cur.value in c.heap)
    case Dispatch => c.k2u != []
    case Fetch(key) => key == k && c.threads > 0 && c.hand.None? && c.mbox.Some? && c.mbox.value.data != []
    case Echo(key, _) => key == k && c.hand.Some?
    case AppSend(key, op, _, _) => key == k && op != KUBIX_CHANNEL
  }

  ghost function Next(mode: Mode, k: Key, c: Chan, l: Label): Chan
    requires Enabled(mode, k, c, l)
  {
    match l
    case Create(_, id, request) => c.(heap := c.heap[id := NewNode(k, request)], cur := Some(id))
    case Reap(_) => c.(heap := c.heap[c.cur.value := c.heap[c.cur.value].(removed := true)], cur := None)
    case Send(id, op, data) =>
      c.(heap := c.heap[id := AfterSend(c.heap[id], op)], k2u := c.k2u + [Outgoing(c.heap[id], id, op, data)])
    case Act(id, a) => c.(heap := c.heap[id := AfterAct(c.heap[id], a)])
    case Callback =>
      var rest := c.(u2k := c.u2k[1..]);
      if c.cur.None? then rest
      else
        var n := OnUserMessage(mode.fallThrough, c.heap[c.cur.value], c.u2k[0]);
        rest.(heap := c.heap[c.cur.value := n], cur := if n.removed then None else c.cur)
    case Dispatch =>
      var m := c.k2u[0];
      var rest := c.(k2u := c.k2u[1..]);
      if c.mbox.Some? then rest.(mbox := Some(Store(c.mbox.value, m)))
      else if m.op != KUBIX_CHANNEL then rest
      else rest.(mbox := Some(Store(NewMailbox(m.key), m)), threads := c.threads + 1)
    case Fetch(_) => c.(mbox := Some(Drained(c.mbox.value)), hand := Some(Taken(c.mbox.value, k)))
    case Echo(_, err) =>
      c.(hand := None, u2k := if err then c.u2k else c.u2k + [c.hand.value])
    case AppSend(_, op, ret, data) => c.(u2k := c.u2k + [Msg(k, op, ret, data, 0, 0)])
  }

  // ---------- live opening requests ----------

  /** Opening requests, and replies to them, waiting in a queue. */
  function Requests(q: seq<Msg>): (n: nat)
    ensures n == 0 <==> forall i :: 0 <= i < |q| ==> q[i].op != KUBIX_CHANNEL
  {
    if q == [] then 0 else (if q[0].op == KUBIX_CHANNEL then 1 else 0) + Requests(q[1..])
  }

  lemma {:induction false} RequestsAppend(q: seq<Msg>, m: Msg)
    ensures Requests(q + [m]) == Requests(q) + (if m.op == KUBIX_CHANNEL then 1 else 0)
  {
    if q == [] {
      assert q + [m] == [m];
    } else {
      assert (q + [m])[1..] == q[1..] + [m];
      RequestsAppend(q[1..], m);
    }
  }

  predicate BoxRequest(c: Chan) {
    c.mbox.Some? && c.mbox.value.data != [] && c.mbox.value.op == KUBIX_CHANNEL
  }

  predicate HandRequest(c: Chan) {
    c.hand.Some? && c.hand.value.op == KUBIX_CHANNEL
  }

  /** Live opening requests of the channel: queued, in the full mailbox, in the app thread's
      hand, or on the way back as a reply. */
  function Live(c: Chan): nat {
    Requests(c.k2u) + (if BoxRequest(c) then 1 else 0) + (if HandRequest(c) then 1 else 0) + Requests(c.u2k)
  }

  /** A live request belongs to the node that is in the table now, and that node is still
      waiting for it. A non-empty request travels unchanged. */
  predicate Genuine(c: Chan, m: Msg) {
    && c.cur == Some(m.tag) && m.tag in c.heap && m.ret == 0
    && var n := c.heap[m.tag];
       !Opened(n) && !n.opener.Created? && (n.request != [] ==> m.data == n.request)
  }

  // ---------- the invariant ----------

  predicate NodeOk(mode: Mode, k: Key, n: KNode) {
    && n.key == k
    && (n.opener.NoOpener? <==> k == MAIN)
    && (k == MAIN ==> n.rsp == [] && !n.removed && !n.state.Handshake? && n.request == HELLO)
    && (n.opener.Created? || n.opener.Sent? ==> n.state.Init?)
    && (n.opener.Waiting? || n.opener.Returned? ==> !n.state.Init?)
    && (n.senders > 0 || n.marks > 0 || n.removed || n.readers > 0 ==> Opened(n))
    && (n.rsp != [] && n.userRet == 0 ==> Opened(n))
    && (n.rsp != [] && n.userRet == 0 && mode.fallThrough && n.request != [] ==> n.rsp == n.request)
    && (n.opener.Returned? && n.opener.reply != [] && n.opener.ret == 0 ==> Opened(n))
    && (n.opener.Returned? && n.opener.reply != [] && n.opener.ret == 0 && mode.fallThrough && n.request != []
        ==> n.opener.reply == n.request)
  }

  ghost predicate HeapOk(mode: Mode, k: Key, c: Chan) {
    && (forall id :: id in c.heap ==> NodeOk(mode, k, c.heap[id]))
    && (forall id :: id in c.heap ==> (c.heap[id].removed <==> c.cur != Some(id)))
    && (c.cur.Some? ==> c.cur.value in c.heap)
    && (k == MAIN ==> c.cur.Some?)
  }

  ghost predicate TrafficOk(k: Key, c: Chan) {
    && (forall i :: 0 <= i < |c.k2u| ==> c.k2u[i].key == k && c.k2u[i].ret == 0)
    && (forall i :: 0 <= i < |c.u2k| ==> c.u2k[i].key == k)
    && (c.mbox.Some? ==> c.mbox.value.name == k && c.mbox.value.ret == 0)
    && (c.hand.Some? ==> c.hand.value.key == k && c.hand.value.ret == 0 && c.hand.value.data != [])
  }

  ghost predicate RequestsOk(k: Key, c: Chan) {
    && Live(c) <= 1
    && (forall i :: 0 <= i < |c.k2u| && c.k2u[i].op == KUBIX_CHANNEL ==> Genuine(c, c.k2u[i]))
    && (BoxRequest(c) ==> Genuine(c, Taken(c.mbox.value, k)))
    && (HandRequest(c) ==> Genuine(c, c.hand.value))
    && (forall i :: 0 <= i < |c.u2k| && c.u2k[i].op == KUBIX_CHANNEL ==> Genuine(c, c.u2k[i]))
  }

  /** The user end exists whenever the kernel end, or a message, relies on it. */
  ghost predicate ServedOk(c: Chan) {
    && c.threads == (if c.mbox.Some? then 1 else 0)
    && (c.hand.Some? ==> c.mbox.Some?)
    && (forall id :: id in c.heap && Opened(c.heap[id]) ==> c.mbox.Some?)
    && (forall i :: 0 <= i < |c.k2u| && c.k2u[i].op != KUBIX_CHANNEL ==> c.mbox.Some?)
    && (forall i :: 0 <= i < |c.u2k| && c.u2k[i].op == KUBIX_CHANNEL ==> c.mbox.Some?)
  }

  ghost predicate Inv(mode: Mode, k: Key, c: Chan) {
    HeapOk(mode, k, c) && TrafficOk(k, c) && RequestsOk(k, c) && ServedOk(c)
  }

  lemma InitInv(mode: Mode, k: Key)
    ensures Inv(mode, k, InitChan(k))
  {
    assert Requests([Hello()]) == 1 by { assert [Hello()][1..] == []; }
  }

  lemma CreateInv(mode: Mode, k: Key, c: Chan, id: nat, request: seq<Byte>)
    requires Inv(mode, k, c) && Enabled(mode, k, c, Create(k, id, request))
    ensures Inv(mode, k, Next(mode, k, c, Create(k, id, request)))
  {}

  lemma ReapInv(mode: Mode, k: Key, c: Chan)
    requires Inv(mode, k, c) && Enabled(mode, k, c, Reap(k))
    ensures Inv(mode, k, Next(mode, k, c, Reap(k)))
  {}

  /** The node `n'` may stand in for `n`: no live request notices. */
  predicate Stands(mode: Mode, k: Key, n: KNode, n': KNode) {
    && NodeOk(mode, k, n') && n'.removed == n.removed
    && Opened(n') == Opened(n) && n'.request == n.request
    && (n'.opener.Created? ==> n.opener.Created?)
  }

  lemma NodeRequests(mode: Mode, k: Key, c: Chan, id: nat, n': KNode)
    requires RequestsOk(k, c) && id in c.heap && Stands(mode, k, c.heap[id], n')
    ensures RequestsOk(k, c.(heap := c.heap[id := n']))
  {
    var c' := c.(heap := c.heap[id := n']);
    assert forall m :: Genuine(c, m) ==> Genuine(c', m);
  }

  /** Sending or acting on a node keeps it in order and never loses a live request. */
  lemma NodeInv(mode: Mode, k: Key, c: Chan, id: nat, n': KNode)
    requires Inv(mode, k, c) && id in c.heap && Stands(mode, k, c.heap[id], n')
    ensures Inv(mode, k, c.(heap := c.heap[id := n']))
  {
    NodeRequests(mode, k, c, id, n');
  }

  lemma ActInv(mode: Mode, k: Key, c: Chan, id: nat, a: Action)
    requires Inv(mode, k, c) && Enabled(mode, k, c, Act(id, a))
    ensures Inv(mode, k, Next(mode, k, c, Act(id, a)))
  {
    NodeInv(mode, k, c, id, AfterAct(c.heap[id], a));
  }

  lemma QueueInv(mode: Mode, k: Key, c: Chan, m: Msg)
    requires Inv(mode, k, c) && m.key == k && m.ret == 0
    requires if m.op == KUBIX_CHANNEL then Genuine(c, m) && Live(c) == 0 else c.mbox.Some?
    ensures Inv(mode, k, c.(k2u := c.k2u + [m]))
  {
    RequestsAppend(c.k2u, m);
  }

  lemma SendInv(mode: Mode, k: Key, c: Chan, id: nat, op: Byte, data: seq<Byte>)
    requires Inv(mode, k, c) && Enabled(mode, k, c, Send(id, op, data))
    ensures Inv(mode, k, Next(mode, k, c, Send(id, op, data)))
  {
    var n := AfterSend(c.heap[id], op);
    var c1 := c.(heap := c.heap[id := n]);
    assert op == KUBIX_CHANNEL ==> Live(c1) == Live(c) == 0;
    NodeInv(mode, k, c, id, n);
    QueueInv(mode, k, c1, Outgoing(c.heap[id], id, op, data));
  }

  /** Only a genuine reply opens a node, and only messages on opened nodes remove one. */
  lemma CallbackNode(mode: Mode, k: Key, c: Chan)
    requires Inv(mode, k, c) && Enabled(mode, k, c, Callback) && c.cur.Some?
    ensures var n, m := c.heap[c.cur.value], c.u2k[0];
            var n' := OnUserMessage(mode.fallThrough, n, m);
            && NodeOk(mode, k, n')
            && (Opened(n') ==> c.mbox.Some?)
            && (m.op == KUBIX_CHANNEL ==> Genuine(c, m) && !n'.removed)
            && (m.op != KUBIX_CHANNEL && !Opened(n) ==> n' == n.(rsp := n'.rsp, userRet := n'.userRet))
  {
    var m := c.u2k[0];
    if m.op == KUBIX_CHANNEL {
      assert Genuine(c, m);
    }
  }

  lemma CallbackRequests(mode: Mode, k: Key, c: Chan)
    requires Inv(mode, k, c) && Enabled(mode, k, c, Callback)
    ensures RequestsOk(k, Next(mode, k, c, Callback))
  {
    var c' := Next(mode, k, c, Callback);
    if c.cur.Some? {
      CallbackNode(mode, k, c);
      assert forall m :: Genuine(c, m) && c.u2k[0].op != KUBIX_CHANNEL ==> Genuine(c', m);
    }
  }

  lemma CallbackInv(mode: Mode, k: Key, c: Chan)
    requires Inv(mode, k, c) && Enabled(mode, k, c, Callback)
    ensures Inv(mode, k, Next(mode, k, c, Callback))
  {
    if c.cur.Some? {
      CallbackNode(mode, k, c);
    }
    CallbackRequests(mode, k, c);
  }

  lemma DispatchInv(mode: Mode, k: Key, c: Chan)
    requires Inv(mode, k, c) && Enabled(mode, k, c, Dispatch)
    ensures Inv(mode, k, Next(mode, k, c, Dispatch))
  {}

  lemma FetchInv(mode: Mode, k: Key, c: Chan, key: Key)
    requires Inv(mode, k, c) && Enabled(mode, k, c, Fetch(key))
    ensures Inv(mode, k, Next(mode, k, c, Fetch(key)))
  {}

  lemma EchoInv(mode: Mode, k: Key, c: Chan, key: Key, err: bool)
    requires Inv(mode, k, c) && Enabled(mode, k, c, Echo(key, err))
    ensures Inv(mode, k, Next(mode, k, c, Echo(key, err)))
  {
    RequestsAppend(c.u2k, c.hand.value);
  }

  lemma AppSendInv(mode: Mode, k: Key, c: Chan, op: Byte, ret: Byte, data: seq<Byte>)
    requires Inv(mode, k, c) && op != KUBIX_CHANNEL
    ensures Inv(mode, k, c.(u2k := c.u2k + [Msg(k, op, ret, data, 0, 0)]))
  {
    RequestsAppend(c.u2k, Msg(k, op, ret, data, 0, 0));
  }

  lemma StepInv(mode: Mode, k: Key, c: Chan, l: Label)
    requires Inv(mode, k, c) && Enabled(mode, k, c, l)
    ensures Inv(mode, k, Next(mode, k, c, l))
  {
    match l
    case Create(_, id, request) => CreateInv(mode, k, c, id, request);
    case Reap(_) => ReapInv(mode, k, c);
    case Send(id, op, data) => SendInv(mode, k, c, id, op, data);
    case Act(id, a) => ActInv(mode, k, c, id, a);
    case Callback => CallbackInv(mode, k, c);
    case Dispatch => DispatchInv(mode, k, c);
    case Fetch(key) => FetchInv(mode, k, c, key);
    case Echo(key, err) => EchoInv(mode, k, c, key, err);
    case AppSend(_, op, ret, data) => AppSendInv(mode, k, c, op, ret, data);
  }

  // ---------- runs ----------

  ghost predicate Legal(mode: Mode, k: Key, c: Chan, ls: seq<Label>)
    decreases |ls|
  {
    ls == [] || (Enabled(mode, k, c, ls[0]) && Legal(mode, k, Next(mode, k, c, ls[0]), ls[1..]))
  }

  ghost function After(mode: Mode, k: Key, c: Chan, ls: seq<Label>): Chan
    requires Legal(mode, k, c, ls)
    decreases |ls|
  {
    if ls == [] then c else After(mode, k, Next(mode, k, c, ls[0]), ls[1..])
  }

  /** The invariant holds in every state of every run. */
  lemma {:induction false} RunInv(mode: Mode, k: Key, c: Chan, ls: seq<Label>)
    requires Inv(mode, k, c) && Legal(mode, k, c, ls)
    ensures Inv(mode, k, After(mode, k, c, ls))
    decreases |ls|
  {
    if ls != [] {
      StepInv(mode, k, c, ls[0]);
      RunInv(mode, k, Next(mode, k, c, ls[0]), ls[1..]);
    }
  }

  // ---------- life cycle ----------

  /** `n'` is a later value of `n`: its rank is no lower, NETLINK was not skipped, and the
      request is the same. */
  predicate Ages(n: KNode, n': KNode) {
    Rank(n) <= Rank(n') && (Rank(n) < 2 ==> Rank(n') <= 2) && n'.request == n.request
  }

  lemma CallbackAges(mode: Mode, k: Key, n: KNode, m: Msg)
    requires NodeOk(mode, k, n) && !n.removed
    requires k == MAIN && m.op == KUBIX_CHANNEL ==> n.state.Init?
    ensures Ages(n, OnUserMessage(mode.fallThrough, n, m))
  {}

  /** No step lowers the rank of a node, changes its request, or skips NETLINK. */
  lemma RankStep(mode: Mode, k: Key, c: Chan, l: Label, id: nat)
    requires Inv(mode, k, c) && Enabled(mode, k, c, l) && id in c.heap
    ensures var c' := Next(mode, k, c, l); id in c'.heap && Ages(c.heap[id], c'.heap[id])
  {
    if l.Callback? && c.cur == Some(id) {
      assert c.u2k[0].op == KUBIX_CHANNEL ==> Genuine(c, c.u2k[0]);
      CallbackAges(mode, k, c.heap[id], c.u2k[0]);
    }
  }

  /** Only the callback opens a node, and only with a reply to that node's own request. */
  lemma OpeningStep(mode: Mode, k: Key, c: Chan, l: Label, id: nat)
    requires Inv(mode, k, c) && Enabled(mode, k, c, l) && id in c.heap
    requires !Opened(c.heap[id]) && Opened(Next(mode, k, c, l).heap[id])
    ensures l.Callback? && c.u2k[0].op == KUBIX_CHANNEL && c.u2k[0].tag == id
    ensures k != MAIN ==> c.heap[id].state.Handshake?
  {
    if l.Callback? {
      CallbackNode(mode, k, c);
    }
  }

  // ---------- a request and what is behind it ----------

  /** A live request can still be overwritten: a message is queued behind it. */
  ghost predicate Covered(c: Chan) {
    || (BoxRequest(c) && c.k2u != [])
    || (exists i :: 0 <= i < |c.k2u| - 1 && c.k2u[i].op == KUBIX_CHANNEL)
  }

  /** The request is the last word on its channel, because nobody is about to say more. */
  ghost predicate Ordered(c: Chan) {
    && !Covered(c)
    && (Live(c) > 0 || (c.cur.Some? && c.cur.value in c.heap && !Opened(c.heap[c.cur.value])) ==> NoSenders(c))
  }

  lemma OrderedSend(mode: Mode, k: Key, c: Chan, id: nat, op: Byte, data: seq<Byte>)
    requires Inv(mode, k, c) && Ordered(c) && Enabled(mode, k, c, Send(id, op, data))
    ensures Ordered(Next(mode, k, c, Send(id, op, data)))
  {
    var c' := Next(mode, k, c, Send(id, op, data));
    RequestsAppend(c.k2u, Outgoing(c.heap[id], id, op, data));
    assert Live(c) == 0;
    assert forall i :: 0 <= i < |c.k2u| ==> c'.k2u[i] == c.k2u[i];
  }

  lemma OrderedCallback(mode: Mode, k: Key, c: Chan)
    requires Inv(mode, k, c) && Ordered(c) && Enabled(mode, k, c, Callback)
    ensures Ordered(Next(mode, k, c, Callback))
  {
    if c.cur.Some? {
      CallbackNode(mode, k, c);
    }
  }

  /** Dispatching never puts a message behind a request. */
  lemma OrderedDispatch(mode: Mode, k: Key, c: Chan)
    requires Enabled(mode, k, c, Dispatch) && !Covered(c) && Live(c) <= 1
    ensures var c' := Next(mode, k, c, Dispatch); !Covered(c') && Live(c') <= Live(c)
  {
    var c' := Next(mode, k, c, Dispatch);
    assert forall i :: 0 <= i < |c'.k2u| ==> c'.k2u[i] == c.k2u[i + 1];
  }

  /** When openers wait for senders, every step of anyone keeps the request the last word. */
  lemma OrderedStep(mode: Mode, k: Key, c: Chan, l: Label)
    requires mode.serial && Inv(mode, k, c) && Ordered(c) && Enabled(mode, k, c, l)
    ensures Ordered(Next(mode, k, c, l))
  {
    match l
    case Send(id, op, data) => OrderedSend(mode, k, c, id, op, data);
    case Callback => OrderedCallback(mode, k, c);
    case Dispatch => OrderedDispatch(mode, k, c);
    case Echo(_, _) => RequestsAppend(c.u2k, c.hand.value);
    case AppSend(_, op, ret, data) => RequestsAppend(c.u2k, Msg(k, op, ret, data, 0, 0));
    case _ =>
  }

  lemma {:induction false} OrderedRun(mode: Mode, k: Key, c: Chan, ls: seq<Label>)
    requires mode.serial && Inv(mode, k, c) && Ordered(c) && Legal(mode, k, c, ls)
    ensures Ordered(After(mode, k, c, ls))
    decreases |ls|
  {
    if ls != [] {
      StepInv(mode, k, c, ls[0]);
      OrderedStep(mode, k, c, ls[0]);
      OrderedRun(mode, k, Next(mode, k, c, ls[0]), ls[1..]);
    }
  }

  lemma InitOrdered(k: Key)
    ensures Ordered(InitChan(k))
  {}

  /** A covered request that is dispatched on is covered still, or lost. */
  lemma CoveredDispatch(mode: Mode, k: Key, c: Chan)
    requires Inv(mode, k, c) && Covered(c)
    ensures Enabled(mode, k, c, Dispatch)
    ensures var c' := Next(mode, k, c, Dispatch); Covered(c') || Live(c') == 0
  {
    var c' := Next(mode, k, c, Dispatch);
    assert forall i :: 0 <= i < |c'.k2u| ==> c'.k2u[i] == c.k2u[i + 1];
    if !BoxRequest(c) {
      var i :| 0 <= i < |c.k2u| - 1 && c.k2u[i].op == KUBIX_CHANNEL;
      assert i > 0 ==> c'.k2u[i - 1].op == KUBIX_CHANNEL;
    }
  }

  // ---------- handshake progress ----------

  /** The reply to its request would open the node now; the main node is opened from INIT. */
  predicate Ready(n: KNode) {
    n.state.Handshake? || (n.key == MAIN && n.state.Init?)
  }

  /** The node is ready and its request is on the way, with nothing behind it. */
  ghost predicate Pending(c: Chan, id: nat) {
    && c.cur == Some(id) && id in c.heap && Ready(c.heap[id])
    && Live(c) == 1 && c.heap[id].request != [] && !Covered(c)
  }

  /** Moving traffic along never loses the request of a ready node, whatever lies ahead of it. */
  lemma PendingStep(mode: Mode, k: Key, c: Chan, l: Label, id: nat)
    requires Inv(mode, k, c) && Enabled(mode, k, c, l) && Transport(l) && (l.Echo? ==> !l.err)
    requires Pending(c, id)
    ensures var c' := Next(mode, k, c, l);
            Pending(c', id) || (id in c'.heap && Opened(c'.heap[id]))
  {
    match l
    case Callback => CallbackNode(mode, k, c);
    case Dispatch => OrderedDispatch(mode, k, c);
    case Fetch(_) =>
    case Echo(_, _) => RequestsAppend(c.u2k, c.hand.value);
  }

  /** A ready node whose request is gone. */
  predicate Stuck(c: Chan, id: nat) {
    c.cur == Some(id) && id in c.heap && Ready(c.heap[id]) && Live(c) == 0
  }

  /** It stays there for ever, whatever anyone does. */
  lemma StuckStep(mode: Mode, k: Key, c: Chan, l: Label, id: nat)
    requires Inv(mode, k, c) && Enabled(mode, k, c, l) && Stuck(c, id)
    ensures Stuck(Next(mode, k, c, l), id)
  {
    match l
    case Callback => CallbackNode(mode, k, c);
    case Echo(_, _) => RequestsAppend(c.u2k, c.hand.value);
    case AppSend(_, op, ret, data) => RequestsAppend(c.u2k, Msg(k, op, ret, data, 0, 0));
    case _ =>
  }

  /** When nothing can move, nothing is on the way. */
  lemma QuietMeansNoRequest(mode: Mode, k: Key, c: Chan)
    requires Inv(mode, k, c)
    requires !Enabled(mode, k, c, Callback) && !Enabled(mode, k, c, Dispatch)
    requires !Enabled(mode, k, c, Fetch(k)) && !Enabled(mode, k, c, Echo(k, false))
    ensures Live(c) == 0
  {}

  // ---------- after the opening ----------

  /** An opened node with an empty slot. */
  predicate Silent(k: Key, c: Chan, id: nat) {
    k != MAIN && id in c.heap && Opened(c.heap[id]) && c.heap[id].rsp == []
  }

  /** As written, nothing ever gets into the slot again: what the callback does not reject
      deletes the node. */
  lemma SilentStep(mode: Mode, k: Key, c: Chan, l: Label, id: nat)
    requires mode.fallThrough && Inv(mode, k, c) && Enabled(mode, k, c, l) && Silent(k, c, id)
    ensures Silent(k, Next(mode, k, c, l), id)
  {
    if l.Callback? && c.cur.Some? {
      CallbackNode(mode, k, c);
    }
  }

  /** An accepted reply waits in the slot for the opener. */
  predicate Accepted(k: Key, c: Chan, id: nat) {
    k != MAIN && id in c.heap && Opened(c.heap[id]) && c.heap[id].opener.Waiting?
  }

  /** As written, only taking the reply changes it. */
  lemma AcceptedStep(mode: Mode, k: Key, c: Chan, l: Label, id: nat)
    requires mode.fallThrough && Inv(mode, k, c) && Enabled(mode, k, c, l) && Accepted(k, c, id)
    requires l != Act(id, TakeReply)
    ensures var c' := Next(mode, k, c, l);
            && Accepted(k, c', id)
            && c'.heap[id].rsp == if l == Act(id, FinishRead) then [] else c.heap[id].rsp
  {
    if l.Callback? && c.cur.Some? {
      CallbackNode(mode, k, c);
    }
  }

  // ---------- the main channel ----------

  /** Until the main node is open, its opening request is all that is ever queued for it. */
  ghost predicate OnlyHello(c: Chan) {
    (exists id :: id in c.heap && Opened(c.heap[id]))
    || forall i :: 0 <= i < |c.k2u| ==> c.k2u[i].op == KUBIX_CHANNEL
  }

  lemma OnlyHelloStep(mode: Mode, c: Chan, l: Label)
    requires Inv(mode, MAIN, c) && Enabled(mode, MAIN, c, l) && OnlyHello(c)
    ensures OnlyHello(Next(mode, MAIN, c, l))
  {
    var c' := Next(mode, MAIN, c, l);
    if id :| id in c.heap && Opened(c.heap[id]) {
      RankStep(mode, MAIN, c, l, id);
      assert id in c'.heap && Opened(c'.heap[id]);
    } else if l.Dispatch? {
      assert forall i :: 0 <= i < |c'.k2u| ==> c'.k2u[i] == c.k2u[i + 1];
    }
  }

  lemma {:induction false} OnlyHelloRun(mode: Mode, c: Chan, ls: seq<Label>)
    requires Inv(mode, MAIN, c) && Legal(mode, MAIN, c, ls) && OnlyHello(c)
    ensures OnlyHello(After(mode, MAIN, c, ls))
    decreases |ls|
  {
    if ls != [] {
      StepInv(mode, MAIN, c, ls[0]);
      OnlyHelloStep(mode, c, ls[0]);
      OnlyHelloRun(mode, Next(mode, MAIN, c, ls[0]), ls[1..]);
    }
  }

  lemma {:induction false} TwoRequests(q: seq<Msg>)
    requires |q| > 1 && forall i :: 0 <= i < |q| ==> q[i].op == KUBIX_CHANNEL
    ensures Requests(q) > 1
  {
    assert q[1..][0].op == KUBIX_CHANNEL;
  }

  /** So a request for the main node is never covered. */
  lemma HelloUncovered(mode: Mode, c: Chan)
    requires Inv(mode, MAIN, c) && OnlyHello(c) && c.cur.Some? && !Opened(c.heap[c.cur.value])
    requires forall id :: id in c.heap ==> c.cur == Some(id)
    ensures !Covered(c)
  {
    if |c.k2u| > 1 {
      TwoRequests(c.k2u);
    }
  }

  // ---------- closed channels ----------

  predicate Closed(n: KNode) {
    n.state.Destroy? || n.removed
  }

  /** A closed node takes no new reader and no new sender: who sends has passed the check
      before, who waits was there before or sends a request now. */
  lemma ClosedStep(mode: Mode, k: Key, c: Chan, l: Label, id: nat)
    requires Inv(mode, k, c) && Enabled(mode, k, c, l) && id in c.heap && Closed(c.heap[id])
    ensures var c' := Next(mode, k, c, l);
            && id in c'.heap && Closed(c'.heap[id])
            && c'.heap[id].senders == c.heap[id].senders - (if l.Send? && l.id == id then 1 else 0)
            && c'.heap[id].readers == c.heap[id].readers
                 + (if l.Send? && l.id == id && l.op == KERNEL_REQUEST then 1 else 0)
                 - (if l == Act(id, FinishRead) then 1 else 0)
  {
    if l.Callback? && c.cur.Some? {
      CallbackNode(mode, k, c);
    }
  }
}
