/** What each call and each message is answered, on every reachable state of the bus, in terms
    of the fields of one node: the callback, the sends, and who may still use a closed channel. */
module Answers {
  import opened Types
  import opened Nodes
  import opened SharedBus
  import opened Multiplexing
  import opened Guarantees
  import Channel

  // ---------- cn_user_msg_callback ----------

  /** The oldest user message is for the channel `k`, whose node in the table is `id`. */
  ghost predicate Arrives(s: Bus, k: Key, id: nat) {
    s.u2k != [] && s.u2k[0].key == k && k in s.kern.table && s.kern.table[k] == id && id in s.kern.heap
  }

  lemma ArrivesAlive(cfg: Config, s: Bus, k: Key, id: nat)
    requires Sound(cfg) && Reachable(cfg, s) && Arrives(s, k, id)
    ensures Enabled(cfg, s, Callback) && Next(cfg, s, Callback).u2k == s.u2k[1..]
    ensures s.kern.heap[id].key == k && !s.kern.heap[id].removed
    ensures s.u2k[0].op == KUBIX_CHANNEL ==> s.u2k[0].ret == 0 && !Opened(s.kern.heap[id])
  {
    ReachableInv(cfg, s, MAIN);
    NodeFacts(cfg, s, id);
    var i', j' := OnChannelOrder(s.u2k, k, 0, 0);
    assert s.u2k[0].op == KUBIX_CHANNEL ==> Channel.Genuine(Project(s, k), s.u2k[0]);
  }

  /** The five codes that an open channel does not expect from its user. */
  predicate Unexpected(op: Byte) {
    op == KUBIX_CHANNEL || op == KERNEL_REQUEST || op == KERNEL_RELEASE || op == KERNEL_REPORT || op == NO_ACTION
  }

  /** An open channel ignores those five. As written, every other message takes its node out of
      the table with the slot as it was; with the `break` put in, it is stored, and USER_RELEASE
      closes the channel. */
  lemma OpenNodeAnswers(cfg: Config, s: Bus, k: Key, id: nat)
    requires Sound(cfg) && Reachable(cfg, s) && Arrives(s, k, id) && k != MAIN
    requires s.kern.heap[id].state.Netlink?
    ensures Enabled(cfg, s, Callback)
    ensures var m, n, kn := s.u2k[0], s.kern.heap[id], Next(cfg, s, Callback).kern;
            && id in kn.heap
            && var n' := kn.heap[id];
            && (Unexpected(m.op) ==> kn == s.kern)
            && (!Unexpected(m.op) && cfg.mode.fallThrough ==>
                  k !in kn.table && n'.removed && n'.rsp == n.rsp && n'.userRet == n.userRet)
            && (!Unexpected(m.op) && !cfg.mode.fallThrough ==>
                  kn.table == s.kern.table && !n'.removed && n'.rsp == m.data && n'.userRet == m.ret)
            && (!Unexpected(m.op) ==> n'.state == if m.op == USER_RELEASE then Destroy else Netlink)
  {
    ArrivesAlive(cfg, s, k, id);
  }

  /** A node in INIT answers every message with 255; one in HANDSHAKE answers every message but
      the reply to its request with 254. The bytes go into the slot with the answer, and only
      that reply opens the node. */
  lemma UnopenedNodeAnswers(cfg: Config, s: Bus, k: Key, id: nat)
    requires Sound(cfg) && Reachable(cfg, s) && Arrives(s, k, id) && k != MAIN
    requires s.kern.heap[id].state.Init? || s.kern.heap[id].state.Handshake?
    ensures Enabled(cfg, s, Callback)
    ensures var m, n, kn := s.u2k[0], s.kern.heap[id], Next(cfg, s, Callback).kern;
            && id in kn.heap && kn.table == s.kern.table
            && var n' := kn.heap[id];
            && !n'.removed && n'.opener == n.opener && n'.rsp == m.data
            && (n.state.Init? ==> n'.state == Init && n'.userRet == 255)
            && (n.state.Handshake? && m.op != KUBIX_CHANNEL ==> n'.state == Handshake && n'.userRet == 254)
            && (n.state.Handshake? && m.op == KUBIX_CHANNEL ==> n'.state == Netlink && n'.userRet == 0)
  {
    ArrivesAlive(cfg, s, k, id);
  }

  /** Any message for a node in DESTROY takes it out of the table. */
  lemma ClosedNodeAnswers(cfg: Config, s: Bus, k: Key, id: nat)
    requires Sound(cfg) && Reachable(cfg, s) && Arrives(s, k, id) && k != MAIN
    requires s.kern.heap[id].state.Destroy?
    ensures Enabled(cfg, s, Callback)
    ensures var kn := Next(cfg, s, Callback).kern;
            k !in kn.table && id in kn.heap && kn.heap[id] == s.kern.heap[id].(removed := true)
  {
    ArrivesAlive(cfg, s, k, id);
  }

  /** A message without a node changes nothing at the kernel end. */
  lemma NobodyAnswers(cfg: Config, s: Bus)
    requires s.u2k != [] && s.u2k[0].key !in s.kern.table
    ensures Enabled(cfg, s, Callback) && Next(cfg, s, Callback) == s.(u2k := s.u2k[1..])
  {}

  /** An opener that waits in HANDSHAKE while a foreign message comes in is told 254 and reads
      that message's bytes. */
  lemma ForeignWordInHandshake(cfg: Config, s: Bus, k: Key, id: nat)
    requires Sound(cfg) && Reachable(cfg, s) && Arrives(s, k, id) && k != MAIN && s.u2k[0].op != KUBIX_CHANNEL
    requires s.kern.heap[id].state.Handshake? && s.kern.heap[id].opener.Waiting?
    ensures var ls := [Callback] + [Act(id, TakeReply)];
            && Legal(cfg, s, ls) && id in After(cfg, s, ls).kern.heap
            && var n := After(cfg, s, ls).kern.heap[id];
               n.opener == Returned(254, s.u2k[0].data) && n.rsp == [] && n.state == Handshake
  {
    UnopenedNodeAnswers(cfg, s, k, id);
    var s1 := Next(cfg, s, Callback);
    var s2 := Next(cfg, s1, Act(id, TakeReply));
    ThenAnd(cfg, s1, Act(id, TakeReply), []);
    assert [Act(id, TakeReply)] + [] == [Act(id, TakeReply)];
    ThenAnd(cfg, s, Callback, [Act(id, TakeReply)]);
  }

  /** When the message comes before the late HANDSHAKE assignment the opener is told 255. */
  lemma ForeignWordInInit(cfg: Config, s: Bus, k: Key, id: nat)
    requires Sound(cfg) && Reachable(cfg, s) && Arrives(s, k, id) && k != MAIN
    requires s.kern.heap[id].state.Init? && s.kern.heap[id].opener.Sent?
    ensures var ls := [Callback] + ([Act(id, MarkHandshake)] + [Act(id, TakeReply)]);
            && Legal(cfg, s, ls) && id in After(cfg, s, ls).kern.heap
            && var n := After(cfg, s, ls).kern.heap[id];
               n.opener == Returned(255, s.u2k[0].data) && n.rsp == [] && n.state == Handshake
  {
    UnopenedNodeAnswers(cfg, s, k, id);
    var s1 := Next(cfg, s, Callback);
    var s2 := Next(cfg, s1, Act(id, MarkHandshake));
    ThenAnd(cfg, s2, Act(id, TakeReply), []);
    assert [Act(id, TakeReply)] + [] == [Act(id, TakeReply)];
    ThenAnd(cfg, s1, Act(id, MarkHandshake), [Act(id, TakeReply)]);
    ThenAnd(cfg, s, Callback, [Act(id, MarkHandshake)] + [Act(id, TakeReply)]);
  }

  // ---------- kubix_handshake: the main node ----------

  /** The main node takes KUBIX_CHANNEL as its opening and ignores every other code. */
  lemma MainAnswers(cfg: Config, s: Bus, id: nat)
    requires Sound(cfg) && Reachable(cfg, s) && Arrives(s, MAIN, id)
    ensures Enabled(cfg, s, Callback)
    ensures var kn := Next(cfg, s, Callback).kern;
            && (s.u2k[0].op != KUBIX_CHANNEL ==> kn == s.kern)
            && (s.u2k[0].op == KUBIX_CHANNEL ==>
                  && kn.table == s.kern.table && id in kn.heap
                  && s.kern.heap[id].state == Init && kn.heap[id] == s.kern.heap[id].(state := Netlink))
  {
    ArrivesAlive(cfg, s, MAIN, id);
    NodeFacts(cfg, s, id);
  }

  /** In every reachable state the main node is in the table, and it is the only one of its key. */
  lemma MainStays(cfg: Config, s: Bus)
    requires Sound(cfg) && Reachable(cfg, s)
    ensures Has(s.kern, MAIN) && At(s.kern, MAIN).key == MAIN && At(s.kern, MAIN).request == HELLO
    ensures forall id :: id in s.kern.heap && s.kern.heap[id].key == MAIN ==> s.kern.table[MAIN] == id
  {
    ReachableInv(cfg, s, MAIN);
    var c := Project(s, MAIN);
    assert c.cur.Some? && c.cur.value in c.heap;
    forall id | id in s.kern.heap && s.kern.heap[id].key == MAIN
      ensures s.kern.table[MAIN] == id
    {
      assert id in c.heap && !c.heap[id].removed;
    }
  }

  /** The transport opens the main node, whatever its order, exactly when its hello, or the reply
      to it, is still on the way: nothing is ever queued behind the hello. */
  lemma MainProgress(cfg: Config, s: Bus)
    requires Sound(cfg) && Reachable(cfg, s)
    ensures Has(s.kern, MAIN)
    ensures !Opened(At(s.kern, MAIN)) ==>
              (AlwaysOpened(cfg, s, s.kern.table[MAIN]) <==> LiveRequests(s, MAIN) == 1)
  {
    MainStays(cfg, s);
    var id, c := s.kern.table[MAIN], Project(s, MAIN);
    NodeFacts(cfg, s, id);
    if !Opened(s.kern.heap[id]) {
      var ls :| Legal(cfg, InitBus(), ls) && After(cfg, InitBus(), ls) == s;
      InitProjects(cfg, MAIN);
      MultiplexingInvisible(cfg, InitBus(), ls, MAIN);
      Channel.InitInv(cfg.mode, MAIN);
      Channel.OnlyHelloRun(cfg.mode, Channel.InitChan(MAIN), Trace(cfg, InitBus(), ls, MAIN));
      Channel.HelloUncovered(cfg.mode, c);
      HandshakeProgress(cfg, s, id);
    }
  }

  lemma TransportStepLeavesMainUp(cfg: Config, s: Bus, l: Label)
    requires Sound(cfg) && Reachable(cfg, s) && Enabled(cfg, s, l) && Transport(l)
    requires Has(s.kern, MAIN) && !At(s.kern, MAIN).state.Destroy?
    ensures var kn := Next(cfg, s, l).kern;
            Has(kn, MAIN) && !At(kn, MAIN).state.Destroy? && kn.table[MAIN] == s.kern.table[MAIN]
  {
    ReachableInv(cfg, s, MAIN);
    if l.Callback? && s.u2k[0].key == MAIN {
      MainAnswers(cfg, s, s.kern.table[MAIN]);
    }
  }

  /** Only a release that the kernel sent closes the main node. */
  lemma {:induction false} TransportLeavesMainUp(cfg: Config, s: Bus, ls: seq<Label>)
    requires Sound(cfg) && Reachable(cfg, s) && Legal(cfg, s, ls) && AllEchoed(ls)
    requires Has(s.kern, MAIN) && !At(s.kern, MAIN).state.Destroy?
    ensures Has(After(cfg, s, ls).kern, MAIN) && !At(After(cfg, s, ls).kern, MAIN).state.Destroy?
    ensures After(cfg, s, ls).kern.table[MAIN] == s.kern.table[MAIN]
    decreases |ls|
  {
    if ls != [] {
      TransportStepLeavesMainUp(cfg, s, ls[0]);
      ReachableStep(cfg, s, ls[0]);
      TransportLeavesMainUp(cfg, Next(cfg, s, ls[0]), ls[1..]);
    }
  }

  lemma InitReachable(cfg: Config)
    ensures Reachable(cfg, InitBus())
  {
    assert Legal(cfg, InitBus(), []) && After(cfg, InitBus(), []) == InitBus();
  }

  /** After module init every maximal run of the transport leaves the main node in NETLINK. */
  lemma MainOpens(cfg: Config, ls: seq<Label>)
    requires Sound(cfg) && Legal(cfg, InitBus(), ls) && AllEchoed(ls) && Quiet(cfg, After(cfg, InitBus(), ls))
    ensures var kn := After(cfg, InitBus(), ls).kern; Has(kn, MAIN) && At(kn, MAIN).state == Netlink
  {
    InitReachable(cfg);
    MainProgress(cfg, InitBus());
    InitProjects(cfg, MAIN);
    Channel.RequestsAppend([], Hello());
    assert [] + [Hello()] == [Hello()];
    assert LiveRequests(InitBus(), MAIN) == 1;
    TransportLeavesMainUp(cfg, InitBus(), ls);
  }

  // ---------- send_message_to_userspace ----------

  lemma CurrentNode(cfg: Config, s: Bus, k: Key)
    requires Sound(cfg) && Reachable(cfg, s) && Has(s.kern, k)
    ensures At(s.kern, k).key == k && !At(s.kern, k).removed
  {
    ReachableInv(cfg, s, MAIN);
    NodeFacts(cfg, s, s.kern.table[k]);
    assert Project(s, k).cur == Some(s.kern.table[k]);
  }

  /** On an open channel a request, a release or a report passes the check and is sent, with
      result 0, the bytes and the node's number, behind all that is queued. The request leaves
      one more thread waiting for the slot, the release one that is about to close the channel. */
  lemma OpenChannelSends(cfg: Config, s: Bus, k: Key, op: Byte, data: seq<Byte>)
    requires Sound(cfg) && Reachable(cfg, s) && Has(s.kern, k) && At(s.kern, k).state.Netlink?
    requires op == KERNEL_REQUEST || op == KERNEL_RELEASE || op == KERNEL_REPORT
    ensures var id, n := s.kern.table[k], At(s.kern, k);
            var ls := [Act(id, StartSend)] + [Send(id, op, data)];
            && Legal(cfg, s, ls)
            && var s' := After(cfg, s, ls);
            && s'.k2u == s.k2u + [Msg(k, op, 0, data, n.seqNo, id)]
            && s'.u2k == s.u2k && s'.user == s.user && s'.kern.table == s.kern.table && id in s'.kern.heap
            && var n' := s'.kern.heap[id];
            && n'.seqNo == (n.seqNo + 1) % 0x1_0000_0000 && n'.state == Netlink && n'.senders == n.senders
            && n'.rsp == n.rsp && n'.userRet == n.userRet && n'.opener == n.opener && !n'.removed
            && n'.readers == n.readers + (if op == KERNEL_REQUEST then 1 else 0)
            && n'.marks == n.marks + (if op == KERNEL_RELEASE then 1 else 0)
  {
    var id := s.kern.table[k];
    CurrentNode(cfg, s, k);
    var s1 := Next(cfg, s, Act(id, StartSend));
    ThenAnd(cfg, s1, Send(id, op, data), []);
    assert [Send(id, op, data)] + [] == [Send(id, op, data)];
    ThenAnd(cfg, s, Act(id, StartSend), [Send(id, op, data)]);
  }

  /** Nothing but these three and the opening request is ever sent, and only after the check. */
  lemma NothingElseIsSent(cfg: Config, s: Bus, id: nat, op: Byte, data: seq<Byte>)
    requires Enabled(cfg, s, Send(id, op, data))
    ensures op == KUBIX_CHANNEL || op == KERNEL_REQUEST || op == KERNEL_RELEASE || op == KERNEL_REPORT
    ensures op != KUBIX_CHANNEL ==> s.kern.heap[id].senders > 0
    ensures op == KUBIX_CHANNEL ==> s.kern.heap[id].opener.Created? && data == s.kern.heap[id].request
  {}

  /** A new reader or sender needs a node in NETLINK that is still in the table. */
  lemma OnlyOpenChannels(cfg: Config, s: Bus, id: nat)
    requires Sound(cfg) && Reachable(cfg, s) && id in s.kern.heap
    ensures var n := s.kern.heap[id];
            && (Enabled(cfg, s, Act(id, StartSend)) <==>
                  n.state == Netlink && n.key in s.kern.table && s.kern.table[n.key] == id)
            && (Enabled(cfg, s, Act(id, StartRead)) <==> Enabled(cfg, s, Act(id, StartSend)))
  {
    NodeFacts(cfg, s, id);
    assert Project(s, s.kern.heap[id].key).cur == Some(id) <==> !s.kern.heap[id].removed;
  }

  // ---------- closed channels ----------

  /** How often a run sends from node `id`, sends a request from it, and ends a wait on it. */
  function Sends(ls: seq<Label>, id: nat): nat {
    if ls == [] then 0 else (if ls[0].Send? && ls[0].id == id then 1 else 0) + Sends(ls[1..], id)
  }

  function RequestsSent(ls: seq<Label>, id: nat): (r: nat)
    ensures r <= Sends(ls, id)
  {
    if ls == [] then 0
    else (if ls[0].Send? && ls[0].id == id && ls[0].op == KERNEL_REQUEST then 1 else 0) + RequestsSent(ls[1..], id)
  }

  function WaitsEnded(ls: seq<Label>, id: nat): nat {
    if ls == [] then 0 else (if ls[0] == Act(id, FinishRead) then 1 else 0) + WaitsEnded(ls[1..], id)
  }

  /** Over every run a node that was closed gets no new sender: each send uses up one of those
      that had passed the check. It gets no new reader but by such a sender's request. */
  lemma {:induction false} ClosedTakesNobody(cfg: Config, s: Bus, ls: seq<Label>, id: nat)
    requires Sound(cfg) && Reachable(cfg, s) && Legal(cfg, s, ls)
    requires id in s.kern.heap && (s.kern.heap[id].state == Destroy || s.kern.heap[id].removed)
    ensures var h := After(cfg, s, ls).kern.heap;
            && id in h && (h[id].state == Destroy || h[id].removed)
            && h[id].senders == s.kern.heap[id].senders - Sends(ls, id)
            && h[id].readers == s.kern.heap[id].readers + RequestsSent(ls, id) - WaitsEnded(ls, id)
    decreases |ls|
  {
    if ls != [] {
      var k := s.kern.heap[id].key;
      NodeStep(cfg, s, ls[0], id);
      if Concerns(s, ls[0], k) {
        Channel.ClosedStep(cfg.mode, k, Project(s, k), ls[0], id);
      }
      ClosedTakesNobody(cfg, Next(cfg, s, ls[0]), ls[1..], id);
    }
  }
}
