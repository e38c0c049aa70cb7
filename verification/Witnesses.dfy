/** Concrete runs behind the conditions of the theorems: they are needed, and they can be met. */
module Witnesses {
  import opened Types
  import opened Nodes
  import opened SharedBus
  import opened Multiplexing
  import opened Embedding
  import opened Channel
  import Guarantees

  /** Some run of the private channel `k` ends in `c`. */
  ghost predicate CanBe(mode: Mode, k: Key, c: Chan) {
    exists ls :: Channel.Legal(mode, k, InitChan(k), ls) && SparesZero(ls)
                 && Channel.After(mode, k, InitChan(k), ls) == c
  }

  lemma {:induction false} LastStep(mode: Mode, k: Key, c: Chan, ls: seq<Label>, l: Label)
    requires Channel.Legal(mode, k, c, ls) && Channel.Enabled(mode, k, Channel.After(mode, k, c, ls), l)
    ensures Channel.Legal(mode, k, c, ls + [l])
    ensures Channel.After(mode, k, c, ls + [l])
         == Channel.Next(mode, k, Channel.After(mode, k, c, ls), l)
    decreases |ls|
  {
    if ls == [] {
      assert ls + [l] == [l] && [l][1..] == [];
      assert Channel.Legal(mode, k, Channel.Next(mode, k, c, l), []);
    } else {
      assert (ls + [l])[1..] == ls[1..] + [l];
      LastStep(mode, k, Channel.Next(mode, k, c, ls[0]), ls[1..], l);
    }
  }

  lemma Go(mode: Mode, k: Key, c: Chan, l: Label)
    requires CanBe(mode, k, c) && Channel.Enabled(mode, k, c, l) && (l.Create? ==> l.id != 0)
    ensures CanBe(mode, k, Channel.Next(mode, k, c, l))
  {
    var ls :| Channel.Legal(mode, k, InitChan(k), ls) && SparesZero(ls)
              && Channel.After(mode, k, InitChan(k), ls) == c;
    LastStep(mode, k, InitChan(k), ls, l);
    assert SparesZero(ls + [l]);
  }

  /** A quiet channel without a node in the kernel table: an opener gets as far as waiting. */
  lemma Ask(mode: Mode, k: Key, c: Chan, id: nat, r: seq<Byte>) returns (c': Chan)
    requires CanBe(mode, k, c) && k != MAIN && c.cur.None? && id !in c.heap && id != 0
    requires mode.serial ==> Channel.NoSenders(c)
    ensures CanBe(mode, k, c')
    ensures c' == c.(heap := c.heap[id := KNode(k, Handshake, false, 2, [], 0, Waiting, 0, 0, 0, r)],
                     cur := Some(id), k2u := c.k2u + [Msg(k, KUBIX_CHANNEL, 0, r, 1, id)])
  {
    Go(mode, k, c, Create(k, id, r));
    var c1 := Channel.Next(mode, k, c, Create(k, id, r));
    Go(mode, k, c1, Send(id, KUBIX_CHANNEL, r));
    var c2 := Channel.Next(mode, k, c1, Send(id, KUBIX_CHANNEL, r));
    Go(mode, k, c2, Act(id, MarkHandshake));
    c' := Channel.Next(mode, k, c2, Act(id, MarkHandshake));
  }

  /** The full mailbox travels to a node in HANDSHAKE. */
  lemma Answer(mode: Mode, k: Key, c: Chan, id: nat) returns (c': Chan)
    requires CanBe(mode, k, c) && k != MAIN && c.cur == Some(id) && id in c.heap
    requires c.heap[id].state.Handshake? && c.heap[id].key == k
    requires c.u2k == [] && c.hand.None? && c.threads > 0
    requires c.mbox.Some? && c.mbox.value.data != [] && c.mbox.value.op == KUBIX_CHANNEL && c.mbox.value.ret == 0
    requires !c.heap[id].removed
    ensures CanBe(mode, k, c')
    ensures c' == c.(heap := c.heap[id := c.heap[id].(state := Netlink, rsp := c.mbox.value.data, userRet := 0)],
                     mbox := Some(Drained(c.mbox.value)))
  {
    Go(mode, k, c, Fetch(k));
    var c1 := Channel.Next(mode, k, c, Fetch(k));
    Go(mode, k, c1, Echo(k, false));
    var c2 := Channel.Next(mode, k, c1, Echo(k, false));
    assert c2.u2k[1..] == [];
    Go(mode, k, c2, Callback);
    c' := Channel.Next(mode, k, c2, Callback);
  }

  /** The first opening of a channel, up to the accepted reply in the slot. */
  lemma FirstOpening(mode: Mode, k: Key, r: seq<Byte>) returns (c: Chan)
    requires k != MAIN && r != []
    ensures CanBe(mode, k, c)
    ensures c == Chan(map[1 := KNode(k, Netlink, false, 2, r, 0, Waiting, 0, 0, 0, r)], Some(1), [],
                      Some(Mailbox(k, KUBIX_CHANNEL, 0, [], 1)), 1, None, [])
  {
    var c0 := InitChan(k);
    assert Channel.Legal(mode, k, c0, []) && SparesZero([]) && CanBe(mode, k, c0);
    var c1 := Ask(mode, k, c0, 1, r);
    Go(mode, k, c1, Dispatch);
    var c2 := Channel.Next(mode, k, c1, Dispatch);
    assert c2.k2u == [];
    c := Answer(mode, k, c2, 1);
  }

  /** An opener with a non-empty request is told 0 and reads it back in some run. */
  lemma EchoHappens(mode: Mode, k: Key, r: seq<Byte>) returns (c: Chan)
    requires k != MAIN && r != []
    ensures CanBe(mode, k, c) && 1 in c.heap && c.heap[1].request == r && c.heap[1].opener == Returned(0, r)
  {
    var c1 := FirstOpening(mode, k, r);
    Go(mode, k, c1, Act(1, TakeReply));
    c := Channel.Next(mode, k, c1, Act(1, TakeReply));
  }

  /** With the missing `break` put in, a user message can replace an unread reply: the opener
      is told 0 and reads other bytes than it sent. */
  lemma EchoNeedsFallThrough(mode: Mode, k: Key, r: seq<Byte>, other: seq<Byte>) returns (c: Chan)
    requires !mode.fallThrough && k != MAIN && r != [] && other != []
    ensures CanBe(mode, k, c) && 1 in c.heap && c.heap[1].request == r && c.heap[1].opener == Returned(0, other)
  {
    var c1 := FirstOpening(mode, k, r);
    var c2 := UserMessage(mode, k, c1, other);
    Go(mode, k, c2, Act(1, TakeReply));
    c := Channel.Next(mode, k, c2, Act(1, TakeReply));
  }

  /** With the `break` put in, a message of the application fills the slot of an open channel. */
  lemma UserMessage(mode: Mode, k: Key, c: Chan, other: seq<Byte>) returns (c': Chan)
    requires !mode.fallThrough && CanBe(mode, k, c) && k != MAIN && c.u2k == []
    requires c.cur == Some(1) && 1 in c.heap && c.heap[1].key == k && c.heap[1].state.Netlink? && !c.heap[1].removed
    ensures CanBe(mode, k, c')
    ensures c' == c.(heap := c.heap[1 := c.heap[1].(rsp := other, userRet := 0)])
  {
    Go(mode, k, c, AppSend(k, USER_MESSAGE, 0, other));
    var c1 := Channel.Next(mode, k, c, AppSend(k, USER_MESSAGE, 0, other));
    Go(mode, k, c1, Callback);
    c' := Channel.Next(mode, k, c1, Callback);
  }

  /** With the `break` put in, the empty slot of an opened node is filled again. */
  lemma SlotFilledAgain(mode: Mode, k: Key) returns (c: Chan, ls: seq<Label>)
    requires !mode.fallThrough && k != MAIN
    ensures CanBe(mode, k, c) && 1 in c.heap && Opened(c.heap[1]) && c.heap[1].rsp == []
    ensures SparesZero(ls) && Channel.Legal(mode, k, c, ls)
    ensures 1 in Channel.After(mode, k, c, ls).heap && Channel.After(mode, k, c, ls).heap[1].rsp != []
  {
    var c1 := FirstOpening(mode, k, [1]);
    Go(mode, k, c1, Act(1, TakeReply));
    c := Channel.Next(mode, k, c1, Act(1, TakeReply));
    var l := AppSend(k, USER_MESSAGE, 0, [1]);
    var c2 := Channel.Next(mode, k, c, l);
    ls := [l, Callback];
    assert ls[1..] == [Callback] && [Callback][1..] == [];
    assert Channel.Legal(mode, k, c2, [Callback]);
    assert Channel.After(mode, k, c2, [Callback]) == Channel.Next(mode, k, c2, Callback);
  }

  /** An interrupted opener is told 0 and reads nothing, while its request is still queued. */
  lemma InterruptedOpener(mode: Mode, k: Key, r: seq<Byte>) returns (c: Chan)
    requires k != MAIN
    ensures CanBe(mode, k, c) && 1 in c.heap && c.heap[1].request == r
    ensures c.heap[1].opener == Returned(0, []) && c.heap[1].state.Handshake? && Live(c) == 1
  {
    var c0 := InitChan(k);
    assert Channel.Legal(mode, k, c0, []) && SparesZero([]) && CanBe(mode, k, c0);
    var c1 := Ask(mode, k, c0, 1, r);
    Go(mode, k, c1, Act(1, TakeReply));
    c := Channel.Next(mode, k, c1, Act(1, TakeReply));
    RequestsAppend([], c.k2u[0]);
  }

  /** The reply overtakes the late HANDSHAKE assignment: it meets the node in INIT, is stored as
      an error, and the node goes to HANDSHAKE with nobody left to answer. */
  lemma OvertakenMark(mode: Mode, k: Key, r: seq<Byte>) returns (c: Chan)
    requires k != MAIN && r != []
    ensures CanBe(mode, k, c) && c.cur == Some(1) && 1 in c.heap && Live(c) == 0
    ensures c.heap[1] == KNode(k, Handshake, false, 2, r, IMPOSSIBLE_STATE, Waiting, 0, 0, 0, r)
  {
    var c0 := InitChan(k);
    assert Channel.Legal(mode, k, c0, []) && SparesZero([]) && CanBe(mode, k, c0);
    Go(mode, k, c0, Create(k, 1, r));
    var c1 := Channel.Next(mode, k, c0, Create(k, 1, r));
    Go(mode, k, c1, Send(1, KUBIX_CHANNEL, r));
    var c2 := Channel.Next(mode, k, c1, Send(1, KUBIX_CHANNEL, r));
    Go(mode, k, c2, Dispatch);
    var c3 := Channel.Next(mode, k, c2, Dispatch);
    c := MarkedTooLate(mode, k, c3, r);
  }

  lemma MarkedTooLate(mode: Mode, k: Key, c: Chan, r: seq<Byte>) returns (c': Chan)
    requires CanBe(mode, k, c) && k != MAIN && r != []
    requires c == Chan(map[1 := NewNode(k, r).(seqNo := 2, opener := Sent)], Some(1), [],
                       Some(Mailbox(k, KUBIX_CHANNEL, 0, r, 1)), 1, None, [])
    ensures CanBe(mode, k, c') && c'.cur == Some(1) && 1 in c'.heap && Live(c') == 0
    ensures c'.heap[1] == KNode(k, Handshake, false, 2, r, IMPOSSIBLE_STATE, Waiting, 0, 0, 0, r)
  {
    Go(mode, k, c, Fetch(k));
    var c1 := Channel.Next(mode, k, c, Fetch(k));
    Go(mode, k, c1, Echo(k, false));
    var c2 := Channel.Next(mode, k, c1, Echo(k, false));
    Go(mode, k, c2, Callback);
    var c3 := Channel.Next(mode, k, c2, Callback);
    Go(mode, k, c3, Act(1, MarkHandshake));
    c' := Channel.Next(mode, k, c3, Act(1, MarkHandshake));
  }

  /** A reader empties the slot before the accepted opener looks into it. */
  lemma StolenReply(mode: Mode, k: Key, r: seq<Byte>) returns (c: Chan)
    requires k != MAIN && r != []
    ensures CanBe(mode, k, c) && 1 in c.heap && c.heap[1].request == r
    ensures Opened(c.heap[1]) && c.heap[1].opener.Waiting? && c.heap[1].rsp == []
  {
    var c1 := FirstOpening(mode, k, r);
    Go(mode, k, c1, Act(1, StartRead));
    var c2 := Channel.Next(mode, k, c1, Act(1, StartRead));
    Go(mode, k, c2, Act(1, FinishRead));
    c := Channel.Next(mode, k, c2, Act(1, FinishRead));
  }

  /** Node 1 leaves the table while one sender stands between its state check and its send. */
  lemma SenderLeftBehind(mode: Mode, k: Key, r: seq<Byte>, x: seq<Byte>) returns (c: Chan)
    requires k != MAIN && r != []
    ensures CanBe(mode, k, c)
    ensures c == Chan(map[1 := KNode(k, Destroy, true, 3, r, 0, Waiting, 1, 0, 0, r)], None,
                      [Msg(k, KERNEL_RELEASE, 0, x, 2, 1)], Some(Mailbox(k, KUBIX_CHANNEL, 0, [], 1)), 1, None, [])
  {
    var c1 := FirstOpening(mode, k, r);
    Go(mode, k, c1, Act(1, StartSend));
    var c2 := Channel.Next(mode, k, c1, Act(1, StartSend));
    Go(mode, k, c2, Act(1, StartSend));
    var c3 := Channel.Next(mode, k, c2, Act(1, StartSend));
    c := Released(mode, k, c3, x);
  }

  /** One of the senders releases the channel, and an opener drops the node. */
  lemma Released(mode: Mode, k: Key, c: Chan, x: seq<Byte>) returns (c': Chan)
    requires CanBe(mode, k, c) && k != MAIN && c.cur == Some(1) && 1 in c.heap
    requires c.heap[1].senders > 0 && c.heap[1].marks == 0 && c.heap[1].key == k
    ensures CanBe(mode, k, c')
    ensures var n := c.heap[1];
            c' == c.(heap := c.heap[1 := n.(state := Destroy, removed := true, seqNo := NextSeq(n.seqNo),
                                            senders := n.senders - 1)],
                     cur := None, k2u := c.k2u + [Msg(k, KERNEL_RELEASE, 0, x, n.seqNo, 1)])
  {
    Go(mode, k, c, Send(1, KERNEL_RELEASE, x));
    var c1 := Channel.Next(mode, k, c, Send(1, KERNEL_RELEASE, x));
    Go(mode, k, c1, Act(1, MarkDestroy));
    var c2 := Channel.Next(mode, k, c1, Act(1, MarkDestroy));
    Go(mode, k, c2, Reap(k));
    c' := Channel.Next(mode, k, c2, Reap(k));
  }

  /** It sends after the key was opened again: its report is queued behind the new request. */
  lemma LateReport(mode: Mode, k: Key, r: seq<Byte>, x: seq<Byte>) returns (c: Chan)
    requires !mode.serial && k != MAIN && r != []
    ensures CanBe(mode, k, c) && c.u2k == [] && c.hand.None? && c.mbox.Some? && c.cur == Some(2) && 2 in c.heap
    ensures c.heap[2] == KNode(k, Handshake, false, 2, [], 0, Waiting, 0, 0, 0, r)
    ensures c.k2u == [Msg(k, KERNEL_RELEASE, 0, x, 2, 1), Msg(k, KUBIX_CHANNEL, 0, r, 1, 2),
                      Msg(k, KERNEL_REPORT, 0, x, 3, 1)]
  {
    var c1 := SenderLeftBehind(mode, k, r, x);
    var c2 := Ask(mode, k, c1, 2, r);
    Go(mode, k, c2, Send(1, KERNEL_REPORT, x));
    c := Channel.Next(mode, k, c2, Send(1, KERNEL_REPORT, x));
  }

  /** Two turns of the dispatcher later the report is about to overwrite the request. */
  lemma CoveredBox(mode: Mode, k: Key, r: seq<Byte>, x: seq<Byte>) returns (c: Chan)
    requires !mode.serial && k != MAIN && r != []
    ensures CanBe(mode, k, c) && 2 in c.heap && c.heap[2].request == r && c.heap[2].state.Handshake?
    ensures BoxRequest(c) && c.k2u == [Msg(k, KERNEL_REPORT, 0, x, 3, 1)]
  {
    var c1 := LateReport(mode, k, r, x);
    Go(mode, k, c1, Dispatch);
    var c2 := Channel.Next(mode, k, c1, Dispatch);
    Go(mode, k, c2, Dispatch);
    c := Channel.Next(mode, k, c2, Dispatch);
  }

  /** An empty request can be answered with bytes left over from an earlier incarnation: its
      operation code lands on their buffer. */
  lemma EchoNeedsPayload(mode: Mode, k: Key, left: seq<Byte>) returns (c: Chan)
    requires k != MAIN && left != []
    ensures CanBe(mode, k, c) && 2 in c.heap
    ensures c.heap[2].request == [] && c.heap[2].opener == Returned(0, left)
  {
    var c1 := FirstOpening(mode, k, left);
    Go(mode, k, c1, Act(1, StartSend));
    var c1' := Channel.Next(mode, k, c1, Act(1, StartSend));
    Go(mode, k, c1', Send(1, KERNEL_RELEASE, left));
    var c2 := Channel.Next(mode, k, c1', Send(1, KERNEL_RELEASE, left));
    Go(mode, k, c2, Act(1, MarkDestroy));
    var c3 := Channel.Next(mode, k, c2, Act(1, MarkDestroy));
    Go(mode, k, c3, Reap(k));
    c := SecondOpening(mode, k, Channel.Next(mode, k, c3, Reap(k)), left);
  }

  lemma SecondOpening(mode: Mode, k: Key, c: Chan, left: seq<Byte>) returns (c': Chan)
    requires CanBe(mode, k, c) && k != MAIN && c.cur.None? && 2 !in c.heap && left != [] && Channel.NoSenders(c)
    requires |c.k2u| == 1 && c.k2u[0].data == left && c.k2u[0].op != KUBIX_CHANNEL
    requires c.u2k == [] && c.hand.None? && c.threads > 0 && c.mbox.Some?
    ensures CanBe(mode, k, c') && 2 in c'.heap
    ensures c'.heap[2].request == [] && c'.heap[2].opener == Returned(0, left)
  {
    var c1 := Ask(mode, k, c, 2, []);
    Go(mode, k, c1, Dispatch);
    var c2 := Channel.Next(mode, k, c1, Dispatch);
    assert c2.k2u == [Msg(k, KUBIX_CHANNEL, 0, [], 1, 2)];
    Go(mode, k, c2, Dispatch);
    var c3 := Channel.Next(mode, k, c2, Dispatch);
    var c4 := Answer(mode, k, c3, 2);
    Go(mode, k, c4, Act(2, TakeReply));
    c' := Channel.Next(mode, k, c4, Act(2, TakeReply));
  }

  /** What a private channel can be, the bus can look like. */
  lemma OnTheBus(cfg: Config, k: Key, c: Chan, id: nat) returns (s: Bus)
    requires Sound(cfg) && k in cfg.live && k != MAIN && CanBe(cfg.mode, k, c) && id in c.heap
    ensures Reachable(cfg, s) && id in s.kern.heap && s.kern.heap[id] == c.heap[id] && s.kern.heap[id].key == k
    ensures Project(s, k) == c && s.k2u == c.k2u
  {
    var ls :| Channel.Legal(cfg.mode, k, InitChan(k), ls) && SparesZero(ls)
              && Channel.After(cfg.mode, k, InitChan(k), ls) == c;
    var all := PrivateRunsEmbed(cfg, k, ls);
    s := SharedBus.After(cfg, InitBus(), all);
    assert Project(s, k).heap[id] == c.heap[id];
    NonEmptyOnChannel(s.k2u, k);
  }

  /** Every opener that asks with `r`, is told 0 and reads anything, reads `r` back. */
  ghost predicate EchoLaw(cfg: Config, r: seq<Byte>) {
    forall s, id ::
      Reachable(cfg, s) && id in s.kern.heap && s.kern.heap[id].key != MAIN && s.kern.heap[id].request == r
      && s.kern.heap[id].opener.Returned? && s.kern.heap[id].opener.ret == 0
      && s.kern.heap[id].opener.reply != []
      ==> s.kern.heap[id].opener.reply == r
  }

  /** The law holds exactly for the callback as written and a non-empty request. */
  lemma EchoLawIff(cfg: Config, k: Key, r: seq<Byte>)
    requires Sound(cfg) && k in cfg.live && k != MAIN
    ensures EchoLaw(cfg, r) <==> cfg.mode.fallThrough && r != []
  {
    if cfg.mode.fallThrough && r != [] {
      forall s, id |
        Reachable(cfg, s) && id in s.kern.heap && s.kern.heap[id].key != MAIN && s.kern.heap[id].request == r
        && s.kern.heap[id].opener.Returned? && s.kern.heap[id].opener.ret == 0
      && s.kern.heap[id].opener.reply != []
        ensures s.kern.heap[id].opener.reply == r
      {
        Guarantees.EchoIff(cfg, s, id);
      }
    } else if r == [] {
      var c := EchoNeedsPayload(cfg.mode, k, [1]);
      var s := OnTheBus(cfg, k, c, 2);
      assert s.kern.heap[2].opener.reply != r;
    } else {
      var c := EchoNeedsFallThrough(cfg.mode, k, r, r + r);
      var s := OnTheBus(cfg, k, c, 1);
      assert |r + r| != |r|;
      assert s.kern.heap[1].opener.reply != r;
    }
  }

  // ---------- who may open while others send ----------

  /** In every reachable state the open request is the last word of its key in the queue. */
  ghost predicate LastWordLaw(cfg: Config) {
    forall s :: Reachable(cfg, s) ==> Guarantees.LastWord(s)
  }

  /** In every reachable state nothing is queued for a key whose request sits in its mailbox. */
  ghost predicate BoxLaw(cfg: Config) {
    forall s :: Reachable(cfg, s) ==> Guarantees.BoxesSafe(s)
  }

  /** From every reachable state the transport opens a node that is ready for the reply to its
      non-empty request, if that is on the way. */
  ghost predicate ProgressLaw(cfg: Config) {
    forall s, id ::
      Reachable(cfg, s) && id in s.kern.heap && Channel.Ready(s.kern.heap[id]) && s.kern.heap[id].request != []
      && Guarantees.LiveRequests(s, s.kern.heap[id].key) == 1
      ==> Guarantees.AlwaysOpened(cfg, s, id)
  }

  lemma LastWordLawIff(cfg: Config, k: Key)
    requires Sound(cfg) && k in cfg.live && k != MAIN
    ensures LastWordLaw(cfg) <==> cfg.mode.serial
  {
    if cfg.mode.serial {
      forall s | Reachable(cfg, s) ensures Guarantees.LastWord(s) {
        Guarantees.RequestIsLastWord(cfg, s);
      }
    } else {
      var c := LateReport(cfg.mode, k, [1], []);
      var s := OnTheBus(cfg, k, c, 2);
      assert s.k2u[1].op == KUBIX_CHANNEL && s.k2u[2].key == s.k2u[1].key;
    }
  }

  lemma BoxLawIff(cfg: Config, k: Key)
    requires Sound(cfg) && k in cfg.live && k != MAIN
    ensures BoxLaw(cfg) <==> cfg.mode.serial
  {
    if cfg.mode.serial {
      forall s | Reachable(cfg, s) ensures Guarantees.BoxesSafe(s) {
        Guarantees.BoxedRequestIsSafe(cfg, s);
      }
    } else {
      var c := CoveredBox(cfg.mode, k, [1], []);
      var s := OnTheBus(cfg, k, c, 2);
      assert Guarantees.Boxed(s, s.k2u[0].key);
    }
  }

  lemma ProgressLawIff(cfg: Config, k: Key)
    requires Sound(cfg) && k in cfg.live && k != MAIN
    ensures ProgressLaw(cfg) <==> cfg.mode.serial
  {
    if cfg.mode.serial {
      forall s, id |
        Reachable(cfg, s) && id in s.kern.heap && Channel.Ready(s.kern.heap[id]) && s.kern.heap[id].request != []
        && Guarantees.LiveRequests(s, s.kern.heap[id].key) == 1
        ensures Guarantees.AlwaysOpened(cfg, s, id)
      {
        Guarantees.NodeFacts(cfg, s, id);
        Guarantees.ReachableOrdered(cfg, s, s.kern.heap[id].key);
        Guarantees.HandshakeProgress(cfg, s, id);
      }
    } else {
      var c := CoveredBox(cfg.mode, k, [1], []);
      var s := OnTheBus(cfg, k, c, 2);
      Guarantees.NoStaleHandshake(cfg, s, k);
      Guarantees.HandshakeProgress(cfg, s, 2);
      assert Covered(Project(s, k));
    }
  }

  /** A reply that overtakes the late HANDSHAKE assignment strands the key: the opener is told
      255 and no run whatever takes the node out of HANDSHAKE again. */
  lemma StrandedForEver(cfg: Config, k: Key, r: seq<Byte>) returns (s: Bus)
    requires Sound(cfg) && k in cfg.live && k != MAIN && r != []
    ensures Reachable(cfg, s) && Has(s.kern, k) && At(s.kern, k).state.Handshake? && At(s.kern, k).request == r
    ensures At(s.kern, k).userRet == IMPOSSIBLE_STATE && Guarantees.LiveRequests(s, k) == 0
    ensures forall ls :: SharedBus.Legal(cfg, s, ls) ==>
              var kn := SharedBus.After(cfg, s, ls).kern;
              s.kern.table[k] in kn.heap && kn.heap[s.kern.table[k]].state.Handshake?
  {
    var c := OvertakenMark(cfg.mode, k, r);
    s := OnTheBus(cfg, k, c, 1);
    assert Project(s, k).cur == Some(1);
    forall ls | SharedBus.Legal(cfg, s, ls)
      ensures 1 in SharedBus.After(cfg, s, ls).kern.heap
      ensures SharedBus.After(cfg, s, ls).kern.heap[1].state.Handshake?
    {
      Guarantees.LostRequestStaysLost(cfg, s, ls, 1);
    }
  }

  // ---------- readers of an open channel ----------

  /** Nothing ever comes into the empty slot of an opened node. */
  ghost predicate SilenceLaw(cfg: Config) {
    forall s, ls, id ::
      Reachable(cfg, s) && SharedBus.Legal(cfg, s, ls) && id in s.kern.heap && s.kern.heap[id].key != MAIN
      && Opened(s.kern.heap[id]) && s.kern.heap[id].rsp == []
      ==> id in SharedBus.After(cfg, s, ls).kern.heap && SharedBus.After(cfg, s, ls).kern.heap[id].rsp == []
  }

  /** A run of the channel that starts in `c` goes on on the bus. */
  lemma ThenOnTheBus(cfg: Config, k: Key, c: Chan, ls: seq<Label>) returns (s: Bus)
    requires Sound(cfg) && k in cfg.live && k != MAIN && CanBe(cfg.mode, k, c)
    requires Channel.Legal(cfg.mode, k, c, ls) && SparesZero(ls)
    ensures Reachable(cfg, s) && Project(s, k) == c && SharedBus.Legal(cfg, s, ls)
    ensures Project(SharedBus.After(cfg, s, ls), k) == Channel.After(cfg.mode, k, c, ls)
  {
    var first :| Channel.Legal(cfg.mode, k, InitChan(k), first) && SparesZero(first)
                 && Channel.After(cfg.mode, k, InitChan(k), first) == c;
    var start := PrivateRunsEmbed(cfg, k, first);
    s := SharedBus.After(cfg, InitBus(), start);
    ReachableInv(cfg, s, k);
    AloneRun(cfg, s, ls, k);
  }

  /** With the `break` missing, readers and requesters of an opened channel whose slot is empty
      wait for ever; with it put in, they need not. */
  lemma SilenceLawIff(cfg: Config, k: Key)
    requires Sound(cfg) && k in cfg.live && k != MAIN
    ensures SilenceLaw(cfg) <==> cfg.mode.fallThrough
  {
    if cfg.mode.fallThrough {
      forall s, ls, id |
        Reachable(cfg, s) && SharedBus.Legal(cfg, s, ls) && id in s.kern.heap && s.kern.heap[id].key != MAIN
        && Opened(s.kern.heap[id]) && s.kern.heap[id].rsp == []
        ensures id in SharedBus.After(cfg, s, ls).kern.heap && SharedBus.After(cfg, s, ls).kern.heap[id].rsp == []
      {
        Guarantees.OpenedSlotStaysEmpty(cfg, s, ls, id);
      }
    } else {
      var c, ls := SlotFilledAgain(cfg.mode, k);
      var s := ThenOnTheBus(cfg, k, c, ls);
      assert Project(s, k).heap[1] == s.kern.heap[1];
      assert Project(SharedBus.After(cfg, s, ls), k).heap[1] == SharedBus.After(cfg, s, ls).kern.heap[1];
    }
  }
}
