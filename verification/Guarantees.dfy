/** What the protocol guarantees in every reachable state and over every run of the bus. */
module Guarantees {
  import opened Types
  import opened Nodes
  import opened CompositeKey
  import opened SharedBus
  import opened Multiplexing
  import Channel
  import Traffic

  // ---------- runs ----------

  lemma {:induction false} RunsCompose(cfg: Config, s: Bus, ls: seq<Label>, more: seq<Label>)
    requires Legal(cfg, s, ls) && Legal(cfg, After(cfg, s, ls), more)
    ensures Legal(cfg, s, ls + more)
    ensures After(cfg, s, ls + more) == After(cfg, After(cfg, s, ls), more)
    decreases |ls|
  {
    if ls == [] {
      assert ls + more == more;
    } else {
      assert (ls + more)[1..] == ls[1..] + more;
      RunsCompose(cfg, Next(cfg, s, ls[0]), ls[1..], more);
    }
  }

  lemma ThenAnd(cfg: Config, s: Bus, a: Label, ls: seq<Label>)
    requires Enabled(cfg, s, a) && Legal(cfg, Next(cfg, s, a), ls)
    ensures Legal(cfg, s, [a] + ls) && After(cfg, s, [a] + ls) == After(cfg, Next(cfg, s, a), ls)
  {
    assert ([a] + ls)[1..] == ls;
  }

  lemma ReachableStep(cfg: Config, s: Bus, l: Label)
    requires Reachable(cfg, s) && Enabled(cfg, s, l)
    ensures Reachable(cfg, Next(cfg, s, l))
  {
    var ls :| Legal(cfg, InitBus(), ls) && After(cfg, InitBus(), ls) == s;
    assert [l][1..] == [];
    assert Legal(cfg, Next(cfg, s, l), []) && Legal(cfg, s, [l]);
    RunsCompose(cfg, InitBus(), ls, [l]);
  }

  lemma {:induction false} ReachableRun(cfg: Config, s: Bus, ls: seq<Label>)
    requires Reachable(cfg, s) && Legal(cfg, s, ls)
    ensures Reachable(cfg, After(cfg, s, ls))
    decreases |ls|
  {
    if ls != [] {
      ReachableStep(cfg, s, ls[0]);
      ReachableRun(cfg, Next(cfg, s, ls[0]), ls[1..]);
    }
  }

  /** What the channel invariant says about the node `id`. */
  lemma NodeFacts(cfg: Config, s: Bus, id: nat)
    requires Sound(cfg) && Reachable(cfg, s) && id in s.kern.heap
    ensures var k := s.kern.heap[id].key;
            && k in cfg.live && RoutedOk(cfg.live, s) && Channel.Inv(cfg.mode, k, Project(s, k))
            && id in Project(s, k).heap && Project(s, k).heap[id] == s.kern.heap[id]
  {
    ReachableInv(cfg, s, MAIN);
    ReachableInv(cfg, s, s.kern.heap[id].key);
  }

  /** One step of the bus, seen from the channel of the node `id`. */
  lemma NodeStep(cfg: Config, s: Bus, l: Label, id: nat)
    requires Sound(cfg) && Reachable(cfg, s) && Enabled(cfg, s, l) && id in s.kern.heap
    ensures var k, s' := s.kern.heap[id].key, Next(cfg, s, l);
            var c, c' := Project(s, k), Project(s', k);
            && Reachable(cfg, s') && Channel.Inv(cfg.mode, k, c)
            && id in s'.kern.heap && s'.kern.heap[id].key == k
            && id in c.heap && c.heap[id] == s.kern.heap[id]
            && id in c'.heap && c'.heap[id] == s'.kern.heap[id]
            && if Concerns(s, l, k) then Channel.Enabled(cfg.mode, k, c, l) && c' == Channel.Next(cfg.mode, k, c, l)
               else c' == c
  {
    NodeFacts(cfg, s, id);
    NodeKeysKept(cfg.live, cfg, s, l);
    Step(cfg, s, l, s.kern.heap[id].key);
    ReachableStep(cfg, s, l);
  }

  // ---------- queues and their projections ----------

  /** Messages of one channel keep their order in its projection. */
  lemma {:induction false} OnChannelOrder(q: seq<Msg>, k: Key, i: nat, j: nat) returns (i': nat, j': nat)
    requires i <= j < |q| && q[i].key == k && q[j].key == k
    ensures i' <= j' < |OnChannel(q, k)| && OnChannel(q, k)[i'] == q[i] && OnChannel(q, k)[j'] == q[j]
    ensures i < j ==> i' < j'
  {
    var shift := if q[0].key == k then 1 else 0;
    if j == 0 {
      i', j' := 0, 0;
    } else if i == 0 {
      var a, b := OnChannelOrder(q[1..], k, j - 1, j - 1);
      i', j' := 0, b + 1;
    } else {
      var a, b := OnChannelOrder(q[1..], k, i - 1, j - 1);
      i', j' := a + shift, b + shift;
    }
  }

  /** Live opening requests of channel `k` anywhere on the bus. */
  ghost function LiveRequests(s: Bus, k: Key): nat {
    Channel.Live(Project(s, k))
  }

  ghost predicate Boxed(s: Bus, k: Key) {
    Channel.BoxRequest(Project(s, k))
  }

  // ---------- no stale handshake ----------

  lemma NoStaleHandshake(cfg: Config, s: Bus, k: Key)
    requires Sound(cfg) && Reachable(cfg, s) && k in cfg.live
    ensures LiveRequests(s, k) <= 1
    ensures LiveRequests(s, k) == 1 ==> Has(s.kern, k) && !At(s.kern, k).removed && !Opened(At(s.kern, k))
  {
    ReachableInv(cfg, s, k);
    var c := Project(s, k);
    if LiveRequests(s, k) == 1 {
      assert c.cur.Some?;
    }
  }

  /** A node is opened only by the callback, in HANDSHAKE, by the answer to its own request. */
  lemma OpenedByOwnReply(cfg: Config, s: Bus, l: Label, id: nat)
    requires Sound(cfg) && Reachable(cfg, s) && Enabled(cfg, s, l)
    requires id in s.kern.heap && !Opened(s.kern.heap[id])
    requires id in Next(cfg, s, l).kern.heap && Opened(Next(cfg, s, l).kern.heap[id])
    ensures l.Callback? && s.u2k[0].op == KUBIX_CHANNEL && s.u2k[0].tag == id
    ensures s.kern.heap[id].key != MAIN ==> s.kern.heap[id].state.Handshake?
  {
    var k := s.kern.heap[id].key;
    NodeStep(cfg, s, l, id);
    Channel.OpeningStep(cfg.mode, k, Project(s, k), l, id);
  }

  // ---------- the open request is the last word ----------

  /** When openers wait for senders, no request is ever covered. */
  lemma ReachableOrdered(cfg: Config, s: Bus, k: Key)
    requires Sound(cfg) && k in cfg.live && Reachable(cfg, s) && cfg.mode.serial
    ensures Channel.Ordered(Project(s, k))
  {
    var ls :| Legal(cfg, InitBus(), ls) && After(cfg, InitBus(), ls) == s;
    InitProjects(cfg, k);
    MultiplexingInvisible(cfg, InitBus(), ls, k);
    Channel.InitInv(cfg.mode, k);
    Channel.InitOrdered(k);
    Channel.OrderedRun(cfg.mode, k, Channel.InitChan(k), Trace(cfg, InitBus(), ls, k));
  }

  /** Behind a queued open request there is no message of the same key. */
  ghost predicate LastWord(s: Bus) {
    forall i, j :: 0 <= i < j < |s.k2u| && s.k2u[i].op == KUBIX_CHANNEL ==> s.k2u[j].key != s.k2u[i].key
  }

  lemma RequestIsLastWord(cfg: Config, s: Bus)
    requires Sound(cfg) && Reachable(cfg, s) && cfg.mode.serial
    ensures LastWord(s)
  {
    ReachableInv(cfg, s, MAIN);
    forall i, j | 0 <= i < j < |s.k2u| && s.k2u[i].op == KUBIX_CHANNEL
      ensures s.k2u[j].key != s.k2u[i].key
    {
      var k := s.k2u[i].key;
      if s.k2u[j].key == k {
        ReachableOrdered(cfg, s, k);
        var i', j' := OnChannelOrder(s.k2u, k, i, j);
      }
    }
  }

  /** While an open request sits in the mailbox nothing for it is queued, so nothing overwrites it. */
  ghost predicate BoxesSafe(s: Bus) {
    forall j :: 0 <= j < |s.k2u| ==> !Boxed(s, s.k2u[j].key)
  }

  lemma BoxedRequestIsSafe(cfg: Config, s: Bus)
    requires Sound(cfg) && Reachable(cfg, s) && cfg.mode.serial
    ensures BoxesSafe(s)
  {
    ReachableInv(cfg, s, MAIN);
    forall j | 0 <= j < |s.k2u|
      ensures !Boxed(s, s.k2u[j].key)
    {
      var k := s.k2u[j].key;
      ReachableOrdered(cfg, s, k);
      var i', j' := OnChannelOrder(s.k2u, k, j, j);
    }
  }

  // ---------- end-to-end echo ----------

  /** With the callback as written, an opener that is told 0 reads back the bytes it sent,
      unless its wait was interrupted, or it sent none and reads some. */
  lemma EchoIff(cfg: Config, s: Bus, id: nat)
    requires Sound(cfg) && Reachable(cfg, s) && cfg.mode.fallThrough
    requires id in s.kern.heap && s.kern.heap[id].opener.Returned? && s.kern.heap[id].opener.ret == 0
    ensures var n := s.kern.heap[id];
            n.opener.reply == n.request <==> (n.opener.reply == [] <==> n.request == [])
  {
    NodeFacts(cfg, s, id);
  }

  // ---------- two-sided agreement ----------

  /** An open kernel node has its partner in the user table, with its app thread started. */
  lemma TwoSidedAgreement(cfg: Config, s: Bus, id: nat)
    requires Sound(cfg) && Reachable(cfg, s) && id in s.kern.heap && Opened(s.kern.heap[id])
    ensures var k := s.kern.heap[id].key;
            Composite(k) in s.user.nodes && s.user.nodes[Composite(k)].name == k && s.user.threads[k] == 1
  {
    NodeFacts(cfg, s, id);
  }

  /** The dispatcher never drops a message as "not served yet". */
  lemma NeverUnserved(cfg: Config, s: Bus, i: nat)
    requires Sound(cfg) && Reachable(cfg, s) && i < |s.k2u| && s.k2u[i].op != KUBIX_CHANNEL
    ensures Composite(s.k2u[i].key) in s.user.nodes
  {
    ReachableInv(cfg, s, MAIN);
    var k := s.k2u[i].key;
    ReachableInv(cfg, s, k);
    var i', j' := OnChannelOrder(s.k2u, k, i, i);
  }

  // ---------- sound opening ----------

  lemma SoundOpening(cfg: Config, s: Bus, id: nat)
    requires Sound(cfg) && Reachable(cfg, s) && id in s.kern.heap
    ensures s.kern.heap[id].rsp != [] && s.kern.heap[id].userRet == 0 ==> Opened(s.kern.heap[id])
    ensures var o := s.kern.heap[id].opener;
            o.Returned? && o.ret == 0 && o.reply != [] ==> Opened(s.kern.heap[id])
  {
    NodeFacts(cfg, s, id);
  }

  // ---------- life cycle ----------

  lemma AgesStep(cfg: Config, s: Bus, l: Label, id: nat)
    requires Sound(cfg) && Reachable(cfg, s) && Enabled(cfg, s, l) && id in s.kern.heap
    ensures var s' := Next(cfg, s, l);
            && id in s'.kern.heap && s'.kern.heap[id].key == s.kern.heap[id].key
            && Channel.Ages(s.kern.heap[id], s'.kern.heap[id])
  {
    var k := s.kern.heap[id].key;
    NodeStep(cfg, s, l, id);
    if Concerns(s, l, k) {
      Channel.RankStep(cfg.mode, k, Project(s, k), l, id);
    }
  }

  /** Over any run no node object moves backwards in its life cycle. */
  lemma {:induction false} LifeCycleMonotone(cfg: Config, s: Bus, ls: seq<Label>, id: nat)
    requires Sound(cfg) && Reachable(cfg, s) && Legal(cfg, s, ls) && id in s.kern.heap
    ensures var s' := After(cfg, s, ls);
            && id in s'.kern.heap && s'.kern.heap[id].key == s.kern.heap[id].key
            && s'.kern.heap[id].request == s.kern.heap[id].request
            && Rank(s.kern.heap[id]) <= Rank(s'.kern.heap[id])
    decreases |ls|
  {
    if ls != [] {
      AgesStep(cfg, s, ls[0], id);
      ReachableStep(cfg, s, ls[0]);
      LifeCycleMonotone(cfg, Next(cfg, s, ls[0]), ls[1..], id);
    }
  }

  /** The late HANDSHAKE assignment finds the node in INIT and in the table; nothing leaves
      the table before it was opened. */
  lemma LateMarkFindsInit(cfg: Config, s: Bus, id: nat)
    requires Sound(cfg) && Reachable(cfg, s) && id in s.kern.heap
    ensures CanAct(s.kern.heap[id], MarkHandshake) ==>
              s.kern.heap[id].state.Init? && s.kern.heap[id].key in s.kern.table
              && s.kern.table[s.kern.heap[id].key] == id
    ensures s.kern.heap[id].removed ==> Opened(s.kern.heap[id])
  {
    NodeFacts(cfg, s, id);
    var c := Project(s, s.kern.heap[id].key);
    assert !c.heap[id].removed ==> c.cur == Some(id);
  }

  // ---------- handshake progress ----------

  /** Nothing is left for the two dispatchers and the app threads to do. */
  ghost predicate Quiet(cfg: Config, s: Bus) {
    forall l :: Transport(l) ==> !Enabled(cfg, s, l)
  }

  ghost predicate AllEchoed(ls: seq<Label>) {
    forall i :: 0 <= i < |ls| ==> Transport(ls[i]) && (ls[i].Echo? ==> !ls[i].err)
  }

  /** The node was opened, or its request is still on the way. */
  ghost predicate OnItsWay(s: Bus, id: nat) {
    id in s.kern.heap
    && (Opened(s.kern.heap[id]) || Channel.Pending(Project(s, s.kern.heap[id].key), id))
  }

  lemma PendingStays(cfg: Config, s: Bus, l: Label, id: nat)
    requires Sound(cfg) && Reachable(cfg, s) && Enabled(cfg, s, l) && Transport(l) && (l.Echo? ==> !l.err)
    requires id in s.kern.heap && Channel.Pending(Project(s, s.kern.heap[id].key), id)
    ensures var c := Project(Next(cfg, s, l), s.kern.heap[id].key);
            Channel.Pending(c, id) || (id in c.heap && Opened(c.heap[id]))
  {
    var k := s.kern.heap[id].key;
    NodeStep(cfg, s, l, id);
    if Concerns(s, l, k) {
      Channel.PendingStep(cfg.mode, k, Project(s, k), l, id);
    }
  }

  lemma OnItsWayStep(cfg: Config, s: Bus, l: Label, id: nat)
    requires Sound(cfg) && Reachable(cfg, s) && Enabled(cfg, s, l) && Transport(l) && (l.Echo? ==> !l.err)
    requires OnItsWay(s, id)
    ensures OnItsWay(Next(cfg, s, l), id)
  {
    if Opened(s.kern.heap[id]) {
      AgesStep(cfg, s, l, id);
    } else {
      PendingStays(cfg, s, l, id);
      NodeStep(cfg, s, l, id);
    }
  }

  lemma {:induction false} OnItsWayRun(cfg: Config, s: Bus, ls: seq<Label>, id: nat)
    requires Sound(cfg) && Reachable(cfg, s) && Legal(cfg, s, ls) && AllEchoed(ls) && OnItsWay(s, id)
    ensures OnItsWay(After(cfg, s, ls), id) && Reachable(cfg, After(cfg, s, ls))
    decreases |ls|
  {
    if ls != [] {
      OnItsWayStep(cfg, s, ls[0], id);
      ReachableStep(cfg, s, ls[0]);
      OnItsWayRun(cfg, Next(cfg, s, ls[0]), ls[1..], id);
    }
  }

  /** A node that is ready for a reply whose request is gone is never opened, over every run,
      whoever does what. */
  lemma {:induction false} LostRequestStaysLost(cfg: Config, s: Bus, ls: seq<Label>, id: nat)
    requires Sound(cfg) && Reachable(cfg, s) && Legal(cfg, s, ls)
    requires id in s.kern.heap && Channel.Ready(s.kern.heap[id])
    requires LiveRequests(s, s.kern.heap[id].key) == 0
    ensures var h := After(cfg, s, ls).kern.heap;
            id in h && Channel.Ready(h[id]) && h[id].key == s.kern.heap[id].key
    decreases |ls|
  {
    if ls != [] {
      var k := s.kern.heap[id].key;
      NodeStep(cfg, s, ls[0], id);
      assert Channel.Stuck(Project(s, k), id);
      if Concerns(s, ls[0], k) {
        Channel.StuckStep(cfg.mode, k, Project(s, k), ls[0], id);
      }
      LostRequestStaysLost(cfg, Next(cfg, s, ls[0]), ls[1..], id);
    }
  }

  lemma QuietProjects(cfg: Config, s: Bus, k: Key)
    requires RoutedOk(cfg.live, s) && Quiet(cfg, s)
    ensures var c := Project(s, k);
            && !Channel.Enabled(cfg.mode, k, c, Callback) && !Channel.Enabled(cfg.mode, k, c, Dispatch)
            && !Channel.Enabled(cfg.mode, k, c, Fetch(k)) && !Channel.Enabled(cfg.mode, k, c, Echo(k, false))
  {
    assert !Enabled(cfg, s, Callback) && !Enabled(cfg, s, Dispatch);
    assert !Enabled(cfg, s, Fetch(k)) && !Enabled(cfg, s, Echo(k, false));
  }

  /** The transport can always be run to its end. */
  lemma {:induction false} DrainOut(cfg: Config, s: Bus) returns (ls: seq<Label>)
    ensures Legal(cfg, s, ls) && AllEchoed(ls) && Quiet(cfg, After(cfg, s, ls))
    decreases Traffic.Hops(s)
  {
    ls := [];
    if !Quiet(cfg, s) {
      var l :| Transport(l) && Enabled(cfg, s, l);
      var l' := if l.Echo? then Echo(l.key, false) else l;
      Traffic.TransportHops(cfg, s, l');
      var rest := DrainOut(cfg, Next(cfg, s, l'));
      ls := [l'] + rest;
      assert ls[1..] == rest;
    }
  }

  lemma BuryStep(cfg: Config, s: Bus, k: Key)
    requires Sound(cfg) && Reachable(cfg, s) && k in cfg.live && Channel.Covered(Project(s, k))
    ensures Enabled(cfg, s, Dispatch) && Reachable(cfg, Next(cfg, s, Dispatch))
    ensures var s1 := Next(cfg, s, Dispatch); Channel.Covered(Project(s1, k)) || LiveRequests(s1, k) == 0
  {
    ReachableInv(cfg, s, k);
    assert s.k2u != [];
    ReachableStep(cfg, s, Dispatch);
    Step(cfg, s, Dispatch, k);
    if Concerns(s, Dispatch, k) {
      Channel.CoveredDispatch(cfg.mode, k, Project(s, k));
    }
  }

  /** A dispatcher that is faster than the app thread loses a covered request. */
  lemma {:induction false} Bury(cfg: Config, s: Bus, k: Key) returns (ls: seq<Label>)
    requires Sound(cfg) && Reachable(cfg, s) && k in cfg.live && Channel.Covered(Project(s, k))
    ensures Legal(cfg, s, ls) && AllEchoed(ls)
    ensures After(cfg, s, ls).kern == s.kern && LiveRequests(After(cfg, s, ls), k) == 0
    decreases |s.k2u|
  {
    BuryStep(cfg, s, k);
    var rest := [];
    if LiveRequests(Next(cfg, s, Dispatch), k) != 0 {
      rest := Bury(cfg, Next(cfg, s, Dispatch), k);
    }
    ls := [Dispatch] + rest;
    ThenAnd(cfg, s, Dispatch, rest);
  }

  /** Whatever order the transport moves in, when it is done the node is open. */
  ghost predicate AlwaysOpened(cfg: Config, s: Bus, id: nat) {
    forall ls :: Legal(cfg, s, ls) && AllEchoed(ls) && Quiet(cfg, After(cfg, s, ls))
      ==> id in After(cfg, s, ls).kern.heap && Opened(After(cfg, s, ls).kern.heap[id])
  }

  lemma UncoveredOpens(cfg: Config, s: Bus, ls: seq<Label>, id: nat)
    requires Sound(cfg) && Reachable(cfg, s) && Legal(cfg, s, ls) && AllEchoed(ls) && Quiet(cfg, After(cfg, s, ls))
    requires id in s.kern.heap && Channel.Pending(Project(s, s.kern.heap[id].key), id)
    ensures id in After(cfg, s, ls).kern.heap && Opened(After(cfg, s, ls).kern.heap[id])
  {
    var k, s' := s.kern.heap[id].key, After(cfg, s, ls);
    NodeFacts(cfg, s, id);
    OnItsWayRun(cfg, s, ls, id);
    LifeCycleMonotone(cfg, s, ls, id);
    ReachableInv(cfg, s', k);
    QuietProjects(cfg, s', k);
    Channel.QuietMeansNoRequest(cfg.mode, k, Project(s', k));
  }

  /** The failing run: bury the request if there is one, then let the transport finish. */
  lemma UnopenedRun(cfg: Config, s: Bus, id: nat) returns (ls: seq<Label>)
    requires Sound(cfg) && Reachable(cfg, s) && id in s.kern.heap && Channel.Ready(s.kern.heap[id])
    requires var k := s.kern.heap[id].key; LiveRequests(s, k) == 0 || Channel.Covered(Project(s, k))
    ensures Legal(cfg, s, ls) && AllEchoed(ls) && Quiet(cfg, After(cfg, s, ls))
    ensures id in After(cfg, s, ls).kern.heap && Channel.Ready(After(cfg, s, ls).kern.heap[id])
  {
    var k := s.kern.heap[id].key;
    NodeFacts(cfg, s, id);
    var first := [];
    if LiveRequests(s, k) != 0 {
      first := Bury(cfg, s, k);
    }
    var s1 := After(cfg, s, first);
    ReachableRun(cfg, s, first);
    var rest := DrainOut(cfg, s1);
    LostRequestStaysLost(cfg, s1, rest, id);
    RunsCompose(cfg, s, first, rest);
    ls := first + rest;
  }

  /** The transport opens a node that is ready for the reply to a non-empty request (in HANDSHAKE,
      or the main node in INIT), whatever its order, exactly when the request is on the way and
      nothing is queued behind it. */
  lemma HandshakeProgress(cfg: Config, s: Bus, id: nat)
    requires Sound(cfg) && Reachable(cfg, s)
    requires id in s.kern.heap && Channel.Ready(s.kern.heap[id]) && s.kern.heap[id].request != []
    ensures var k := s.kern.heap[id].key;
            AlwaysOpened(cfg, s, id) <==> LiveRequests(s, k) == 1 && !Channel.Covered(Project(s, k))
  {
    var k := s.kern.heap[id].key;
    NodeFacts(cfg, s, id);
    NoStaleHandshake(cfg, s, k);
    if LiveRequests(s, k) == 1 && !Channel.Covered(Project(s, k)) {
      forall ls | Legal(cfg, s, ls) && AllEchoed(ls) && Quiet(cfg, After(cfg, s, ls))
        ensures id in After(cfg, s, ls).kern.heap && Opened(After(cfg, s, ls).kern.heap[id])
      {
        UncoveredOpens(cfg, s, ls, id);
      }
    } else {
      var ls := UnopenedRun(cfg, s, id);
      assert !Opened(After(cfg, s, ls).kern.heap[id]);
    }
  }

  // ---------- after the opening ----------

  /** As written, the slot of an opened node that is empty stays empty: its readers and
      requesters wait for ever. */
  lemma {:induction false} OpenedSlotStaysEmpty(cfg: Config, s: Bus, ls: seq<Label>, id: nat)
    requires Sound(cfg) && Reachable(cfg, s) && cfg.mode.fallThrough && Legal(cfg, s, ls)
    requires id in s.kern.heap && s.kern.heap[id].key != MAIN
    requires Opened(s.kern.heap[id]) && s.kern.heap[id].rsp == []
    ensures id in After(cfg, s, ls).kern.heap && After(cfg, s, ls).kern.heap[id].rsp == []
    decreases |ls|
  {
    if ls != [] {
      var k := s.kern.heap[id].key;
      NodeStep(cfg, s, ls[0], id);
      if Concerns(s, ls[0], k) {
        Channel.SilentStep(cfg.mode, k, Project(s, k), ls[0], id);
      }
      OpenedSlotStaysEmpty(cfg, Next(cfg, s, ls[0]), ls[1..], id);
    }
  }

  /** As written, an opener that was accepted and still waits finds its reply exactly when no
      reader of its channel finished first. */
  lemma {:induction false} ReplyKeptIff(cfg: Config, s: Bus, ls: seq<Label>, id: nat)
    requires Sound(cfg) && Reachable(cfg, s) && cfg.mode.fallThrough && Legal(cfg, s, ls)
    requires id in s.kern.heap && s.kern.heap[id].key != MAIN
    requires Opened(s.kern.heap[id]) && s.kern.heap[id].opener.Waiting? && s.kern.heap[id].rsp != []
    requires Act(id, TakeReply) !in ls
    ensures var h := After(cfg, s, ls).kern.heap;
            && id in h && h[id].opener.Waiting?
            && h[id].rsp == if Act(id, FinishRead) in ls then [] else s.kern.heap[id].rsp
    decreases |ls|
  {
    if ls != [] {
      var k, s1 := s.kern.heap[id].key, Next(cfg, s, ls[0]);
      NodeStep(cfg, s, ls[0], id);
      if Concerns(s, ls[0], k) {
        Channel.AcceptedStep(cfg.mode, k, Project(s, k), ls[0], id);
      }
      assert ls[0] == Act(id, FinishRead) ==> Concerns(s, ls[0], k);
      if s1.kern.heap[id].rsp == [] {
        OpenedSlotStaysEmpty(cfg, s1, ls[1..], id);
        StaysWaiting(cfg, s1, ls[1..], id);
      } else {
        ReplyKeptIff(cfg, s1, ls[1..], id);
      }
    }
  }

  lemma {:induction false} StaysWaiting(cfg: Config, s: Bus, ls: seq<Label>, id: nat)
    requires Sound(cfg) && Reachable(cfg, s) && cfg.mode.fallThrough && Legal(cfg, s, ls)
    requires id in s.kern.heap && s.kern.heap[id].key != MAIN
    requires Opened(s.kern.heap[id]) && s.kern.heap[id].opener.Waiting? && Act(id, TakeReply) !in ls
    ensures id in After(cfg, s, ls).kern.heap && After(cfg, s, ls).kern.heap[id].opener.Waiting?
    decreases |ls|
  {
    if ls != [] {
      var k := s.kern.heap[id].key;
      NodeStep(cfg, s, ls[0], id);
      if Concerns(s, ls[0], k) {
        Channel.AcceptedStep(cfg.mode, k, Project(s, k), ls[0], id);
      }
      StaysWaiting(cfg, Next(cfg, s, ls[0]), ls[1..], id);
    }
  }

  // ---------- one thread per user node ----------

  /** Every user node has exactly one app thread, whose context names the node's own key, and
      there are no others. */
  lemma OneThreadPerNode(cfg: Config, s: Bus, k: Key)
    requires Sound(cfg) && Reachable(cfg, s)
    ensures s.user.threads[k] == if k in cfg.live && Composite(k) in s.user.nodes then 1 else 0
    ensures forall c :: c in s.user.nodes ==>
              var name := s.user.nodes[c].name; Composite(name) == c && s.user.threads[name] == 1
  {
    ReachableInv(cfg, s, MAIN);
    if k in cfg.live {
      ReachableInv(cfg, s, k);
    } else {
      assert k !in s.user.threads;
    }
    forall c | c in s.user.nodes
      ensures Composite(s.user.nodes[c].name) == c && s.user.threads[s.user.nodes[c].name] == 1
    {
      ReachableInv(cfg, s, s.user.nodes[c].name);
    }
  }
}
