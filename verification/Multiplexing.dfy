/** The shared bus, looked at through one key, is a private channel. */
module Multiplexing {
  import opened Types
  import opened Nodes
  import opened CompositeKey
  import opened SharedBus
  import Channel

  // ---------- projection ----------

  function OnChannel(q: seq<Msg>, k: Key): (r: seq<Msg>)
    ensures |r| <= |q|
  {
    if q == [] then []
    else if q[0].key == k then [q[0]] + OnChannel(q[1..], k)
    else OnChannel(q[1..], k)
  }

  lemma {:induction false} OnChannelAppend(q: seq<Msg>, m: Msg, k: Key)
    ensures OnChannel(q + [m], k) == OnChannel(q, k) + (if m.key == k then [m] else [])
  {
    if q == [] {
      assert q + [m] == [m];
    } else {
      assert (q + [m])[1..] == q[1..] + [m];
      OnChannelAppend(q[1..], m, k);
    }
  }

  ghost function Heap(kn: Kern, k: Key): map<nat, KNode> {
    map id | id in kn.heap && kn.heap[id].key == k :: kn.heap[id]
  }

  ghost function Current(kn: Kern, k: Key): Option<nat> {
    if k in kn.table then Some(kn.table[k]) else None
  }

  ghost function Box(u: User, k: Key): Option<Mailbox> {
    if Composite(k) in u.nodes then Some(u.nodes[Composite(k)]) else None
  }

  ghost function Hand(u: User, k: Key): Option<Msg> {
    if k in u.hands then Some(u.hands[k]) else None
  }

  /** The bus as seen by channel `k`. */
  ghost function Project(s: Bus, k: Key): Channel.Chan {
    Channel.Chan(Heap(s.kern, k), Current(s.kern, k), OnChannel(s.k2u, k),
                 Box(s.user, k), s.user.threads[k], Hand(s.user, k), OnChannel(s.u2k, k))
  }

  lemma NoSendersProjects(s: Bus, k: Key)
    ensures NoSenders(s.kern, k) <==> Channel.NoSenders(Project(s, k))
  {
    assert forall id :: id in s.kern.heap && s.kern.heap[id].key == k ==> Heap(s.kern, k)[id] == s.kern.heap[id];
  }

  /** The step is a step of channel `k`; for the two dispatchers the oldest message decides. */
  ghost predicate Concerns(s: Bus, l: Label, k: Key) {
    match l
    case Create(key, _, _) => key == k
    case Reap(key) => key == k
    case Send(id, _, _) => id in s.kern.heap && s.kern.heap[id].key == k
    case Act(id, _) => id in s.kern.heap && s.kern.heap[id].key == k
    case Callback => s.u2k != [] && s.u2k[0].key == k
    case Dispatch => s.k2u != [] && s.k2u[0].key == k
    case Fetch(key) => key == k
    case Echo(key, _) => key == k
    case AppSend(key, _, _, _) => key == k
  }

  // ---------- every key in the system is a live key ----------

  ghost predicate KernRouted(live: iset<Key>, kn: Kern) {
    && (forall key :: key in kn.table ==> Has(kn, key) && At(kn, key).key == key)
    && (forall id :: id in kn.heap ==> kn.heap[id].key in live)
  }

  ghost predicate UserRouted(live: iset<Key>, u: User) {
    && (forall c :: c in u.nodes ==> u.nodes[c].name in live && Composite(u.nodes[c].name) == c)
    && (forall key :: key in u.threads ==> key in live)
    && (forall key :: key in u.hands ==> key in live && u.hands[key].key == key)
  }

  ghost predicate RoutedOk(live: iset<Key>, s: Bus) {
    && KernRouted(live, s.kern)
    && UserRouted(live, s.user)
    && (forall i :: 0 <= i < |s.k2u| ==> s.k2u[i].key in live)
  }

  lemma PutFacts(live: iset<Key>, kn: Kern, id: nat, n: KNode, k: Key)
    requires KernRouted(live, kn) && id in kn.heap && n.key == kn.heap[id].key
    ensures KernRouted(live, Put(kn, id, n))
    ensures Current(Put(kn, id, n), k) == Current(kn, k)
    ensures Heap(Put(kn, id, n), k) == if n.key == k then Heap(kn, k)[id := n] else Heap(kn, k)
  {}

  lemma MadeFacts(live: iset<Key>, kn: Kern, key: Key, id: nat, request: seq<Byte>, k: Key)
    requires KernRouted(live, kn) && id !in kn.heap && key !in kn.table && key in live
    ensures KernRouted(live, Made(kn, key, id, request))
    ensures Current(Made(kn, key, id, request), k) == if key == k then Some(id) else Current(kn, k)
    ensures Heap(Made(kn, key, id, request), k)
         == if key == k then Heap(kn, k)[id := NewNode(key, request)] else Heap(kn, k)
  {}

  lemma DroppedFacts(live: iset<Key>, kn: Kern, key: Key, n: KNode, k: Key)
    requires KernRouted(live, kn) && key in kn.table && n.key == key
    ensures KernRouted(live, Dropped(kn, key, n))
    ensures Current(Dropped(kn, key, n), k) == if key == k then None else Current(kn, k)
    ensures Heap(Dropped(kn, key, n), k)
         == if key == k then Heap(kn, k)[kn.table[key] := n] else Heap(kn, k)
  {}

  /** Steps keep every node and its key; only Create makes one. */
  lemma NodeKeysKept(live: iset<Key>, cfg: Config, s: Bus, l: Label)
    requires KernRouted(live, s.kern) && Enabled(cfg, s, l)
    ensures var h, h' := s.kern.heap, Next(cfg, s, l).kern.heap;
            && h'.Keys == h.Keys + (if l.Create? then {l.id} else {})
            && (forall id :: id in h ==> h'[id].key == h[id].key)
            && (l.Create? ==> h'[l.id].key == l.key)
  {}

  // ---------- one step ----------

  /** The step keeps the routing; seen from `k` it is a step of the private channel if it
      concerns `k`, and nothing otherwise. */
  ghost predicate Commutes(cfg: Config, s: Bus, l: Label, k: Key)
    requires Enabled(cfg, s, l)
  {
    var c, s' := Project(s, k), Next(cfg, s, l);
    && RoutedOk(cfg.live, s')
    && (Concerns(s, l, k) ==>
          Channel.Enabled(cfg.mode, k, c, l) && Project(s', k) == Channel.Next(cfg.mode, k, c, l))
    && (!Concerns(s, l, k) ==> Project(s', k) == c)
  }

  ghost predicate StepOf(cfg: Config, s: Bus, l: Label, k: Key) {
    Sound(cfg) && RoutedOk(cfg.live, s) && Enabled(cfg, s, l) && k in cfg.live
  }

  lemma ActStep(cfg: Config, s: Bus, id: nat, a: Action, k: Key)
    requires StepOf(cfg, s, Act(id, a), k)
    ensures Commutes(cfg, s, Act(id, a), k)
  {
    PutFacts(cfg.live, s.kern, id, AfterAct(s.kern.heap[id], a), k);
  }

  lemma SendStep(cfg: Config, s: Bus, id: nat, op: Byte, data: seq<Byte>, k: Key)
    requires StepOf(cfg, s, Send(id, op, data), k)
    ensures Commutes(cfg, s, Send(id, op, data), k)
  {
    var n := s.kern.heap[id];
    PutFacts(cfg.live, s.kern, id, AfterSend(n, op), k);
    OnChannelAppend(s.k2u, Outgoing(n, id, op, data), k);
  }

  lemma TableStep(cfg: Config, s: Bus, l: Label, k: Key)
    requires StepOf(cfg, s, l, k)
    requires l.Create? || l.Reap?
    ensures Commutes(cfg, s, l, k)
  {
    if l.Create? {
      NoSendersProjects(s, k);
      MadeFacts(cfg.live, s.kern, l.key, l.id, l.request, k);
    } else {
      DroppedFacts(cfg.live, s.kern, l.key, At(s.kern, l.key).(removed := true), k);
    }
  }

  lemma CallbackStep(cfg: Config, s: Bus, k: Key)
    requires StepOf(cfg, s, Callback, k)
    ensures Commutes(cfg, s, Callback, k)
  {
    var m := s.u2k[0];
    if m.key in s.kern.table {
      var n := OnUserMessage(cfg.mode.fallThrough, At(s.kern, m.key), m);
      if n.removed {
        DroppedFacts(cfg.live, s.kern, m.key, n, k);
      } else {
        PutFacts(cfg.live, s.kern, s.kern.table[m.key], n, k);
      }
    }
  }

  /** The user side sees the keys apart, so routing a message touches one mailbox. */
  lemma RoutedFacts(live: iset<Key>, u: User, m: Msg, k: Key)
    requires CollisionFree(live) && UserRouted(live, u) && m.key in live && k in live
    ensures UserRouted(live, Routed(u, m))
    ensures Hand(Routed(u, m), k) == Hand(u, k)
    ensures m.key != k ==> Box(Routed(u, m), k) == Box(u, k) && Routed(u, m).threads[k] == u.threads[k]
  {
    assert m.key != k ==> Composite(m.key) != Composite(k);
  }

  lemma DispatchStep(cfg: Config, s: Bus, k: Key)
    requires StepOf(cfg, s, Dispatch, k)
    ensures Commutes(cfg, s, Dispatch, k)
  {
    RoutedFacts(cfg.live, s.user, s.k2u[0], k);
  }

  lemma FetchStep(cfg: Config, s: Bus, key: Key, k: Key)
    requires StepOf(cfg, s, Fetch(key), k)
    ensures Commutes(cfg, s, Fetch(key), k)
  {
    assert key in s.user.threads;
    assert key != k ==> Composite(key) != Composite(k);
  }

  lemma EchoStep(cfg: Config, s: Bus, key: Key, err: bool, k: Key)
    requires StepOf(cfg, s, Echo(key, err), k)
    ensures Commutes(cfg, s, Echo(key, err), k)
  {
    OnChannelAppend(s.u2k, s.user.hands[key], k);
  }

  lemma AppSendStep(cfg: Config, s: Bus, l: Label, k: Key)
    requires l.AppSend? && StepOf(cfg, s, l, k)
    ensures Commutes(cfg, s, l, k)
  {
    OnChannelAppend(s.u2k, Msg(l.key, l.op, l.ret, l.data, 0, 0), k);
  }

  lemma Step(cfg: Config, s: Bus, l: Label, k: Key)
    requires StepOf(cfg, s, l, k)
    ensures Commutes(cfg, s, l, k)
  {
    match l
    case Create(_, _, _) => TableStep(cfg, s, l, k);
    case Reap(_) => TableStep(cfg, s, l, k);
    case Send(id, op, data) => SendStep(cfg, s, id, op, data, k);
    case Act(id, a) => ActStep(cfg, s, id, a, k);
    case Callback => CallbackStep(cfg, s, k);
    case Dispatch => DispatchStep(cfg, s, k);
    case Fetch(key) => FetchStep(cfg, s, key, k);
    case Echo(key, err) => EchoStep(cfg, s, key, err, k);
    case AppSend(_, _, _, _) => AppSendStep(cfg, s, l, k);
  }

  // ---------- whole runs ----------

  /** The steps of a run that concern channel `k`, in order. */
  ghost function Trace(cfg: Config, s: Bus, ls: seq<Label>, k: Key): seq<Label>
    requires Legal(cfg, s, ls)
    decreases |ls|
  {
    if ls == [] then []
    else
      var rest := Trace(cfg, Next(cfg, s, ls[0]), ls[1..], k);
      if Concerns(s, ls[0], k) then [ls[0]] + rest else rest
  }

  /** Multiplexing is invisible: every run of the bus, projected on one key, is a run of the
      private channel of that key. */
  lemma {:induction false} MultiplexingInvisible(cfg: Config, s: Bus, ls: seq<Label>, k: Key)
    requires Sound(cfg) && k in cfg.live && RoutedOk(cfg.live, s) && Legal(cfg, s, ls)
    ensures RoutedOk(cfg.live, After(cfg, s, ls))
    ensures Channel.Legal(cfg.mode, k, Project(s, k), Trace(cfg, s, ls, k))
    ensures Channel.After(cfg.mode, k, Project(s, k), Trace(cfg, s, ls, k)) == Project(After(cfg, s, ls), k)
    decreases |ls|
  {
    if ls != [] {
      var s1 := Next(cfg, s, ls[0]);
      Step(cfg, s, ls[0], k);
      MultiplexingInvisible(cfg, s1, ls[1..], k);
      if Concerns(s, ls[0], k) {
        assert Trace(cfg, s, ls, k)[1..] == Trace(cfg, s1, ls[1..], k);
      }
    }
  }

  lemma InitProjects(cfg: Config, k: Key)
    requires Sound(cfg) && k in cfg.live
    ensures RoutedOk(cfg.live, InitBus()) && Project(InitBus(), k) == Channel.InitChan(k)
  {
    assert OnChannel([Hello()], k) == if k == MAIN then [Hello()] else [] by {
      assert [Hello()][1..] == [];
    }
  }

  /** In every reachable state of the bus every live channel satisfies the channel invariant. */
  lemma ReachableInv(cfg: Config, s: Bus, k: Key)
    requires Sound(cfg) && k in cfg.live && Reachable(cfg, s)
    ensures RoutedOk(cfg.live, s) && Channel.Inv(cfg.mode, k, Project(s, k))
  {
    var ls :| Legal(cfg, InitBus(), ls) && After(cfg, InitBus(), ls) == s;
    InitProjects(cfg, k);
    MultiplexingInvisible(cfg, InitBus(), ls, k);
    Channel.InitInv(cfg.mode, k);
    Channel.RunInv(cfg.mode, k, Channel.InitChan(k), Trace(cfg, InitBus(), ls, k));
  }

  // ---------- exactly when it is invisible ----------

  /** No step of another channel is ever noticed. */
  ghost predicate Invisible(cfg: Config) {
    forall ls, l, k ::
      Legal(cfg, InitBus(), ls) && Enabled(cfg, After(cfg, InitBus(), ls), l) && k in cfg.live
      && !Concerns(After(cfg, InitBus(), ls), l, k)
      ==> Project(Next(cfg, After(cfg, InitBus(), ls), l), k) == Project(After(cfg, InitBus(), ls), k)
  }

  /** A run that opens channel `b` and hands the main request to the user bus. */
  lemma OpeningRun(cfg: Config, b: Key) returns (ls: seq<Label>)
    requires b in cfg.live && b != MAIN
    ensures Legal(cfg, InitBus(), ls)
    ensures var s := After(cfg, InitBus(), ls);
            && s.k2u == [Msg(b, KUBIX_CHANNEL, 0, [], 1, 1)]
            && s.user.nodes.Keys == {Composite(MAIN)}
  {
    var s1 := Next(cfg, InitBus(), Create(b, 1, []));
    var s2 := Next(cfg, s1, Send(1, KUBIX_CHANNEL, []));
    var s3 := Next(cfg, s2, Dispatch);
    var l2 := [Send(1, KUBIX_CHANNEL, []), Dispatch];
    ls := [Create(b, 1, [])] + l2;
    assert ls[1..] == l2 && l2[1..] == [Dispatch] && [Dispatch][1..] == [];
    assert After(cfg, s2, [Dispatch]) == s3;
    assert After(cfg, s1, l2) == s3;
  }

  /** Two colliding keys share one user node: opening `b` makes a mailbox for `a`. */
  lemma CollisionIsVisible(cfg: Config, a: Key, b: Key)
    requires a in cfg.live && b in cfg.live && a != b && Composite(a) == Composite(b)
    ensures !Invisible(cfg)
  {
    CompositeCollision(a, b);
    CompositeCollision(a, MAIN);
    var ls := OpeningRun(cfg, b);
    var s := After(cfg, InitBus(), ls);
    var s' := Next(cfg, s, Dispatch);
    assert Enabled(cfg, s, Dispatch) && !Concerns(s, Dispatch, a);
    assert Box(s.user, a) == None && Box(s'.user, a) != None;
  }

  /** Channels are independent exactly when no two live keys collide. */
  lemma InvisibleIff(cfg: Config)
    requires MAIN in cfg.live
    ensures Invisible(cfg) <==> CollisionFree(cfg.live)
  {
    if CollisionFree(cfg.live) {
      forall ls, l, k |
        Legal(cfg, InitBus(), ls) && Enabled(cfg, After(cfg, InitBus(), ls), l) && k in cfg.live
        && !Concerns(After(cfg, InitBus(), ls), l, k)
        ensures Project(Next(cfg, After(cfg, InitBus(), ls), l), k) == Project(After(cfg, InitBus(), ls), k)
      {
        InitProjects(cfg, k);
        MultiplexingInvisible(cfg, InitBus(), ls, k);
        Step(cfg, After(cfg, InitBus(), ls), l, k);
      }
    } else {
      var a, b :| a in cfg.live && b in cfg.live && Composite(a) == Composite(b) && a != b;
      CollisionIsVisible(cfg, a, b);
    }
  }
}
