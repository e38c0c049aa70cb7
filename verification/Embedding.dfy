/** The converse of Multiplexing: whatever a private channel can do, the bus can do with
    that channel alone. */
module Embedding {
  import opened Types
  import opened Nodes
  import opened SharedBus
  import opened Multiplexing
  import Channel

  /** All traffic belongs to `k`; besides the nodes of `k` there is only the main node 0. */
  ghost predicate Alone(s: Bus, k: Key) {
    && (forall i :: 0 <= i < |s.k2u| ==> s.k2u[i].key == k)
    && (forall i :: 0 <= i < |s.u2k| ==> s.u2k[i].key == k)
    && (forall id :: id in s.kern.heap && id != 0 ==> s.kern.heap[id].key == k)
    && 0 in s.kern.heap && s.kern.heap[0].key == MAIN
  }

  /** Labels in which no incarnation is numbered 0. */
  ghost predicate SparesZero(ls: seq<Label>) {
    forall i :: 0 <= i < |ls| && ls[i].Create? ==> ls[i].id != 0
  }

  lemma {:induction false} NonEmptyOnChannel(q: seq<Msg>, k: Key)
    requires forall i :: 0 <= i < |q| ==> q[i].key == k
    ensures OnChannel(q, k) == q
  {
    if q != [] { NonEmptyOnChannel(q[1..], k); }
  }

  lemma AloneEnabled(cfg: Config, s: Bus, l: Label, k: Key)
    requires Sound(cfg) && RoutedOk(cfg.live, s) && k in cfg.live && k != MAIN && Alone(s, k)
    requires Channel.Enabled(cfg.mode, k, Project(s, k), l) && (l.Create? ==> l.id != 0)
    ensures Enabled(cfg, s, l) && Concerns(s, l, k)
  {
    if l.Callback? || l.Dispatch? {
      NonEmptyOnChannel(s.k2u, k);
      NonEmptyOnChannel(s.u2k, k);
    } else if l.Create? {
      NoSendersProjects(s, k);
    }
  }

  lemma AloneQueues(cfg: Config, s: Bus, l: Label, k: Key)
    requires RoutedOk(cfg.live, s) && Alone(s, k) && Enabled(cfg, s, l) && Concerns(s, l, k)
    ensures var s' := Next(cfg, s, l);
            && (forall i :: 0 <= i < |s'.k2u| ==> s'.k2u[i].key == k)
            && (forall i :: 0 <= i < |s'.u2k| ==> s'.u2k[i].key == k)
  {}

  lemma AloneStep(cfg: Config, s: Bus, l: Label, k: Key)
    requires RoutedOk(cfg.live, s) && k != MAIN && Alone(s, k)
    requires Enabled(cfg, s, l) && Concerns(s, l, k)
    ensures Alone(Next(cfg, s, l), k)
  {
    NodeKeysKept(cfg.live, cfg, s, l);
    AloneQueues(cfg, s, l, k);
  }

  lemma {:induction false} AloneRun(cfg: Config, s: Bus, ls: seq<Label>, k: Key)
    requires Sound(cfg) && RoutedOk(cfg.live, s) && k in cfg.live && k != MAIN && Alone(s, k)
    requires Channel.Legal(cfg.mode, k, Project(s, k), ls) && SparesZero(ls)
    ensures Legal(cfg, s, ls)
    ensures Project(After(cfg, s, ls), k) == Channel.After(cfg.mode, k, Project(s, k), ls)
    ensures Alone(After(cfg, s, ls), k)
    decreases |ls|
  {
    if ls != [] {
      AloneEnabled(cfg, s, ls[0], k);
      AloneStep(cfg, s, ls[0], k);
      Step(cfg, s, ls[0], k);
      AloneRun(cfg, Next(cfg, s, ls[0]), ls[1..], k);
    }
  }

  /** Every run of a private channel is what some run of the bus looks like from that channel. */
  lemma PrivateRunsEmbed(cfg: Config, k: Key, ls: seq<Label>) returns (all: seq<Label>)
    requires Sound(cfg) && k in cfg.live && k != MAIN
    requires Channel.Legal(cfg.mode, k, Channel.InitChan(k), ls) && SparesZero(ls)
    ensures Legal(cfg, InitBus(), all)
    ensures Project(After(cfg, InitBus(), all), k)
         == Channel.After(cfg.mode, k, Channel.InitChan(k), ls)
    ensures Alone(After(cfg, InitBus(), all), k)
  {
    InitProjects(cfg, k);
    Step(cfg, InitBus(), Dispatch, k);
    var s := Next(cfg, InitBus(), Dispatch);
    assert InitBus().k2u[0].key == MAIN && s.k2u == [];
    AloneRun(cfg, s, ls, k);
    all := [Dispatch] + ls;
    assert all[1..] == ls;
  }
}
