/** What the one-place mailbox delivers, and when a channel loses nothing. */
module Delivery {
  import opened Types
  import opened Nodes
  import opened Channel
  import opened SharedBus
  import opened Multiplexing

  // ---------- one mailbox, any interleaving of stores and fetches ----------

  datatype Event = Stored(m: Msg) | Got

  /** A mailbox with its history. For the j-th delivery `origin[j]` is the store its bytes
      came from and `head[j]` the last store before it; `source` is the store that the bytes in
      the mailbox now came from. */
  datatype History = History(
    box: Mailbox, stored: seq<Msg>, delivered: seq<Msg>, lost: nat,
    origin: seq<nat>, head: seq<nat>, source: nat)

  ghost function Start(k: Key): History {
    History(NewMailbox(k), [], [], 0, [], [], 0)
  }

  ghost predicate Possible(h: History, e: Event) {
    e.Got? ==> h.box.data != []
  }

  ghost function Record(h: History, e: Event): History
    requires Possible(h, e)
  {
    match e
    case Stored(m) =>
      h.(box := Nodes.Store(h.box, m), stored := h.stored + [m],
         lost := if m.data != [] && h.box.data != [] then h.lost + 1 else h.lost,
         source := if m.data != [] then |h.stored| else h.source)
    case Got =>
      h.(box := Drained(h.box), delivered := h.delivered + [Taken(h.box, h.box.name)],
         origin := h.origin + [h.source], head := h.head + [if |h.stored| > 0 then |h.stored| - 1 else 0])
  }

  function NonEmpty(q: seq<Msg>): nat {
    if q == [] then 0
    else NonEmpty(q[..|q| - 1]) + (if q[|q| - 1].data != [] then 1 else 0)
  }

  function Full(b: Mailbox): nat {
    if b.data != [] then 1 else 0
  }

  /** Bytes from the last non-empty store at or before store `head`, code and result from
      store `head` itself. */
  ghost predicate Composed(stored: seq<Msg>, origin: nat, head: nat, op: Byte, ret: Byte, data: seq<Byte>) {
    && origin <= head < |stored|
    && stored[origin].data == data && data != []
    && stored[head].op == op && stored[head].ret == ret
    && forall i :: origin < i <= head ==> stored[i].data == []
  }

  ghost predicate Accounted(h: History) {
    && NonEmpty(h.stored) == |h.delivered| + h.lost + Full(h.box)
    && |h.origin| == |h.head| == |h.delivered|
    && (h.box.data != [] ==>
          Composed(h.stored, h.source, |h.stored| - 1, h.box.op, h.box.ret, h.box.data))
    && (forall j :: 0 <= j < |h.delivered| ==>
          Composed(h.stored, h.origin[j], h.head[j], h.delivered[j].op, h.delivered[j].ret, h.delivered[j].data))
    && (forall i, j :: 0 <= i < j < |h.delivered| ==> h.head[i] < h.origin[j])
    && (h.box.data != [] ==> forall j :: 0 <= j < |h.delivered| ==> h.head[j] < h.source)
  }

  lemma ComposedGrows(stored: seq<Msg>, m: Msg, origin: nat, head: nat, op: Byte, ret: Byte, data: seq<Byte>)
    requires Composed(stored, origin, head, op, ret, data)
    ensures Composed(stored + [m], origin, head, op, ret, data)
    ensures m.data == [] && head == |stored| - 1 ==> Composed(stored + [m], origin, |stored|, m.op, m.ret, data)
  {}

  lemma RecordStored(h: History, m: Msg)
    requires Accounted(h)
    ensures Accounted(Record(h, Stored(m)))
  {
    assert (h.stored + [m])[..|h.stored|] == h.stored;
    forall j | 0 <= j < |h.delivered|
      ensures Composed(h.stored + [m], h.origin[j], h.head[j],
                       h.delivered[j].op, h.delivered[j].ret, h.delivered[j].data)
    {
      ComposedGrows(h.stored, m, h.origin[j], h.head[j], h.delivered[j].op, h.delivered[j].ret, h.delivered[j].data);
    }
    if h.box.data != [] {
      ComposedGrows(h.stored, m, h.source, |h.stored| - 1, h.box.op, h.box.ret, h.box.data);
    }
  }

  lemma RecordGot(h: History)
    requires Accounted(h) && Possible(h, Got)
    ensures Accounted(Record(h, Got))
  {
    var h' := Record(h, Got);
    forall j | 0 <= j < |h'.delivered|
      ensures Composed(h'.stored, h'.origin[j], h'.head[j],
                       h'.delivered[j].op, h'.delivered[j].ret, h'.delivered[j].data)
    {
      if j < |h.delivered| {
        assert Composed(h.stored, h.origin[j], h.head[j], h.delivered[j].op, h.delivered[j].ret, h.delivered[j].data);
      }
    }
  }

  ghost predicate Fits(h: History, es: seq<Event>)
    decreases |es|
  {
    es == [] || (Possible(h, es[0]) && Fits(Record(h, es[0]), es[1..]))
  }

  ghost function Replay(h: History, es: seq<Event>): History
    requires Fits(h, es)
    decreases |es|
  {
    if es == [] then h else Replay(Record(h, es[0]), es[1..])
  }

  /** Over any interleaving: non-empty stores are delivered, overwritten or still there, and
      deliveries are built from stores in their order. */
  lemma {:induction false} MailboxHistory(h: History, es: seq<Event>)
    requires Accounted(h) && Fits(h, es)
    ensures Accounted(Replay(h, es))
    decreases |es|
  {
    if es != [] {
      match es[0] {
        case Stored(m) => RecordStored(h, m);
        case Got => RecordGot(h);
      }
      MailboxHistory(Record(h, es[0]), es[1..]);
    }
  }

  /** When no stored message is empty every delivery is one stored message, whole. */
  lemma WholeMessages(k: Key, es: seq<Event>, j: nat)
    requires Fits(Start(k), es)
    requires var h := Replay(Start(k), es);
             j < |h.delivered| && forall i :: 0 <= i < |h.stored| ==> h.stored[i].data != []
    ensures var h := Replay(Start(k), es);
            && j < |h.origin| && h.origin[j] < |h.stored|
            && var d, m := h.delivered[j], h.stored[h.origin[j]];
               d.op == m.op && d.ret == m.ret && d.data == m.data
  {
    MailboxHistory(Start(k), es);
    var h := Replay(Start(k), es);
    assert Composed(h.stored, h.origin[j], h.head[j], h.delivered[j].op, h.delivered[j].ret, h.delivered[j].data);
  }

  // ---------- what goes into a channel and what comes out ----------

  /** What of a message reaches the app: operation, result and bytes. */
  datatype Content = Content(op: Byte, ret: Byte, data: seq<Byte>)

  function ContentOf(m: Msg): Content {
    Content(m.op, m.ret, m.data)
  }

  function Contents(q: seq<Msg>): (r: seq<Content>)
    ensures |r| == |q|
    ensures forall i :: 0 <= i < |q| ==> r[i] == ContentOf(q[i])
  {
    seq(|q|, i requires 0 <= i < |q| => ContentOf(q[i]))
  }

  lemma ContentsAppend(a: seq<Msg>, b: seq<Msg>)
    ensures Contents(a + b) == Contents(a) + Contents(b)
  {}

  /** What a step adds to the channel, and what an app thread gets out of it. */
  ghost function SentBy(mode: Mode, k: Key, c: Chan, l: Label): seq<Content>
    requires Channel.Enabled(mode, k, c, l)
  {
    if l.Send? then [Content(l.op, 0, l.data)] else []
  }

  ghost function GotBy(mode: Mode, k: Key, c: Chan, l: Label): seq<Content>
    requires Channel.Enabled(mode, k, c, l)
  {
    if l.Fetch? then [Content(c.mbox.value.op, c.mbox.value.ret, c.mbox.value.data)] else []
  }

  ghost function AllSent(mode: Mode, k: Key, c: Chan, ls: seq<Label>): seq<Content>
    requires Channel.Legal(mode, k, c, ls)
    decreases |ls|
  {
    if ls == [] then []
    else SentBy(mode, k, c, ls[0]) + AllSent(mode, k, Channel.Next(mode, k, c, ls[0]), ls[1..])
  }

  ghost function AllGot(mode: Mode, k: Key, c: Chan, ls: seq<Label>): seq<Content>
    requires Channel.Legal(mode, k, c, ls)
    decreases |ls|
  {
    if ls == [] then []
    else GotBy(mode, k, c, ls[0]) + AllGot(mode, k, Channel.Next(mode, k, c, ls[0]), ls[1..])
  }

  // ---------- the mailbox of a running channel ----------

  /** The history is that of the channel's mailbox; before the first store there is no node. */
  ghost predicate Backs(k: Key, c: Chan, h: History) {
    h.box == if c.mbox.Some? then c.mbox.value else NewMailbox(k)
  }

  ghost function Recorded(h: History, c: Chan, l: Label): History
    requires (l.Dispatch? ==> c.k2u != []) && (l.Fetch? ==> h.box.data != [])
  {
    match l
    case Dispatch => Record(h, Stored(c.k2u[0]))
    case Fetch(_) => Record(h, Got)
    case _ => h
  }

  /** From `h` to `h'` the channel went from `c` to `c'`, was sent `sent` and gave out `got`. */
  ghost predicate Flowed(k: Key, c: Chan, h: History, sent: seq<Content>, got: seq<Content>, c': Chan, h': History) {
    && Backs(k, c', h')
    && Contents(h'.delivered) == Contents(h.delivered) + got
    && Contents(h.stored + c.k2u) + sent == Contents(h'.stored + c'.k2u)
  }

  lemma RecordedStep(mode: Mode, k: Key, c: Chan, l: Label, h: History)
    requires Channel.Inv(mode, k, c) && Channel.Enabled(mode, k, c, l) && Backs(k, c, h)
    ensures Flowed(k, c, h, SentBy(mode, k, c, l), GotBy(mode, k, c, l),
                   Channel.Next(mode, k, c, l), Recorded(h, c, l))
  {
    var c', h' := Channel.Next(mode, k, c, l), Recorded(h, c, l);
    match l
    case Dispatch => assert h.stored + c.k2u == h'.stored + c'.k2u;
    case Send(_, _, _) =>
      var m := c'.k2u[|c.k2u|];
      assert h'.stored + c'.k2u == (h.stored + c.k2u) + [m];
      ContentsAppend(h.stored + c.k2u, [m]);
    case Fetch(_) => ContentsAppend(h.delivered, [Taken(h.box, h.box.name)]);
    case _ => assert c'.k2u == c.k2u;
  }

  lemma ReplayCons(h: History, e: Event, es: seq<Event>)
    requires Possible(h, e) && Fits(Record(h, e), es)
    ensures Fits(h, [e] + es) && Replay(h, [e] + es) == Replay(Record(h, e), es)
  {
    assert ([e] + es)[1..] == es;
  }

  lemma FlowedOn(k: Key, c: Chan, h: History, s1: seq<Content>, g1: seq<Content>, c1: Chan, h1: History,
                 s2: seq<Content>, g2: seq<Content>, c2: Chan, h2: History)
    requires Flowed(k, c, h, s1, g1, c1, h1) && Flowed(k, c1, h1, s2, g2, c2, h2)
    ensures Flowed(k, c, h, s1 + s2, g1 + g2, c2, h2)
  {}

  /** The mailbox of a running channel has such a history, from its first message on: what the
      app thread fetched is what the history delivered, and what was sent was stored or is
      queued, both in order. */
  lemma {:induction false} ChannelReplays(mode: Mode, k: Key, c: Chan, ls: seq<Label>, h: History)
    returns (es: seq<Event>)
    requires Channel.Inv(mode, k, c) && Channel.Legal(mode, k, c, ls) && Backs(k, c, h)
    ensures Fits(h, es)
    ensures Flowed(k, c, h, AllSent(mode, k, c, ls), AllGot(mode, k, c, ls),
                   Channel.After(mode, k, c, ls), Replay(h, es))
    decreases |ls|
  {
    es := [];
    if ls != [] {
      var l := ls[0];
      var c1, h1 := Channel.Next(mode, k, c, l), Recorded(h, c, l);
      StepInv(mode, k, c, l);
      RecordedStep(mode, k, c, l, h);
      es := ChannelReplays(mode, k, c1, ls[1..], h1);
      FlowedOn(k, c, h, SentBy(mode, k, c, l), GotBy(mode, k, c, l), c1, h1,
               AllSent(mode, k, c1, ls[1..]), AllGot(mode, k, c1, ls[1..]),
               Channel.After(mode, k, c1, ls[1..]), Replay(h1, es));
      if l.Dispatch? || l.Fetch? {
        var e := if l.Dispatch? then Stored(c.k2u[0]) else Got;
        ReplayCons(h, e, es);
        es := [e] + es;
      }
    }
  }

  lemma StartFlows(k: Key, sent: seq<Content>, got: seq<Content>, c': Chan, h': History)
    requires Flowed(k, InitChan(k), Start(k), sent, got, c', h')
    ensures Contents(h'.delivered) == got
    ensures Contents(InitChan(k).k2u) + sent == Contents(h'.stored + c'.k2u)
  {
    assert Start(k).stored + InitChan(k).k2u == InitChan(k).k2u;
  }

  /** The account of a whole run of a channel: every message sent was stored in the mailbox or
      is still queued; of the stored ones that are not empty each was delivered, overwritten
      or is still there. */
  lemma ChannelAccounts(mode: Mode, k: Key, ls: seq<Label>) returns (h: History)
    requires Channel.Legal(mode, k, InitChan(k), ls)
    ensures Accounted(h) && Backs(k, Channel.After(mode, k, InitChan(k), ls), h)
    ensures Contents(h.delivered) == AllGot(mode, k, InitChan(k), ls)
    ensures Contents(InitChan(k).k2u) + AllSent(mode, k, InitChan(k), ls)
         == Contents(h.stored + Channel.After(mode, k, InitChan(k), ls).k2u)
  {
    InitInv(mode, k);
    var es := ChannelReplays(mode, k, InitChan(k), ls, Start(k));
    MailboxHistory(Start(k), es);
    h := Replay(Start(k), es);
    StartFlows(k, AllSent(mode, k, InitChan(k), ls), AllGot(mode, k, InitChan(k), ls),
               Channel.After(mode, k, InitChan(k), ls), h);
  }

  // ---------- lossless under one outstanding message ----------

  /** Messages sent on the channel and not yet fetched, oldest first. */
  ghost function Unconsumed(c: Chan): seq<Content> {
    (if c.mbox.Some? && c.mbox.value.data != []
     then [Content(c.mbox.value.op, c.mbox.value.ret, c.mbox.value.data)] else [])
    + Contents(c.k2u)
  }

  /** Nobody sends an empty message, and nobody sends while another message is unconsumed. */
  ghost predicate OneOutstanding(mode: Mode, k: Key, c: Chan, ls: seq<Label>)
    requires Channel.Legal(mode, k, c, ls)
    decreases |ls|
  {
    ls == [] ||
    (var c' := Channel.Next(mode, k, c, ls[0]);
     && |Unconsumed(c')| <= 1
     && (ls[0].Send? ==> ls[0].data != [])
     && OneOutstanding(mode, k, c', ls[1..]))
  }

  ghost predicate Whole(c: Chan) {
    |Unconsumed(c)| <= 1 && forall i :: 0 <= i < |c.k2u| ==> c.k2u[i].data != []
  }

  lemma DispatchConserves(mode: Mode, k: Key, c: Chan)
    requires Channel.Inv(mode, k, c) && Channel.Enabled(mode, k, c, Dispatch) && Whole(c)
    ensures var c' := Channel.Next(mode, k, c, Dispatch);
            Unconsumed(c') == Unconsumed(c) && Whole(c')
  {
    assert |c.k2u| == 1 && Unconsumed(c) == [ContentOf(c.k2u[0])];
  }

  lemma SendConserves(mode: Mode, k: Key, c: Chan, l: Label)
    requires l.Send? && Channel.Enabled(mode, k, c, l) && Whole(c) && l.data != []
    ensures var c' := Channel.Next(mode, k, c, l);
            && Unconsumed(c') == Unconsumed(c) + SentBy(mode, k, c, l)
            && (|Unconsumed(c')| <= 1 ==> Whole(c'))
  {
    var c' := Channel.Next(mode, k, c, l);
    assert Contents(c'.k2u) == Contents(c.k2u) + [Content(l.op, 0, l.data)];
  }

  /** Every other step leaves the queue alone; only a fetch empties the mailbox. */
  lemma QuietConserves(mode: Mode, k: Key, c: Chan, l: Label)
    requires Channel.Enabled(mode, k, c, l) && !l.Send? && !l.Dispatch?
    ensures var c' := Channel.Next(mode, k, c, l);
            && c'.k2u == c.k2u && Unconsumed(c) == GotBy(mode, k, c, l) + Unconsumed(c')
  {
    var c' := Channel.Next(mode, k, c, l);
    assert l.Fetch? || c'.mbox == c.mbox;
  }

  lemma ConservedStep(mode: Mode, k: Key, c: Chan, l: Label)
    requires Channel.Inv(mode, k, c) && Channel.Enabled(mode, k, c, l) && Whole(c)
    requires l.Send? ==> l.data != []
    ensures var c' := Channel.Next(mode, k, c, l);
            && Unconsumed(c) + SentBy(mode, k, c, l) == GotBy(mode, k, c, l) + Unconsumed(c')
            && (|Unconsumed(c')| <= 1 ==> Whole(c'))
  {
    if l.Dispatch? {
      DispatchConserves(mode, k, c);
    } else if l.Send? {
      SendConserves(mode, k, c, l);
    } else {
      QuietConserves(mode, k, c, l);
    }
  }

  lemma Chain<T>(a: seq<T>, s: seq<T>, g: seq<T>, b: seq<T>, sent: seq<T>, got: seq<T>, z: seq<T>)
    requires a + s == g + b && b + sent == got + z
    ensures a + (s + sent) == (g + got) + z
  {
    assert a + (s + sent) == (a + s) + sent;
    assert (g + b) + sent == g + (b + sent);
    assert g + (got + z) == (g + got) + z;
  }

  /** Conservation: nothing is lost, changed, duplicated or reordered. */
  lemma {:induction false} LosslessRun(mode: Mode, k: Key, c: Chan, ls: seq<Label>)
    requires Channel.Inv(mode, k, c) && Whole(c)
    requires Channel.Legal(mode, k, c, ls) && OneOutstanding(mode, k, c, ls)
    ensures Unconsumed(c) + AllSent(mode, k, c, ls)
         == AllGot(mode, k, c, ls) + Unconsumed(Channel.After(mode, k, c, ls))
    decreases |ls|
  {
    if ls != [] {
      var c' := Channel.Next(mode, k, c, ls[0]);
      StepInv(mode, k, c, ls[0]);
      ConservedStep(mode, k, c, ls[0]);
      LosslessRun(mode, k, c', ls[1..]);
      Chain(Unconsumed(c), SentBy(mode, k, c, ls[0]), GotBy(mode, k, c, ls[0]), Unconsumed(c'),
            AllSent(mode, k, c', ls[1..]), AllGot(mode, k, c', ls[1..]),
            Unconsumed(Channel.After(mode, k, c', ls[1..])));
    }
  }

  lemma DrainedLossless(mode: Mode, k: Key, c: Chan, ls: seq<Label>)
    requires Channel.Inv(mode, k, c)
    requires Channel.Legal(mode, k, c, ls) && OneOutstanding(mode, k, c, ls)
    requires Unconsumed(c) == [] && Unconsumed(Channel.After(mode, k, c, ls)) == []
    ensures AllGot(mode, k, c, ls) == AllSent(mode, k, c, ls)
  {
    LosslessRun(mode, k, c, ls);
    assert [] + AllSent(mode, k, c, ls) == AllSent(mode, k, c, ls);
    assert AllGot(mode, k, c, ls) + [] == AllGot(mode, k, c, ls);
  }

  /** The same account for every channel over every run of the shared bus. */
  lemma BusAccounts(cfg: Config, ls: seq<Label>, k: Key) returns (h: History)
    requires Sound(cfg) && k in cfg.live && SharedBus.Legal(cfg, InitBus(), ls)
    ensures Channel.Legal(cfg.mode, k, InitChan(k), Trace(cfg, InitBus(), ls, k))
    ensures Accounted(h) && Backs(k, Project(SharedBus.After(cfg, InitBus(), ls), k), h)
    ensures Contents(h.delivered) == AllGot(cfg.mode, k, InitChan(k), Trace(cfg, InitBus(), ls, k))
    ensures Contents(InitChan(k).k2u) + AllSent(cfg.mode, k, InitChan(k), Trace(cfg, InitBus(), ls, k))
         == Contents(h.stored + OnChannel(SharedBus.After(cfg, InitBus(), ls).k2u, k))
  {
    InitProjects(cfg, k);
    MultiplexingInvisible(cfg, InitBus(), ls, k);
    h := ChannelAccounts(cfg.mode, k, Trace(cfg, InitBus(), ls, k));
  }

  /** The run of the private channel that a run of the bus is for `k`. */
  ghost function View(cfg: Config, s: Bus, ls: seq<Label>, k: Key): (t: seq<Label>)
    requires Sound(cfg) && Reachable(cfg, s) && k in cfg.live && SharedBus.Legal(cfg, s, ls)
    ensures Channel.Legal(cfg.mode, k, Project(s, k), t)
    ensures Channel.After(cfg.mode, k, Project(s, k), t) == Project(SharedBus.After(cfg, s, ls), k)
  {
    ReachableInv(cfg, s, k);
    MultiplexingInvisible(cfg, s, ls, k);
    Trace(cfg, s, ls, k)
  }

  /** On the shared bus: a channel that never has more than one message unconsumed, drained
      before and after, delivers exactly what was sent on it, whatever the others do. */
  lemma LosslessOnBus(cfg: Config, s: Bus, ls: seq<Label>, k: Key)
    requires Sound(cfg) && Reachable(cfg, s) && k in cfg.live && SharedBus.Legal(cfg, s, ls)
    requires OneOutstanding(cfg.mode, k, Project(s, k), View(cfg, s, ls, k))
    requires Unconsumed(Project(s, k)) == [] && Unconsumed(Project(SharedBus.After(cfg, s, ls), k)) == []
    ensures AllGot(cfg.mode, k, Project(s, k), View(cfg, s, ls, k))
         == AllSent(cfg.mode, k, Project(s, k), View(cfg, s, ls, k))
  {
    ReachableInv(cfg, s, k);
    DrainedLossless(cfg.mode, k, Project(s, k), View(cfg, s, ls, k));
  }
}
