/** The bus with real frames: the FIFOs hold bytes, the two ends lay them out and decode them.
    It refines the protocol; Steps ties it to the methods of KernelSide and Kubix. */
module Wire {
  import opened Types
  import opened Nodes
  import opened SharedBus
  import opened Frame
  import opened Kernel
  import opened KubixLib
  import Guarantees

  /** A frame in a FIFO. `tag` is history: the incarnation a request was sent for. */
  datatype InFlight = InFlight(bytes: seq<Byte>, tag: nat)

  datatype Frames = Frames(kern: Kern, user: User, k2u: seq<InFlight>, u2k: seq<InFlight>)

  /** `behind` is what lies behind the frame buffer of the user library. */
  datatype Link = Link(port: Word, id: CnId, behind: Behind)

  function ReplyFrame(k: Link, m: Msg): seq<Byte> {
    UserFrame(k.port, k.id, m.key.pid, m.key.uid, m.op, m.ret, m.data, k.behind)
  }

  ghost predicate CanGo(cfg: Config, w: Frames, l: Label) {
    var kn := w.kern;
    match l
    case Create(key, id, _) => CanCreate(cfg, kn, key, id)
    case Reap(key) => key != MAIN && Has(kn, key) && At(kn, key).state.Destroy?
    case Send(id, op, data) => id in kn.heap && CanSend(kn.heap[id], op, data) && |data| <= PAYLOAD_MAX_SIZE
    case Act(id, a) => id in kn.heap && CanAct(kn.heap[id], a)
    case Callback =>
      w.u2k != [] && Parse(w.u2k[0].bytes).Some?
      && (var p := Heard(Parse(w.u2k[0].bytes).value); p.key in kn.table ==> Has(kn, p.key))
    case Dispatch => w.k2u != [] && Readable(w.k2u[0].bytes)
    case Fetch(key) => CanFetch(w.user, key)
    case Echo(key, _) => key in w.user.hands
    case AppSend(_, op, _, data) => op != KUBIX_CHANNEL && |data| <= PAYLOAD_MAX_SIZE
  }

  ghost function Go(cfg: Config, k: Link, w: Frames, l: Label): Frames
    requires CanGo(cfg, w, l)
  {
    var kn := w.kern;
    match l
    case Create(key, id, request) => w.(kern := Made(kn, key, id, request))
    case Reap(key) => w.(kern := Dropped(kn, key, At(kn, key).(removed := true)))
    case Send(id, op, data) =>
      var frame := FrameOf(k.id, Outgoing(kn.heap[id], id, op, data));
      w.(kern := Put(kn, id, AfterSend(kn.heap[id], op)), k2u := w.k2u + [InFlight(frame, id)])
    case Act(id, a) => w.(kern := Put(kn, id, AfterAct(kn.heap[id], a)))
    case Callback =>
      var p := Parse(w.u2k[0].bytes).value;
      w.(kern := if p.id == k.id then Received(cfg.mode.fallThrough, kn, Heard(p)) else kn, u2k := w.u2k[1..])
    case Dispatch =>
      w.(user := RoutedFrame(w.user, w.k2u[0].bytes, w.k2u[0].tag), k2u := w.k2u[1..])
    case Fetch(key) => w.(user := Fetched(w.user, key))
    case Echo(key, err) =>
      var m := w.user.hands[key];
      var frame := UserFrame(k.port, k.id, key.pid, key.uid, m.op, m.ret, m.data, k.behind);
      w.(user := w.user.(hands := w.user.hands - {key}),
         u2k := if err then w.u2k else w.u2k + [InFlight(frame, m.tag)])
    case AppSend(key, op, ret, data) =>
      var frame := UserFrame(k.port, k.id, key.pid, key.uid, op, ret, data, k.behind);
      w.(u2k := w.u2k + [InFlight(frame, 0)])
  }

  // ---------- the refinement ----------

  ghost predicate Carries(k: Link, w: Frames, b: Bus) {
    && |w.k2u| == |b.k2u| && |w.u2k| == |b.u2k|
    && (forall i :: 0 <= i < |b.k2u| ==> w.k2u[i] == InFlight(FrameOf(k.id, b.k2u[i]), b.k2u[i].tag))
    && (forall i :: 0 <= i < |b.u2k| ==> w.u2k[i] == InFlight(ReplyFrame(k, b.u2k[i]), b.u2k[i].tag))
  }

  /** No payload is too long for an echo to fit its frame, and app threads hold messages of
      their own channel. */
  ghost predicate Short(b: Bus) {
    && (forall i :: 0 <= i < |b.k2u| ==> |b.k2u[i].data| <= PAYLOAD_MAX_SIZE)
    && (forall i :: 0 <= i < |b.u2k| ==> |b.u2k[i].data| <= PAYLOAD_MAX_SIZE)
    && (forall c :: c in b.user.nodes ==> |b.user.nodes[c].data| <= PAYLOAD_MAX_SIZE)
    && (forall k :: k in b.user.hands ==> |b.user.hands[k].data| <= PAYLOAD_MAX_SIZE && b.user.hands[k].key == k)
    && (forall k :: k in b.kern.table ==> b.kern.table[k] in b.kern.heap)
  }

  /** The frames show the protocol state `b`. */
  ghost predicate Shows(k: Link, w: Frames, b: Bus) {
    w.kern == b.kern && w.user == b.user && Carries(k, w, b) && Short(b)
  }

  /** A reply frame decodes to the reply. */
  lemma ReplyHeard(k: Link, m: Msg)
    requires |m.data| <= PAYLOAD_MAX_SIZE
    ensures var p := Parse(ReplyFrame(k, m));
            p.Some? && p.value.id == k.id && Heard(p.value) == m.(seqNo := 0, tag := 0)
  {
    UserFrameRoundTrip(k.port, k.id, m.key.pid, m.key.uid, m.op, m.ret, m.data, k.behind);
    HeardBack(k.id, m);
  }

  lemma HeardBack(id: CnId, m: Msg)
    ensures Heard(Parsed(NLMSG_DONE, id, 0, m.key.pid, m.key.uid, m.op % 0x100, m.ret % 0x100, m.data))
         == m.(seqNo := 0, tag := 0)
  {}

  lemma RequestHeard(id: CnId, m: Msg)
    requires |m.data| <= PAYLOAD_MAX_SIZE
    ensures var p := Parse(Rmsg(FrameOf(id, m)));
            p.Some? && p.value.kind == NLMSG_DONE && Answered(p.value, m.tag) == m
  {
    KernelFrameRoundTrip(id, m.seqNo, m.key.pid, m.key.uid, m.op, m.ret, m.data);
    RmsgParse(FrameOf(id, m));
    AnsweredBack(id, m);
  }

  lemma AnsweredBack(id: CnId, m: Msg)
    ensures Answered(Parsed(NLMSG_DONE, id, m.seqNo, m.key.pid, m.key.uid, m.op % 0x100, m.ret % 0x100, m.data), m.tag)
         == m
  {}

  /** The callback reads neither the sequence number nor the history. */
  lemma ReceivedSame(fallThrough: bool, kn: Kern, m: Msg)
    requires m.key in kn.table ==> Has(kn, m.key)
    ensures Received(fallThrough, kn, m.(seqNo := 0, tag := 0)) == Received(fallThrough, kn, m)
  {}

  /** The payload of the step, if it sends any of its own, fits a frame. */
  ghost predicate Small(l: Label) {
    (l.Send? ==> |l.data| <= PAYLOAD_MAX_SIZE) && (l.AppSend? ==> |l.data| <= PAYLOAD_MAX_SIZE)
  }

  lemma ShortStep(cfg: Config, b: Bus, l: Label)
    requires Short(b) && Enabled(cfg, b, l) && Small(l)
    ensures Short(Next(cfg, b, l))
  {}

  lemma CallbackRefines(cfg: Config, k: Link, w: Frames, b: Bus)
    requires Shows(k, w, b) && Enabled(cfg, b, Callback)
    ensures CanGo(cfg, w, Callback) && Shows(k, Go(cfg, k, w, Callback), Next(cfg, b, Callback))
  {
    ReplyHeard(k, b.u2k[0]);
    ReceivedSame(cfg.mode.fallThrough, b.kern, b.u2k[0]);
    ShortStep(cfg, b, Callback);
  }

  lemma DispatchRefines(cfg: Config, k: Link, w: Frames, b: Bus)
    requires Shows(k, w, b) && Enabled(cfg, b, Dispatch)
    ensures CanGo(cfg, w, Dispatch) && Shows(k, Go(cfg, k, w, Dispatch), Next(cfg, b, Dispatch))
  {
    RequestHeard(k.id, b.k2u[0]);
    ShortStep(cfg, b, Dispatch);
  }

  lemma OutputRefines(cfg: Config, k: Link, w: Frames, b: Bus, l: Label)
    requires Shows(k, w, b) && Enabled(cfg, b, l) && Small(l) && (l.Send? || l.Echo? || l.AppSend?)
    ensures CanGo(cfg, w, l) && Shows(k, Go(cfg, k, w, l), Next(cfg, b, l))
  {
    ShortStep(cfg, b, l);
  }

  /** The steps on frames are the steps on messages with payloads that fit, one for one: no
      frame is misread, and none gets stuck. */
  lemma StepIff(cfg: Config, k: Link, w: Frames, b: Bus, l: Label)
    requires Shows(k, w, b)
    ensures CanGo(cfg, w, l) <==> Enabled(cfg, b, l) && Small(l)
    ensures CanGo(cfg, w, l) ==> Shows(k, Go(cfg, k, w, l), Next(cfg, b, l))
  {
    if l.Callback? {
      if Enabled(cfg, b, l) { CallbackRefines(cfg, k, w, b); }
    } else if l.Dispatch? {
      if Enabled(cfg, b, l) { DispatchRefines(cfg, k, w, b); }
    } else if l.Send? || l.Echo? || l.AppSend? {
      if Enabled(cfg, b, l) && Small(l) { OutputRefines(cfg, k, w, b, l); }
    } else if Enabled(cfg, b, l) {
      ShortStep(cfg, b, l);
    }
  }

  // ---------- runs ----------

  ghost predicate CanRun(cfg: Config, k: Link, w: Frames, ls: seq<Label>)
    decreases |ls|
  {
    ls == [] || (CanGo(cfg, w, ls[0]) && CanRun(cfg, k, Go(cfg, k, w, ls[0]), ls[1..]))
  }

  ghost function Run(cfg: Config, k: Link, w: Frames, ls: seq<Label>): Frames
    requires CanRun(cfg, k, w, ls)
    decreases |ls|
  {
    if ls == [] then w else Run(cfg, k, Go(cfg, k, w, ls[0]), ls[1..])
  }

  /** Runs on frames are runs on messages whose payloads fit, with the same kernel and user side. */
  lemma {:induction false} RunIff(cfg: Config, k: Link, w: Frames, b: Bus, ls: seq<Label>)
    requires Shows(k, w, b)
    ensures CanRun(cfg, k, w, ls) <==> Legal(cfg, b, ls) && forall i :: 0 <= i < |ls| ==> Small(ls[i])
    ensures CanRun(cfg, k, w, ls) ==> Shows(k, Run(cfg, k, w, ls), After(cfg, b, ls))
    decreases |ls|
  {
    if ls != [] {
      StepIff(cfg, k, w, b, ls[0]);
      if CanGo(cfg, w, ls[0]) {
        RunIff(cfg, k, Go(cfg, k, w, ls[0]), Next(cfg, b, ls[0]), ls[1..]);
        assert forall i :: 0 < i < |ls| ==> ls[i] == ls[1..][i - 1];
      }
    }
  }

  /** After module init: the hello frame is queued. */
  ghost function InitFrames(k: Link): Frames {
    Frames(InitBus().kern, InitBus().user, [InFlight(FrameOf(k.id, Hello()), 0)], [])
  }

  lemma InitShows(k: Link)
    ensures Shows(k, InitFrames(k), InitBus())
  {}

  /** The loop of Kubix.Dispatch over everything queued is that many steps of the system. */
  lemma {:induction false} LoopIsRun(cfg: Config, k: Link, w: Frames,
                                     frames: seq<seq<Byte>>, tags: seq<nat>, ls: seq<Label>)
    requires |frames| == |tags| == |w.k2u| == |ls|
    requires forall i :: 0 <= i < |ls| ==> ls[i] == Dispatch && w.k2u[i] == InFlight(frames[i], tags[i])
    requires forall i :: 0 <= i < |ls| ==> Readable(frames[i])
    ensures CanRun(cfg, k, w, ls)
    ensures Run(cfg, k, w, ls) == w.(user := RoutedFrames(w.user, frames, tags), k2u := [])
    decreases |ls|
  {
    if ls != [] {
      LoopIsRun(cfg, k, Go(cfg, k, w, Dispatch), frames[1..], tags[1..], ls[1..]);
    }
  }

  // ---------- end to end ----------

  /** Through both framings, the dispatcher, the mailbox, the app thread, the callback and the
      reply slot: an opener that is told 0 reads back the bytes it sent, unless its wait was
      interrupted, or it sent none and reads some. */
  lemma EchoEndToEnd(cfg: Config, k: Link, ls: seq<Label>, id: nat)
    requires Sound(cfg) && cfg.mode.fallThrough && CanRun(cfg, k, InitFrames(k), ls)
    requires var h := Run(cfg, k, InitFrames(k), ls).kern.heap;
             id in h && h[id].opener.Returned? && h[id].opener.ret == 0
    ensures var n := Run(cfg, k, InitFrames(k), ls).kern.heap[id];
            n.opener.reply == n.request <==> (n.opener.reply == [] <==> n.request == [])
  {
    InitShows(k);
    RunIff(cfg, k, InitFrames(k), InitBus(), ls);
    Guarantees.EchoIff(cfg, After(cfg, InitBus(), ls), id);
  }
}
