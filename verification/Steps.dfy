/** The two heap classes take part in the system of Wire: every method of theirs, called when
    the system is in state `w`, moves it by one step. */
module Steps {
  import opened Types
  import opened Nodes
  import opened SharedBus
  import opened Frame
  import opened Kernel
  import opened KubixLib
  import opened Wire
  import Storage

  /** The object is the kernel end of the system. */
  ghost predicate KernelEnd(side: KernelSide, cfg: Config, k: Link, w: Frames)
    reads side, side.table, side.table.buckets, side.table.spine
  {
    side.Valid() && side.model == w.kern && side.cnId == k.id && side.fallThrough == cfg.mode.fallThrough
  }

  /** The object is the user end of the system. */
  ghost predicate UserEnd(bus: Kubix, k: Link, w: Frames)
    reads bus, bus.Repr()
  {
    bus.Valid() && bus.model == w.user && bus.port == k.port && bus.cnId == k.id
  }

  /** Module init on one side, the constructor of Kubix on the other: the initial state. */
  method Boot(hash: int -> int, port: Word, id: CnId, behind: Behind, fallThrough: bool, ghost cfg: Config)
    returns (side: KernelSide, bus: Kubix, frame: seq<Byte>)
    requires (forall x :: 0 <= hash(x) < Storage.BUCKETS) && cfg.mode.fallThrough == fallThrough
    ensures var k := Link(port, id, behind);
            KernelEnd(side, cfg, k, InitFrames(k)) && UserEnd(bus, k, InitFrames(k))
            && InitFrames(k).k2u == [InFlight(frame, 0)] && InitFrames(k).u2k == []
  {
    side := new KernelSide(hash, id, fallThrough);
    frame := side.KubixInit();
    bus := new Kubix(port, id);
  }

  // ---------- module/kbx_channel.c ----------

  /** get_verified_channel up to its send: it makes a node, drops one, or changes nothing.
      A `serial` system does not call it while a sender of the key is under way. */
  method Open(side: KernelSide, pid: Int32, uid: Int32, ghost request: seq<Byte>,
              ghost cfg: Config, ghost k: Link, ghost w: Frames)
    returns (r: Opening, ghost step: Option<Label>)
    requires KernelEnd(side, cfg, k, w) && Key(pid, uid) in cfg.live && Key(pid, uid) != MAIN
    requires cfg.mode.serial ==> NoSenders(w.kern, Key(pid, uid))
    modifies side, side.table, side.table.buckets, side.table.spine
    ensures side.Valid()
    ensures step == None ==> side.model == w.kern
    ensures step != None ==> CanGo(cfg, w, step.value) && Go(cfg, k, w, step.value) == w.(kern := side.model)
    ensures r.GoOn? <==> step != None && step.value.Create?
    ensures r.GoOn? ==> side.Holds(r.chan, step.value.id) && step.value.request == request
    ensures r.Done? ==> (r.node != null <==> r.ret == 0)
    ensures r.Done? && r.node != null ==> r.node == side.Top(Key(pid, uid)) && r.node.state == Netlink
    ensures r.GoOn? <==> old(side.Top(Key(pid, uid))) == null
    ensures r.Done? ==> r.ret == match old(side.Top(Key(pid, uid)).state)
                                 case Init => -2 case Handshake => -3 case Netlink => 0 case Destroy => -1
  {
    ghost var key, id := Key(pid, uid), side.nextId;
    r := side.OpenBegin(pid, uid, request);
    step := if key !in w.kern.table then Some(Create(key, id, request))
            else if At(w.kern, key).state.Destroy? then Some(Reap(key)) else None;
  }

  method SendUp(side: KernelSide, n: Storage.ChanNode, op: Byte, data: seq<Byte>,
                ghost id: nat, ghost cfg: Config, ghost k: Link, ghost w: Frames) returns (frame: seq<Byte>)
    requires KernelEnd(side, cfg, k, w) && side.Holds(n, id)
    requires CanSend(side.model.heap[id], op, data) && |data| <= PAYLOAD_MAX_SIZE
    modifies side`model, n`seqNo
    ensures side.Valid() && CanGo(cfg, w, Send(id, op, data))
    ensures Go(cfg, k, w, Send(id, op, data)) == w.(kern := side.model, k2u := w.k2u + [InFlight(frame, id)])
  {
    frame := side.SendFrom(n, id, op, data);
  }

  /** The late HANDSHAKE or DESTROY assignment, or the end of a wait. */
  method Assign(side: KernelSide, n: Storage.ChanNode, ghost act: Action, late: bool, wait: bool,
                ghost id: nat, ghost cfg: Config, ghost k: Link, ghost w: Frames)
    requires KernelEnd(side, cfg, k, w) && side.Holds(n, id) && CanAct(side.model.heap[id], act)
    requires !act.StartRead? && !act.StartSend?
    requires late == act.MarkHandshake? && wait == (act.TakeReply? || act.FinishRead?)
    modifies side`model, n`state, n`rspmsg, n`rspmsgLen
    ensures side.Valid() && CanGo(cfg, w, Act(id, act)) && Go(cfg, k, w, Act(id, act)) == w.(kern := side.model)
  {
    if wait {
      var ret, rsp, len := side.GetUserMessage(n, id, n.pid, n.uid, act);
    } else if late {
      side.AssignHandshake(n, id);
    } else {
      side.AssignDestroy(n, id);
    }
  }

  /** get_message_from_userspace up to its wait. */
  method Read(side: KernelSide, pid: Int32, uid: Int32, ghost cfg: Config, ghost k: Link, ghost w: Frames)
    returns (n: Storage.ChanNode?, ghost id: nat)
    requires KernelEnd(side, cfg, k, w)
    modifies side`model
    ensures side.Valid()
    ensures var top := old(side.Top(Key(pid, uid)));
            n == if top != null && top.state == Netlink then top else null
    ensures n == null ==> side.model == w.kern
    ensures n != null ==>
              CanGo(cfg, w, Act(id, StartRead)) && Go(cfg, k, w, Act(id, StartRead)) == w.(kern := side.model)
  {
    var ret;
    ret, n, id := side.ReadBegin(pid, uid);
  }

  /** send_message_to_userspace up to its send; SendUp goes on with the node. */
  method Notify(side: KernelSide, pid: Int32, uid: Int32, op: Byte, ghost cfg: Config, ghost k: Link, ghost w: Frames)
    returns (ret: int, n: Storage.ChanNode?, ghost id: nat)
    requires KernelEnd(side, cfg, k, w)
    modifies side`model
    ensures side.Valid()
    ensures var top := old(side.Top(Key(pid, uid)));
            var known := op == KERNEL_REQUEST || op == KERNEL_RELEASE || op == KERNEL_REPORT;
            && n == (if known && top != null && top.state == Netlink then top else null)
            && ret == if top != null && !known then -2 else -1
    ensures n == null ==> side.model == w.kern
    ensures n != null ==>
              && side.Holds(n, id)
              && CanGo(cfg, w, Act(id, StartSend)) && Go(cfg, k, w, Act(id, StartSend)) == w.(kern := side.model)
  {
    ret, n, id := side.SendMessageBegin(pid, uid, op);
  }

  /** cn_user_msg_callback on the oldest frame. */
  method Receive(side: KernelSide, frame: seq<Byte>, ghost cfg: Config, ghost k: Link, ghost w: Frames)
    requires KernelEnd(side, cfg, k, w) && CanGo(cfg, w, Callback) && frame == w.u2k[0].bytes
    modifies side`model, side.table`chains, side.table`stacks, side.table.buckets, side.table.spine
    ensures side.Valid()
    ensures Go(cfg, k, w, Callback) == w.(kern := side.model, u2k := w.u2k[1..])
  {
    side.UserMsgCallback(frame);
  }

  // ---------- kubixlib/kubix.cpp ----------

  /** One turn of dispatch on the oldest frame. */
  method Route(bus: Kubix, frame: seq<Byte>, ghost cfg: Config, ghost k: Link, ghost w: Frames)
    requires UserEnd(bus, k, w) && CanGo(cfg, w, Dispatch) && frame == w.k2u[0].bytes
    modifies bus, bus.Repr()
    ensures bus.Valid()
    ensures Go(cfg, k, w, Dispatch) == w.(user := bus.model, k2u := w.k2u[1..])
  {
    bus.DispatchOne(frame, w.k2u[0].tag);
  }

  /** An app thread comes back from getMessage. */
  method Fetch(bus: Kubix, key: Key, ghost cfg: Config, ghost k: Link, ghost w: Frames)
    requires UserEnd(bus, k, w) && CanGo(cfg, w, Label.Fetch(key))
    modifies bus`model, bus`hands, bus.Repr()
    ensures bus.Valid()
    ensures Go(cfg, k, w, Label.Fetch(key)) == w.(user := bus.model)
  {
    bus.ThreadFetch(key);
  }

  /** Its user callback returns `err`; a frame leaves when that is 0. */
  method Echo(bus: Kubix, key: Key, err: int, behind: Behind, ghost cfg: Config, ghost k: Link, ghost w: Frames)
    returns (frame: Option<seq<Byte>>)
    requires UserEnd(bus, k, w) && CanGo(cfg, w, Label.Echo(key, err != 0)) && behind == k.behind
    requires |w.user.hands[key].data| <= PAYLOAD_MAX_SIZE
    modifies bus`model, bus`hands
    ensures bus.Valid() && (frame == None <==> err != 0)
    ensures Go(cfg, k, w, Label.Echo(key, err != 0))
         == w.(user := bus.model,
               u2k := if frame == None then w.u2k else w.u2k + [InFlight(frame.value, w.user.hands[key].tag)])
  {
    frame := bus.ThreadEcho(key, err, behind);
  }

  /** The application calls send2kernel itself. */
  method Post(key: Key, op: Byte, ret: Byte, data: seq<Byte>, port: Word, id: CnId, behind: Behind,
              ghost cfg: Config, ghost k: Link, ghost w: Frames) returns (frame: seq<Byte>)
    requires k == Link(port, id, behind) && CanGo(cfg, w, AppSend(key, op, ret, data))
    ensures Go(cfg, k, w, AppSend(key, op, ret, data)) == w.(u2k := w.u2k + [InFlight(frame, 0)])
  {
    frame := Send2Kernel(port, id, key.pid, key.uid, op, ret, data, behind);
  }
}
