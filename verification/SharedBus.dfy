/** The bus: every channel shares one kernel table, one user table and two FIFOs. */
module SharedBus {
  import opened Types
  import opened Nodes
  import opened CompositeKey

  // ---------- kernel side ----------

  /** All nodes ever made, by incarnation number, and the one in the hash table for each key. */
  datatype Kern = Kern(heap: map<nat, KNode>, table: map<Key, nat>)

  ghost predicate Has(kn: Kern, key: Key) {
    key in kn.table && kn.table[key] in kn.heap
  }

  ghost function At(kn: Kern, key: Key): KNode
    requires Has(kn, key)
  {
    kn.heap[kn.table[key]]
  }

  ghost function Put(kn: Kern, id: nat, n: KNode): Kern {
    kn.(heap := kn.heap[id := n])
  }

  /** No thread of the key stands between its state check and its send. */
  ghost predicate NoSenders(kn: Kern, key: Key) {
    forall id :: id in kn.heap && kn.heap[id].key == key ==> kn.heap[id].senders == 0
  }

  ghost predicate CanCreate(cfg: Config, kn: Kern, key: Key, id: nat) {
    && key in cfg.live && key != MAIN && key !in kn.table && id !in kn.heap
    && (cfg.mode.serial ==> NoSenders(kn, key))
  }

  ghost function Made(kn: Kern, key: Key, id: nat, request: seq<Byte>): Kern {
    Kern(kn.heap[id := NewNode(key, request)], kn.table[key := id])
  }

  /** The node of `key` leaves the hash table. */
  ghost function Dropped(kn: Kern, key: Key, n: KNode): Kern
    requires key in kn.table
  {
    Kern(kn.heap[kn.table[key] := n], kn.table - {key})
  }

  ghost function Received(fallThrough: bool, kn: Kern, m: Msg): Kern
    requires m.key in kn.table ==> Has(kn, m.key)
  {
    if m.key !in kn.table then kn
    else
      var n := OnUserMessage(fallThrough, At(kn, m.key), m);
      if n.removed then Dropped(kn, m.key, n) else Put(kn, kn.table[m.key], n)
  }

  // ---------- user side ----------

  /** `nodes` is the hash table of the user bus, `threads` counts the app threads started for
      a context, `hands` holds the message an app thread is working on. */
  datatype User = User(nodes: map<int, Mailbox>, threads: multiset<Key>, hands: map<Key, Msg>)

  ghost function Routed(u: User, m: Msg): User {
    var c := Composite(m.key);
    if c in u.nodes then u.(nodes := u.nodes[c := Store(u.nodes[c], m)])
    else if m.op != KUBIX_CHANNEL then u
    else u.(nodes := u.nodes[c := Store(NewMailbox(m.key), m)], threads := u.threads + multiset{m.key})
  }

  ghost predicate CanFetch(u: User, key: Key) {
    u.threads[key] > 0 && key !in u.hands && Composite(key) in u.nodes && u.nodes[Composite(key)].data != []
  }

  ghost function Fetched(u: User, key: Key): User
    requires CanFetch(u, key)
  {
    var b := u.nodes[Composite(key)];
    u.(nodes := u.nodes[Composite(key) := Drained(b)], hands := u.hands[key := Taken(b, key)])
  }

  // ---------- the whole bus ----------

  /** `log` is the history of everything the kernel side ever sent. */
  datatype Bus = Bus(kern: Kern, user: User, k2u: seq<Msg>, u2k: seq<Msg>, log: seq<Msg>)

  ghost function SentUp(s: Bus, m: Msg): Bus {
    s.(k2u := s.k2u + [m], log := s.log + [m])
  }

  /** `live`: the keys that openers use. */
  datatype Config = Config(mode: Mode, live: iset<Key>)

  ghost predicate Enabled(cfg: Config, s: Bus, l: Label) {
    var kn := s.kern;
    match l
    case Create(key, id, _) => CanCreate(cfg, kn, key, id)
    case Reap(key) => key != MAIN && Has(kn, key) && At(kn, key).state.Destroy?
    case Send(id, op, data) => id in kn.heap && CanSend(kn.heap[id], op, data)
    case Act(id, a) => id in kn.heap && CanAct(kn.heap[id], a)
    case Callback => s.u2k != [] && (s.u2k[0].key in kn.table ==> Has(kn, s.u2k[0].key))
    case Dispatch => s.k2u != []
    case Fetch(key) => CanFetch(s.user, key)
    case Echo(key, _) => key in s.user.hands
    case AppSend(_, op, _, _) => op != KUBIX_CHANNEL
  }

  ghost function Next(cfg: Config, s: Bus, l: Label): Bus
    requires Enabled(cfg, s, l)
  {
    var kn := s.kern;
    match l
    case Create(key, id, request) => s.(kern := Made(kn, key, id, request))
    case Reap(key) => s.(kern := Dropped(kn, key, At(kn, key).(removed := true)))
    case Send(id, op, data) =>
      var n := kn.heap[id];
      SentUp(s, Outgoing(n, id, op, data)).(kern := Put(kn, id, AfterSend(n, op)))
    case Act(id, a) => s.(kern := Put(kn, id, AfterAct(kn.heap[id], a)))
    case Callback => s.(kern := Received(cfg.mode.fallThrough, kn, s.u2k[0]), u2k := s.u2k[1..])
    case Dispatch => s.(user := Routed(s.user, s.k2u[0]), k2u := s.k2u[1..])
    case Fetch(key) => s.(user := Fetched(s.user, key))
    case Echo(key, err) =>
      var m := s.user.hands[key];
      s.(user := s.user.(hands := s.user.hands - {key}), u2k := if err then s.u2k else s.u2k + [m])
    case AppSend(key, op, ret, data) => s.(u2k := s.u2k + [Msg(key, op, ret, data, 0, 0)])
  }

  /** After module init: the main node in INIT and its handshake request queued. */
  ghost function InitBus(): Bus {
    Bus(Kern(map[0 := MainNode()], map[MAIN := 0]), User(map[], multiset{}, map[]), [Hello()], [], [Hello()])
  }

  // ---------- runs ----------

  ghost predicate Legal(cfg: Config, s: Bus, ls: seq<Label>)
    decreases |ls|
  {
    ls == [] || (Enabled(cfg, s, ls[0]) && Legal(cfg, Next(cfg, s, ls[0]), ls[1..]))
  }

  ghost function After(cfg: Config, s: Bus, ls: seq<Label>): Bus
    requires Legal(cfg, s, ls)
    decreases |ls|
  {
    if ls == [] then s else After(cfg, Next(cfg, s, ls[0]), ls[1..])
  }

  /** Keys never collide in the user map, and the main channel is one of them. */
  ghost predicate Sound(cfg: Config) {
    MAIN in cfg.live && CollisionFree(cfg.live)
  }

  /** Every state of the bus that some run ends in. */
  ghost predicate Reachable(cfg: Config, s: Bus) {
    exists ls :: Legal(cfg, InitBus(), ls) && After(cfg, InitBus(), ls) == s
  }
}
