# Kubix: the virtual-channel protocol, proved

Kubix is a bus between kernel threads and user-space threads. A channel is named by (pid, uid).
The kernel module keeps a hash table of channel nodes, the user library keeps another one, and all
channels share two FIFOs of netlink frames: kernel to user and user to kernel. Kernel callers open,
use and release channels; a user dispatcher files messages in one-place mailboxes; one app thread
per channel takes a message out, calls the application, and echoes the message; a kernel callback
drives the state machine INIT → HANDSHAKE → NETLINK → DESTROY → removed.

The model has four layers, each proved against the next one up.

1. **A private channel** (`Nodes`, `Channel`): one key with two FIFOs of its own, as a transition
   system. Its inductive invariant is where the protocol facts are proved.
2. **The shared bus** (`SharedBus`): all keys, two tables, two FIFOs, any interleaving.
   `Multiplexing` shows that a run seen through one key is a run of a private channel, exactly when
   no two live keys share a composite key; `Embedding` is the converse. `Guarantees`, `Witnesses`,
   `Traffic` and `Delivery` state what follows for every reachable state and every run; `Answers`
   states, field by field, what every message and every call is answered.
3. **Frames** (`Frame`, `Wire`): the same system with bytes in the FIFOs. Its runs are exactly the
   bus runs whose payloads fit a frame.
4. **Programs** (`Storage`, `Kernel`, `Kubix`): the bucket chains of the hash table relinked in
   place, the kernel functions on node objects, and the user classes with their buffers. `Steps`
   shows that a method called in a state of layer 3 takes one step of layer 3.

`CompositeKey` is the 64-bit key, bit for bit; `Types` holds the vocabulary.

## How the code is read

- **Missing `break`.** Behind the inner switch (`module/kbx_channel.c:233-234`) a message accepted
  on an open channel falls into the deletion of the node. This is the flag `fallThrough`; true is
  the code as written. Everything is proved for both values unless a row says otherwise.
- **Check and send.** `send_message_to_userspace` holds no lock between its state check (line 444)
  and its send (lines 458-459), so these are two steps: a sender that passed the check sends even if
  the node was closed or removed and the key opened again meanwhile. The flag `serial` says that no
  opener makes a node while a sender of its key stands in between. The code does not enforce it:
  false is the code as written. Everything is proved for both values unless a row says otherwise.
- **Late assignments.** HANDSHAKE (line 382) and DESTROY (line 465) are assigned in separate steps
  after the send, so other steps come in between.
- **Atomic sections.** One step each are: storing into or taking out of a reply slot or a mailbox;
  `seq++` with the enqueue that follows it, on which the sequence discipline rests; a find with the
  state check behind it (lines 434-444 and 405-411). Three of them are not guarded by any lock of
  the code: find and create of `get_verified_channel` (lines 324-327); its find, DESTROY check and
  deletion (lines 324-362); and the callback's find (line 176) with the section it locks only at
  line 189. That no key has two nodes, that the late HANDSHAKE assignment finds INIT
  (`Guarantees.LateMarkFindsInit`) and that ranks never fall (`Guarantees.LifeCycleMonotone`)
  rest on these three.
- **Waits** are guards: they end when the slot is full or, by an interrupt, at any time.
- **Removed nodes stay readable** for the threads that still hold a pointer to them. A check that
  finds NETLINK on a removed node is a check that came just before the removal.
- **Environment.** The FIFOs are reliable. Openers use keys of the set `live`, never the main key
  (0, -10). The application may send any operation except KUBIX_CHANNEL to any key at any time; a
  KUBIX_CHANNEL message from the user side is always an app thread's echo. User nodes are not erased
  while the protocol runs.
- **Parameters.** The connector id (`CN_SS_IDX`, `CN_SS_VAL`), the port id, the hash function
  (any function into 0..255) and the 16 bytes that lie in memory behind the frame buffer of
  `send2kernel` are parameters. Frames are little-endian.
- **`pprev`.** The back link of a kernel list node is modelled by the predecessor that the walk
  has just visited.
- **History.** `tag`, `log`, `inc` and `request` record which incarnation a message answers, what
  was ever sent, and what an opener asked with. No branch of the code reads them.

Where code and comments differ, the code is modelled:

- `createNode` tests the enum constant `NLC_DESTROY`, which is 1, so it never refuses and replaces a
  node that is in the way; its message says the node is still in use (`kubixlib/kubix.cpp:129-135`).
- The app thread sends back the bytes and result it received; the comment says the application's
  payload is sent instead (`kubixlib/kubix.cpp:479-480`).
- An error result is stored in a `u8`, so -1 and -2 come back as 255 and 254; the header comment
  promises negative errors (`module/kbx_channel.h:50`).
- `send_message_to_userspace` returns -1 for a report or a release that was sent
  (`module/kbx_channel.c:427-469`).
- A user message for an open channel deletes the kernel node instead of being stored
  (`module/kbx_channel.c:224`, 234-237).
- `purify_chan_buckets` clears the link it is about to follow, so one call removes one node per
  bucket (`module/kbx_storage.c:253-263`).

Some properties one might expect are false. For each there is a lemma with a failing run and the exact
condition:

| property | holds if and only if | proved in | failing run |
|---|---|---|---|
| Channels do not notice each other | no two live keys collide | `Multiplexing.InvisibleIff` | `Multiplexing.CollisionIsVisible` |
| An opener told 0 that reads anything reads its request back | the code is as written and the request is not empty | `Witnesses.EchoLawIff` | `Witnesses.EchoNeedsFallThrough`, `Witnesses.EchoNeedsPayload` |
| An open request is the last word of its key in the queue | openers wait for senders (`serial`) | `Witnesses.LastWordLawIff` | `Witnesses.LateReport` |
| Nothing is queued for a key whose request is in its mailbox | openers wait for senders | `Witnesses.BoxLawIff` | `Witnesses.CoveredBox` |
| The transport opens every node in HANDSHAKE whose non-empty request is live | openers wait for senders | `Witnesses.ProgressLawIff` | `Witnesses.CoveredBox` with `Guarantees.UnopenedRun` |
| The transport opens a given node in HANDSHAKE with a non-empty request | its request is live and nothing of its key is queued behind it | `Guarantees.HandshakeProgress` | `Witnesses.StrandedForEver`: the reply overtook the HANDSHAKE assignment |
| An accepted opener finds its reply | no reader of the channel finished first | `Guarantees.ReplyKeptIff` | `Witnesses.StolenReply` |
| An opened channel can still receive into its empty slot | the missing break is put in | `Witnesses.SilenceLawIff` | `Guarantees.OpenedSlotStaysEmpty` |
| A purge empties the table | no bucket holds two nodes | `Storage.ChanTable.Purify` | `Storage.PurgeLeavesOne` |

## Model

| member | source | states |
|---|---|---|
| `CompositeKey.CompositeValue` | kubixlib/kubix.cpp:110 | The cast-shift-or expression, computed bit by bit, equals pid when pid is negative and uid·2^32 + pid otherwise |
| `CompositeKey.CompositeCollision` | kubixlib/kubix.cpp:110 | Two keys are equal if and only if the pids are equal and the uids are equal or the pid is negative |
| `CompositeKey.CollisionFreeIff` | module/kbx_storage.c:42 | A set of keys is told apart if and only if no negative pid in it has two uids |
| `Storage.SelectTop` | module/kbx_storage.c:160-171 | The first node of a key in a bucket chain is the top of that key's stack |
| `Storage.SelectPop` | module/kbx_storage.c:188-198 | Unlinking that node pops that stack and changes the stack of no other key in the chain |
| `Storage.Detach` | module/kbx_storage.c:196 | Relinking around a node, from its predecessor or from the bucket, removes exactly that node from the chain and clears its link |
| `Storage.ChanTable.constructor` | module/kbx_storage.c:59-77 | An empty table: every key has an empty stack |
| `Storage.ChanTable.HashAdd` | module/kbx_storage.c:136 | The node becomes the head of the chain of its slot; the other chains are the same |
| `Storage.ChanTable.Add` | module/kbx_storage.c:102-145 | A fresh node in INIT with number 1 and an empty slot is pushed on the stack of its key; all other stacks are the same |
| `Storage.ChanTable.Find` | module/kbx_storage.c:150-174 | Finds the newest node of the key, and nothing if and only if the stack is empty |
| `Storage.ChanTable.UnlinkFirst` | module/kbx_storage.c:188-198 | The walk ends after its first match: one node leaves one chain, the first one of its key |
| `Storage.ChanTable.Del` | module/kbx_storage.c:179-201 | Pops the stack of the key and no other; returns the popped node |
| `Storage.ChanTable.EmptyIff` | module/kbx_storage.c:253-254 | No key has a node if and only if every bucket is empty |
| `Storage.ChanTable.Purify` | module/kbx_storage.c:248-265 | As written, every bucket loses its first node and keeps the rest; the table is empty afterwards if and only if no bucket held two nodes |
| `Storage.PurgeLeavesOne` | module/kbx_storage.c:248-265 | For any two keys of one bucket: add both, purge, and a node is still in the table |
| `Channel.InitInv` | module/kubix_main.c:63-76 | The channel invariant holds after module init |
| `Channel.StepInv` | module/kbx_channel.c:143-470 | Every step of every thread, on both sides, keeps the channel invariant, for both readings of the missing break and whether or not openers wait for senders |
| `Channel.RunInv` | module/kbx_channel.c:143-470 | The invariant holds in every state of every run of a channel |
| `Channel.CallbackNode` | module/kbx_channel.c:211-242 | The callback keeps a node consistent; a KUBIX_CHANNEL message it sees always answers the node that is in the table, and anything else cannot open or remove a node that is not open |
| `Channel.RankStep` | module/kbx_channel.c:211-242 | No step lowers the rank of a node, skips NETLINK, or changes its request |
| `Channel.OpeningStep` | module/kbx_channel.c:216-221 | Only the callback opens a node, in HANDSHAKE, with the reply to that node's own request |
| `Channel.PendingStep` | kubixlib/kubix.cpp:308-322 | Moving traffic never loses the request of a ready node (in HANDSHAKE, or the main node in INIT) with nothing queued behind it, whatever lies ahead of it |
| `Channel.StuckStep` | module/kbx_channel.c:347-351 | A node that is ready for a reply whose request is gone is stuck under every step of anyone |
| `Channel.OrderedStep` | module/kbx_channel.c:444-459 | When openers wait for senders, every step keeps the request the last word of its channel |
| `Channel.CoveredDispatch` | kubixlib/kubix.cpp:308-322 | A request with a message queued behind it is, one turn of the dispatcher later, still covered or lost |
| `Channel.SilentStep` | module/kbx_channel.c:222-237 | As written, no step puts anything into the empty slot of an opened node |
| `Channel.AcceptedStep` | module/kbx_channel.c:211-242 | As written, no step but a finished read changes the reply that waits for an accepted opener |
| `Channel.OnlyHelloStep` | module/kbx_channel.c:101-114 | Until the main node is open, its hello is all that is ever queued for it |
| `Channel.ClosedStep` | module/kbx_channel.c:411-449 | A step on a closed node adds no sender, and no reader but by the request of a sender |
| `Multiplexing.CallbackStep` | module/kbx_channel.c:176-242 | A callback on the shared bus is a callback of the channel whose message is oldest and invisible to every other channel |
| `Multiplexing.DispatchStep` | kubixlib/kubix.cpp:280-322 | The same for one turn of the dispatcher |
| `Multiplexing.Step` | README.md:60-63 | Every step of the bus is a step of the private channel it concerns and nothing to the others |
| `Multiplexing.MultiplexingInvisible` | README.md:48-63 | Every run of the bus, projected on one live key, is a run of that key's private channel ending in the projected state |
| `Multiplexing.ReachableInv` | README.md:48-63 | In every reachable state of the bus every live channel satisfies the channel invariant |
| `Multiplexing.CollisionIsVisible` | kubixlib/kubix.cpp:110 | If two live keys collide, opening one of them changes what the other channel sees |
| `Multiplexing.InvisibleIff` | README.md:48-63 | Channels are independent over all runs if and only if no two live keys collide |
| `Embedding.PrivateRunsEmbed` | README.md:48-63 | Every run of a private channel is the projection of some run of the bus |
| `Guarantees.NoStaleHandshake` | module/kbx_channel.c:337-389 | In every reachable state a key has at most one live KUBIX_CHANNEL in queues, mailbox and hand; if there is one, the kernel node is in the table and not yet opened |
| `Guarantees.OpenedByOwnReply` | module/kbx_channel.c:216-221 | A node is opened only by the reply to its own incarnation's request, in HANDSHAKE |
| `Guarantees.ReachableOrdered` | module/kbx_channel.c:444-459 | When openers wait for senders, no request is ever covered, and while one is live nobody is between check and send |
| `Guarantees.RequestIsLastWord` | module/kbx_channel.c:370-380 | When openers wait for senders, behind a queued open request there is no message of the same key (`Witnesses.LastWordLawIff`: and only then) |
| `Guarantees.BoxedRequestIsSafe` | kubixlib/kubix.cpp:308-322 | When openers wait for senders, while an open request fills the mailbox no message of its key is queued (`Witnesses.BoxLawIff`: and only then) |
| `Guarantees.EchoIff` | module/kbx_channel.c:370-389 | As written, an opener that is told 0 reads back its request if and only if it reads nothing exactly when it sent nothing: reading nothing is an interrupted wait, and what it reads for a non-empty request is that request |
| `Guarantees.TwoSidedAgreement` | kubixlib/kubix.cpp:280-307 | An opened kernel node has its user node under the same key, with its one app thread |
| `Guarantees.NeverUnserved` | kubixlib/kubix.cpp:280-291 | Whatever else than an open request is queued finds its user node, so nothing is dropped as not served |
| `Guarantees.SoundOpening` | module/kbx_channel.c:211-242 | A non-empty reply with result 0, in the slot or already returned, belongs to an opened node |
| `Guarantees.LifeCycleMonotone` | module/kbx_channel.c:337-389 | Over any run the rank of a node never decreases and its key and request never change |
| `Guarantees.LateMarkFindsInit` | module/kbx_channel.c:380-382 | The late HANDSHAKE assignment always finds the node in INIT and in the table; nothing is removed before it was opened |
| `Guarantees.LostRequestStaysLost` | module/kbx_channel.c:347-351 | A node in HANDSHAKE, or the main node in INIT, without a live request stays so over every run |
| `Guarantees.UnopenedRun` | kubixlib/kubix.cpp:308-322 | If the request is gone or covered, some maximal run of the transport leaves the node unopened |
| `Guarantees.HandshakeProgress` | module/kbx_channel.c:216-221 | All maximal runs of the transport open a node that is ready for the reply to a non-empty request if and only if that request is on the way with nothing of its key queued behind it |
| `Guarantees.OpenedSlotStaysEmpty` | module/kbx_channel.c:222-237 | As written, over every run the empty slot of an opened node stays empty, so its readers and requesters wait for ever |
| `Guarantees.ReplyKeptIff` | module/kbx_channel.c:386-388 | As written, an accepted opener that still waits finds its unchanged reply, unless a reader of the channel finished first: then the slot is empty |
| `Guarantees.OneThreadPerNode` | kubixlib/kubix.cpp:292-306 | Every user node has exactly one app thread, whose context is the node's own key, and there are no others |
| `Answers.OpenNodeAnswers` | module/kbx_channel.c:222-237 | In every reachable state: an open channel ignores KUBIX_CHANNEL, the three kernel codes and NO_ACTION; as written any other message takes the node out of the table, slot untouched; with the break it is stored, and USER_RELEASE gives DESTROY |
| `Answers.UnopenedNodeAnswers` | module/kbx_channel.c:212-221 | In INIT every message goes into the slot with 255; in HANDSHAKE every one but KUBIX_CHANNEL with 254; KUBIX_CHANNEL gives NETLINK and 0 |
| `Answers.ClosedNodeAnswers` | module/kbx_channel.c:234-237 | Any message takes a node in DESTROY out of the table |
| `Answers.NobodyAnswers` | module/kbx_channel.c:176-180 | A message without a node changes nothing at the kernel end |
| `Answers.ForeignWordInHandshake` | module/kbx_channel.c:217-218 | An opener that waits in HANDSHAKE while a foreign message comes in is told 254 and reads that message |
| `Answers.ForeignWordInInit` | module/kbx_channel.c:212-215 | An opener whose HANDSHAKE assignment comes after a message is told 255 and reads that message |
| `Answers.MainAnswers` | module/kbx_channel.c:197-206 | KUBIX_CHANNEL takes the main node from INIT to NETLINK and changes nothing else; no other code changes anything |
| `Answers.MainStays` | module/kbx_channel.c:197-206 | The main node is in the table in every reachable state and is the only one of its key |
| `Answers.MainProgress` | module/kbx_channel.c:117-139 | All maximal runs of the transport open the unopened main node if and only if its hello or the reply to it is still on the way |
| `Answers.MainOpens` | module/kubix_main.c:63-76 | After module init every maximal run of the transport leaves the main node in NETLINK |
| `Answers.OpenChannelSends` | module/kbx_channel.c:439-465 | From every reachable state with an open channel each of KERNEL_REQUEST, KERNEL_RELEASE and KERNEL_REPORT passes the check and is queued last with result 0, the bytes and the node's number; only the request adds a waiting reader, only the release a late DESTROY assignment |
| `Answers.NothingElseIsSent` | module/kbx_channel.c:439-442 | Nothing but these three, after the check, and the opening request is ever sent |
| `Answers.OnlyOpenChannels` | module/kbx_channel.c:411-449 | The checks of readers and senders pass if and only if the node is in NETLINK and in the table |
| `Answers.ClosedTakesNobody` | module/kbx_channel.c:411-449 | Over every run a closed node's senders go down by exactly its sends, and its readers change by exactly the requests among those and the waits that end |
| `Witnesses.EchoHappens` | module/kbx_channel.c:370-389 | For every non-empty request some run returns 0 with that request as the reply |
| `Witnesses.EchoNeedsFallThrough` | module/kbx_channel.c:224-237 | With the break put in, some run returns 0 with any chosen other bytes |
| `Witnesses.EchoNeedsPayload` | kubixlib/kubix.cpp:313-322 | An empty request can be answered 0 with bytes left over from an earlier incarnation |
| `Witnesses.EchoLawIff` | module/kbx_channel.c:370-389 | The echo law for non-empty replies holds over all runs if and only if the code is as written and the request is not empty |
| `Witnesses.InterruptedOpener` | module/kbx_channel.c:281-288 | An interrupted opener is told 0 with an empty reply while its request is still queued |
| `Witnesses.StrandedForEver` | module/kbx_channel.c:380-382 | For every key and non-empty request there is a reachable state where the reply overtook the HANDSHAKE assignment: the slot holds the error 255, no request is live, and every run leaves the node in HANDSHAKE |
| `Witnesses.StolenReply` | module/kbx_channel.c:398-417 | A reader empties the slot of an accepted opener |
| `Witnesses.LateReport` | module/kbx_channel.c:434-459 | A sender that passed its check before the node was removed queues its report behind the request of the next opener |
| `Witnesses.CoveredBox` | kubixlib/kubix.cpp:308-322 | Two dispatches later the boxed request is about to be overwritten |
| `Witnesses.LastWordLawIff` | module/kbx_channel.c:434-459 | In all reachable states the open request is the last word if and only if openers wait for senders |
| `Witnesses.BoxLawIff` | kubixlib/kubix.cpp:308-322 | In all reachable states nothing is queued behind a boxed request if and only if openers wait for senders |
| `Witnesses.ProgressLawIff` | module/kbx_channel.c:216-221 | From all reachable states the transport opens every ready node with a live non-empty request if and only if openers wait for senders |
| `Witnesses.SlotFilledAgain` | module/kbx_channel.c:222-237 | With the break put in, the empty slot of an opened node is filled again in some run |
| `Witnesses.SilenceLawIff` | module/kbx_channel.c:222-237 | Over all runs the empty slot of an opened node stays empty if and only if the break is missing |
| `Traffic.TransportHops` | kubixlib/kubix.cpp:457-481 | Each dispatcher, thread or callback step strictly decreases 4·queued down + 3·full mailboxes + 2·in hand + queued up |
| `Traffic.BusDrains` | kubixlib/kubix.cpp:457-481 | The length of any run without new sends is bounded by that measure |
| `Traffic.NumberedStep` | module/kbx_channel.c:458-459 | Every step keeps all counters in agreement with everything sent so far |
| `Traffic.SequenceDiscipline` | module/kbx_channel.c:376 | In queue order over any run the messages of one incarnation carry 1, 2, 3, ... modulo 2^32, increment and enqueue being one step |
| `Delivery.MailboxHistory` | kubixlib/kubix.cpp:308-322 | Over any interleaving of stores and fetches: non-empty stored = delivered + overwritten + pending; each delivery has the bytes of the last non-empty store and the code of the last store, in order |
| `Delivery.WholeMessages` | kubixlib/kubix.cpp:414-443 | When no stored message is empty every delivery is one stored message |
| `Delivery.ChannelReplays` | kubixlib/kubix.cpp:308-322 | The mailbox of a running channel has such a history from its first message on: fetched = delivered, and sent = stored + still queued, in order |
| `Delivery.ChannelAccounts` | kubixlib/kubix.cpp:308-322 | Over a whole run of a channel: what the app thread got is what was delivered, what was sent is stored or queued, and non-empty stored = delivered + overwritten + pending |
| `Delivery.BusAccounts` | kubixlib/kubix.cpp:308-322 | The same account for every live channel over every run of the bus |
| `Delivery.LosslessRun` | kubixlib/kubix.cpp:414-443 | With at most one unconsumed message: unconsumed before + sent = fetched + unconsumed after, as sequences |
| `Delivery.LosslessOnBus` | kubixlib/kubix.cpp:414-443 | On the shared bus such a channel, drained before and after, delivers exactly what was sent on it |
| `Frame.UserFrameRoundTrip` | kubixlib/kubix.cpp:378-407 | The frame of send2kernel decodes to the same pid, uid and payload; op and ret modulo 256 |
| `Frame.KernelFrameRoundTrip` | module/kbx_channel.c:68-98 | The frame of send_message_to_user decodes to what was sent, with its sequence number |
| `Frame.FrameBounds` | kubixlib/kubix.cpp:386-407 | nlmsg_len is 48 + len (section 2.3.2 of RFC 3549), and what send reads stays inside the 1072-byte frame if and only if len is at most 1008 |
| `Frame.RmsgParse` | kubixlib/kubix.cpp:249-250 | The zeroed receive buffer shows every frame that fits it as it was sent |
| `Frame.ResultByte` | kubixlib/kubix.cpp:404 | Below 256 in magnitude 0 and only 0 arrives as 0, and the error -n arrives as 256 - n |
| `Frame.UserFrameLayout` | kubixlib/kubix.cpp:393-406 | Every field of the three headers and the payload lie at the offsets of the packed structs, low byte first |
| `Frame.KernelFrameLayout` | module/kbx_channel.c:84-91 | The same for a kernel frame, with its sequence number |
| `Types.HelloText` | module/kbx_channel.c:103-105 | The hello payload is the text with its terminating zero |
| `Kernel.OneNodePerKey` | module/kbx_channel.c:324-333 | The hash table holds one node for a key that the protocol has in its table, and none for any other |
| `Kernel.KubixHandshake` | module/kbx_channel.c:117-139 | On the main node only KUBIX_CHANNEL counts, and it gives NETLINK; both on the fields and as the protocol's receive rule |
| `Kernel.Switch` | module/kbx_channel.c:211-242 | State, slot, result and deletion after the nested switches, for each state and each group of codes; the same is the protocol's receive rule |
| `Kernel.KernelSide.Enroll` | module/kbx_channel.c:327-332 | A created object is the protocol's new node |
| `Kernel.KernelSide.Expel` | module/kbx_channel.c:362 | A deleted object is the protocol's removed node and stays readable |
| `Kernel.KernelSide.OpenBegin` | module/kbx_channel.c:310-365 | A new node in INIT if there was none; else -2, -3, 0 or -1 by the state of the top of the key's stack; a node comes with 0 and only with 0, and is then the top of the stack and in NETLINK; a DESTROY node is dropped |
| `Kernel.KernelSide.SendFrom` | module/kbx_channel.c:450-459 | The frame carries the node's number, the number moves on, nothing else changes; also for a node that was closed or removed since the check, and for the opener's request |
| `Kernel.KernelSide.SendKubixHandshake` | module/kbx_channel.c:101-114 | The hello frame leaves with number 1 |
| `Kernel.KernelSide.KubixInit` | module/kubix_main.c:63-76 | After init the table holds the main node in INIT and the hello frame is on its way |
| `Kernel.KernelSide.AssignHandshake` | module/kbx_channel.c:382 | The late HANDSHAKE assignment |
| `Kernel.KernelSide.AssignDestroy` | module/kbx_channel.c:464-465 | The late DESTROY assignment after a release |
| `Kernel.KernelSide.GetUserMessage` | module/kbx_channel.c:265-295 | Behind its wait, interrupted or not: result and bytes of the slot go to the caller and the slot is empty; another node's name gives -1 |
| `Kernel.KernelSide.ReadBegin` | module/kbx_channel.c:398-417 | Goes on to its wait with the top of the key's stack if that is in NETLINK; otherwise gives up |
| `Kernel.KernelSide.SendMessageBegin` | module/kbx_channel.c:425-449 | Goes on with the top of the key's stack if that is in NETLINK and the code is KERNEL_REQUEST, KERNEL_RELEASE or KERNEL_REPORT; -2 for another code on an existing node, else -1. The send is SendFrom |
| `Kernel.KernelSide.Deliver` | module/kbx_channel.c:189-242 | The callback on the node found, deletion included, is the protocol's receive |
| `Kernel.KernelSide.UserMsgCallback` | module/kbx_channel.c:143-250 | A frame with the right id is received as the protocol says; any other changes nothing |
| `KubixLib.Node.constructor` | kubixlib/kubix.cpp:91-103 | An empty mailbox of the key |
| `KubixLib.Node.Put` | kubixlib/kubix.cpp:308-322 | The store into the mailbox: an empty payload leaves the bytes, name, code and result are always replaced |
| `KubixLib.Node.Take` | kubixlib/kubix.cpp:431-440 | Hands out code, result and exactly the stored bytes and empties the buffer |
| `KubixLib.PutHeaders` | kubixlib/kubix.cpp:392-405 | Field by field into a zeroed buffer gives the twelve header words |
| `KubixLib.Send2Kernel` | kubixlib/kubix.cpp:375-412 | For every payload that fits the buffer the bytes handed to send are the frame that the round trip decodes |
| `KubixLib.Kubix.FindNode` | kubixlib/kubix.cpp:150-160 | Finds the node filed under the composite key |
| `KubixLib.Kubix.CreateNode` | kubixlib/kubix.cpp:125-148 | Never refuses: files a fresh empty node, replacing what was there |
| `KubixLib.Kubix.EraseNode` | kubixlib/kubix.cpp:162-171 | Takes out the node of the composite key and no other |
| `KubixLib.Kubix.FindOrServe` | kubixlib/kubix.cpp:280-307 | A known node, or for an open request a new one with one more thread of its key, or none |
| `KubixLib.Kubix.DispatchOne` | kubixlib/kubix.cpp:249-327 | A frame of any length, as the zeroed buffer shows it, is routed as the protocol says; frames other than data change nothing |
| `KubixLib.Kubix.Dispatch` | kubixlib/kubix.cpp:233-328 | The loop routes the received frames one after the other |
| `KubixLib.Kubix.GetMessage` | kubixlib/kubix.cpp:414-443 | Hands out what is in the mailbox of the key and drains it; false if and only if there is no node |
| `KubixLib.Kubix.ThreadFetch` | kubixlib/kubix.cpp:457-460 | An app thread takes the message of its context |
| `KubixLib.Kubix.ThreadEcho` | kubixlib/kubix.cpp:472-480 | It sends back what it took, unchanged, unless the user callback fails |
| `Wire.ReplyHeard` | module/kbx_channel.c:143-182 | A reply frame is heard by the callback as the reply that was sent |
| `Wire.RequestHeard` | kubixlib/kubix.cpp:249-322 | A kernel frame is heard by the dispatcher as the message that was sent |
| `Wire.StepIff` | kubixlib/kubix.cpp:249-412 | A step is possible on frames if and only if it is possible on messages and its payload has at most 1024 bytes, and it leads to the same state |
| `Wire.RunIff` | README.md:60-63 | Runs on frames are exactly the runs on messages with payloads that fit |
| `Wire.LoopIsRun` | kubixlib/kubix.cpp:233-328 | The dispatcher's loop over everything queued is that many dispatch steps |
| `Wire.EchoEndToEnd` | module/kbx_channel.c:370-389 | Over every run on frames an opener that is told 0 reads back its bytes if and only if it reads none exactly when it sent none |
| `Steps.Boot` | module/kubix_main.c:63-76 | The two constructed objects are the two ends of the initial state |
| `Steps.Open` | module/kbx_channel.c:310-365 | get_verified_channel up to its send takes one create or drop step of the system, or none; its answer is that of OpenBegin |
| `Steps.SendUp` | module/kbx_channel.c:450-459 | Sending from a node, however long after the check, is the send step, with the frame in the queue |
| `Steps.Assign` | module/kbx_channel.c:382-387 | The late assignments and the end of a wait are the corresponding steps |
| `Steps.Read` | module/kbx_channel.c:398-417 | get_message_from_userspace up to its wait is one step if the top of the stack is in NETLINK, else none |
| `Steps.Notify` | module/kbx_channel.c:425-449 | send_message_to_userspace up to its send is the step of a passed check, or none, with the answers of SendMessageBegin |
| `Steps.Receive` | module/kbx_channel.c:143-250 | The callback is the receive step |
| `Steps.Route` | kubixlib/kubix.cpp:249-327 | One turn of the dispatcher is the dispatch step |
| `Steps.Fetch` | kubixlib/kubix.cpp:457-460 | getMessage in an app thread is the fetch step |
| `Steps.Echo` | kubixlib/kubix.cpp:472-480 | The answer of an app thread is the echo step |
| `Steps.Post` | kubixlib/kubix.cpp:375-412 | A send2kernel call of the application is the send step of the application |

## Left out

- Sockets, `poll`, `recv`, `send`, `bind` and their error paths, `cn_netlink_send`, module exit: replaced by reliable FIFOs.
- The netlink header and padding that `cn_netlink_send` adds: the kernel frame has the header words the user side reads, length and type among them.
- Memory lifetime: `kfree` of a node that a waiter, a lock or a stored reply still refers to, the wake-up through a null node, buffers that are never freed.
- Locks, condition variables, wake-ups and timed waits: critical sections are steps and waits are guards.
- Malformed frames at the callback: a frame whose payload length is negative or exceeds it decodes to nothing, and no step of the system produces one. The test of the connector length for 0 is not modelled separately.
- Failed allocations in `add_chan_node`, `send_message_to_user` and the constructors.
- Completion of KERNEL_REQUEST: the thread echoes KERNEL_REQUEST, which an open channel rejects, so no answer is promised.
- `kubix_store_destroy`, the refusal of a second `kubix_store_init`, and `Kubix::purify`: easy, and not part of a run.
- Erasing or replacing user nodes during a run: `Kubix.EraseNode` and `Kubix.CreateNode` are proved as methods, but no thread of the protocol erases a node.
- Both programs in one heap: `Steps` takes one object at a time and `Wire` composes them as values.
- Wire.RunIff: the byte level takes payloads of at most 1024 bytes, the size of every buffer in the code; the bus level takes any.
- KubixLib.Send2Kernel: asks for a payload of at most 1024 bytes; the code copies a longer one behind its buffer.
- KubixLib.Kubix.ThreadEcho: the same bound on what the thread holds, because it calls `Send2Kernel`.
- KubixLib.Kubix.DispatchOne: asks that the payload length of the frame is between 0 and 1024; for any other the code's copy leaves the buffer.
- KubixLib.Kubix.Dispatch: the same for every frame.
- The bytes behind the frame buffer are the same at every call in `Wire`; nothing reads them.
- Storage.ChanTable.Purify: nodes are unlinked but not freed, so the walk may read the node it has just unlinked.
- `show_*`, `dump`, `str_*`, all printing, `putMsg`, both test directories and the character-device tester.
