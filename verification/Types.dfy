/** Vocabulary shared by both ends of the bus: machine integers, channel keys,
    operation codes and the messages that travel through the two FIFOs. */
module Types {

  datatype Option<+T> = None | Some(value: T)

  type Byte = x: int | 0 <= x < 0x100
  type Word = x: int | 0 <= x < 0x1_0000_0000
  type Int32 = x: int | -0x8000_0000 <= x < 0x8000_0000

  /** A channel is named by a kernel thread id and a value unique for that thread. */
  datatype Key = Key(pid: Int32, uid: Int32)

  /** The channel between the kernel module and the user bus themselves. */
  const MAIN := Key(0, -10)

  // enum OPERATION_TYPES
  const KUBIX_CHANNEL: Byte := 0
  const KERNEL_REQUEST: Byte := 1
  const USER_MESSAGE: Byte := 2
  const KERNEL_RELEASE: Byte := 3
  const USER_RELEASE: Byte := 4
  const KERNEL_REPORT: Byte := 5
  const NO_ACTION: Byte := 6

  // -(KBX_IMPOSSIBLE_STATE) and -(KBX_IMPOSSIBLE_OP), stored in the one-byte `ret`
  // field of the message header and read back from it.
  const IMPOSSIBLE_STATE: Byte := 255
  const IMPOSSIBLE_OP: Byte := 254

  /** "Hello from kernel, Controller" with its terminating zero. */
  const HELLO: seq<Byte> := [
    72, 101, 108, 108, 111, 32, 102, 114, 111, 109, 32, 107, 101, 114, 110, 101, 108, 44, 32,
    67, 111, 110, 116, 114, 111, 108, 108, 101, 114, 0]

  lemma HelloText()
    ensures var text := "Hello from kernel, Controller";
            |HELLO| == |text| + 1 && HELLO[|text|] == 0
            && forall i :: 0 <= i < |text| ==> HELLO[i] == text[i] as int
  {}

  /** One Kubix message. `seqNo` is the connector sequence number, `tag` names the kernel
      node incarnation that a kernel message was sent for, or that an echoed reply answers.
      The tag is history: it is in no frame. */
  datatype Msg = Msg(key: Key, op: Byte, ret: Byte, data: seq<Byte>, seqNo: Word, tag: nat)

  function NextSeq(n: Word): Word {
    (n + 1) % 0x1_0000_0000
  }
}
