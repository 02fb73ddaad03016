/** The receiver of the APU upload protocol, as functions on values. */
module ApuProtocol {
  import opened Bytes

  datatype ApuState = Stopped | NotInit | Inited | Transfering | Executing

  /** The comparison `state < SNES_APU_STATE_INITED`. */
  predicate BelowInited(st: ApuState) { st.Stopped? || st.NotInit? }

  /** The four port bytes of one transfer. */
  datatype Snapshot = Snapshot(port0: u8, port1: u8, port2: u8, port3: u8)

  datatype TransferType = TransferInit | TransferNew | TransferEnd | TransferData | TransferNoChange

  /** What the receiver remembers between two polls, and the 64K RAM it fills. */
  datatype Receiver = Receiver(state: ApuState, last: Snapshot, addr: u16, ram: seq<u8>)

  const RAM_SIZE := 0x1_0000
  const INIT_COOKIE: u8 := 0xCC
  const READY0: u8 := 0xAA
  const READY1: u8 := 0xBB

  predicate IsSameData(last: Snapshot, data: Snapshot) {
    last == data || data.port0 == last.port0
  }

  /** The cookie that follows `c` for a new block or the end of the upload: four further, never 0. */
  function BlockCookie(c: u8): u8 {
    if Trunc8(c + 4) == 0 then 4 else Trunc8(c + 4)
  }

  /** The class of a snapshot; None is the failing `assert(0)` on an unknown cookie. */
  function Classify(state: ApuState, last: Snapshot, data: Snapshot): Option<TransferType> {
    if IsSameData(last, data) then Some(TransferNoChange)
    else if data.port0 == INIT_COOKIE && BelowInited(state) then Some(TransferInit)
    else if data.port0 == 0 then Some(TransferData)
    else if data.port0 == last.port0 + 1 then Some(TransferData)
    else if data.port0 == BlockCookie(last.port0) then
      Some(if data.port1 != 0 then TransferNew else TransferEnd)
    else None
  }

  /** The receiver after a snapshot of class `t`, which has already replaced the last one. */
  function Accept(r: Receiver, t: TransferType, data: Snapshot): Receiver
    requires |r.ram| == RAM_SIZE
  {
    match t
    case TransferInit => r.(state := Inited, last := data, addr := Word(data.port2, data.port3))
    case TransferNew => r.(last := data, addr := Word(data.port2, data.port3))
    case TransferData => r.(last := data, ram := r.ram[r.addr := data.port1], addr := Trunc16(r.addr + 1))
    case TransferEnd => r.(state := Executing, last := data)
    case TransferNoChange => r
  }

  /** The cookie written back once a snapshot of class `t` has been accepted, if any. */
  function EchoOf(state: ApuState, t: TransferType, data: Snapshot): Option<u8> {
    if t.TransferEnd? || t.TransferNoChange? || BelowInited(state) then None else Some(data.port0)
  }

  /** The output ports once the cookie, if there is one, has been echoed. */
  function Echoed(output: seq<u8>, echo: Option<u8>): seq<u8>
    requires |output| == 4
  {
    if echo.Some? then output[0 := echo.value] else output
  }

  // ---- a session of polls

  /** The receiver and its output ports; `alive` until the assertion on the cookie fails. */
  datatype Service = Service(r: Receiver, output: seq<u8>, alive: bool)

  /** A poll that finds `data`; after the end of an upload the thread only waits. */
  function ServePoll(v: Service, data: Snapshot): (v': Service)
    requires |v.r.ram| == RAM_SIZE && |v.output| == 4
    ensures |v'.r.ram| == RAM_SIZE && |v'.output| == 4
  {
    if !v.alive || v.r.state.Executing? then v else
    match Classify(v.r.state, v.r.last, data)
    case None => v.(alive := false)
    case Some(t) =>
      var r := Accept(v.r, t, data);
      Service(r, Echoed(v.output, EchoOf(r.state, t, data)), true)
  }

  function Serve(v: Service, polls: seq<Snapshot>): (v': Service)
    requires |v.r.ram| == RAM_SIZE && |v.output| == 4
    ensures |v'.r.ram| == RAM_SIZE && |v'.output| == 4
  {
    if polls == [] then v else ServePoll(Serve(v, polls[..|polls| - 1]), polls[|polls| - 1])
  }
}
