// The environment of the bridge: what the sockets, the random generator and the
// clock may answer, and the trace of everything that crosses a boundary.
module World {
  import opened Bytes
  import opened Frames
  import opened Messages
  import opened Radio

  // --- configuration ---------------------------------------------------------

  datatype Timeouts = Timeouts(
    handshake: nat, auth: nat, config: nat, tx: nat, pingInterval: nat, pongTimeout: nat)

  // `mac` is HMAC-SHA256 under the configured password (section 2 of RFC 2104);
  // None is open mode.
  datatype Setup = Setup(
    to: Timeouts, configTimeout: nat, drainTimeout: nat, maxOutbox: nat,
    mac: Option<seq<byte> -> seq<byte>>)

  // --- answers of the environment --------------------------------------------

  type ConfChunk = s: string | 1 <= |s| <= 512 witness "x"
  type DataChunk = s: seq<byte> | 1 <= |s| <= 512 witness [0]
  type ClientChunk = s: seq<byte> | 1 <= |s| <= 1024 witness [0]
  type Nonce = s: seq<byte> | |s| == NONCE_SIZE witness seq(NONCE_SIZE, _ => 0)

  datatype Recv<+T> = Gone | Chunk(bytes: T)
  datatype ConnectState = StillConnecting | Connected | ConnectFailed
  datatype ClientRecv = FromClient(bytes: ClientChunk) | PeerClosed | RecvInterrupted | RecvError
  datatype ClientSend = Accepted(n: nat) | SendAgain | SendInterrupted | SendError

  // The answers successive calls will get. An exhausted list answers "nothing
  // now": no dial, still connecting, no room, no input, no entropy.
  datatype Script = Script(
    dials: seq<bool>, connects: seq<ConnectState>,
    confRoom: seq<int>, dataRoom: seq<int>,
    confIn: seq<Recv<ConfChunk>>, dataIn: seq<Recv<DataChunk>>,
    nonces: seq<Option<Nonce>>,
    clientIn: seq<ClientRecv>, clientRoom: seq<ClientSend>)

  // --- the trace -------------------------------------------------------------

  datatype CloseReason =
    | NoReason | OutputOverflow | MalformedFrame | ParserError | BadState | RemoteError
    | AuthFailed | AuthError | ConfigFailed | BackendFailure | HandshakeTimeout
    | AuthTimeout | ConfigTimeout | PongTimeout | TxTimeoutUncertain | InternalError

  datatype Event =
    // daemon sockets
    | LinkUp(band: Band)               // begin_connect accepted
    | LinkDown                         // transport closed
    | ConfTx(text: string)             // bytes accepted by the CONF socket
    | ConfRx(text: string)
    | DataTx(bytes: seq<byte>)         // bytes accepted by the DATA socket
    | DataRx(bytes: seq<byte>)
    | Heard(frame: Frame)              // a daemon frame reaches dispatch
    // RF log
    | LogRx(rx: Rx)
    | LogTx(ok: bool, payload: seq<byte>)  // outcome=ok or outcome=unconfirmed
    // configuration operations
    | CfgBegin(token: nat, cfg: RadioConfig)
    | CfgDone(token: nat, applied: bool)   // on_configure_complete called
    // firmware connection
    | ConnOpen(at: nat)
    | ConnDrop
    | XrIn(frame: Frame)               // a frame reaches handle_frame
    | XrOut(frame: Frame)              // a frame enters the output queue
    | XrClosed(reason: CloseReason)
    | XrSent(bytes: seq<byte>)         // bytes accepted by the client socket

  datatype World = World(setup: Setup, script: Script, trace: seq<Event>)

  function Log(w: World, e: Event): World {
    w.(trace := w.trace + [e])
  }

  function Tail<T>(s: seq<T>): seq<T> {
    if s == [] then [] else s[1..]
  }
}
