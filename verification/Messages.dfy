// Payload layouts: what the daemon's DATA frames and the XR messages carry.
module Messages {
  import opened Bytes
  import opened Frames

  type u16 = x: int | 0 <= x < 65536
  type u32 = x: int | 0 <= x < 0x1_0000_0000
  type i16 = x: int | -32768 <= x < 32768
  type i8 = x: int | -128 <= x < 128

  // --- daemon DATA frames ----------------------------------------------------

  // One received packet: RSSI in centi-dBm, SNR in centi-dB, RF payload.
  datatype Rx = Rx(rssi: i16, snr: i16, data: seq<byte>)

  function DecodeRx(f: Frame): Option<Rx> {
    var p := f.payload;
    if f.ty != RX_PACKET || |p| < RX_META || |p| - RX_META > MAX_RF then None
    else Some(Rx(Signed16(Join16(p[0], p[1])), Signed16(Join16(p[2], p[3])), p[RX_META..]))
  }

  function RxPacketFrame(rx: Rx): Frame {
    Frame(RX_PACKET, 0, PutLe16(Unsigned16(rx.rssi)) + PutLe16(Unsigned16(rx.snr)) + rx.data)
  }

  function TxPacketFrame(rf: seq<byte>): Frame {
    Frame(TX_PACKET, 0, rf)
  }

  datatype TxResult = TxResult(status: byte, flags: byte, daemonSeq: int)

  function DecodeTxResult(f: Frame): Option<TxResult> {
    var p := f.payload;
    if f.ty != TX_RESULT || |p| != 4 then None
    else Some(TxResult(p[0], p[1], Join16(p[2], p[3])))
  }

  datatype TxOutcome = Success | ChannelBusy | Timeout | RadioError

  const STATUS_OK: byte := 0
  const STATUS_CHANNEL_BUSY: byte := 2

  function MapTxStatus(status: byte): TxOutcome {
    if status == STATUS_OK then Success
    else if status == STATUS_CHANNEL_BUSY then ChannelBusy
    else RadioError
  }

  // What a daemon frame says about the outstanding transmission: a well-formed
  // TX_RESULT or any ERROR answers it, everything else does not.
  function Answer(f: Frame): Option<TxOutcome> {
    if f.ty == DAEMON_ERROR then Some(RadioError)
    else if DecodeTxResult(f).Some? then Some(MapTxStatus(DecodeTxResult(f).value.status))
    else None
  }

  lemma RxPacketRoundTrip(rx: Rx)
    requires |rx.data| <= MAX_RF
    ensures Legal(FromDaemon, RxPacketFrame(rx))
    ensures DecodeRx(RxPacketFrame(rx)) == Some(rx)
  {
    hide Low, High, Join16;
    Split16(Unsigned16(rx.rssi));
    Split16(Unsigned16(rx.snr));
    assert RxPacketFrame(rx).payload[RX_META..] == rx.data;
  }

  // --- XR messages -----------------------------------------------------------

  const HELLO: byte := 0x01
  const HELLO_ACK: byte := 0x02
  const AUTH_CHALLENGE: byte := 0x03
  const AUTH_RESPONSE: byte := 0x04
  const AUTH_RESULT: byte := 0x05
  const CONFIGURE: byte := 0x06
  const CONFIG_RESULT: byte := 0x07
  const XR_RX: byte := 0x08
  const TX_REQUEST: byte := 0x09
  const XR_TX_RESULT: byte := 0x0A
  const PING: byte := 0x0B
  const PONG: byte := 0x0C
  const XR_ERROR: byte := 0x0D

  const VERSION: byte := 1
  const AUTH_OK: byte := 0
  const AUTH_FAIL: byte := 1
  const CFG_OK: byte := 0
  const CFG_UNSUPPORTED: byte := 1
  const CFG_INVALID: byte := 2
  const NONCE_SIZE: nat := 16
  const RESPONSE_SIZE: nat := 32
  const CONFIG_SIZE: nat := 17

  datatype RadioConfig = RadioConfig(
    freqHz: u32, bwHz: u32, sf: byte, crDenom: byte, syncWord: u16,
    preamble: u16, txPowerDbm: i8, crc: byte, ldro: byte)

  predicate IsBool(b: byte) {
    b == 0 || b == 1
  }

  function PackConfig(c: RadioConfig): (p: seq<byte>)
    ensures |p| == CONFIG_SIZE
  {
    PutBe32(c.freqHz) + PutBe32(c.bwHz) + [c.sf, c.crDenom]
    + PutBe16(c.syncWord) + PutBe16(c.preamble) + [Unsigned8(c.txPowerDbm), c.crc, c.ldro]
  }

  function UnpackConfig(p: seq<byte>): Option<RadioConfig>
    requires |p| == CONFIG_SIZE
  {
    if !IsBool(p[15]) || !IsBool(p[16]) then None
    else Some(RadioConfig(Join32(p[0], p[1], p[2], p[3]), Join32(p[4], p[5], p[6], p[7]),
                          p[8], p[9], Join16(p[11], p[10]), Join16(p[13], p[12]),
                          Signed8(p[14]), p[15], p[16]))
  }

  function DecodeConfig(f: Frame): Option<RadioConfig> {
    if f.ty != CONFIGURE || |f.payload| != CONFIG_SIZE then None else UnpackConfig(f.payload)
  }

  // validate(): exact length per type, sequence rule, version, boolean and code ranges.
  predicate WellFormed(f: Frame) {
    var p := f.payload;
    && ((f.ty == TX_REQUEST || f.ty == XR_TX_RESULT) <==> f.sn != 0)
    && if f.ty == HELLO || f.ty == HELLO_ACK then |p| == 1 && p[0] == VERSION
       else if f.ty == AUTH_CHALLENGE then |p| == NONCE_SIZE
       else if f.ty == AUTH_RESPONSE then |p| == RESPONSE_SIZE
       else if f.ty == AUTH_RESULT then |p| == 1 && IsBool(p[0])
       else if f.ty == CONFIGURE then |p| == CONFIG_SIZE && IsBool(p[15]) && IsBool(p[16])
       else if f.ty == CONFIG_RESULT then
         || (|p| == 1 && p[0] != CFG_OK)
         || (|p| == 1 + CONFIG_SIZE && p[0] == CFG_OK && IsBool(p[16]) && IsBool(p[17]))
       else if f.ty == XR_RX then
         |p| >= 6 && Join16(p[5], p[4]) <= MAX_RF && |p| == 6 + Join16(p[5], p[4])
       else if f.ty == TX_REQUEST then |p| <= MAX_RF
       else if f.ty == XR_TX_RESULT || f.ty == XR_ERROR then |p| == 1 && p[0] <= 3
       else if f.ty == PING || f.ty == PONG then |p| == 0
       else false
  }

  predicate IsClientMessage(ty: byte) {
    ty == HELLO || ty == AUTH_RESPONSE || ty == CONFIGURE || ty == TX_REQUEST || ty == PONG || ty == XR_ERROR
  }

  function XrRxFrame(rx: Rx): Frame {
    Frame(XR_RX, 0,
          PutBe16(Unsigned16(rx.rssi)) + PutBe16(Unsigned16(rx.snr)) + PutBe16(|rx.data|) + rx.data)
  }

  // The firmware's reading of an RX_PACKET.
  function DecodeXrRx(f: Frame): Option<Rx> {
    var p := f.payload;
    if f.ty != XR_RX || |p| < 6 || Join16(p[5], p[4]) > MAX_RF || |p| != 6 + Join16(p[5], p[4]) then None
    else Some(Rx(Signed16(Join16(p[1], p[0])), Signed16(Join16(p[3], p[2])), p[6..]))
  }

  predicate RxAcceptable(len: nat) {
    0 < len <= MAX_RF
  }

  function OutcomeCode(o: TxOutcome): byte {
    match o
    case Success => 0
    case ChannelBusy => 1
    case Timeout => 2
    case RadioError => 3
  }

  function TxResultFrame(sn: nat, o: TxOutcome): Frame {
    Frame(XR_TX_RESULT, sn, [OutcomeCode(o)])
  }

  function ConfigOkFrame(c: RadioConfig): Frame {
    Frame(CONFIG_RESULT, 0, [CFG_OK] + PackConfig(c))
  }

  // The echo carries exactly the configuration: the firmware's decoder undoes PackConfig.
  lemma PackConfigRoundTrip(c: RadioConfig)
    requires IsBool(c.crc) && IsBool(c.ldro)
    ensures UnpackConfig(PackConfig(c)) == Some(c)
  {
    Split32(c.freqHz);
    Split32(c.bwHz);
    Split16(c.syncWord);
    Split16(c.preamble);
    var p := PackConfig(c);
    assert p[0..4] == PutBe32(c.freqHz) && p[4..8] == PutBe32(c.bwHz);
    assert p[10] == High(c.syncWord) && p[11] == Low(c.syncWord);
    assert p[12] == High(c.preamble) && p[13] == Low(c.preamble);
  }

  // Signed metadata and payload survive the change of byte order: the firmware
  // reads from the XR frame what DecodeRx read from the daemon frame.
  lemma XrRxRoundTrip(rx: Rx)
    requires RxAcceptable(|rx.data|)
    ensures Legal(Xr, XrRxFrame(rx)) && WellFormed(XrRxFrame(rx))
    ensures DecodeXrRx(XrRxFrame(rx)) == Some(rx)
  {
    hide Low, High, Join16;
    Split16(Unsigned16(rx.rssi));
    Split16(Unsigned16(rx.snr));
    Split16(|rx.data|);
    var p := XrRxFrame(rx).payload;
    assert p[6..] == rx.data;
    assert p[4] == High(|rx.data|) && p[5] == Low(|rx.data|);
  }
}
