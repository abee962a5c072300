// The wire as its peers define it: types, codes, offsets and limits written out as
// numbers, and that the bridge's own functions agree with them. Nothing here is built
// from a function of the bridge.
module Protocol {
  import opened Bytes
  import opened Frames
  import opened Messages
  import opened Radio

  // --- framing ---------------------------------------------------------------

  // A 16-bit field, most significant byte first.
  function Be(hi: byte, lo: byte): int {
    256 * hi + lo
  }

  // Two's complement.
  function Int16(hi: byte, lo: byte): int {
    if hi < 128 then Be(hi, lo) else Be(hi, lo) - 65536
  }

  function Int8(b: byte): int {
    if b < 128 then b else b - 256
  }

  // What a reader of each stream makes of its first bytes.
  function ReadFrame(k: Codec, s: seq<byte>): Pop {
    match k
    case Xr =>
      if |s| < 8 then NeedMore
      else if s[0] != 'X' as int || s[1] != 'R' as int || s[2] != 1 || s[3] == 0 || s[3] > 0x0D || Be(s[4], s[5]) > 300 then Bad
      else if |s| < 8 + Be(s[4], s[5]) then NeedMore
      else Got(Frame(s[3], Be(s[6], s[7]), s[8..8 + Be(s[4], s[5])]), s[8 + Be(s[4], s[5])..])
    case FromDaemon =>
      if |s| < 3 then NeedMore
      else if s[0] !in [1, 3, 4] || Be(s[2], s[1]) > 259 then Bad
      else if |s| < 3 + Be(s[2], s[1]) then NeedMore
      else Got(Frame(s[0], 0, s[3..3 + Be(s[2], s[1])]), s[3 + Be(s[2], s[1])..])
    case ToDaemon =>
      if |s| < 3 then NeedMore
      else if s[0] != 2 || Be(s[2], s[1]) > 255 then Bad
      else if |s| < 3 + Be(s[2], s[1]) then NeedMore
      else Got(Frame(2, 0, s[3..3 + Be(s[2], s[1])]), s[3 + Be(s[2], s[1])..])
  }

  // The bridge reads every stream as its peers do.
  lemma FramesRead(k: Codec, s: seq<byte>)
    ensures PopFrame(k, s) == ReadFrame(k, s)
  {
  }

  // And its peers read what it writes.
  lemma FramesUnderstood(k: Codec, f: Frame, rest: seq<byte>)
    requires Legal(k, f)
    ensures ReadFrame(k, Encode(k, f) + rest) == Got(f, rest)
  {
    hide Encode, PopFrame, ReadFrame;
    PopEncode(k, f, rest);
    FramesRead(k, Encode(k, f) + rest);
  }

  // --- transmit results ------------------------------------------------------

  // The daemon's answers to a packet: TX_RESULT with a status byte, or ERROR.
  predicate SaysSent(f: Frame) {
    f.ty == 4 && |f.payload| == 4 && f.payload[0] == 0
  }

  predicate SaysBusy(f: Frame) {
    f.ty == 4 && |f.payload| == 4 && f.payload[0] == 2
  }

  predicate SaysFailed(f: Frame) {
    f.ty == 3 || (f.ty == 4 && |f.payload| == 4 && f.payload[0] != 0 && f.payload[0] != 2)
  }

  predicate SaysAnything(f: Frame) {
    SaysSent(f) || SaysBusy(f) || SaysFailed(f)
  }

  // The firmware's reading of a TX_RESULT.
  function ReadResult(f: Frame): Option<TxOutcome> {
    if f.ty != 0x0A || f.sn == 0 || |f.payload| != 1 || f.payload[0] > 3 then None
    else Some(match f.payload[0] case 0 => Success case 1 => ChannelBusy case 2 => Timeout case _ => RadioError)
  }

  lemma ResultRoundTrip(sn: nat, o: TxOutcome)
    requires sn != 0
    ensures ReadResult(TxResultFrame(sn, o)) == Some(o) && TxResultFrame(sn, o).sn == sn
  {
  }

  // What the bridge takes for an answer, and for which one.
  lemma AnswersRead(f: Frame)
    ensures Answer(f).Some? <==> SaysAnything(f)
    ensures Answer(f) == Some(Success) <==> SaysSent(f)
    ensures Answer(f) == Some(ChannelBusy) <==> SaysBusy(f)
    ensures Answer(f) == Some(RadioError) <==> SaysFailed(f)
  {
  }

  // The code the firmware gets for it.
  lemma CodesRead(f: Frame, sn: nat)
    requires Answer(f).Some?
    ensures var r := TxResultFrame(sn, Answer(f).value);
            && r.ty == 0x0A && r.sn == sn
            && r.payload == [if SaysSent(f) then 0 else if SaysBusy(f) then 1 else 3]
  {
  }

  // --- received packets ------------------------------------------------------

  // A received packet with at least one byte of RF payload: RSSI, SNR, payload.
  predicate CarriesPacket(f: Frame) {
    f.ty == 1 && 5 <= |f.payload| <= 259
  }

  // What the radio reported, in centi-dBm and centi-dB, little-endian.
  function Reported(f: Frame): (int, int, seq<byte>)
    requires CarriesPacket(f)
  {
    var p := f.payload;
    (Int16(p[1], p[0]), Int16(p[3], p[2]), p[4..])
  }

  // The firmware's reading of an RX_PACKET: RSSI, SNR, length, payload, big-endian.
  function ReadRx(f: Frame): Option<(int, int, seq<byte>)> {
    var p := f.payload;
    if f.ty != 8 || |p| < 6 || Be(p[4], p[5]) > 255 || |p| != 6 + Be(p[4], p[5]) then None
    else Some((Int16(p[0], p[1]), Int16(p[2], p[3]), p[6..]))
  }

  lemma PacketsRead(f: Frame)
    ensures DecodeRx(f).Some? && RxAcceptable(|DecodeRx(f).value.data|) <==> CarriesPacket(f)
    ensures CarriesPacket(f) ==>
              var rx := DecodeRx(f).value;
              (rx.rssi as int, rx.snr as int, rx.data) == Reported(f)
  {
  }

  // The firmware reads from the frame queued what the radio reported.
  lemma PacketsUnderstood(f: Frame)
    requires CarriesPacket(f)
    ensures DecodeRx(f).Some? && ReadRx(XrRxFrame(DecodeRx(f).value)) == Some(Reported(f))
  {
    PacketsRead(f);
    var rx := DecodeRx(f).value;
    XrRxRoundTrip(rx);
    hide XrRxFrame, DecodeRx, RxAcceptable;
    RxReadAs(XrRxFrame(rx));
  }

  lemma RxReadAs(f: Frame)
    ensures DecodeXrRx(f).Some? ==>
              var rx := DecodeXrRx(f).value;
              ReadRx(f) == Some((rx.rssi as int, rx.snr as int, rx.data))
  {
  }

  // --- configurations --------------------------------------------------------

  // The 17 bytes of a configuration.
  function ReadConfig(p: seq<byte>): Option<RadioConfig>
    requires |p| == 17
  {
    if p[15] > 1 || p[16] > 1 then None
    else Some(RadioConfig(
      65536 * Be(p[0], p[1]) + Be(p[2], p[3]), 65536 * Be(p[4], p[5]) + Be(p[6], p[7]),
      p[8], p[9], Be(p[10], p[11]), Be(p[12], p[13]),
      Int8(p[14]), p[15], p[16]))
  }

  // The bridge reads a CONFIGURE so, and echoes it so.
  lemma ConfigsRead(f: Frame)
    ensures DecodeConfig(f) == if f.ty == 6 && |f.payload| == 17 then ReadConfig(f.payload) else None
  {
  }

  lemma ConfigsEchoed(c: RadioConfig)
    requires c.crc <= 1 && c.ldro <= 1
    ensures var f := ConfigOkFrame(c);
            f.ty == 7 && f.sn == 0 && |f.payload| == 18 && f.payload[0] == 0 && ReadConfig(f.payload[1..]) == Some(c)
  {
    PackConfigRoundTrip(c);
    hide PackConfig, UnpackConfig;
    var p := PackConfig(c);
    ConfigsRead(Frame(6, 0, p));
    assert ([0] + p)[1..] == p;
  }

  // --- XR messages -----------------------------------------------------------

  // The payload length of each message that carries a fixed one.
  const LENGTHS: map<int, int> := map[
    0x01 := 1, 0x02 := 1, 0x03 := 16, 0x04 := 32, 0x05 := 1, 0x06 := 17, 0x0A := 1, 0x0B := 0, 0x0C := 0, 0x0D := 1]

  // The rules for single fields.
  predicate FieldsInRange(f: Frame) {
    var p := f.payload;
    && (f.ty == 0x01 || f.ty == 0x02 ==> p == [1])
    && (f.ty == 0x05 ==> p == [0] || p == [1])
    && (f.ty == 0x06 ==> |p| == 17 && p[15] <= 1 && p[16] <= 1)
    && (f.ty == 0x07 ==>
          || (|p| == 1 && p[0] != 0)
          || (|p| == 18 && p[0] == 0 && p[16] <= 1 && p[17] <= 1))
    && (f.ty == 0x08 ==> |p| >= 6 && Be(p[4], p[5]) <= 255 && |p| == 6 + Be(p[4], p[5]))
    && (f.ty == 0x09 ==> |p| <= 255)
    && (f.ty == 0x0A || f.ty == 0x0D ==> |p| == 1 && p[0] <= 3)
  }

  // What the protocol calls well formed: a known type, its length, its fields, and a
  // sequence number on requests and results only.
  predicate FollowsProtocol(f: Frame) {
    && 0x01 <= f.ty <= 0x0D && FieldsInRange(f)
    && (f.ty in LENGTHS ==> |f.payload| == LENGTHS[f.ty])
    && (f.sn != 0 <==> f.ty == 0x09 || f.ty == 0x0A)
  }

  lemma ValidationExact(f: Frame)
    ensures WellFormed(f) <==> FollowsProtocol(f)
  {
  }

  // What a firmware may send.
  lemma DirectionExact(ty: byte)
    ensures IsClientMessage(ty) <==> ty in [0x01, 0x04, 0x06, 0x09, 0x0C, 0x0D]
  {
  }

  // The frames without content of their own.
  lemma FixedFrames()
    ensures Frame(HELLO_ACK, 0, [VERSION]) == Frame(0x02, 0, [1])
    ensures Frame(AUTH_RESULT, 0, [AUTH_OK]) == Frame(0x05, 0, [0]) && Frame(AUTH_RESULT, 0, [AUTH_FAIL]) == Frame(0x05, 0, [1])
    ensures Frame(CONFIG_RESULT, 0, [CFG_UNSUPPORTED]) == Frame(0x07, 0, [1])
    ensures Frame(CONFIG_RESULT, 0, [CFG_INVALID]) == Frame(0x07, 0, [2])
    ensures Frame(PING, 0, []) == Frame(0x0B, 0, []) && AUTH_CHALLENGE == 0x03
  {
  }

  // --- limits ----------------------------------------------------------------

  const BANDWIDTHS: set<int> := {7800, 10400, 15600, 20800, 31250, 41700, 62500, 125000, 250000, 500000}

  // The radio that serves a frequency.
  predicate Covers(band: Band, hz: int) {
    match band
    case Band433 => 137_000_000 <= hz <= 525_000_000
    case Band868 => 779_000_000 <= hz <= 960_000_000
  }

  // What the daemon can be asked for.
  predicate WithinLimits(c: RadioConfig) {
    && (Covers(Band433, c.freqHz) || Covers(Band868, c.freqHz)) && c.bwHz in BANDWIDTHS
    && 7 <= c.sf <= 12 && 5 <= c.crDenom <= 8 && c.syncWord <= 255 && c.preamble >= 6
    && 0 <= c.txPowerDbm <= 20 && c.crc <= 1 && c.ldro <= 1
  }

  lemma LimitsExact(c: RadioConfig)
    ensures Validate(c) == Ok <==> WithinLimits(c)
  {
  }

  lemma BandExact(hz: u32, band: Band)
    ensures SelectBand(hz) == Some(band) <==> Covers(band, hz)
  {
  }
}
