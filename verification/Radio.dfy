// Daemon limits for a RadioConfig and the CONF text that applies one.
module Radio {
  import opened Bytes
  import opened Messages
  import opened ConfText

  // --- limits ----------------------------------------------------------------

  datatype Band = Band433 | Band868

  datatype ConfigError =
    | Ok | FrequencyOutOfBand | BandwidthUnsupported | SpreadingFactor | CodingRate
    | SyncWord | Preamble | Power | Crc | Ldro

  function SelectBand(freqHz: u32): Option<Band> {
    if 137000000 <= freqHz <= 525000000 then Some(Band433)
    else if 779000000 <= freqHz <= 960000000 then Some(Band868)
    else None
  }

  // bandwidth_token(): the daemon's discrete bandwidths, in kHz.
  function BandwidthToken(hz: u32): Option<string> {
    match hz
    case 7800 => Some("7.8")
    case 10400 => Some("10.4")
    case 15600 => Some("15.6")
    case 20800 => Some("20.8")
    case 31250 => Some("31.25")
    case 41700 => Some("41.7")
    case 62500 => Some("62.5")
    case 125000 => Some("125")
    case 250000 => Some("250")
    case 500000 => Some("500")
    case _ => None
  }

  function Validate(c: RadioConfig): ConfigError {
    if SelectBand(c.freqHz).None? then FrequencyOutOfBand
    else if BandwidthToken(c.bwHz).None? then BandwidthUnsupported
    else if c.sf < 7 || c.sf > 12 then SpreadingFactor
    else if c.crDenom < 5 || c.crDenom > 8 then CodingRate
    else if c.syncWord > 0xFF then SyncWord
    else if c.preamble < 6 then Preamble
    else if c.txPowerDbm < 0 || c.txPowerDbm > 20 then Power
    else if c.crc > 1 then Crc
    else if c.ldro > 1 then Ldro
    else Ok
  }

  // --- printing --------------------------------------------------------------

  function Digit(d: nat): char
    requires d < 16
  {
    if d < 10 then '0' + d as char else 'A' + (d - 10) as char
  }

  // %u
  function Dec(n: nat): string {
    if n < 10 then [Digit(n)] else Dec(n / 10) + [Digit(n % 10)]
  }

  // %0<width>u, keeping the low digits
  function Fixed(n: nat, width: nat): string {
    if width == 0 then "" else Fixed(n / 10, width - 1) + [Digit(n % 10)]
  }

  // %.6f of hz / 1e6
  function MegaHertz(hz: nat): string {
    Dec(hz / 1000000) + ("." + Fixed(hz % 1000000, 6))
  }

  // %02X of a byte
  function Hex2(n: byte): string {
    [Digit(n / 16), Digit(n % 16)]
  }

  const LABELS: seq<string> := [
    "SET MODE=LORA FREQ=", " BW=", " SF=", " CR=", " CRC=", " PREAMBLE=", " SYNC=0x", " LDRO=", " POWER="]

  function Texts(c: RadioConfig, bw: string): seq<string>
    requires c.txPowerDbm >= 0
  {
    [MegaHertz(c.freqHz), bw, Dec(c.sf), Dec(c.crDenom), Dec(c.crc), Dec(c.preamble),
     Hex2(Low(c.syncWord)), Dec(c.ldro), Dec(c.txPowerDbm)]
  }

  function Line(labels: seq<string>, texts: seq<string>): string
    requires |labels| == |texts|
  {
    if labels == [] then "\n" else labels[0] + (texts[0] + Line(labels[1..], texts[1..]))
  }

  function SetCommand(c: RadioConfig): Option<string> {
    if Validate(c) != Ok then None
    else
      var line := Line(LABELS, Texts(c, BandwidthToken(c.bwHz).value));
      if |line| >= 256 then None else Some(line)
  }

  // --- reading back ----------------------------------------------------------

  function Fields(labels: seq<string>, s: string): (r: Option<seq<string>>)
    ensures r.Some? ==> |r.value| == |labels|
  {
    if labels == [] then if s == "\n" then Some([]) else None
    else if !StartsWith(s, labels[0]) then None
    else
      var text := s[|labels[0]|..];
      var n := TokenLen(text);
      var more :- Fields(labels[1..], text[n..]);
      Some([text[..n]] + more)
  }

  predicate IsDigit(c: char) {
    '0' <= c <= '9'
  }

  // The number spelled by the leading digits, and what follows them.
  function ReadDec(s: string, acc: nat): (nat, string) {
    if s == "" || !IsDigit(s[0]) then (acc, s) else ReadDec(s[1..], 10 * acc + (s[0] - '0') as nat)
  }

  function DecValue(s: string): Option<nat> {
    if s != "" && ReadDec(s, 0).1 == "" then Some(ReadDec(s, 0).0) else None
  }

  function HexDigit(c: char): Option<nat> {
    if IsDigit(c) then Some((c - '0') as nat)
    else if 'A' <= c <= 'F' then Some(10 + (c - 'A') as nat)
    else None
  }

  function HexValue(s: string): Option<nat> {
    if |s| != 2 then None
    else
      var h :- HexDigit(s[0]);
      var l :- HexDigit(s[1]);
      Some(16 * h + l)
  }

  function HertzValue(s: string): Option<nat> {
    var (mhz, rest) := ReadDec(s, 0);
    if |rest| != 7 || rest[0] != '.' then None
    else
      var frac :- DecValue(rest[1..]);
      Some(1000000 * mhz + frac)
  }

  // A bandwidth in kHz with at most two decimals, in Hz.
  function KiloHertzValue(s: string): Option<nat> {
    var (khz, rest) := ReadDec(s, 0);
    if rest == "" then Some(1000 * khz)
    else if rest[0] != '.' then None
    else
      var (frac, end) := ReadDec(rest[1..], 0);
      if end != "" then None
      else if |rest| == 2 then Some(1000 * khz + 100 * frac)
      else if |rest| == 3 then Some(1000 * khz + 10 * frac)
      else None
  }

  function ConfigOf(t: seq<string>): Option<RadioConfig>
    requires |t| == 9
  {
    var freq :- HertzValue(t[0]);
    var bw :- KiloHertzValue(t[1]);
    var sf :- DecValue(t[2]);
    var cr :- DecValue(t[3]);
    var crc :- DecValue(t[4]);
    var preamble :- DecValue(t[5]);
    var sync :- HexValue(t[6]);
    var ldro :- DecValue(t[7]);
    var power :- DecValue(t[8]);
    if freq < U32 && bw < U32 && sf < 256 && cr < 256 && preamble < 65536 && crc < 256 && ldro < 256 && power < 128
    then Some(RadioConfig(freq, bw, sf, cr, sync, preamble, power, crc, ldro))
    else None
  }

  // The configuration a SET line asks for, read field by field.
  function ReadSetCommand(line: string): Option<RadioConfig> {
    var t :- Fields(LABELS, line);
    ConfigOf(t)
  }

  // --- round trip ------------------------------------------------------------

  lemma {:induction false} ReadPrinted(n: nat, tail: string)
    ensures ReadDec(Dec(n) + tail, 0) == ReadDec(tail, n)
    decreases n
  {
    var d := [Digit(n % 10)];
    if n >= 10 {
      ReadPrinted(n / 10, d + tail);
      assert Dec(n) + tail == Dec(n / 10) + (d + tail);
    }
    assert (d + tail)[1..] == tail;
  }

  lemma DecRoundTrip(n: nat)
    ensures DecValue(Dec(n)) == Some(n)
  {
    ReadPrinted(n, "");
    assert Dec(n) + "" == Dec(n);
  }

  function Pow10(width: nat): nat {
    if width == 0 then 1 else 10 * Pow10(width - 1)
  }

  lemma {:induction false} ReadFixed(n: nat, width: nat, tail: string)
    requires n < Pow10(width)
    ensures |Fixed(n, width)| == width
    ensures ReadDec(Fixed(n, width) + tail, 0) == ReadDec(tail, n)
    decreases width
  {
    if width == 0 {
      assert Fixed(n, width) + tail == tail;
    } else {
      var d := [Digit(n % 10)];
      ReadFixed(n / 10, width - 1, d + tail);
      assert Fixed(n, width) + tail == Fixed(n / 10, width - 1) + (d + tail);
      assert (d + tail)[1..] == tail;
    }
  }

  lemma MegaHertzRoundTrip(hz: nat)
    ensures HertzValue(MegaHertz(hz)) == Some(hz)
  {
    var f := hz % 1000000;
    assert Pow10(3) == 1000;
    assert Pow10(6) == 1000000;
    var tail := "." + Fixed(f, 6);
    ReadPrinted(hz / 1000000, tail);
    ReadFixed(f, 6, "");
    assert Fixed(f, 6) + "" == Fixed(f, 6);
    assert tail[1..] == Fixed(f, 6);
  }

  predicate Solid(s: string) {
    forall i :: 0 <= i < |s| ==> !IsBlank(s[i]) && s[i] != '\n'
  }

  predicate AllSolid(texts: seq<string>) {
    forall i :: 0 <= i < |texts| ==> Solid(texts[i])
  }

  predicate Labels(labels: seq<string>) {
    forall i :: 0 < i < |labels| ==> labels[i] != "" && labels[i][0] == ' '
  }

  lemma {:induction false} TokenEnds(s: string, tail: string)
    requires Solid(s) && tail != "" && (IsBlank(tail[0]) || tail[0] == '\n')
    ensures TokenLen(s + tail) == |s|
  {
    if s == "" {
      assert s + tail == tail;
    } else {
      assert (s + tail)[1..] == s[1..] + tail;
      TokenEnds(s[1..], tail);
    }
  }

  // A printed line, or the end of one, starts with a separator.
  lemma LineStarts(labels: seq<string>, texts: seq<string>)
    requires |labels| == |texts| && (labels == [] || (labels[0] != "" && labels[0][0] == ' '))
    ensures var s := Line(labels, texts); s != "" && (IsBlank(s[0]) || s[0] == '\n')
  {
  }

  lemma FieldStep(labels: seq<string>, text: string, tail: string, texts: seq<string>)
    requires labels != [] && Solid(text) && tail != "" && (IsBlank(tail[0]) || tail[0] == '\n')
    requires Fields(labels[1..], tail) == Some(texts)
    ensures Fields(labels, labels[0] + (text + tail)) == Some([text] + texts)
  {
    hide Solid, TokenLen;
    var s := labels[0] + (text + tail);
    assert s[|labels[0]|..] == text + tail && s[..|labels[0]|] == labels[0];
    TokenEnds(text, tail);
    assert (text + tail)[|text|..] == tail && (text + tail)[..|text|] == text;
  }

  lemma {:induction false} FieldsRoundTrip(labels: seq<string>, texts: seq<string>)
    requires |labels| == |texts| && AllSolid(texts) && Labels(labels)
    ensures Fields(labels, Line(labels, texts)) == Some(texts)
  {
    hide Solid, Fields, IsBlank;
    if labels == [] {
      NoFields();
    } else {
      FieldsRoundTrip(labels[1..], texts[1..]);
      LineStarts(labels[1..], texts[1..]);
      FieldStep(labels, texts[0], Line(labels[1..], texts[1..]), texts[1..]);
      assert [texts[0]] + texts[1..] == texts;
    }
  }

  lemma NoFields()
    ensures Fields([], "\n") == Some([])
  {
  }

  lemma {:induction false} DecSolid(n: nat)
    ensures Solid(Dec(n))
    decreases n
  {
    if n >= 10 {
      DecSolid(n / 10);
    }
  }

  lemma {:induction false} FixedSolid(n: nat, width: nat)
    ensures Solid(Fixed(n, width))
    decreases width
  {
    if width > 0 {
      FixedSolid(n / 10, width - 1);
    }
  }

  lemma ReadOne(c: char, tail: string, acc: nat)
    requires IsDigit(c)
    ensures ReadDec([c] + tail, acc) == ReadDec(tail, 10 * acc + (c - '0') as nat)
  {
    assert ([c] + tail)[1..] == tail;
  }

  predicate TokenOk(hz: nat, token: string) {
    Solid(token) && |token| <= 5 && KiloHertzValue(token) == Some(hz)
  }

  // Reading back a token of the form dd.d or ddd.
  lemma PointToken(a: char, b: char, c: char)
    requires IsDigit(a) && IsDigit(b) && IsDigit(c)
    ensures TokenOk(1000 * (10 * (a - '0') as nat + (b - '0') as nat) + 100 * (c - '0') as nat, [a, b, '.', c])
  {
    ReadOne(a, [b, '.', c], 0);
    ReadOne(b, ['.', c], (a - '0') as nat);
    ReadOne(c, [], 0);
    assert [a, b, '.', c] == [a] + [b, '.', c] && [b, '.', c] == [b] + ['.', c] && ['.', c][1..] == [c] + [];
  }

  lemma WholeToken(a: char, b: char, c: char)
    requires IsDigit(a) && IsDigit(b) && IsDigit(c)
    ensures TokenOk(1000 * (100 * (a - '0') as nat + 10 * (b - '0') as nat + (c - '0') as nat), [a, b, c])
  {
    ReadOne(a, [b, c], 0);
    ReadOne(b, [c], (a - '0') as nat);
    ReadOne(c, [], 10 * (a - '0') as nat + (b - '0') as nat);
    assert [a, b, c] == [a] + [b, c] && [b, c] == [b] + [c] && [c] == [c] + [];
  }

  lemma SmallestToken()
    ensures TokenOk(7800, "7.8")
  {
    ReadOne('7', ".8", 0);
    ReadOne('8', "", 0);
    assert "7.8" == ['7'] + ".8" && ".8"[1..] == ['8'] + "";
  }

  lemma HundredthsToken()
    ensures TokenOk(31250, "31.25")
  {
    ReadOne('3', "1.25", 0);
    ReadOne('1', ".25", 3);
    ReadOne('2', "5", 0);
    ReadOne('5', "", 2);
    assert "31.25" == ['3'] + "1.25" && "1.25" == ['1'] + ".25" && ".25"[1..] == ['2'] + "5" && "5" == ['5'] + "";
  }

  lemma TokenRoundTrip(hz: u32)
    requires BandwidthToken(hz).Some?
    ensures TokenOk(hz, BandwidthToken(hz).value)
  {
    match hz
    case 7800 => SmallestToken();
    case 10400 => PointToken('1', '0', '4');
    case 15600 => PointToken('1', '5', '6');
    case 20800 => PointToken('2', '0', '8');
    case 31250 => HundredthsToken();
    case 41700 => PointToken('4', '1', '7');
    case 62500 => PointToken('6', '2', '5');
    case 125000 => WholeToken('1', '2', '5');
    case 250000 => WholeToken('2', '5', '0');
    case 500000 => WholeToken('5', '0', '0');
  }

  lemma TextsSolid(c: RadioConfig, bw: string)
    requires Solid(bw) && c.txPowerDbm >= 0
    ensures AllSolid(Texts(c, bw))
  {
    assert Solid(MegaHertz(c.freqHz)) by {
      DecSolid(c.freqHz / 1000000);
      FixedSolid(c.freqHz % 1000000, 6);
    }
    assert Solid(Hex2(Low(c.syncWord)));
    DecSolid(c.sf);
    DecSolid(c.crDenom);
    DecSolid(c.crc);
    DecSolid(c.preamble);
    DecSolid(c.ldro);
    DecSolid(c.txPowerDbm);
  }

  predicate AllWithin(ss: seq<string>, n: nat) {
    forall i :: 0 <= i < |ss| ==> |ss[i]| <= n
  }

  lemma {:induction false} LineLen(labels: seq<string>, texts: seq<string>)
    requires |labels| == |texts| && AllWithin(labels, 10) && AllWithin(texts, 5)
    ensures |Line(labels, texts)| <= 15 * |labels| + 1
  {
    if labels != [] {
      LineLen(labels[1..], texts[1..]);
    }
  }

  lemma {:induction false} DecLen(n: nat, width: nat)
    requires width > 0 && n < Pow10(width)
    ensures |Dec(n)| <= width
    decreases width
  {
    if n >= 10 {
      DecLen(n / 10, width - 1);
    }
  }

  lemma {:induction false} LineNewline(labels: seq<string>, texts: seq<string>)
    requires |labels| == |texts| && AllSolid(texts)
    requires forall i :: 0 <= i < |labels| ==> '\n' !in labels[i]
    ensures var s := Line(labels, texts);
            s != "" && FindNl(s) == |s| - 1
  {
    if labels != [] {
      var t := Line(labels[1..], texts[1..]);
      LineNewline(labels[1..], texts[1..]);
      var s := Line(labels, texts);
      assert forall i :: 0 <= i < |s| - |t| ==> s[i] != '\n';
      assert s[|s| - |t|..] == t;
      var n := |s| - |t| + FindNl(t);
      assert s[n] == '\n';
      assert forall i :: |s| - |t| <= i < n ==> s[i] == t[i - (|s| - |t|)];
    }
  }

  lemma TextsLen(c: RadioConfig, bw: string)
    requires |bw| <= 5 && c.txPowerDbm >= 0
    ensures |MegaHertz(c.freqHz)| <= 12
    ensures AllWithin(Texts(c, bw)[1..], 5)
  {
    assert Pow10(3) == 1000;
    assert Pow10(5) == 100000;
    assert Pow10(6) == 1000000;
    DecLen(c.freqHz / 1000000, 5);
    ReadFixed(c.freqHz % 1000000, 6, "");
    DecLen(c.sf, 5);
    DecLen(c.crDenom, 5);
    DecLen(c.crc, 5);
    DecLen(c.preamble, 5);
    DecLen(c.ldro, 5);
    DecLen(c.txPowerDbm, 5);
  }

  predicate LabelsOk(labels: seq<string>) {
    && |labels| == 9 && |labels[0]| <= 20 && AllWithin(labels[1..], 10) && Labels(labels)
    && forall i :: 0 <= i < |labels| ==> '\n' !in labels[i]
  }

  // Any well-formed labels give one line below 256 bytes.
  lemma PrintedLine(labels: seq<string>, c: RadioConfig, bw: string)
    requires LabelsOk(labels) && Solid(bw) && |bw| <= 5 && c.txPowerDbm >= 0
    ensures var s := Line(labels, Texts(c, bw));
            0 < |s| < 256 && FindNl(s) == |s| - 1
  {
    var t := Texts(c, bw);
    TextsLen(c, bw);
    TextsSolid(c, bw);
    LineLen(labels[1..], t[1..]);
    LineNewline(labels, t);
  }

  lemma ConfigFrom(t: seq<string>, c: RadioConfig)
    requires |t| == 9 && c.txPowerDbm >= 0 && c.syncWord < 256
    requires HertzValue(t[0]) == Some(c.freqHz) && KiloHertzValue(t[1]) == Some(c.bwHz)
    requires DecValue(t[2]) == Some(c.sf) && DecValue(t[3]) == Some(c.crDenom)
    requires DecValue(t[4]) == Some(c.crc) && DecValue(t[5]) == Some(c.preamble)
    requires HexValue(t[6]) == Some(c.syncWord)
    requires DecValue(t[7]) == Some(c.ldro) && DecValue(t[8]) == Some(c.txPowerDbm)
    ensures ConfigOf(t) == Some(c)
  {
  }

  lemma TextsRoundTrip(c: RadioConfig, bw: string)
    requires KiloHertzValue(bw) == Some(c.bwHz) && c.txPowerDbm >= 0 && c.syncWord < 256
    ensures ConfigOf(Texts(c, bw)) == Some(c)
  {
    var t := Texts(c, bw);
    assert HertzValue(t[0]) == Some(c.freqHz) by { MegaHertzRoundTrip(c.freqHz); }
    assert DecValue(t[2]) == Some(c.sf) by { DecRoundTrip(c.sf); }
    assert DecValue(t[3]) == Some(c.crDenom) by { DecRoundTrip(c.crDenom); }
    assert DecValue(t[4]) == Some(c.crc) by { DecRoundTrip(c.crc); }
    assert DecValue(t[5]) == Some(c.preamble) by { DecRoundTrip(c.preamble); }
    assert HexValue(t[6]) == Some(c.syncWord) by { HexByteRoundTrip(Low(c.syncWord)); }
    assert DecValue(t[7]) == Some(c.ldro) by { DecRoundTrip(c.ldro); }
    assert DecValue(t[8]) == Some(c.txPowerDbm) by { DecRoundTrip(c.txPowerDbm); }
    ConfigFrom(t, c);
  }

  lemma LabelsFine()
    ensures LabelsOk(LABELS)
  {
  }

  // The printed command is one line below 256 bytes, for every accepted configuration.
  lemma SetCommandIsLine(c: RadioConfig)
    requires Validate(c) == Ok
    ensures SetCommand(c) == Some(Line(LABELS, Texts(c, BandwidthToken(c.bwHz).value)))
    ensures var s := SetCommand(c).value;
            0 < |s| < 256 && FindNl(s) == |s| - 1
  {
    TokenRoundTrip(c.bwHz);
    LabelsFine();
    PrintedLine(LABELS, c, BandwidthToken(c.bwHz).value);
  }

  // Reading the printed command back gives exactly the configuration.
  lemma SetCommandRoundTrip(c: RadioConfig)
    requires Validate(c) == Ok
    ensures SetCommand(c).Some? && ReadSetCommand(SetCommand(c).value) == Some(c)
  {
    SetCommandIsLine(c);
    var bw := BandwidthToken(c.bwHz).value;
    TokenRoundTrip(c.bwHz);
    TextsSolid(c, bw);
    LabelsFine();
    FieldsRoundTrip(LABELS, Texts(c, bw));
    TextsRoundTrip(c, bw);
  }

  lemma HexByteRoundTrip(n: byte)
    ensures HexValue(Hex2(n)) == Some(n)
  {
  }

  // Distinct accepted configurations never print the same command.
  lemma SetCommandInjective(a: RadioConfig, b: RadioConfig)
    requires Validate(a) == Ok && Validate(b) == Ok && SetCommand(a) == SetCommand(b)
    ensures a == b
  {
    SetCommandRoundTrip(a);
    SetCommandRoundTrip(b);
  }
}
