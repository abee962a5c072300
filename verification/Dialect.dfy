// The text spoken on the CONF socket, spelled out: the fields of a SET command by their
// names, and the lines of a reply by what they say.
module Dialect {
  import opened Bytes
  import opened Messages
  import opened ConfText
  import opened Radio
  import opened Wording
  import opened Protocol

  // --- the SET command -------------------------------------------------------

  // The configuration a SET command demands, read by field names.
  function Demanded(line: string): Option<RadioConfig> {
    var w := Words(line);
    var freq :- Only(w, "FREQ");
    var bw :- Only(w, "BW");
    var sf :- Only(w, "SF");
    var cr :- Only(w, "CR");
    var crc :- Only(w, "CRC");
    var preamble :- Only(w, "PREAMBLE");
    var sync :- Only(w, "SYNC");
    var ldro :- Only(w, "LDRO");
    var power :- Only(w, "POWER");
    if !("0x" <= sync) then None
    else
      var freqHz :- HertzValue(freq);
      var bwHz :- KiloHertzValue(bw);
      var sfN :- DecValue(sf);
      var crN :- DecValue(cr);
      var crcN :- DecValue(crc);
      var preambleN :- DecValue(preamble);
      var syncN :- HexValue(sync[2..]);
      var ldroN :- DecValue(ldro);
      var powerN :- DecValue(power);
      if freqHz < U32 && bwHz < U32 && sfN < 256 && crN < 256 && preambleN < 65536 && crcN < 256 && ldroN < 256 && powerN < 128
      then Some(RadioConfig(freqHz, bwHz, sfN, crN, syncN, preambleN, powerN, crcN, ldroN))
      else None
  }

  // The fields as printed, in order.
  function Printed(c: RadioConfig, bw: string): (fs: seq<Field>)
    requires c.txPowerDbm >= 0
    ensures |fs| == 10
  {
    [Field("MODE", "LORA"), Field("FREQ", MegaHertz(c.freqHz)), Field("BW", bw), Field("SF", Dec(c.sf)),
     Field("CR", Dec(c.crDenom)), Field("CRC", Dec(c.crc)), Field("PREAMBLE", Dec(c.preamble)),
     Field("SYNC", "0x" + Hex2(Low(c.syncWord))), Field("LDRO", Dec(c.ldro)), Field("POWER", Dec(c.txPowerDbm))]
  }

  lemma {:induction false} LineFollows(labels: seq<string>, texts: seq<string>, fs: seq<Field>)
    requires |labels| == |texts| == |fs|
    requires forall i :: 0 <= i < |fs| ==> labels[i] + texts[i] == " " + Word(fs[i])
    ensures Line(labels, texts) == Following(fs) + "\n"
    decreases |fs|
  {
    hide Word;
    if fs != [] {
      LineFollows(labels[1..], texts[1..], fs[1..]);
      var more := Line(labels[1..], texts[1..]);
      assert labels[0] + (texts[0] + more) == (labels[0] + texts[0]) + more;
      assert " " + Word(fs[0]) + (Following(fs[1..]) + "\n") == (" " + Word(fs[0]) + Following(fs[1..])) + "\n";
    }
  }

  lemma PrintedFields(c: RadioConfig, bw: string)
    requires c.txPowerDbm >= 0
    ensures Line(LABELS, Texts(c, bw)) == "SET" + Following(Printed(c, bw)) + "\n"
  {
    hide MegaHertz, Dec, Hex2, Line, Following;
    var t, fs := Texts(c, bw), Printed(c, bw);
    LineFollows(LABELS[1..], t[1..], fs[2..]) by { LabelWords(c, bw); }
    var more := Line(LABELS[1..], t[1..]);
    LineFirst(LABELS, t);
    FollowingTwo(fs);
    assert LABELS[0] + (t[0] + more) == ("SET" + (" " + Word(fs[0]) + (" " + Word(fs[1])))) + more;
  }

  lemma LineFirst(labels: seq<string>, texts: seq<string>)
    requires |labels| == |texts| > 0
    ensures Line(labels, texts) == labels[0] + (texts[0] + Line(labels[1..], texts[1..]))
  {
  }

  lemma FollowingTwo(fs: seq<Field>)
    requires |fs| >= 2
    ensures Following(fs) == " " + Word(fs[0]) + (" " + Word(fs[1])) + Following(fs[2..])
  {
    hide Word;
    assert fs[1..][1..] == fs[2..];
    var rest := Following(fs[2..]);
    assert Following(fs[1..]) == " " + Word(fs[1]) + rest;
  }

  lemma LabelWords(c: RadioConfig, bw: string)
    requires c.txPowerDbm >= 0
    ensures var t, fs := Texts(c, bw), Printed(c, bw);
            forall i :: 0 <= i < 8 ==> LABELS[1..][i] + t[1..][i] == " " + Word(fs[2..][i])
  {
    hide MegaHertz, Dec, Hex2;
    var t, fs := Texts(c, bw), Printed(c, bw);
    assert LABELS[1] + t[1] == " " + Word(fs[2]);
    assert LABELS[2] + t[2] == " " + Word(fs[3]);
    assert LABELS[3] + t[3] == " " + Word(fs[4]);
    assert LABELS[4] + t[4] == " " + Word(fs[5]);
    assert LABELS[5] + t[5] == " " + Word(fs[6]);
    assert LABELS[6] + t[6] == " " + Word(fs[7]);
    assert LABELS[7] + t[7] == " " + Word(fs[8]);
    assert LABELS[8] + t[8] == " " + Word(fs[9]);
  }

  lemma SimpleField(name: string, value: string)
    requires '=' !in name && ' ' !in name && Solid(value)
    ensures Simple(Field(name, value))
  {
  }

  lemma PrintedSimple(c: RadioConfig, bw: string)
    requires c.txPowerDbm >= 0 && Solid(bw)
    ensures AllSimple(Printed(c, bw))
  {
    TextsSolid(c, bw);
    assert Solid("LORA") && Solid("0x" + Hex2(Low(c.syncWord)));
    hide MegaHertz, Dec, Hex2, Solid, Simple, Low;
    var t, fs := Texts(c, bw), Printed(c, bw);
    SimpleField("MODE", "LORA");
    SimpleField("FREQ", t[0]);
    SimpleField("BW", t[1]);
    SimpleField("SF", t[2]);
    SimpleField("CR", t[3]);
    SimpleField("CRC", t[4]);
    SimpleField("PREAMBLE", t[5]);
    SimpleField("SYNC", fs[7].value);
    SimpleField("LDRO", t[7]);
    SimpleField("POWER", t[8]);
  }

  lemma NamesDiffer(c: RadioConfig, bw: string, i: nat, j: nat)
    requires c.txPowerDbm >= 0 && i < 10 && j < 10 && i != j
    ensures Printed(c, bw)[i].name != Printed(c, bw)[j].name
  {
    var names := ["MODE", "FREQ", "BW", "SF", "CR", "CRC", "PREAMBLE", "SYNC", "LDRO", "POWER"];
    assert Printed(c, bw)[i].name == names[i] && Printed(c, bw)[j].name == names[j];
    assert |names[i]| != |names[j]| || names[i][0] != names[j][0] || names[i][1] != names[j][1];
  }

  // Each name is given once.
  lemma PrintedOnce(c: RadioConfig, bw: string, j: nat)
    requires c.txPowerDbm >= 0 && Solid(bw) && j < 10
    ensures var fs := Printed(c, bw);
            Only(Words("SET" + Following(fs)), fs[j].name) == Some(fs[j].value)
  {
    hide Printed, Words, Values, Spell, Following, Solid;
    var fs := Printed(c, bw);
    PrintedSimple(c, bw);
    WordsOf("SET", fs);
    BareWord("SET", Spell(fs), fs[j].name);
    forall i | 0 <= i < 10 && i != j ensures fs[i].name != fs[j].name { NamesDiffer(c, bw, i, j); }
    OneValue(fs, j);
  }

  lemma PrintedDemands(c: RadioConfig, bw: string)
    requires Solid(bw) && KiloHertzValue(bw) == Some(c.bwHz) && c.txPowerDbm >= 0 && c.syncWord < 256
    ensures Demanded("SET" + Following(Printed(c, bw))) == Some(c)
  {
    hide Words, Values, Following, Solid, MegaHertz, Dec, Hex2, Low, HertzValue, KiloHertzValue, DecValue, HexValue, Only;
    var fs := Printed(c, bw);
    PrintedOnce(c, bw, 1);
    PrintedOnce(c, bw, 2);
    PrintedOnce(c, bw, 3);
    PrintedOnce(c, bw, 4);
    PrintedOnce(c, bw, 5);
    PrintedOnce(c, bw, 6);
    PrintedOnce(c, bw, 7);
    PrintedOnce(c, bw, 8);
    PrintedOnce(c, bw, 9);
    PrintedValues(c);
    assert fs[7].value[2..] == Hex2(Low(c.syncWord));
  }

  lemma PrintedValues(c: RadioConfig)
    requires c.txPowerDbm >= 0 && c.syncWord < 256
    ensures HertzValue(MegaHertz(c.freqHz)) == Some(c.freqHz) && HexValue(Hex2(Low(c.syncWord))) == Some(c.syncWord)
    ensures DecValue(Dec(c.sf)) == Some(c.sf) && DecValue(Dec(c.crDenom)) == Some(c.crDenom)
    ensures DecValue(Dec(c.crc)) == Some(c.crc) && DecValue(Dec(c.preamble)) == Some(c.preamble)
    ensures DecValue(Dec(c.ldro)) == Some(c.ldro) && DecValue(Dec(c.txPowerDbm)) == Some(c.txPowerDbm)
  {
    HexByteRoundTrip(Low(c.syncWord));
    hide HertzValue, MegaHertz, Dec, DecValue, HexValue, Hex2;
    MegaHertzRoundTrip(c.freqHz);
    DecRoundTrip(c.sf);
    DecRoundTrip(c.crDenom);
    DecRoundTrip(c.crc);
    DecRoundTrip(c.preamble);
    DecRoundTrip(c.ldro);
    DecRoundTrip(c.txPowerDbm);
  }

  // The line is a SET command for c: read by names it demands exactly c.
  predicate IsSetFor(line: string, c: RadioConfig) {
    "SET MODE=LORA " <= line && '\n' !in line && Demanded(line) == Some(c)
  }

  // The command printed for any configuration within the limits demands exactly it.
  lemma SetDemands(c: RadioConfig)
    requires WithinLimits(c)
    ensures SetCommand(c).Some?
    ensures exists line :: SetCommand(c).value == line + "\n" && IsSetFor(line, c)
  {
    LimitsExact(c);
    SetCommandIsLine(c);
    var bw := BandwidthToken(c.bwHz).value;
    TokenRoundTrip(c.bwHz);
    hide Line, Printed, Texts, WithinLimits, Validate, BandwidthToken, Demanded, Following, Solid, KiloHertzValue;
    PrintedFields(c, bw);
    PrintedDemands(c, bw);
    var line := "SET" + Following(Printed(c, bw));
    assert SetCommand(c).value == line + "\n";
    SetStarts(c, bw);
    assert forall i :: 0 <= i < |line| ==> (line + "\n")[i] == line[i];
  }

  lemma SetStarts(c: RadioConfig, bw: string)
    requires c.txPowerDbm >= 0
    ensures "SET MODE=LORA " <= "SET" + Following(Printed(c, bw))
  {
    hide MegaHertz, Dec, Hex2, Following;
    var fs := Printed(c, bw);
    FollowingTwo(fs);
    assert Word(fs[0]) == "MODE=LORA";
    assert "SET" + (" " + Word(fs[0]) + (" " + Word(fs[1])) + Following(fs[2..]))
        == "SET MODE=LORA " + (Word(fs[1]) + Following(fs[2..]));
  }

  // --- replies ---------------------------------------------------------------

  predicate IsTrailing(c: char) {
    c == '\r' || c == ' ' || c == '\t'
  }

  // `t` is `line` without its trailing blanks.
  predicate Strips(line: string, t: string) {
    && t <= line && (forall i :: |t| <= i < |line| ==> IsTrailing(line[i]))
    && (t == "" || !IsTrailing(t[|t| - 1]))
  }

  lemma {:induction false} TrimStrips(line: string)
    ensures Strips(line, TrimRight(line))
    decreases |line|
  {
    if line != "" && IsBlank(line[|line| - 1]) {
      var k := |line| - 1;
      TrimStrips(line[..k]);
      assert TrimRight(line) == TrimRight(line[..k]) <= line[..k] <= line;
    }
  }

  lemma StripsOnce(line: string, t: string, u: string)
    requires Strips(line, t) && Strips(line, u)
    ensures t == u
  {
    assert t == line[..|t|] && u == line[..|u|];
  }

  // Broadcasts, which may come at any time.
  predicate Chatter(t: string) {
    t == "" || "TX=" <= t || "CAD=" <= t || "RSSI=" <= t
  }

  // What does not settle a configure: chatter, and the OK of a command.
  predicate Harmless(t: string, awaiting: bool) {
    Chatter(t) || (awaiting && t == "OK")
  }

  // RADIO=READY at `pos`, as a whole field.
  predicate ReadyField(t: string, pos: nat) {
    && pos + 11 <= |t| && t[pos..pos + 11] == "RADIO=READY"
    && (pos + 11 == |t| || IsTrailing(t[pos + 11]) || t[pos + 11] == '\n')
  }

  // It is the first RADIO= of the line.
  ghost predicate ReportsReady(t: string) {
    exists pos: nat :: ReadyField(t, pos) && forall i :: 0 <= i < pos ==> !("RADIO=" <= t[i..])
  }

  lemma PrefixRead(s: string, p: string)
    ensures StartsWith(s, p) <==> p <= s
  {
  }

  lemma ReadyReads(t: string)
    ensures RadioReady(t) <==> ReportsReady(t)
  {
    hide RadioReady;
    ReadyMeans(t);
    if RadioReady(t) {
      var pos: nat :| SaysReady(t, pos) && forall i :: 0 <= i < pos ==> !StartsWith(t[i..], "RADIO=");
      assert ReadyField(t, pos);
    }
    if ReportsReady(t) {
      var pos: nat :| ReadyField(t, pos) && forall i :: 0 <= i < pos ==> !("RADIO=" <= t[i..]);
      assert SaysReady(t, pos);
    }
  }

  // What the bridge makes of one line.
  lemma ClassifyRead(t: string, awaiting: bool)
    ensures var k := Classify(t, awaiting);
            && (k.Skip? <==> Harmless(t, awaiting))
            && (k.Status? <==> !Harmless(t, awaiting) && awaiting && "STATUS" <= t)
            && (k.Status? ==> (k.ready <==> ReportsReady(t)))
  {
    hide RadioReady, ReportsReady;
    ReadyReads(t);
    PrefixRead(t, "TX=");
    PrefixRead(t, "CAD=");
    PrefixRead(t, "RSSI=");
    PrefixRead(t, "ERR");
    PrefixRead(t, "STATUS");
    hide StartsWith;
    assert "STATUS"[0] != "ERR"[0];
  }

  // --- a reply text ----------------------------------------------------------

  // A complete line that is passed over.
  ghost predicate PassedOver(line: string, awaiting: bool) {
    '\n' !in line && exists t :: Strips(line, t) && Harmless(t, awaiting)
  }

  ghost predicate AllPassedOver(lines: seq<string>, awaiting: bool) {
    forall i :: 0 <= i < |lines| ==> PassedOver(lines[i], awaiting)
  }

  // The first complete line that is not, and its text.
  ghost predicate FirstWord(text: string, lines: seq<string>, line: string, t: string, rest: string, awaiting: bool) {
    && text == Lines(lines) + (line + "\n" + rest) && AllPassedOver(lines, awaiting)
    && '\n' !in line && Strips(line, t) && !Harmless(t, awaiting)
  }

  // A STATUS line comes before any other that matters, and says ready or not.
  ghost predicate Declares(text: string, ready: bool) {
    exists lines, line, t, rest ::
      FirstWord(text, lines, line, t, rest, true) && "STATUS" <= t && (ReportsReady(t) <==> ready)
  }

  // Another line comes first.
  ghost predicate Objects(text: string, awaiting: bool) {
    exists lines, line, t, rest ::
      FirstWord(text, lines, line, t, rest, awaiting) && !(awaiting && "STATUS" <= t)
  }

  // No complete line matters so far.
  ghost predicate Undecided(text: string, rest: string, awaiting: bool) {
    '\n' !in rest && exists lines :: text == Lines(lines) + rest && AllPassedOver(lines, awaiting)
  }

  lemma LineRead(line: string, awaiting: bool)
    requires '\n' !in line
    ensures PassedOver(line, awaiting) <==> Classify(TrimRight(line), awaiting).Skip?
    ensures Strips(line, TrimRight(line))
  {
    hide TrimRight, Classify, Strips, Harmless;
    TrimStrips(line);
    ClassifyRead(TrimRight(line), awaiting);
    if PassedOver(line, awaiting) {
      var t :| Strips(line, t) && Harmless(t, awaiting);
      StripsOnce(line, t, TrimRight(line));
    }
  }

  lemma {:induction false} ScanPasses(lines: seq<string>, tail: string, awaiting: bool)
    requires AllPassedOver(lines, awaiting)
    ensures Scan(Lines(lines) + tail, awaiting) == Scan(tail, awaiting)
    decreases |lines|
  {
    hide PassedOver, TrimRight, Classify;
    if lines == [] {
      assert Lines(lines) + tail == tail;
    } else {
      var more := Lines(lines[1..]) + tail;
      ScanPasses(lines[1..], tail, awaiting);
      assert PassedOver(lines[0], awaiting);
      OneLine(lines[0]);
      LineRead(lines[0], awaiting);
      ScanLine(lines[0], more, awaiting);
      assert Lines(lines) + tail == lines[0] + "\n" + more;
    }
  }

  lemma OneLine(line: string)
    ensures forall awaiting :: PassedOver(line, awaiting) ==> '\n' !in line
  {
  }

  lemma ScanLine(line: string, rest: string, awaiting: bool)
    requires '\n' !in line
    ensures Scan(line + "\n" + rest, awaiting) ==
            match Classify(TrimRight(line), awaiting)
            case Skip => Scan(rest, awaiting)
            case Fatal => Failed(rest)
            case Status(ready) => GotStatus(ready, rest)
  {
    hide TrimRight, Classify;
    var s := line + "\n" + rest;
    FindNlLine(line, rest);
    assert s[..|line|] == line && s[|line| + 1..] == rest;
  }

  lemma NoLine(tail: string, awaiting: bool)
    requires '\n' !in tail
    ensures Scan(tail, awaiting) == Pending(tail)
  {
    hide TrimRight, Classify;
    assert FindNl(tail) == |tail|;
  }

  // The verdict on the first line that matters.
  lemma FirstWordRead(text: string, lines: seq<string>, line: string, t: string, rest: string, awaiting: bool)
    requires FirstWord(text, lines, line, t, rest, awaiting)
    ensures var v := Scan(text, awaiting);
            if awaiting && "STATUS" <= t then v == GotStatus(ReportsReady(t), rest) else v == Failed(rest)
  {
    hide PassedOver, TrimRight, Classify, Scan, Strips, ReportsReady, Harmless;
    ScanPasses(lines, line + "\n" + rest, awaiting);
    ScanLine(line, rest, awaiting);
    LineRead(line, awaiting);
    StripsOnce(line, t, TrimRight(line));
    ClassifyRead(t, awaiting);
  }

  // Every text is of one of these forms.
  lemma {:induction false} TextForms(text: string, awaiting: bool)
    ensures || (exists rest :: Undecided(text, rest, awaiting))
            || (exists lines, line, t, rest :: FirstWord(text, lines, line, t, rest, awaiting))
    decreases |text|
  {
    hide PassedOver, TrimRight, Classify, Strips, Harmless;
    var nl := FindNl(text);
    if nl == |text| {
      assert text == Lines([]) + text && AllPassedOver([], awaiting);
      assert Undecided(text, text, awaiting);
    } else {
      var line, rest := text[..nl], text[nl + 1..];
      assert text == line + "\n" + rest;
      LineRead(line, awaiting);
      if PassedOver(line, awaiting) {
        TextForms(rest, awaiting);
        FormMore(line, rest, awaiting);
      } else {
        assert !Harmless(TrimRight(line), awaiting) by { NotPassed(line, awaiting); }
        assert text == Lines([]) + (line + "\n" + rest);
        assert FirstWord(text, [], line, TrimRight(line), rest, awaiting);
      }
    }
  }

  lemma NotPassed(line: string, awaiting: bool)
    requires '\n' !in line && !PassedOver(line, awaiting)
    ensures !Harmless(TrimRight(line), awaiting)
  {
    hide TrimRight, Harmless, Strips;
    TrimStrips(line);
  }

  lemma FormMore(line: string, text: string, awaiting: bool)
    requires PassedOver(line, awaiting)
    ensures forall rest :: Undecided(text, rest, awaiting) ==> Undecided(line + "\n" + text, rest, awaiting)
    ensures forall lines, l, t, rest :: FirstWord(text, lines, l, t, rest, awaiting) ==>
              FirstWord(line + "\n" + text, [line] + lines, l, t, rest, awaiting)
  {
    hide PassedOver, Strips, Harmless, Lines;
    forall rest | Undecided(text, rest, awaiting) ensures Undecided(line + "\n" + text, rest, awaiting) {
      var lines :| text == Lines(lines) + rest && AllPassedOver(lines, awaiting);
      ConsLines(line, lines, rest);
      assert AllPassedOver([line] + lines, awaiting);
    }
    forall lines, l, t, rest | FirstWord(text, lines, l, t, rest, awaiting)
      ensures FirstWord(line + "\n" + text, [line] + lines, l, t, rest, awaiting)
    {
      ConsLines(line, lines, l + "\n" + rest);
    }
  }

  // The scanner's verdict on a whole reply text is what the text says.
  lemma VerdictExact(text: string, awaiting: bool)
    ensures var v := Scan(text, awaiting);
            && (forall ready :: (v.GotStatus? && v.ready == ready) <==> awaiting && Declares(text, ready))
            && (v.Failed? <==> Objects(text, awaiting))
            && (forall rest :: v == Pending(rest) <==> Undecided(text, rest, awaiting))
  {
    hide Scan, FirstWord, ReportsReady, AllPassedOver, Lines;
    forall rest | Undecided(text, rest, awaiting) ensures Scan(text, awaiting) == Pending(rest) {
      var lines :| text == Lines(lines) + rest && AllPassedOver(lines, awaiting);
      ScanPasses(lines, rest, awaiting);
      NoLine(rest, awaiting);
    }
    forall lines, line, t, rest | FirstWord(text, lines, line, t, rest, awaiting)
      ensures if awaiting && "STATUS" <= t then Scan(text, awaiting) == GotStatus(ReportsReady(t), rest)
              else Scan(text, awaiting) == Failed(rest)
    {
      FirstWordRead(text, lines, line, t, rest, awaiting);
    }
    TextForms(text, awaiting);
  }
}
