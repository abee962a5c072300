// The RF log line: written in place into a bounded character array.
module RfLog {
  import opened Bytes
  import opened Radio
  import opened Wording

  // --- what a line says ------------------------------------------------------

  function HexChar(d: nat): char
    requires d < 16
  {
    if d < 10 then '0' + d as char else 'a' + (d - 10) as char
  }

  // Two lower-case digits a byte, high nibble first.
  function Hex(rf: seq<byte>): string {
    seq(2 * |rf|, i requires 0 <= i < 2 * |rf| =>
      HexChar(if i % 2 == 0 then rf[i / 2] / 16 else rf[i / 2] % 16))
  }

  // Printable ASCII except the line's own quoting characters.
  function AsciiChar(b: byte): char {
    if 0x20 <= b < 0x7f && b != 0x22 && b != 0x5c then b as char else '.'
  }

  function Ascii(rf: seq<byte>): string {
    seq(|rf|, i requires 0 <= i < |rf| => AsciiChar(rf[i]))
  }

  function PayloadText(rf: seq<byte>): string {
    " hex=" + Hex(rf) + " ascii=\"" + Ascii(rf) + "\"\n"
  }

  function FullLine(head: string, rf: seq<byte>): string {
    head + PayloadText(rf)
  }

  // %.2f of v / 100
  function Centi(v: int): string {
    var a := if v < 0 then -v else v;
    (if v < 0 then "-" else "") + Dec(a / 100) + "." + Fixed(a % 100, 2)
  }

  function RxHead(utc: string, rssi: int, snr: int, len: nat): string {
    utc + " RX rssi=" + Centi(rssi) + " snr=" + Centi(snr) + " len=" + Dec(len)
  }

  function TxHead(utc: string, outcome: string, len: nat): string {
    utc + " TX rssi=- snr=- len=" + Dec(len) + " outcome=" + outcome
  }

  // The line a buffer of `cap` characters can hold: whole, or cut and re-terminated.
  function Bounded(line: string, cap: nat): string
    requires cap >= 2
  {
    if |line| < cap then line else line[..cap - 2] + "\n"
  }

  // --- reading a line back ---------------------------------------------------

  function Nibble(c: char): nat {
    if '0' <= c <= '9' then (c - '0') as nat
    else if 'a' <= c <= 'f' then 10 + (c - 'a') as nat
    else 0
  }

  function UnHex(s: string): seq<int> {
    seq(|s| / 2, i requires 0 <= i < |s| / 2 => 16 * Nibble(s[2 * i]) + Nibble(s[2 * i + 1]))
  }

  lemma NibbleRoundTrip(d: nat)
    requires d < 16
    ensures Nibble(HexChar(d)) == d
  {
  }

  lemma HexDigits(rf: seq<byte>, i: nat)
    requires i < |rf|
    ensures |Hex(rf)| == 2 * |rf|
    ensures Hex(rf)[2 * i] == HexChar(rf[i] / 16) && Hex(rf)[2 * i + 1] == HexChar(rf[i] % 16)
  {
  }

  lemma HexLen(rf: seq<byte>)
    ensures |Hex(rf)| == 2 * |rf| && |Ascii(rf)| == |rf|
  {
  }

  lemma HexRoundTrip(rf: seq<byte>)
    ensures UnHex(Hex(rf)) == rf
  {
    var h := Hex(rf);
    forall i | 0 <= i < |rf| ensures UnHex(h)[i] == rf[i] {
      hide Hex, HexChar, Nibble;
      HexDigits(rf, i);
      NibbleRoundTrip(rf[i] / 16);
      NibbleRoundTrip(rf[i] % 16);
    }
  }

  // The hex field of an untruncated line is the payload.
  lemma LineCarriesPayload(head: string, rf: seq<byte>, cap: nat)
    requires cap >= 2 && |FullLine(head, rf)| < cap
    ensures var at := |head| + 5;
            at + 2 * |rf| <= |Bounded(FullLine(head, rf), cap)| &&
            UnHex(Bounded(FullLine(head, rf), cap)[at..at + 2 * |rf|]) == rf
  {
    HexRoundTrip(rf);
    hide Hex, UnHex, Ascii;
    HexLen(rf);
    assert FullLine(head, rf)[|head| + 5..|head| + 5 + 2 * |rf|] == Hex(rf);
  }

  predicate Clean(s: string) {
    forall i :: 0 <= i < |s| ==> s[i] != '\n' && s[i] != '\0'
  }

  // One record a line: the newline is last and only there, and there is no NUL.
  lemma OneRecord(head: string, rf: seq<byte>, cap: nat)
    requires cap >= 2 && Clean(head)
    ensures var s := Bounded(FullLine(head, rf), cap);
            0 < |s| < cap && s[|s| - 1] == '\n' && Clean(s[..|s| - 1])
  {
    var f := FullLine(head, rf);
    assert f == (head + " hex=" + Hex(rf) + " ascii=\"" + Ascii(rf) + "\"") + "\n";
    assert Clean(f[..|f| - 1]);
  }

  // As much of the line as the buffer takes.
  lemma CutLast(head: string, rf: seq<byte>, cap: nat)
    requires cap >= 2
    ensures var line, s := FullLine(head, rf), Bounded(FullLine(head, rf), cap);
            |s| == Min(|line|, cap - 1) && |s| > 0 && s[..|s| - 1] <= line
  {
    hide PayloadText;
    LineNotEmpty(head, rf);
    var line := FullLine(head, rf);
    assert |line| >= cap ==> Bounded(line, cap)[..cap - 2] == line[..cap - 2];
  }

  lemma LineNotEmpty(head: string, rf: seq<byte>)
    ensures |FullLine(head, rf)| > 0
  {
  }

  // --- writing it in place ---------------------------------------------------

  // snprintf(out + pos, pos < cap ? cap - pos : 0, "%s", text)
  method Put(out: array<char>, pos: nat, text: string) returns (end: nat)
    modifies out
    ensures end == pos + |text|
    ensures forall i :: 0 <= i < out.Length && i < pos ==> out[i] == old(out[i])
    ensures forall i :: pos <= i < out.Length - 1 && i < end ==> out[i] == text[i - pos]
  {
    if pos < out.Length {
      var n := Min(|text|, out.Length - 1 - pos);
      forall i | 0 <= i < n {
        out[pos + i] := text[i];
      }
      out[pos + n] := '\0';
    }
    end := pos + |text|;
  }

  // `out` holds the first characters of `line`, and `pos` is either the true
  // position `at` in it or so close to the end that the line cannot fit.
  ghost predicate Tracks(out: seq<char>, line: string, at: nat, pos: nat) {
    && at <= |line|
    && (pos == at || (|out| - 2 <= pos < at))
    && forall i :: 0 <= i < pos && i < |out| - (if pos == at then 1 else 2) ==> out[i] == line[i]
  }

  // Extends a tracked line by its next piece.
  method PutNext(out: array<char>, pos: nat, text: string, ghost line: string, ghost at: nat) returns (end: nat)
    requires out.Length >= 8 && Tracks(out[..], line, at, pos)
    requires at + |text| <= |line| && line[at..at + |text|] == text
    modifies out
    ensures end == pos + |text| && Tracks(out[..], line, at + |text|, end)
  {
    end := Put(out, pos, text);
    assert forall i :: at <= i < at + |text| ==> line[i] == text[i - at];
  }

  // The hex digits of the payload, as long as both fit.
  method PutHex(out: array<char>, start: nat, rf: seq<byte>, ghost line: string, ghost at: nat) returns (pos: nat)
    requires out.Length >= 8 && Tracks(out[..], line, at, start)
    requires at + 2 * |rf| <= |line| && line[at..at + 2 * |rf|] == Hex(rf)
    modifies out
    ensures Tracks(out[..], line, at + 2 * |rf|, pos)
  {
    hide Hex, HexChar;
    pos := start;
    var i := 0;
    while i < |rf| && pos + 2 < out.Length
      invariant i <= |rf|
      invariant Tracks(out[..], line, at + 2 * i, pos)
    {
      out[pos] := HexChar(rf[i] / 16);
      out[pos + 1] := HexChar(rf[i] % 16);
      HexDigits(rf, i);
      assert line[at + 2 * i] == Hex(rf)[2 * i] && line[at + 2 * i + 1] == Hex(rf)[2 * i + 1];
      pos := pos + 2;
      i := i + 1;
    }
  }

  // The printable characters of the payload, as long as they fit.
  method PutAscii(out: array<char>, start: nat, rf: seq<byte>, ghost line: string, ghost at: nat) returns (pos: nat)
    requires out.Length >= 8 && Tracks(out[..], line, at, start)
    requires at + |rf| + 2 <= |line| && line[at..at + |rf|] == Ascii(rf)
    modifies out
    ensures Tracks(out[..], line, at + |rf|, pos)
  {
    pos := start;
    var i := 0;
    while i < |rf| && pos + 1 < out.Length
      invariant i <= |rf|
      invariant Tracks(out[..], line, at + i, pos)
    {
      out[pos] := AsciiChar(rf[i]);
      assert line[at + i] == Ascii(rf)[i];
      pos := pos + 1;
      i := i + 1;
    }
  }

  lemma Pieces(head: string, rf: seq<byte>)
    ensures var line, h := FullLine(head, rf), |head| + 5;
            var a := h + 2 * |rf| + 8;
            && |line| == a + |rf| + 2
            && line[|head|..h] == " hex=" && line[h..h + 2 * |rf|] == Hex(rf)
            && line[h + 2 * |rf|..a] == " ascii=\"" && line[a..a + |rf|] == Ascii(rf)
            && line[a + |rf|..a + |rf| + 2] == "\"\n"
  {
    hide Hex, Ascii;
    HexLen(rf);
  }

  // Ends the record: NUL after a line that fits, newline and NUL over one that does not.
  method Terminate(out: array<char>, pos: nat, ghost line: string) returns (n: nat)
    requires out.Length >= 8 && Tracks(out[..], line, |line|, pos)
    requires pos == |line| || pos >= out.Length
    modifies out
    ensures n < out.Length && out[n] == '\0' && out[..n] == Bounded(line, out.Length)
  {
    var cap := out.Length;
    if pos >= cap {
      out[cap - 2] := '\n';
      out[cap - 1] := '\0';
      return cap - 1;
    }
    out[pos] := '\0';
    return pos;
  }

  method AppendPayload(out: array<char>, start: nat, rf: seq<byte>, ghost head: string) returns (n: nat)
    requires out.Length >= 8 && Tracks(out[..], FullLine(head, rf), |head|, start)
    modifies out
    ensures n < out.Length && out[n] == '\0'
    ensures out[..n] == Bounded(FullLine(head, rf), out.Length)
  {
    hide Hex, Ascii, PayloadText;
    ghost var line := FullLine(head, rf);
    ghost var h := |head| + 5;
    ghost var a := h + 2 * |rf| + 8;
    Pieces(head, rf);
    var pos := PutNext(out, start, " hex=", line, |head|);
    pos := PutHex(out, pos, rf, line, h);
    pos := PutNext(out, pos, " ascii=\"", line, h + 2 * |rf|);
    pos := PutAscii(out, pos, rf, line, a);
    pos := PutNext(out, pos, "\"\n", line, a + |rf|);
    n := Terminate(out, pos, line);
  }

  // format_rx() and format_tx(), given their leading fields.
  method Format(out: array<char>, head: string, rf: seq<byte>) returns (n: nat)
    modifies out
    ensures out.Length < 8 ==> n == 0
    ensures out.Length >= 8 ==>
              n < out.Length && out[n] == '\0' && out[..n] == Bounded(FullLine(head, rf), out.Length)
  {
    var cap := out.Length;
    if cap < 8 {
      return 0;
    }
    var m := Put(out, 0, head);
    var pos := if m < cap then m else cap - 1;
    n := AppendPayload(out, pos, rf, head);
  }

  method FormatRx(out: array<char>, utc: string, rssi: int, snr: int, rf: seq<byte>) returns (n: nat)
    modifies out
    ensures if out.Length < 8 then n == 0
            else
              && n < out.Length && out[n] == '\0'
              && out[..n] == Bounded(FullLine(RxHead(utc, rssi, snr, |rf|), rf), out.Length)
  {
    n := Format(out, RxHead(utc, rssi, snr, |rf|), rf);
  }

  method FormatTx(out: array<char>, utc: string, outcome: string, rf: seq<byte>) returns (n: nat)
    modifies out
    ensures if out.Length < 8 then n == 0
            else
              && n < out.Length && out[n] == '\0'
              && out[..n] == Bounded(FullLine(TxHead(utc, outcome, |rf|), rf), out.Length)
  {
    n := Format(out, TxHead(utc, outcome, |rf|), rf);
  }

  // The leading fields are clean when the time stamp is, so both kinds of line are
  // one record each.
  lemma HeadsClean(utc: string, rssi: int, snr: int, len: nat)
    requires Clean(utc)
    ensures Clean(RxHead(utc, rssi, snr, len))
    ensures Clean(TxHead(utc, "ok", len)) && Clean(TxHead(utc, "unconfirmed", len))
  {
    CentiClean(rssi);
    CentiClean(snr);
    DecClean(len);
    hide Centi, Dec;
  }

  lemma {:induction false} DecClean(n: nat)
    ensures Clean(Dec(n))
  {
    if n >= 10 {
      DecClean(n / 10);
    }
  }

  lemma {:induction false} FixedClean(n: nat, width: nat)
    ensures Clean(Fixed(n, width))
    decreases width
  {
    if width > 0 {
      FixedClean(n / 10, width - 1);
    }
  }

  lemma CentiClean(v: int)
    ensures Clean(Centi(v))
  {
    var a := if v < 0 then -v else v;
    DecClean(a / 100);
    FixedClean(a % 100, 2);
    hide Dec, Fixed;
  }

  // --- reading the fields back -----------------------------------------------

  // A number with two decimals, in hundredths.
  function CentiValue(s: string): Option<int> {
    var minus := s != "" && s[0] == '-';
    var (whole, rest) := ReadDec(if minus then s[1..] else s, 0);
    if |rest| != 3 || rest[0] != '.' then None
    else
      var frac :- DecValue(rest[1..]);
      Some(if minus then -(100 * whole + frac) else 100 * whole + frac)
  }

  // The digits of a hundredths number, read back.
  lemma HundredthsRead(a: nat)
    ensures var s := Dec(a / 100) + "." + Fixed(a % 100, 2);
            && s != "" && s[0] != '-' && ReadDec(s, 0) == (a / 100, "." + Fixed(a % 100, 2))
            && |Fixed(a % 100, 2)| == 2 && DecValue(Fixed(a % 100, 2)) == Some(a % 100)
  {
    var f := a % 100;
    var tail := "." + Fixed(f, 2);
    assert Pow10(2) == 100;
    ReadPrinted(a / 100, tail);
    ReadFixed(f, 2, "");
    assert Fixed(f, 2) + "" == Fixed(f, 2);
    DecStarts(a / 100);
    hide Dec, Fixed;
    assert Dec(a / 100) + "." + Fixed(f, 2) == Dec(a / 100) + tail;
  }

  lemma CentiRoundTrip(v: int)
    ensures CentiValue(Centi(v)) == Some(v)
  {
    hide Dec, Fixed, ReadDec, DecValue;
    var a: nat := if v < 0 then -v else v;
    HundredthsRead(a);
    var s, f := Dec(a / 100) + "." + Fixed(a % 100, 2), Fixed(a % 100, 2);
    assert ("." + f)[1..] == f;
    if v < 0 {
      assert Centi(v) == "-" + s && ("-" + s)[1..] == s;
    } else {
      assert Centi(v) == s;
    }
  }

  lemma {:induction false} DecStarts(n: nat)
    ensures Dec(n) != "" && IsDigit(Dec(n)[0])
    decreases n
  {
    if n >= 10 { DecStarts(n / 10); }
  }

  lemma CentiSolid(v: int)
    ensures Solid(Centi(v))
  {
    var a: nat := if v < 0 then -v else v;
    DecSolid(a / 100);
    FixedSolid(a % 100, 2);
    hide Dec, Fixed;
  }

  // The words after the time stamp: the kind of line, then its fields by name.
  function HeadWords(head: string, utc: string): seq<string>
    requires |utc| <= |head|
  {
    Words(head[|utc|..])
  }

  lemma HeadFields(utc: string, kind: string, fs: seq<Field>, j: nat)
    requires ' ' !in kind && '=' !in kind && AllSimple(fs) && j < |fs|
    requires forall i :: 0 <= i < |fs| && i != j ==> fs[i].name != fs[j].name
    ensures var head := utc + (" " + (kind + Following(fs)));
            && HeadWords(head, utc) == ["", kind] + Spell(fs)
            && Only(HeadWords(head, utc), fs[j].name) == Some(fs[j].value)
  {
    hide Words, Values, Spell, Following, AllSimple;
    var head, body := utc + (" " + (kind + Following(fs))), kind + Following(fs);
    assert head[|utc|..] == "" + (" " + body);
    WordsCons("", body);
    WordsOf(kind, fs);
    assert [""] + ([kind] + Spell(fs)) == ["", kind] + Spell(fs);
    BareWord("", [kind] + Spell(fs), fs[j].name);
    BareWord(kind, Spell(fs), fs[j].name);
    OneValue(fs, j);
  }

  function RxFields(rssi: int, snr: int, len: nat): seq<Field> {
    [Field("rssi", Centi(rssi)), Field("snr", Centi(snr)), Field("len", Dec(len))]
  }

  function TxFields(outcome: string, len: nat): seq<Field> {
    [Field("rssi", "-"), Field("snr", "-"), Field("len", Dec(len)), Field("outcome", outcome)]
  }

  lemma {:induction false} FollowingSnoc(fs: seq<Field>, f: Field)
    ensures Following(fs + [f]) == Following(fs) + (" " + Word(f))
    decreases |fs|
  {
    hide Word;
    if fs == [] {
      assert ([f])[1..] == [] && fs + [f] == [f];
    } else {
      FollowingSnoc(fs[1..], f);
      assert (fs + [f])[1..] == fs[1..] + [f];
      var w, more, last := " " + Word(fs[0]), Following(fs[1..]), " " + Word(f);
      assert w + (more + last) == (w + more) + last;
    }
  }

  lemma Labelled(name: string, value: string)
    ensures " " + Word(Field(name, value)) == (" " + name + "=") + value
  {
  }

  lemma NoFollowing()
    ensures Following([]) == ""
  {
  }

  // Labels and values in turn, however they are bracketed.
  lemma Rebracket(utc: string, kind: string, a: string, x: string, b: string, y: string, c: string, z: string)
    ensures utc + (kind + a) + x + b + y + c + z == utc + (kind + ("" + (a + x) + (b + y) + (c + z)))
  {
  }

  lemma ThreeFields(f: Field, g: Field, h: Field)
    ensures Following([f, g, h]) == "" + (" " + Word(f)) + (" " + Word(g)) + (" " + Word(h))
  {
    hide Following, Word;
    NoFollowing();
    FollowingSnoc([], f);
    FollowingSnoc([f], g);
    FollowingSnoc([f, g], h);
    assert [] + [f] == [f] && [f] + [g] == [f, g] && [f, g] + [h] == [f, g, h];
  }

  lemma RxHeadSpelled(utc: string, rssi: int, snr: int, len: nat)
    ensures RxHead(utc, rssi, snr, len) == utc + (" " + ("RX" + Following(RxFields(rssi, snr, len))))
  {
    hide Centi, Dec, Following, Word;
    var fs := RxFields(rssi, snr, len);
    ThreeFields(fs[0], fs[1], fs[2]);
    Labelled("rssi", Centi(rssi));
    Labelled("snr", Centi(snr));
    Labelled("len", Dec(len));
    Rebracket(utc, " RX", " rssi=", Centi(rssi), " snr=", Centi(snr), " len=", Dec(len));
    assert " RX rssi=" == " RX" + " rssi=";
    assert " " + "rssi" + "=" == " rssi=" && " " + "snr" + "=" == " snr=" && " " + "len" + "=" == " len=";
    assert " " + ("RX" + Following(fs)) == " RX" + Following(fs);
  }

  // The TX line has no signal.
  lemma NoSignal(d: string)
    ensures Following([Field("rssi", "-"), Field("snr", "-"), Field("len", d)]) == " rssi=- snr=- len=" + d
  {
    hide Following, Word;
    ThreeFields(Field("rssi", "-"), Field("snr", "-"), Field("len", d));
    Labelled("rssi", "-");
    Labelled("snr", "-");
    Labelled("len", d);
    assert "" + ((" " + "rssi" + "=") + "-") + ((" " + "snr" + "=") + "-") == " rssi=- snr=-";
    assert " rssi=- snr=-" + ((" " + "len" + "=") + d) == (" rssi=- snr=-" + (" " + "len" + "=")) + d;
    assert " rssi=- snr=-" + (" " + "len" + "=") == " rssi=- snr=- len=";
  }

  lemma Rejoin(utc: string, kind: string, key: string, d: string, last: string, o: string)
    ensures utc + (kind + key) + d + last + o == utc + (kind + ((key + d) + (last + o)))
  {
  }

  lemma TxHeadSpelled(utc: string, outcome: string, len: nat)
    ensures TxHead(utc, outcome, len) == utc + (" " + ("TX" + Following(TxFields(outcome, len))))
  {
    hide Dec, Following, Word;
    var fs := TxFields(outcome, len);
    NoSignal(Dec(len));
    FollowingSnoc([fs[0], fs[1], fs[2]], fs[3]);
    assert [fs[0], fs[1], fs[2]] + [fs[3]] == fs;
    Labelled("outcome", outcome);
    assert " " + "outcome" + "=" == " outcome=";
    assert " TX" + " rssi=- snr=- len=" == " TX rssi=- snr=- len=";
    Rejoin(utc, " TX", " rssi=- snr=- len=", Dec(len), " outcome=", outcome);
    assert " " + ("TX" + Following(fs)) == " TX" + Following(fs);
  }

  lemma RxSimple(rssi: int, snr: int, len: nat)
    ensures AllSimple(RxFields(rssi, snr, len))
  {
    CentiSolid(rssi);
    CentiSolid(snr);
    DecSolid(len);
    hide Centi, Dec;
  }

  // The RX line gives the RSSI under rssi, the SNR under snr and the length under len.
  lemma RxHeadReads(utc: string, rssi: int, snr: int, len: nat)
    ensures var head := RxHead(utc, rssi, snr, len);
            |utc| <= |head| && var w := HeadWords(head, utc);
            && |w| == 5 && w[1] == "RX"
            && Only(w, "rssi").Some? && CentiValue(Only(w, "rssi").value) == Some(rssi)
            && Only(w, "snr").Some? && CentiValue(Only(w, "snr").value) == Some(snr)
            && Only(w, "len").Some? && DecValue(Only(w, "len").value) == Some(len)
  {
    hide Centi, Dec, CentiValue, DecValue, Following, Only, RxHead, HeadWords;
    var fs := RxFields(rssi, snr, len);
    RxHeadSpelled(utc, rssi, snr, len);
    RxSimple(rssi, snr, len);
    NamesApart();
    HeadFields(utc, "RX", fs, 0);
    HeadFields(utc, "RX", fs, 1);
    HeadFields(utc, "RX", fs, 2);
    CentiRoundTrip(rssi);
    CentiRoundTrip(snr);
    DecRoundTrip(len);
    SpellLen(fs);
  }

  lemma NamesApart()
    ensures "rssi" != "snr" && "rssi" != "len" && "snr" != "len"
    ensures "outcome" != "rssi" && "outcome" != "snr" && "outcome" != "len"
  {
    assert "snr"[0] != "len"[0];
  }

  lemma {:induction false} SpellLen(fs: seq<Field>)
    ensures |Spell(fs)| == |fs|
    decreases |fs|
  {
    if fs != [] { SpellLen(fs[1..]); }
  }

  // The TX line gives the outcome and the length, and no signal.
  lemma TxHeadReads(utc: string, ok: bool, len: nat)
    ensures var outcome := if ok then "ok" else "unconfirmed";
            var head := TxHead(utc, outcome, len);
            |utc| <= |head| && var w := HeadWords(head, utc);
            && |w| == 6 && w[1] == "TX" && Only(w, "rssi") == Some("-") && Only(w, "snr") == Some("-")
            && Only(w, "outcome") == Some(outcome)
            && Only(w, "len").Some? && DecValue(Only(w, "len").value) == Some(len)
  {
    hide Dec, DecValue, Following, Only, TxHead, HeadWords;
    var outcome := if ok then "ok" else "unconfirmed";
    var fs := TxFields(outcome, len);
    TxHeadSpelled(utc, outcome, len);
    TxSimple(ok, len);
    NamesApart();
    HeadFields(utc, "TX", fs, 0);
    HeadFields(utc, "TX", fs, 1);
    HeadFields(utc, "TX", fs, 2);
    HeadFields(utc, "TX", fs, 3);
    DecRoundTrip(len);
    SpellLen(fs);
  }

  lemma TxSimple(ok: bool, len: nat)
    ensures AllSimple(TxFields(if ok then "ok" else "unconfirmed", len))
  {
    DecSolid(len);
    hide Dec;
  }

  // The ascii field shows every printable byte but the quote and the backslash, and a dot
  // for any other.
  lemma AsciiReads(rf: seq<byte>, i: nat)
    requires i < |rf|
    ensures |Ascii(rf)| == |rf|
    ensures Ascii(rf)[i] == '.' || Ascii(rf)[i] as int == rf[i]
    ensures Ascii(rf)[i] as int == rf[i] <==> 32 <= rf[i] <= 126 && rf[i] != 34 && rf[i] != 92
  {
  }
}
