// The daemon's CONF socket: newline-terminated text lines, read in chunks and
// reassembled under a 1024-byte bound.
module ConfText {
  import opened Bytes

  const READ_CHUNK: nat := 512
  const MAX_CONF_LINE: nat := 1024

  // --- one line --------------------------------------------------------------

  predicate StartsWith(s: string, p: string) {
    |p| <= |s| && s[..|p|] == p
  }

  predicate IsBroadcast(line: string) {
    StartsWith(line, "TX=") || StartsWith(line, "CAD=") || StartsWith(line, "RSSI=")
  }

  predicate IsBlank(c: char) {
    c == '\r' || c == ' ' || c == '\t'
  }

  function TrimRight(line: string): string {
    if line != "" && IsBlank(line[|line| - 1]) then TrimRight(line[..|line| - 1]) else line
  }

  // Position of the first `key` at or after `from`, or |line| when there is none.
  function FindFrom(line: string, key: string, from: nat): (pos: nat)
    requires from <= |line|
    ensures from <= pos <= |line|
    ensures pos < |line| ==> StartsWith(line[pos..], key)
    ensures forall i :: from <= i < pos ==> !StartsWith(line[i..], key)
    decreases |line| - from
  {
    if StartsWith(line[from..], key) then from
    else if from == |line| then |line|
    else FindFrom(line, key, from + 1)
  }

  predicate IsSeparator(c: char) {
    IsBlank(c) || c == '\n'
  }

  // Length of the leading run without a separator.
  function TokenLen(s: string): (n: nat)
    ensures n <= |s|
    ensures n < |s| ==> IsSeparator(s[n])
    ensures forall i :: 0 <= i < n ==> !IsSeparator(s[i])
  {
    if s == "" || IsSeparator(s[0]) then 0 else 1 + TokenLen(s[1..])
  }

  // status_line_radio_ready(): the value after the first "RADIO=" is READY.
  predicate RadioReady(line: string) {
    var pos := FindFrom(line, "RADIO=", 0);
    StartsWith(line[pos..], "RADIO=") &&
    var value := line[pos..][6..];
    value[..TokenLen(value)] == "READY"
  }

  // At `pos` stands RADIO=READY as a whole field.
  predicate SaysReady(line: string, pos: nat) {
    && pos + 11 <= |line| && line[pos..pos + 11] == "RADIO=READY"
    && (pos + 11 == |line| || IsSeparator(line[pos + 11]))
  }

  // Ready means: the first RADIO= field of the line is exactly RADIO=READY.
  lemma ReadyMeans(line: string)
    ensures RadioReady(line) <==>
            exists pos: nat :: SaysReady(line, pos) && forall i :: 0 <= i < pos ==> !StartsWith(line[i..], "RADIO=")
  {
    var p := FindFrom(line, "RADIO=", 0);
    if RadioReady(line) {
      ReadyAt(line, p);
      assert SaysReady(line, p);
    }
    if pos: nat :| SaysReady(line, pos) && forall i :: 0 <= i < pos ==> !StartsWith(line[i..], "RADIO=") {
      KeyOfReady(line, pos);
      assert p == pos;
      ReadyAt(line, pos);
    }
  }

  // The first occurrence counts wherever it stands: a field whose name merely ends
  // in RADIO is taken for it.
  lemma SuffixTaken()
    ensures RadioReady("STATUS X" + "RADIO=READY" + " RADIO=BUSY")
  {
    var line := "STATUS X" + "RADIO=READY" + " RADIO=BUSY";
    assert line[8..19] == "RADIO=READY" && line[19] == ' ';
    assert SaysReady(line, 8);
    forall i | 0 <= i < 8 ensures !StartsWith(line[i..], "RADIO=") {
      assert line[i] == "STATUS X"[i] != 'R';
      assert "RADIO="[0] == 'R';
    }
    ReadyMeans(line);
  }

  // --- the field named RADIO -------------------------------------------------

  // A field starts at the beginning of the line or after a separator.
  predicate StartsField(line: string, pos: nat) {
    pos <= |line| && (pos == 0 || IsSeparator(line[pos - 1]))
  }

  predicate HasKey(line: string, pos: nat) {
    pos <= |line| && StartsWith(line[pos..], "RADIO=")
  }

  // The field named RADIO: its first occurrence as a field, if there is one, says READY.
  ghost predicate FieldReady(line: string) {
    exists pos: nat ::
      && StartsField(line, pos) && SaysReady(line, pos)
      && forall i: nat :: i < pos ==> !(HasKey(line, i) && StartsField(line, i))
  }

  // What the code looks at.
  function FirstKey(line: string): (pos: nat)
    ensures pos <= |line|
  {
    FindFrom(line, "RADIO=", 0)
  }

  lemma KeyOfReady(line: string, pos: nat)
    requires SaysReady(line, pos)
    ensures HasKey(line, pos)
  {
    assert line[pos..][..6] == line[pos..pos + 11][..6] == "RADIO=";
  }

  // When the first RADIO= of the line starts a field, or there is none, the code reads
  // the field named RADIO.
  lemma FieldRead(line: string)
    requires FirstKey(line) == |line| || StartsField(line, FirstKey(line))
    ensures RadioReady(line) <==> FieldReady(line)
  {
    ReadyMeans(line);
    var p := FirstKey(line);
    if RadioReady(line) {
      var pos: nat :| SaysReady(line, pos) && forall i :: 0 <= i < pos ==> !StartsWith(line[i..], "RADIO=");
      KeyOfReady(line, pos);
      assert pos == p;
      assert forall i: nat :: i < pos ==> !HasKey(line, i);
    }
    if FieldReady(line) {
      var pos: nat :| StartsField(line, pos) && SaysReady(line, pos) &&
                      forall i: nat :: i < pos ==> !(HasKey(line, i) && StartsField(line, i));
      KeyOfReady(line, pos);
      assert p <= pos && HasKey(line, p);
    }
  }

  // The line up to and including its first RADIO=.
  function Head(line: string): string
    requires HasKey(line, FirstKey(line))
  {
    line[..FirstKey(line) + 6]
  }

  // Whatever follows, the first RADIO= stays where it is.
  lemma HeadKey(line: string, more: string)
    requires HasKey(line, FirstKey(line))
    ensures FirstKey(Head(line) + more) == FirstKey(line) && HasKey(Head(line) + more, FirstKey(line))
    ensures StartsField(Head(line) + more, FirstKey(line)) <==> StartsField(line, FirstKey(line))
  {
    var p, s := FirstKey(line), Head(line) + more;
    assert line[p..][..6] == line[p..p + 6] == s[p..][..6];
    assert HasKey(s, p);
    forall i: nat | i < p ensures !HasKey(s, i) {
      assert s[i..i + 6] == line[i..i + 6];
      KeyLocal(s, line, i);
    }
    assert forall i :: 0 <= i < p ==> !StartsWith(s[i..], "RADIO=") by {
      forall i | 0 <= i < p ensures !StartsWith(s[i..], "RADIO=") {
        assert !HasKey(s, i);
      }
    }
  }

  lemma KeyLocal(s: string, t: string, i: nat)
    requires i + 6 <= |s| && i + 6 <= |t| && s[i..i + 6] == t[i..i + 6]
    ensures HasKey(s, i) <==> HasKey(t, i)
  {
    assert s[i..][..6] == s[i..i + 6] && t[i..][..6] == t[i..i + 6];
  }

  // When the first RADIO= starts no field, the line can go on so that the code says
  // ready although no field is named RADIO.
  lemma FieldMisread(line: string)
    requires HasKey(line, FirstKey(line)) && !StartsField(line, FirstKey(line))
    ensures RadioReady(Head(line) + "READY") && !FieldReady(Head(line) + "READY")
  {
    var p, s := FirstKey(line), Head(line) + "READY";
    HeadKey(line, "READY");
    assert Head(line)[p..] == line[p..][..6] == "RADIO=";
    assert s[p..p + 11] == "RADIO=READY" by {
      assert s[p..p + 11] == Head(line)[p..] + "READY";
    }
    assert SaysReady(s, p);
    assert forall i :: 0 <= i < p ==> !StartsWith(s[i..], "RADIO=");
    ReadyMeans(s);
    forall pos: nat ensures !(StartsField(s, pos) && SaysReady(s, pos)) {
      if SaysReady(s, pos) {
        KeyOfReady(s, pos);
      }
    }
  }

  // So the code reads the field named RADIO, whatever follows the first RADIO= of a
  // line, if and only if that occurrence starts a field.
  lemma FieldReadIff(line: string)
    requires HasKey(line, FirstKey(line))
    ensures StartsField(line, FirstKey(line)) <==>
            forall more :: RadioReady(Head(line) + more) == FieldReady(Head(line) + more)
  {
    if StartsField(line, FirstKey(line)) {
      forall more ensures RadioReady(Head(line) + more) == FieldReady(Head(line) + more) {
        HeadKey(line, more);
        FieldRead(Head(line) + more);
      }
    } else {
      FieldMisread(line);
    }
  }

  lemma ReadyAt(line: string, pos: nat)
    requires pos <= |line| && StartsWith(line[pos..], "RADIO=")
    ensures var value := line[pos..][6..];
            value[..TokenLen(value)] == "READY" <==> SaysReady(line, pos)
  {
    var value := line[pos..][6..];
    if SaysReady(line, pos) {
      assert forall i :: 0 <= i < 5 ==> value[i] == line[pos..pos + 11][6 + i] == "READY"[i];
    }
    if value[..TokenLen(value)] == "READY" {
      assert line[pos..pos + 11] == line[pos..][..6] + value[..5];
    }
  }

  datatype LineKind = Skip | Fatal | Status(ready: bool)

  function Classify(line: string, awaiting: bool): LineKind {
    if line == "" || IsBroadcast(line) then Skip
    else if awaiting && line == "OK" then Skip
    else if awaiting && StartsWith(line, "ERR") then Fatal
    else if awaiting && StartsWith(line, "STATUS") then Status(RadioReady(line))
    else Fatal
  }

  // --- a whole stream --------------------------------------------------------

  datatype Verdict = Pending(rest: string) | Failed(rest: string) | GotStatus(ready: bool, rest: string)

  // Index of the first newline, or |s|.
  function FindNl(s: string): (n: nat)
    ensures n <= |s|
    ensures n < |s| ==> s[n] == '\n'
    ensures forall i :: 0 <= i < n ==> s[i] != '\n'
  {
    if s == "" || s[0] == '\n' then 0 else 1 + FindNl(s[1..])
  }

  // The verdict on a text stream, reading it line by line.
  function Scan(s: string, awaiting: bool): Verdict
    decreases |s|
  {
    var nl := FindNl(s);
    if nl == |s| then Pending(s)
    else
      match Classify(TrimRight(s[..nl]), awaiting)
      case Skip => Scan(s[nl + 1..], awaiting)
      case Fatal => Failed(s[nl + 1..])
      case Status(ready) => GotStatus(ready, s[nl + 1..])
  }

  function Lines(lines: seq<string>): string {
    if lines == [] then "" else lines[0] + "\n" + Lines(lines[1..])
  }

  // Complete lines that are all skipped.
  predicate AllSkipped(lines: seq<string>, awaiting: bool) {
    forall i :: 0 <= i < |lines| ==> '\n' !in lines[i] && Classify(TrimRight(lines[i]), awaiting).Skip?
  }

  // The text is skipped lines, then a STATUS line with this verdict, then `rest`.
  predicate Announces(s: string, lines: seq<string>, line: string, ready: bool, rest: string) {
    && AllSkipped(lines, true) && '\n' !in line
    && Classify(TrimRight(line), true) == Status(ready)
    && s == Lines(lines) + (line + "\n" + rest)
  }

  lemma FindNlLine(line: string, rest: string)
    requires '\n' !in line
    ensures FindNl(line + "\n" + rest) == |line|
  {
    var s := line + "\n" + rest;
    assert s[|line|] == '\n';
    assert forall i :: 0 <= i < |line| ==> s[i] == line[i];
  }

  // The scanner reports a STATUS exactly for such texts: both directions.
  lemma {:induction false} ScanAnnounced(s: string, lines: seq<string>, line: string, ready: bool, rest: string)
    requires Announces(s, lines, line, ready, rest)
    ensures Scan(s, true) == GotStatus(ready, rest)
    decreases |lines|
  {
    hide TrimRight, Classify;
    if lines == [] {
      FindNlLine(line, rest);
      assert s == line + "\n" + rest;
      assert s[..|line|] == line && s[|line| + 1..] == rest;
    } else {
      var tail := Lines(lines[1..]) + (line + "\n" + rest);
      FindNlLine(lines[0], tail);
      assert s == lines[0] + "\n" + tail;
      assert s[..|lines[0]|] == lines[0] && s[|lines[0]| + 1..] == tail;
      ScanAnnounced(tail, lines[1..], line, ready, rest);
    }
  }

  const READY_LINE: string := "STATUS " + "RADIO=READY"

  lemma ReadyFound()
    ensures RadioReady(READY_LINE)
  {
    var line := READY_LINE;
    assert line[7..18] == "RADIO=READY";
    assert SaysReady(line, 7);
    forall i | 0 <= i < 7 ensures !StartsWith(line[i..], "RADIO=") {
      assert line[i] == "STATUS "[i] != 'R';
      assert "RADIO="[0] == 'R';
    }
    ReadyMeans(line);
  }

  lemma ReadyRead()
    ensures Classify(TrimRight(READY_LINE), true) == Status(true)
  {
    hide RadioReady;
    ReadyFound();
    assert READY_LINE[17] == 'Y' && TrimRight(READY_LINE) == READY_LINE;
    assert READY_LINE[0] == 'S' && READY_LINE[..6] == "STATUS";
  }

  lemma ReadyOneLine()
    ensures '\n' !in READY_LINE
  {
    assert '\n' !in "STATUS " && '\n' !in "RADIO=READY";
  }

  // The shortest text that reports the radio ready.
  lemma ReadyScans()
    ensures Scan(READY_LINE + "\n", true) == GotStatus(true, "")
  {
    hide TrimRight, Classify, Scan;
    ReadyRead();
    ReadyOneLine();
    assert READY_LINE + "\n" == Lines([]) + (READY_LINE + "\n" + "");
    ScanAnnounced(READY_LINE + "\n", [], READY_LINE, true, "");
  }

  lemma ConsLines(line: string, lines: seq<string>, tail: string)
    ensures Lines([line] + lines) + tail == line + "\n" + (Lines(lines) + tail)
  {
    assert ([line] + lines)[1..] == lines;
  }

  lemma SkippedMore(line: string, lines: seq<string>)
    requires AllSkipped(lines, true) && '\n' !in line && Classify(TrimRight(line), true).Skip?
    ensures AllSkipped([line] + lines, true)
  {
    hide TrimRight, Classify;
  }

  lemma {:induction false} ScanFinds(s: string) returns (lines: seq<string>, line: string)
    requires Scan(s, true).GotStatus?
    ensures Announces(s, lines, line, Scan(s, true).ready, Scan(s, true).rest)
    decreases |s|
  {
    hide TrimRight, Classify, AllSkipped, Lines;
    var nl := FindNl(s);
    var first, tail := s[..nl], s[nl + 1..];
    assert s == first + "\n" + tail;
    if Classify(TrimRight(first), true).Skip? {
      var more, l := ScanFinds(tail);
      ConsLines(first, more, l + "\n" + Scan(s, true).rest);
      SkippedMore(first, more);
      lines, line := [first] + more, l;
    } else {
      NoLines(first + "\n" + tail);
      lines, line := [], first;
    }
  }

  lemma NoLines(tail: string)
    ensures AllSkipped([], true) && Lines([]) + tail == tail
  {
  }

  lemma {:induction false} FindNlAppend(a: string, b: string)
    requires FindNl(a) < |a|
    ensures FindNl(a + b) == FindNl(a)
  {
    assert (a + b)[FindNl(a)] == '\n';
    assert forall i :: 0 <= i < FindNl(a) ==> (a + b)[i] == a[i];
  }

  // More input extends the verdict and never changes it.
  lemma {:induction false} ScanAppend(a: string, b: string, awaiting: bool)
    ensures Scan(a + b, awaiting) ==
            match Scan(a, awaiting)
            case Pending(rest) => Scan(rest + b, awaiting)
            case Failed(rest) => Failed(rest + b)
            case GotStatus(ready, rest) => GotStatus(ready, rest + b)
    decreases |a|
  {
    var nl := FindNl(a);
    if nl < |a| {
      FindNlAppend(a, b);
      assert (a + b)[..nl] == a[..nl];
      assert (a + b)[nl + 1..] == a[nl + 1..] + b;
      ScanAppend(a[nl + 1..], b, awaiting);
    }
  }

  lemma {:induction false} PendingRest(s: string, awaiting: bool)
    requires Scan(s, awaiting).Pending?
    ensures var r := Scan(s, awaiting).rest;
            |r| <= |s| && r == s[|s| - |r|..] && FindNl(r) == |r|
    decreases |s|
  {
    hide Classify, TrimRight;
    var nl := FindNl(s);
    if nl < |s| {
      PendingRest(s[nl + 1..], awaiting);
    }
  }

  // --- chunked reassembly under the bound ------------------------------------

  datatype Reassembly = Overrun | Read(verdict: Verdict)

  // One receive: append to the partial line, check the bound, take whole lines.
  function FeedChunk(line: string, chunk: string, awaiting: bool): Reassembly {
    if |line| + |chunk| > MAX_CONF_LINE then Overrun else Read(Scan(line + chunk, awaiting))
  }

  function FeedChunks(line: string, chunks: seq<string>, awaiting: bool): Reassembly
    decreases |chunks|
  {
    if chunks == [] then Read(Pending(line))
    else
      var r := FeedChunk(line, chunks[0], awaiting);
      if r.Read? && r.verdict.Pending? then FeedChunks(r.verdict.rest, chunks[1..], awaiting) else r
  }

  function Joined(chunks: seq<string>): string {
    if chunks == [] then "" else chunks[0] + Joined(chunks[1..])
  }

  predicate ReadSizes(chunks: seq<string>) {
    forall i :: 0 <= i < |chunks| ==> 1 <= |chunks[i]| <= READ_CHUNK
  }

  // The room left at cut point j: the partial line there plus the largest next read.
  predicate FitsAt(s: string, awaiting: bool, j: nat)
    requires j <= |s|
  {
    Scan(s[..j], awaiting).Pending? ==>
      |Scan(s[..j], awaiting).rest| + Min(READ_CHUNK, |s| - j) <= MAX_CONF_LINE
  }

  ghost predicate Fits(s: string, awaiting: bool) {
    forall j: nat :: j <= |s| ==> FitsAt(s, awaiting, j)
  }

  predicate SameVerdict(v: Verdict, w: Verdict) {
    match v
    case Pending(rest) => w == Pending(rest)
    case Failed(_) => w.Failed?
    case GotStatus(ready, _) => w.GotStatus? && w.ready == ready
  }

  // Reading one chunk after the text `a` has been read.
  lemma FeedStep(a: string, chunk: string, more: seq<string>, awaiting: bool)
    requires Scan(a, awaiting).Pending? && |Scan(a, awaiting).rest| + |chunk| <= MAX_CONF_LINE
    ensures FeedChunks(Scan(a, awaiting).rest, [chunk] + more, awaiting) ==
            if Scan(a + chunk, awaiting).Pending?
            then FeedChunks(Scan(a + chunk, awaiting).rest, more, awaiting)
            else Read(Scan(a + chunk, awaiting))
  {
    ScanAppend(a, chunk, awaiting);
    assert ([chunk] + more)[1..] == more;
  }

  lemma {:induction false} ChunksFrom(s: string, j: nat, chunks: seq<string>, awaiting: bool)
    requires j <= |s| && Scan(s[..j], awaiting).Pending?
    requires s[j..] == Joined(chunks) && ReadSizes(chunks)
    requires Fits(s, awaiting)
    ensures var r := FeedChunks(Scan(s[..j], awaiting).rest, chunks, awaiting);
            r.Read? && SameVerdict(r.verdict, Scan(s, awaiting))
    decreases |chunks|
  {
    if chunks == [] {
      assert s[..j] == s;
    } else {
      var k := j + |chunks[0]|;
      assert s[..k] == s[..j] + chunks[0] && s[k..] == Joined(chunks[1..]);
      assert FitsAt(s, awaiting, j);
      assert chunks == [chunks[0]] + chunks[1..];
      FeedStep(s[..j], chunks[0], chunks[1..], awaiting);
      if Scan(s[..k], awaiting).Pending? {
        ChunksFrom(s, k, chunks[1..], awaiting);
      } else {
        assert s == s[..k] + s[k..];
        ScanAppend(s[..k], s[k..], awaiting);
      }
    }
  }

  // On a stream that fits, every chunking reaches the whole stream's verdict.
  lemma ChunkingIrrelevant(s: string, chunks: seq<string>, awaiting: bool)
    requires s == Joined(chunks) && ReadSizes(chunks) && Fits(s, awaiting)
    ensures var r := FeedChunks("", chunks, awaiting);
            r.Read? && SameVerdict(r.verdict, Scan(s, awaiting))
  {
    assert s[..0] == "" && s[0..] == s;
    ChunksFrom(s, 0, chunks, awaiting);
  }

  function Singles(s: string): seq<string> {
    if s == "" then [] else [[s[0]]] + Singles(s[1..])
  }

  lemma {:induction false} JoinedAppend(a: seq<string>, b: seq<string>)
    ensures Joined(a + b) == Joined(a) + Joined(b)
  {
    if a == [] {
      assert a + b == b;
    } else {
      assert (a + b)[1..] == a[1..] + b;
      JoinedAppend(a[1..], b);
    }
  }

  lemma {:induction false} SinglesJoin(s: string)
    ensures Joined(Singles(s)) == s && ReadSizes(Singles(s))
  {
    if s != "" {
      SinglesJoin(s[1..]);
      assert Singles(s)[1..] == Singles(s[1..]);
    }
  }

  lemma {:induction false} SinglesSnoc(a: string, c: char, more: seq<string>)
    ensures Singles(a + [c]) + more == Singles(a) + ([[c]] + more)
  {
    if a == "" {
      assert a + [c] == [c];
      assert Singles([c]) == [[c]];
    } else {
      assert (a + [c])[1..] == a[1..] + [c];
      SinglesSnoc(a[1..], c, more);
      assert Singles(a + [c]) + more == [[a[0]]] + (Singles(a[1..] + [c]) + more);
      assert Singles(a) + ([[c]] + more) == [[a[0]]] + (Singles(a[1..]) + ([[c]] + more));
    }
  }

  lemma PendingPrefix(s: string, i: nat, j: nat, awaiting: bool)
    requires i <= j <= |s| && Scan(s[..j], awaiting).Pending?
    ensures Scan(s[..i], awaiting).Pending?
  {
    assert s[..j] == s[..i] + s[i..j];
    ScanAppend(s[..i], s[i..j], awaiting);
  }

  // Read byte by byte up to cut j, the machine holds the partial line of s[..j].
  lemma {:induction false} SinglesReach(s: string, j: nat, more: seq<string>, awaiting: bool)
    requires j <= |s| && Scan(s[..j], awaiting).Pending?
    requires forall m: nat :: m < j ==> FitsAt(s, awaiting, m)
    ensures FeedChunks("", Singles(s[..j]) + more, awaiting)
         == FeedChunks(Scan(s[..j], awaiting).rest, more, awaiting)
    decreases j
  {
    if j == 0 {
      assert Singles(s[..j]) + more == more;
    } else {
      var i: nat := j - 1;
      PendingPrefix(s, i, j, awaiting);
      SinglesSnoc(s[..i], s[i], more);
      assert s[..j] == s[..i] + [s[i]];
      SinglesReach(s, i, [[s[i]]] + more, awaiting);
      assert FitsAt(s, awaiting, i);
      FeedStep(s[..i], [s[i]], more, awaiting);
    }
  }

  lemma {:induction false} LeastMisfit(s: string, awaiting: bool, j: nat) returns (m: nat)
    requires j <= |s| && !FitsAt(s, awaiting, j)
    ensures m <= j && !FitsAt(s, awaiting, m) && forall i: nat :: i < m ==> FitsAt(s, awaiting, i)
    decreases j
  {
    if i: nat :| i < j && !FitsAt(s, awaiting, i) {
      m := LeastMisfit(s, awaiting, i);
    } else {
      m := j;
    }
  }

  // A stream cannot first stop fitting at its very end.
  lemma LeastIsInside(s: string, awaiting: bool, m: nat)
    requires m <= |s| && !FitsAt(s, awaiting, m) && forall i: nat :: i < m ==> FitsAt(s, awaiting, i)
    ensures m < |s|
  {
    hide Scan;
    if m == |s| {
      PendingRest(s[..m], awaiting);
      var i: nat := m - 1;
      PendingPrefix(s, i, m, awaiting);
      assert s[..m] == s[..i] + [s[i]];
      ScanAppend(s[..i], [s[i]], awaiting);
      assert FitsAt(s, awaiting, i);
      PendingRest(Scan(s[..i], awaiting).rest + [s[i]], awaiting);
    }
  }

  // Single bytes up to cut m, then one read of n, then single bytes.
  function Split(s: string, m: nat, n: nat): seq<string>
    requires m + n <= |s|
  {
    Singles(s[..m]) + ([s[m..m + n]] + Singles(s[m + n..]))
  }

  lemma SplitJoins(s: string, m: nat, n: nat)
    requires m + n <= |s| && 1 <= n <= READ_CHUNK
    ensures s == Joined(Split(s, m, n)) && ReadSizes(Split(s, m, n))
  {
    hide Singles, Joined, ReadSizes;
    var first, mid, last := Singles(s[..m]), s[m..m + n], Singles(s[m + n..]);
    SinglesJoin(s[..m]);
    SinglesJoin(s[m + n..]);
    ConsJoin(mid, last);
    JoinedAppend(first, [mid] + last);
    SizesAppend(first, [mid] + last);
    assert s == s[..m] + (mid + s[m + n..]);
  }

  lemma ConsJoin(c: string, chunks: seq<string>)
    ensures Joined([c] + chunks) == c + Joined(chunks)
    ensures ReadSizes(chunks) && 1 <= |c| <= READ_CHUNK ==> ReadSizes([c] + chunks)
  {
    assert ([c] + chunks)[1..] == chunks;
  }

  lemma SizesAppend(a: seq<string>, b: seq<string>)
    requires ReadSizes(a) && ReadSizes(b)
    ensures ReadSizes(a + b)
  {
  }

  // A stream that does not fit can be split so that the bound fires.
  lemma MisfitOverruns(s: string, awaiting: bool, j: nat) returns (chunks: seq<string>)
    requires j <= |s| && !FitsAt(s, awaiting, j)
    ensures s == Joined(chunks) && ReadSizes(chunks)
    ensures FeedChunks("", chunks, awaiting) == Overrun
  {
    hide Scan;
    var m := LeastMisfit(s, awaiting, j);
    LeastIsInside(s, awaiting, m);
    var n := Min(READ_CHUNK, |s| - m);
    SplitJoins(s, m, n);
    chunks := Split(s, m, n);
    SinglesReach(s, m, [s[m..m + n]] + Singles(s[m + n..]), awaiting);
  }

  // --- one text, two splits --------------------------------------------------

  function Blanks(n: nat): string {
    seq(n, _ => ' ')
  }

  // A blank line of 612 characters, and the beginning of the next.
  function TwoLines(): string {
    Blanks(612) + "\n" + Blanks(511)
  }

  lemma {:induction false} BlankTrims(n: nat)
    ensures TrimRight(Blanks(n)) == ""
  {
    if n > 0 {
      assert Blanks(n)[..n - 1] == Blanks(n - 1);
      BlankTrims(n - 1);
    }
  }

  lemma BlankPending(n: nat, awaiting: bool)
    ensures Scan(Blanks(n), awaiting) == Pending(Blanks(n))
  {
    hide Classify, TrimRight;
    assert FindNl(Blanks(n)) == n;
  }

  lemma BlankLine(n: nat, more: nat, awaiting: bool)
    ensures Scan(Blanks(n) + "\n" + Blanks(more), awaiting) == Pending(Blanks(more))
  {
    var s := Blanks(n) + "\n" + Blanks(more);
    FindNlLine(Blanks(n), Blanks(more));
    BlankTrims(n);
    BlankPending(more, awaiting);
    hide TrimRight;
    assert s[..n] == Blanks(n) && s[n + 1..] == Blanks(more);
  }

  // Whether the bound fires depends on the reads: cut after 512 and 1024 characters
  // this text is read, cut after 512 and 612 it is refused.
  lemma SplitDecides(awaiting: bool)
    ensures var s := TwoLines();
            var good, bad := [s[..512], s[512..1024], s[1024..]], [s[..512], s[512..612], s[612..]];
            && s == Joined(good) && ReadSizes(good) && FeedChunks("", good, awaiting).Read?
            && s == Joined(bad) && ReadSizes(bad) && FeedChunks("", bad, awaiting) == Overrun
  {
    var s := TwoLines();
    JoinThree(s, 512, 1024);
    JoinThree(s, 512, 612);
    hide Scan, Joined;
    assert "" + s[..512] == Blanks(512);
    BlankPending(512, awaiting);
    assert Blanks(512) + s[512..1024] == Blanks(612) + "\n" + Blanks(411);
    BlankLine(612, 411, awaiting);
    assert Blanks(411) + s[1024..] == Blanks(511);
    BlankPending(511, awaiting);
    assert Blanks(512) + s[512..612] == Blanks(612);
    BlankPending(612, awaiting);
    ThreeReads(s[..512], s[512..1024], s[1024..], awaiting);
    ThreeReads(s[..512], s[512..612], s[612..], awaiting);
  }

  lemma JoinThree(s: string, a: nat, b: nat)
    requires a <= b <= |s|
    ensures s == Joined([s[..a], s[a..b], s[b..]])
  {
    hide Joined;
    var x, y, z := s[..a], s[a..b], s[b..];
    ConsJoin(z, []);
    ConsJoin(y, [z]);
    ConsJoin(x, [y, z]);
    NoChunks();
    assert [z] + [] == [z] && [y] + [z] == [y, z] && [x] + [y, z] == [x, y, z];
    assert z + "" == z && y + z == s[a..];
  }

  lemma NoChunks()
    ensures Joined([]) == ""
  {
  }

  lemma FeedCons(line: string, c: string, chunks: seq<string>, awaiting: bool)
    ensures FeedChunks(line, [c] + chunks, awaiting) ==
            var r := FeedChunk(line, c, awaiting);
            if r.Read? && r.verdict.Pending? then FeedChunks(r.verdict.rest, chunks, awaiting) else r
    ensures FeedChunks(line, [], awaiting) == Read(Pending(line))
  {
    hide Scan;
    assert ([c] + chunks)[1..] == chunks;
  }

  // Reading goes on where it stopped.
  lemma {:induction false} FeedAppend(line: string, a: seq<string>, b: seq<string>, awaiting: bool)
    ensures FeedChunks(line, [], awaiting) == Read(Pending(line))
    ensures FeedChunks(line, a + b, awaiting) ==
            var r := FeedChunks(line, a, awaiting);
            if r.Read? && r.verdict.Pending? then FeedChunks(r.verdict.rest, b, awaiting) else r
    decreases |a|
  {
    hide FeedChunk;
    if a == [] {
      assert a + b == b;
    } else {
      assert (a + b)[1..] == a[1..] + b;
      var r := FeedChunk(line, a[0], awaiting);
      if r.Read? { FeedAppend(r.verdict.rest, a[1..], b, awaiting); }
    }
  }

  lemma ThreeReads(a: string, b: string, c: string, awaiting: bool)
    ensures FeedChunks("", [a, b, c], awaiting) ==
            var r := FeedChunk("", a, awaiting);
            if !r.Read? || !r.verdict.Pending? then r
            else
              var t := FeedChunk(r.verdict.rest, b, awaiting);
              if !t.Read? || !t.verdict.Pending? then t else FeedChunk(t.verdict.rest, c, awaiting)
  {
    hide FeedChunks, FeedChunk;
    assert [a] + [b, c] == [a, b, c] && [b] + [c] == [b, c] && [c] + [] == [c];
    FeedCons("", a, [b, c], awaiting);
    var r := FeedChunk("", a, awaiting);
    if r.Read? && r.verdict.Pending? {
      FeedCons(r.verdict.rest, b, [c], awaiting);
      var t := FeedChunk(r.verdict.rest, b, awaiting);
      if t.Read? && t.verdict.Pending? {
        FeedCons(t.verdict.rest, c, [], awaiting);
        var u := FeedChunk(t.verdict.rest, c, awaiting);
        if u.Read? && u.verdict.Pending? {
          FeedCons(u.verdict.rest, c, [], awaiting);
        }
      }
    }
  }

  // It can fire on every line longer than the bound.
  lemma LongLineMisfits(s: string, awaiting: bool)
    requires '\n' !in s && |s| > MAX_CONF_LINE
    ensures !Fits(s, awaiting)
  {
    var j: nat := |s| - 1;
    assert FindNl(s[..j]) == j;
    assert !FitsAt(s, awaiting, j);
  }

  // The bound can fire on a stream if and only if it does not fit.
  lemma BoundFiresIff(s: string, awaiting: bool)
    ensures Fits(s, awaiting) <==>
            forall chunks :: s == Joined(chunks) && ReadSizes(chunks) ==>
              FeedChunks("", chunks, awaiting).Read?
  {
    if Fits(s, awaiting) {
      forall chunks | s == Joined(chunks) && ReadSizes(chunks)
        ensures FeedChunks("", chunks, awaiting).Read?
      {
        ChunkingIrrelevant(s, chunks, awaiting);
      }
    } else {
      var j: nat :| j <= |s| && !FitsAt(s, awaiting, j);
      var chunks := MisfitOverruns(s, awaiting, j);
    }
  }

  // Every line, finished or not, has at most one read's worth of characters.
  ghost predicate ShortLines(s: string) {
    forall i: nat, j: nat :: i <= j <= |s| && '\n' !in s[i..j] ==> j - i <= READ_CHUNK
  }

  lemma ShortLinesFit(s: string, awaiting: bool)
    requires ShortLines(s)
    ensures Fits(s, awaiting)
  {
    forall j: nat | j <= |s| ensures FitsAt(s, awaiting, j) {
      if Scan(s[..j], awaiting).Pending? {
        PendingRest(s[..j], awaiting);
        var r := Scan(s[..j], awaiting).rest;
        assert r == s[j - |r|..j];
      }
    }
  }
}
