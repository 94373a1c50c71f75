/**
 * The logic of the prediction page: address and port validation, reading the
 * counts of a `stats.csv`, the running totals of an online prediction, path
 * shortening for display, the top attacking addresses and the PCAP picker.
 */
module PredictPage {
  import opened Wrappers
  import opened Text
  import Sorting
  import Classifier

  // ---------------------------------------------------------------------------
  // isValidIPv4 and isValidPort

  /** One to three digits whose value is at most 255; leading zeros are allowed. */
  predicate Octet(o: string) {
    1 <= |o| <= 3 && AllDigits(o) && DigitsValue(o) <= 255
  }

  /** `isValidIPv4`: a string of four dot-separated octets (`None` is any non-string). */
  predicate IsValidIPv4(ip: Option<string>) {
    ip.Some? && var parts := Split(ip.value, '.');
    |parts| == 4 && forall p :: p in parts ==> Octet(p)
  }

  /** Four dot-free pieces joined by dots make a valid address exactly when each is an octet. */
  lemma ValidIPv4Iff(o: seq<string>)
    requires |o| == 4
    requires forall p :: p in o ==> '.' !in p
    ensures IsValidIPv4(Some(Join(o, "."))) <==> forall p :: p in o ==> Octet(p)
  {
    SplitJoin(o, '.');
  }

  lemma {:induction false} NatToStringShort(n: nat)
    requires n < 1000
    ensures |NatToString(n)| <= 3
  {
    if n >= 10 {
      NatToStringShort(n / 10);
    }
  }

  lemma NoDotInDigits(s: string)
    requires AllDigits(s)
    ensures '.' !in s && ',' !in s && '\n' !in s
  {
    assert forall k :: 0 <= k < |s| ==> s[k] != '.' && s[k] != ',' && s[k] != '\n' by {
      forall k | 0 <= k < |s| ensures s[k] != '.' && s[k] != ',' && s[k] != '\n' {
        assert IsDigit(s[k]);
      }
    }
  }

  /** The dotted form of four byte values. */
  function FormatIPv4(a: nat, b: nat, c: nat, d: nat): string {
    Join([NatToString(a), NatToString(b), NatToString(c), NatToString(d)], ".")
  }

  /** The values of the octets of a valid address. */
  function Octets(ip: string): (r: seq<nat>)
    requires IsValidIPv4(Some(ip))
    ensures |r| == 4
  {
    var parts := Split(ip, '.');
    assert forall i :: 0 <= i < 4 ==> parts[i] in parts;
    seq(4, i requires 0 <= i < 4 => DigitsValue(parts[i]))
  }

  /** Every address written from four values up to 255 is valid and reads back as those values. */
  lemma FormatIPv4RoundTrip(a: nat, b: nat, c: nat, d: nat)
    requires a <= 255 && b <= 255 && c <= 255 && d <= 255
    ensures IsValidIPv4(Some(FormatIPv4(a, b, c, d)))
    ensures Octets(FormatIPv4(a, b, c, d)) == [a, b, c, d]
  {
    var o := [NatToString(a), NatToString(b), NatToString(c), NatToString(d)];
    NoDotInDigits(o[0]); NoDotInDigits(o[1]); NoDotInDigits(o[2]); NoDotInDigits(o[3]);
    NatToStringShort(a); NatToStringShort(b); NatToStringShort(c); NatToStringShort(d);
    NatToStringValue(a); NatToStringValue(b); NatToStringValue(c); NatToStringValue(d);
    SplitJoin(o, '.');
  }

  lemma DigitsValueOfThree(s: string)
    requires |s| == 3 && AllDigits(s)
    ensures DigitsValue(s) == DigitValue(s[0]) * 100 + DigitValue(s[1]) * 10 + DigitValue(s[2])
  {
    assert s[..2][..1] == s[..1];
    assert DigitsValue(s[..1]) == DigitValue(s[0]) by {
      assert s[..1][..0] == [];
    }
  }

  /** Leading zeros are accepted: the check on the octet's text compares a number's text with itself. */
  lemma LeadingZerosAccepted()
    ensures IsValidIPv4(Some("010.001.000.255"))
  {
    var o := ["010", "001", "000", "255"];
    assert Join(o, ".") == "010.001.000.255" by {
      assert o[1..] == ["001", "000", "255"] && o[2..] == ["000", "255"] && o[3..] == ["255"];
    }
    assert forall p :: p in o ==> Octet(p) by {
      PaddedOctets();
    }
    assert forall p :: p in o ==> '.' !in p;
    ValidIPv4Iff(o);
  }

  lemma PaddedOctets()
    ensures Octet("010") && Octet("001") && Octet("000") && Octet("255")
  {
    DigitsValueOfThree("010"); DigitsValueOfThree("001"); DigitsValueOfThree("000"); DigitsValueOfThree("255");
  }

  /** An octet above 255 is refused. */
  lemma OctetAbove255Refused()
    ensures !IsValidIPv4(Some("256.0.0.1"))
  {
    var o := ["256", "0", "0", "1"];
    assert Join(o, ".") == "256.0.0.1" by {
      assert o[1..] == ["0", "0", "1"] && o[2..] == ["0", "1"] && o[3..] == ["1"];
    }
    DigitsValueOfThree("256");
    assert !Octet(o[0]);
    assert forall p :: p in o ==> '.' !in p;
    ValidIPv4Iff(o);
  }

  /** A port after `Number(port)`: `null`/`undefined`, a number, or `NaN`. */
  datatype PortInput = NoPort | Number(value: real) | NaN

  /** `isValidPort`: a whole number from 1 to 65535. */
  predicate IsValidPort(p: PortInput) {
    p.Number? && 1.0 <= p.value && p.value <= 65535.0 && p.value == p.value.Floor as real
  }

  /** A whole number is a valid port exactly when it lies in 1..65535. */
  lemma WholePortValidIff(n: int)
    ensures IsValidPort(Number(n as real)) <==> 1 <= n <= 65535
  {
    assert (n as real).Floor == n;
  }

  /** A number with a fractional part, a missing port and `NaN` are never valid. */
  lemma OtherPortsRefused(p: PortInput)
    requires p.NoPort? || p.NaN? || (p.Number? && p.value != p.value.Floor as real)
    ensures !IsValidPort(p)
  {
  }

  // ---------------------------------------------------------------------------
  // handleTablePredictStats

  /** The lines that are not blank, in order. */
  function NonBlank(lines: seq<string>): (r: seq<string>)
    ensures |r| <= |lines|
    ensures forall i :: 0 <= i < |r| ==> !IsBlank(r[i])
    ensures forall l :: multiset(r)[l] == if IsBlank(l) then 0 else multiset(lines)[l]
  {
    if lines == [] then []
    else
      var rest := NonBlank(lines[1..]);
      assert lines == [lines[0]] + lines[1..];
      if !IsBlank(lines[0]) then [lines[0]] + rest else rest
  }

  lemma {:induction false} NonBlankKeepsAll(lines: seq<string>)
    requires forall i :: 0 <= i < |lines| ==> !IsBlank(lines[i])
    ensures NonBlank(lines) == lines
  {
    if lines != [] {
      NonBlankKeepsAll(lines[1..]);
    }
  }

  /** The last non-blank line of the trimmed text, the one holding the cumulative counts. */
  function LastStatsLine(text: string): (r: Option<string>)
    ensures r.Some? ==> !IsBlank(r.value)
  {
    var lines := NonBlank(Split(Trim(text), '\n'));
    if lines == [] then None else Some(lines[|lines| - 1])
  }

  function FieldAt(values: seq<string>, i: nat): Option<string> {
    if i < |values| then Some(values[i]) else None
  }

  /** `parseInt(v, 10) || 0`. */
  function CountAt(values: seq<string>, i: nat): int {
    ParseIntOrZero(FieldAt(values, i))
  }

  /** `v || '0'`. */
  function TextOrZero(v: Option<string>): string {
    if v.Some? && v.value != "" then v.value else "0"
  }

  datatype StatsView = StatsView(normalFlows: string, maliciousFlows: string, totalFlows: string)
  datatype StatsTable = StatsTable(rows: seq<StatsView>, normalFlows: int, maliciousFlows: int)
  const EmptyTable: StatsTable := StatsTable([], 0, 0)

  /** `handleTablePredictStats`: the one-row table and the counts of the last non-blank line. */
  function TablePredictStats(csv: Option<string>): (t: StatsTable)
    ensures csv.None? || csv == Some("") ==> t == EmptyTable
    ensures t.rows == [] <==> t == EmptyTable
    ensures |t.rows| <= 1
  {
    if csv.None? || csv.value == "" then EmptyTable
    else
      match LastStatsLine(csv.value)
      case None => EmptyTable
      case Some(line) =>
        var values := Split(line, ',');
        StatsTable([StatsView(TextOrZero(FieldAt(values, 0)), TextOrZero(FieldAt(values, 1)), TextOrZero(FieldAt(values, 2)))],
          CountAt(values, 0), CountAt(values, 1))
  }

  /** A `stats.csv` row as written: three integers separated by commas. */
  function StatsLine(s: Classifier.Stats): string {
    IntToString(s.normal) + "," + IntToString(s.attack) + "," + IntToString(s.total)
  }

  /** The text of a `stats.csv` file: one line per row, each ended by a newline. */
  function StatsCsv(rows: seq<Classifier.Stats>): string {
    Join(StatsLines(rows), "\n") + "\n"
  }

  /** What a number looks like when written: digits, perhaps after a minus sign. */
  predicate NumberText(s: string) {
    |s| >= 1 && IsDigit(s[|s| - 1]) && (IsDigit(s[0]) || s[0] == '-') && ',' !in s && '\n' !in s
  }

  lemma IntToStringShape(i: int)
    ensures NumberText(IntToString(i))
  {
    var s := IntToString(i);
    if i < 0 {
      var d := NatToString(-i);
      assert s == "-" + d;
      NoDotInDigits(d);
      assert s[|s| - 1] == d[|d| - 1];
    } else {
      NoDotInDigits(s);
    }
  }

  /** A line with no line break and no white space at either end. */
  predicate CleanLine(l: string) {
    l != [] && !IsSpace(l[0]) && !IsSpace(l[|l| - 1]) && '\n' !in l
  }

  /** Three written numbers separated by commas make a clean line. */
  lemma CommaLineClean(a: string, b: string, c: string)
    requires NumberText(a) && NumberText(b) && NumberText(c)
    ensures CleanLine(a + "," + b + "," + c)
  {
    var l := a + "," + b + "," + c;
    assert l[0] == a[0];
    assert l[|l| - 1] == c[|c| - 1];
    assert '\n' !in l by {
      forall k | 0 <= k < |l| ensures l[k] != '\n' {
        if k < |a| { assert l[k] == a[k]; }
        else if k == |a| { }
        else if k < |a| + 1 + |b| { assert l[k] == b[k - |a| - 1]; }
        else if k == |a| + 1 + |b| { }
        else { assert l[k] == c[k - |a| - 2 - |b|]; }
      }
    }
  }

  /** Three written numbers separated by commas split back into the three. */
  lemma CommaLineFields(a: string, b: string, c: string)
    requires NumberText(a) && NumberText(b) && NumberText(c)
    ensures Split(a + "," + b + "," + c, ',') == [a, b, c]
  {
    var l := a + "," + b + "," + c;
    assert Join([b, c], ",") == b + "," + c by {
      assert [b, c][1..] == [c];
    }
    assert Join([a, b, c], ",") == l by {
      assert [a, b, c][1..] == [b, c];
    }
    assert forall p :: p in [a, b, c] ==> ',' !in p;
    SplitJoin([a, b, c], ',');
  }

  lemma StatsLineClean(s: Classifier.Stats)
    ensures CleanLine(StatsLine(s))
  {
    IntToStringShape(s.normal); IntToStringShape(s.attack); IntToStringShape(s.total);
    CommaLineClean(IntToString(s.normal), IntToString(s.attack), IntToString(s.total));
  }

  lemma StatsLineFields(s: Classifier.Stats)
    ensures Split(StatsLine(s), ',') == [IntToString(s.normal), IntToString(s.attack), IntToString(s.total)]
  {
    IntToStringShape(s.normal); IntToStringShape(s.attack); IntToStringShape(s.total);
    CommaLineFields(IntToString(s.normal), IntToString(s.attack), IntToString(s.total));
  }

  lemma ParseIntOfIntToStringAlone(i: int)
    ensures ParseInt(IntToString(i)) == Some(i)
  {
    ParseIntOfIntToString(i, "");
    assert IntToString(i) + "" == IntToString(i);
  }

  /** The lines of a `stats.csv` file as written, one per row. */
  function StatsLines(rows: seq<Classifier.Stats>): (lines: seq<string>)
    ensures |lines| == |rows|
  {
    if rows == [] then [] else StatsLines(rows[..|rows| - 1]) + [StatsLine(rows[|rows| - 1])]
  }

  /** The last non-blank line of clean lines, each ended by a newline, is the last of them. */
  lemma LastLineOfJoined(lines: seq<string>)
    requires |lines| >= 1
    requires forall i :: 0 <= i < |lines| ==> CleanLine(lines[i])
    ensures LastStatsLine(Join(lines, "\n") + "\n") == Some(lines[|lines| - 1])
  {
    var text := Join(lines, "\n");
    forall p | p in lines
      ensures '\n' !in p
    {
      var i :| 0 <= i < |lines| && lines[i] == p;
    }
    forall i | 0 <= i < |lines|
      ensures !IsBlank(lines[i])
    {
      assert !IsSpace(lines[i][0]);
    }
    TrimJoinedLines(lines);
    assert Trim(text + "\n") == text;
    SplitJoin(lines, '\n');
    assert Split(text, '\n') == lines;
    NonBlankKeepsAll(lines);
    assert NonBlank(Split(Trim(text + "\n"), '\n')) == lines;
    LastOfNonBlank(text + "\n", lines);
  }

  lemma LastOfNonBlank(text: string, lines: seq<string>)
    requires |lines| >= 1 && NonBlank(Split(Trim(text), '\n')) == lines
    ensures LastStatsLine(text) == Some(lines[|lines| - 1])
  {
    var kept := NonBlank(Split(Trim(text), '\n'));
    assert kept == lines && kept != [];
  }

  /** The last non-blank line of a written `stats.csv` is the line of its last row. */
  lemma LastLineOfStatsCsv(rows: seq<Classifier.Stats>)
    requires |rows| >= 1
    ensures LastStatsLine(StatsCsv(rows)) == Some(StatsLine(rows[|rows| - 1]))
  {
    var lines := StatsLines(rows);
    assert lines == StatsLines(rows[..|rows| - 1]) + [StatsLine(rows[|rows| - 1])];
    assert lines[|lines| - 1] == StatsLine(rows[|rows| - 1]);
    StatsLinesClean(rows, lines);
    LastLineOfJoined(lines);
  }

  lemma {:induction false} StatsLinesClean(rows: seq<Classifier.Stats>, lines: seq<string>)
    requires lines == StatsLines(rows)
    ensures forall i :: 0 <= i < |lines| ==> CleanLine(lines[i])
  {
    if rows != [] {
      var init := StatsLines(rows[..|rows| - 1]);
      StatsLinesClean(rows[..|rows| - 1], init);
      StatsLineClean(rows[|rows| - 1]);
      assert lines == init + [StatsLine(rows[|rows| - 1])];
    }
  }

  /** The table built from a last line of three non-empty fields shows them and counts the first two. */
  lemma TableOfStatsLine(csv: string, line: string, a: string, b: string, c: string)
    requires csv != "" && LastStatsLine(csv) == Some(line)
    requires Split(line, ',') == [a, b, c] && a != "" && b != "" && c != ""
    ensures TablePredictStats(Some(csv)) == StatsTable(
      [StatsView(a, b, c)], ParseInt(a).GetOr(0), ParseInt(b).GetOr(0))
  {
  }

  /**
   * Reading back what the classifier writes: the table shows the counts of
   * the last `stats.csv` row, the cumulative one.
   */
  lemma TableReadsLastStatsRow(rows: seq<Classifier.Stats>)
    requires |rows| >= 1
    ensures var last := rows[|rows| - 1];
      TablePredictStats(Some(StatsCsv(rows))) == StatsTable(
        [StatsView(IntToString(last.normal), IntToString(last.attack), IntToString(last.total))],
        last.normal, last.attack)
  {
    var last := rows[|rows| - 1];
    LastLineOfStatsCsv(rows);
    assert StatsCsv(rows) != "";
    StatsLineFields(last);
    IntToStringShape(last.normal); IntToStringShape(last.attack); IntToStringShape(last.total);
    ParseIntOfIntToStringAlone(last.normal);
    ParseIntOfIntToStringAlone(last.attack);
    TableOfStatsLine(StatsCsv(rows), StatsLine(last), IntToString(last.normal), IntToString(last.attack), IntToString(last.total));
  }

  // ---------------------------------------------------------------------------
  // appendAttackRowsFromPredictionId

  /** The line read when `stats.csv` has none, the line of zero counts. */
  const ZeroStatsLine: string := StatsLine(Classifier.Zero)

  /** The counts of the last stats line, or of `0,0,0` when there is none, as the online view reads them. */
  function FlowCounts(stats: Option<string>): (int, int) {
    var last := LastStatsLine(stats.GetOr(""));
    var lastLine := if last.Some? then last.value else ZeroStatsLine;
    var values := Split(lastLine, ',');
    (CountAt(values, 0), CountAt(values, 1))
  }

  /** The default line is `0,0,0`. */
  lemma ZeroStatsLineText()
    ensures ZeroStatsLine == "0,0,0"
  {
    assert NatToString(0) == "0";
  }

  /** Without a stats line the online view counts nothing. */
  lemma FlowCountsWithoutLines(stats: Option<string>)
    requires LastStatsLine(stats.GetOr("")) == None
    ensures FlowCounts(stats) == (0, 0)
  {
    ZeroStatsLineCounts();
  }

  /** The default line `0,0,0` reads as no normal and no malicious flow. */
  lemma ZeroStatsLineCounts()
    ensures CountAt(Split(ZeroStatsLine, ','), 0) == 0 && CountAt(Split(ZeroStatsLine, ','), 1) == 0
  {
    var values := Split(ZeroStatsLine, ',');
    assert values == [IntToString(0), IntToString(0), IntToString(0)] by {
      StatsLineFields(Classifier.Zero);
    }
    ParseIntOfIntToStringAlone(0);
  }

  /** The online view and the offline table read the same counts from the same text. */
  lemma FlowCountsAgreeWithTable(stats: Option<string>)
    ensures FlowCounts(stats) == (TablePredictStats(stats).normalFlows, TablePredictStats(stats).maliciousFlows)
  {
    if LastStatsLine(stats.GetOr("")) == None {
      FlowCountsWithoutLines(stats);
    } else if stats.Some? && stats.value == "" {
      EmptyHasNoStatsLine();
      assert false;
    }
  }

  /** Empty text has no stats line. */
  lemma EmptyHasNoStatsLine()
    ensures LastStatsLine("") == None
  {
    assert Trim("") == "";
    assert Split("", '\n') == [""];
    assert IsBlank("");
    assert NonBlank([""]) == [];
  }

  /** The answer of one request: it failed, or it brought the (possibly missing) text. */
  datatype Fetch = FetchFailed | Fetched(body: Option<string>)

  /** A row of the attack table, tagged with the prediction it came from. */
  datatype AttackRow = AttackRow(predictionId: string, rowUid: string)

  /** A batch of counts added to the running totals, with the prediction it came from. */
  datatype Counted = Counted(predictionId: string, normal: int, malicious: int)

  function SumNormal(c: seq<Counted>): int {
    if c == [] then 0 else SumNormal(c[..|c| - 1]) + c[|c| - 1].normal
  }

  function SumMalicious(c: seq<Counted>): int {
    if c == [] then 0 else SumMalicious(c[..|c| - 1]) + c[|c| - 1].malicious
  }

  predicate Distinct(s: seq<string>) {
    forall i, j :: 0 <= i < j < |s| ==> s[i] != s[j]
  }

  /** No prediction's counts are in `counted` twice. */
  predicate CountedOnce(counted: seq<Counted>) {
    forall i, j :: 0 <= i < j < |counted| ==> counted[i].predictionId != counted[j].predictionId
  }

  /** No prediction is loaded or counted twice, and only loaded predictions are counted. */
  predicate Ledger(counted: seq<Counted>, loaded: seq<string>) {
    && Distinct(loaded)
    && CountedOnce(counted)
    && (forall i :: 0 <= i < |counted| ==> counted[i].predictionId in loaded)
  }

  /** Loading a new prediction keeps the ledger. */
  lemma LedgerLoad(counted: seq<Counted>, loaded: seq<string>, id: string)
    requires Ledger(counted, loaded) && id !in loaded
    ensures Ledger(counted, loaded + [id])
  {
    var l := loaded + [id];
    forall i, j | 0 <= i < j < |l| ensures l[i] != l[j] {
      if j == |loaded| {
        assert l[i] == loaded[i];
      }
    }
  }

  /** Counting a prediction that was not loaded before, and loading it, keeps the ledger and adds to the sums. */
  lemma LedgerCount(counted: seq<Counted>, loaded: seq<string>, c: Counted)
    requires Ledger(counted, loaded) && c.predictionId !in loaded
    ensures Ledger(counted + [c], loaded + [c.predictionId])
    ensures SumNormal(counted + [c]) == SumNormal(counted) + c.normal
    ensures SumMalicious(counted + [c]) == SumMalicious(counted) + c.malicious
  {
    var n := counted + [c];
    assert n[..|n| - 1] == counted;
    LedgerLoad(counted, loaded, c.predictionId);
    forall i, j | 0 <= i < j < |n| ensures n[i].predictionId != n[j].predictionId {
      if j == |counted| {
        assert counted[i].predictionId in loaded;
      }
    }
  }

  /** The attack-table rows of one prediction: each built row's key, or its 1-based position when it has none. */
  function TagRows(predictionId: string, keys: seq<Option<string>>): (rows: seq<AttackRow>)
    ensures |rows| == |keys|
    ensures forall i :: 0 <= i < |rows| ==> rows[i].predictionId == predictionId
  {
    seq(|keys|, i requires 0 <= i < |keys| =>
      AttackRow(predictionId, predictionId + "-" + (if keys[i].Some? && keys[i].value != "" then keys[i].value else IntToString(i + 1))))
  }

  /** The part of the page's state that the online results feed, as one value. */
  datatype Online = Online(
    aggregateNormal: int,
    aggregateMalicious: int,
    predictStats: Option<string>,
    attackRows: seq<AttackRow>,
    hasResultsShown: bool,
    lastShownPredictionId: Option<string>,
    lastStatsSignature: Option<string>,
    loadedPredictionIds: seq<string>)

  /** The totals are the sums of the counted batches, and no prediction is loaded or counted twice. */
  ghost predicate Consistent(s: Online, counted: seq<Counted>) {
    && s.aggregateNormal == SumNormal(counted)
    && s.aggregateMalicious == SumMalicious(counted)
    && Ledger(counted, s.loadedPredictionIds)
  }

  /** Starting an online prediction clears the totals and the attack rows and keeps the rest. */
  function Restarted(s: Online): Online {
    s.(aggregateNormal := 0, aggregateMalicious := 0, attackRows := [])
  }

  /** The charts follow a prediction only when both its id and its stats text differ from the ones last shown. */
  predicate CanUpdateCharts(prev: Online, id: string, signature: string) {
    Some(id) != prev.lastShownPredictionId && Some(signature) != prev.lastStatsSignature
  }

  /**
   * The state updater of `appendAttackRowsFromPredictionId` for a prediction
   * whose stats gave these counts and this trimmed text.
   */
  function Updated(prev: Online, id: string, body: Option<string>, built: Option<seq<Option<string>>>,
                   normal: int, malicious: int, signature: string): Online
  {
    var canUpdate := CanUpdateCharts(prev, id, signature);
    Online(
      aggregateNormal := if canUpdate then prev.aggregateNormal + normal else prev.aggregateNormal,
      aggregateMalicious := if canUpdate then prev.aggregateMalicious + malicious else prev.aggregateMalicious,
      predictStats := if canUpdate then body else prev.predictStats,
      // Appending no rows leaves the rows as they were.
      attackRows := prev.attackRows + (if built.Some? then TagRows(id, built.value) else []),
      hasResultsShown := prev.hasResultsShown || Truthy(body),
      lastShownPredictionId := if canUpdate then Some(id) else prev.lastShownPredictionId,
      lastStatsSignature := if canUpdate then Some(signature) else prev.lastStatsSignature,
      loadedPredictionIds := prev.loadedPredictionIds + [id])
  }

  /** Whether `appendAttackRowsFromPredictionId` stops before changing anything. */
  predicate Skipped(prev: Online, predictionId: Option<string>, stats: Fetch) {
    !Truthy(predictionId) || predictionId.value in prev.loadedPredictionIds || stats.FetchFailed?
  }

  /** The batches counted after the update: one more exactly when the charts were updated. */
  function CountedAfter(counted: seq<Counted>, prev: Online, id: string, normal: int, malicious: int, signature: string): seq<Counted> {
    if CanUpdateCharts(prev, id, signature) then counted + [Counted(id, normal, malicious)] else counted
  }

  /** Taking in a prediction not loaded before keeps the totals equal to the sums of distinct predictions' counts. */
  lemma UpdatedConsistent(prev: Online, counted: seq<Counted>, id: string, body: Option<string>,
                          built: Option<seq<Option<string>>>, normal: int, malicious: int, signature: string)
    requires Consistent(prev, counted) && id !in prev.loadedPredictionIds
    ensures Consistent(Updated(prev, id, body, built, normal, malicious, signature),
      CountedAfter(counted, prev, id, normal, malicious, signature))
  {
    if CanUpdateCharts(prev, id, signature) {
      LedgerCount(counted, prev.loadedPredictionIds, Counted(id, normal, malicious));
    } else {
      LedgerLoad(counted, prev.loadedPredictionIds, id);
    }
  }

  /** Once a prediction is taken in, appending it again is skipped, whatever the requests then answer. */
  lemma UpdatedThenSkipped(prev: Online, id: string, body: Option<string>, built: Option<seq<Option<string>>>,
                           normal: int, malicious: int, signature: string, stats: Fetch)
    ensures Skipped(Updated(prev, id, body, built, normal, malicious, signature), Some(id), stats)
  {
    var next := Updated(prev, id, body, built, normal, malicious, signature);
    assert next.loadedPredictionIds[|prev.loadedPredictionIds|] == id;
  }

  /**
   * An update only extends the attack rows, by the prediction's own rows, and
   * the loaded ids, by the prediction's id, and never unsets `hasResultsShown`.
   */
  lemma UpdatedExtends(prev: Online, id: string, body: Option<string>, built: Option<seq<Option<string>>>,
                       normal: int, malicious: int, signature: string)
    ensures var next := Updated(prev, id, body, built, normal, malicious, signature);
      && prev.attackRows <= next.attackRows
      && (forall i :: |prev.attackRows| <= i < |next.attackRows| ==> next.attackRows[i].predictionId == id)
      && next.loadedPredictionIds == prev.loadedPredictionIds + [id]
      && (prev.hasResultsShown ==> next.hasResultsShown)
  {
  }

  /** The totals grow by the prediction's counts exactly when the charts are updated, and stay otherwise. */
  lemma UpdatedTotals(prev: Online, id: string, body: Option<string>, built: Option<seq<Option<string>>>,
                      normal: int, malicious: int, signature: string)
    ensures var next := Updated(prev, id, body, built, normal, malicious, signature);
      && (CanUpdateCharts(prev, id, signature) ==>
            next.aggregateNormal == prev.aggregateNormal + normal && next.aggregateMalicious == prev.aggregateMalicious + malicious
            && next.predictStats == body && next.lastShownPredictionId == Some(id) && next.lastStatsSignature == Some(signature))
      && (!CanUpdateCharts(prev, id, signature) ==>
            next.aggregateNormal == prev.aggregateNormal && next.aggregateMalicious == prev.aggregateMalicious
            && next.predictStats == prev.predictStats && next.lastShownPredictionId == prev.lastShownPredictionId
            && next.lastStatsSignature == prev.lastStatsSignature)
  {
  }

  /**
   * The page component, as far as the online results go: `state` is its
   * `this.state`, which `setState` replaces by what an updater computes from it.
   */
  class OnlineResults {
    var state: Online
    /** The batches added to the totals since they were last reset to zero. */
    ghost var counted: seq<Counted>

    ghost predicate Valid()
      reads this
    {
      Consistent(state, counted)
    }

    /** The page's initial state. */
    constructor()
      ensures Valid()
      ensures state == Online(0, 0, None, [], false, None, None, [])
    {
      state := Online(0, 0, None, [], false, None, None, []);
      counted := [];
    }

    /** Starting an online prediction clears the totals and the attack rows but keeps the loaded ids. */
    method OnlineStarted()
      requires Valid()
      modifies this
      ensures Valid()
      ensures state == Restarted(old(state))
    {
      state := Restarted(state);
      counted := [];
    }

    /**
     * `appendAttackRowsFromPredictionId`: a missing or already loaded id, or a
     * failed stats request, changes nothing; otherwise the counts and the
     * trimmed text are read from the stats and the state is updated by `Updated`.
     */
    method AppendAttackRows(predictionId: Option<string>, stats: Fetch, built: Option<seq<Option<string>>>)
      requires Valid()
      modifies this
      ensures Valid()
      ensures Skipped(old(state), predictionId, stats) ==> state == old(state)
      ensures !Skipped(old(state), predictionId, stats) ==>
        var counts := FlowCounts(stats.body);
        state == Updated(old(state), predictionId.value, stats.body, built, counts.0, counts.1, Trim(stats.body.GetOr("")))
    {
      if !Truthy(predictionId) || predictionId.value in state.loadedPredictionIds || stats.FetchFailed? {
        return;
      }
      var id := predictionId.value;
      var (normal, malicious) := FlowCounts(stats.body);
      var signature := Trim(stats.body.GetOr(""));
      UpdatedConsistent(state, counted, id, stats.body, built, normal, malicious, signature);
      counted := CountedAfter(counted, state, id, normal, malicious, signature);
      state := Updated(state, id, stats.body, built, normal, malicious, signature);
    }
  }

  /** `x` is present and not empty, what `!x` denies in JavaScript. */
  predicate Truthy(v: Option<string>) {
    v.Some? && v.value != ""
  }

  // ---------------------------------------------------------------------------
  // _relPath

  const SrcDir: string := "src/"
  const SrcMarker: string := "/" + SrcDir
  const Ellipsis: string := "…/"

  /** `filter(Boolean)` on strings: the non-empty ones, in order. */
  function Filled(parts: seq<string>): (r: seq<string>)
    ensures forall s :: s in r ==> s != "" && s in parts
    ensures forall s :: s in parts && s != "" ==> s in r
  {
    if parts == [] then []
    else
      var rest := Filled(parts[1..]);
      assert forall s :: s in parts[1..] ==> s in parts;
      assert parts == [parts[0]] + parts[1..];
      if parts[0] != "" then [parts[0]] + rest else rest
  }

  /** The non-empty `/`-separated segments of a path. */
  function Segments(p: string): (r: seq<string>)
    ensures forall s :: s in r ==> s != "" && '/' !in s
  {
    Filled(Split(p, '/'))
  }

  /**
   * `_relPath`: a path shown relative to `base` when it lies under it, else
   * from its `src/` directory on, else by its last four segments.
   */
  function RelPath(path: Option<string>, base: Option<string>): (r: string)
  {
    if !Truthy(path) then "-"
    else
      var p := path.value;
      if Truthy(base) && StartsWith(p, base.value) then
        var rest := p[|base.value|..];
        var trimmed := if rest != [] && rest[0] == '/' then rest[1..] else rest;
        if trimmed == "" then "." else trimmed
      else
        match IndexOf(p, SrcMarker)
        case Some(idx) => p[idx + 1..]
        case None =>
          var parts := Segments(p);
          if |parts| <= 4 then Join(parts, "/") else Ellipsis + Join(parts[|parts| - 4..], "/")
  }

  /** A path under the base is shown as what follows the base (and one slash), or `.` for the base itself. */
  lemma RelPathUnderBase(p: string, b: string)
    requires p != "" && b != "" && StartsWith(p, b)
    ensures var r := RelPath(Some(p), Some(b));
      r != ""
      && (p == b + r || p == b + "/" + r || (r == "." && (p == b || p == b + "/")))
  {
    var rest := p[|b|..];
    assert p == b + rest;
    if rest != [] && rest[0] == '/' {
      assert rest == "/" + rest[1..];
    }
  }

  /** Elsewhere, a path containing `/src/` is shown from the first `src/` on, which ends it. */
  lemma RelPathFromSrc(p: string, base: Option<string>)
    requires p != "" && !(Truthy(base) && StartsWith(p, base.value))
    requires Contains(p, SrcMarker)
    ensures var r := RelPath(Some(p), base);
      StartsWith(r, SrcDir) && EndsWith(p, "/" + r)
  {
    var idx := IndexOf(p, SrcMarker).value;
    AfterSlash(p, idx, SrcDir);
  }

  /** What follows a slash that opens `dir` starts with `dir`, and the path ends with the slash and it. */
  lemma AfterSlash(p: string, idx: nat, dir: string)
    requires idx + 1 + |dir| <= |p| && p[idx..idx + 1 + |dir|] == "/" + dir
    ensures StartsWith(p[idx + 1..], dir) && EndsWith(p, "/" + p[idx + 1..])
  {
    var r := p[idx + 1..];
    assert r[..|dir|] == p[idx..idx + 1 + |dir|][1..];
    assert p[idx..] == "/" + r;
  }

  /**
   * Any other path is shown by its non-empty segments when there are at most
   * four, else by an ellipsis and the last four; the shown text splits back
   * into exactly those segments.
   */
  lemma RelPathLastSegments(p: string, base: Option<string>)
    requires p != "" && !(Truthy(base) && StartsWith(p, base.value))
    requires !Contains(p, SrcMarker)
    ensures var r := RelPath(Some(p), base);
      var parts := Segments(p);
      (1 <= |parts| <= 4 ==> Split(r, '/') == parts)
      && (|parts| > 4 ==> StartsWith(r, Ellipsis) && Split(r[|Ellipsis|..], '/') == parts[|parts| - 4..])
  {
    var parts := Segments(p);
    if |parts| > 4 {
      var last := parts[|parts| - 4..];
      assert forall s :: s in last ==> s in parts;
      SplitJoin(last, '/');
      assert (Ellipsis + Join(last, "/"))[|Ellipsis|..] == Join(last, "/");
    } else if |parts| >= 1 {
      SplitJoin(parts, '/');
    }
  }


  // ---------------------------------------------------------------------------
  // analyzeTopSources

  /** The two addresses read from a malicious flow's `ip.pkts_per_flow` cell, each `None` when it did not match. */
  datatype Endpoints = Endpoints(srcIp: Option<string>, dstIp: Option<string>)

  datatype Side = Source | Destination

  function Pick(e: Endpoints, side: Side): Option<string> {
    match side
    case Source => e.srcIp
    case Destination => e.dstIp
  }

  /** An address is counted when it is present, not empty and a valid IPv4 address. */
  predicate Tallied(ip: Option<string>) {
    Truthy(ip) && IsValidIPv4(ip)
  }

  /** An entry of a count object, and of the chart data `{ name: ip, value: count }`. */
  datatype IpCount = IpCount(name: string, value: nat)

  /** How many rows carry `ip` as a counted address on `side`: the reference the counts are checked against. */
  function Occurrences(rows: seq<Endpoints>, side: Side, ip: string): nat {
    if rows == [] then 0
    else
      var last := Pick(rows[|rows| - 1], side);
      Occurrences(rows[..|rows| - 1], side, ip) + if Tallied(last) && last.value == ip then 1 else 0
  }

  predicate Listed(t: seq<IpCount>, ip: string) {
    exists i :: 0 <= i < |t| && t[i].name == ip
  }

  predicate DistinctNames(t: seq<IpCount>) {
    forall i, j :: 0 <= i < j < |t| ==> t[i].name != t[j].name
  }

  function Increment(t: seq<IpCount>, ip: string): (r: seq<IpCount>)
    ensures |r| == |t|
    ensures forall i :: 0 <= i < |t| ==>
      r[i].name == t[i].name && r[i].value == t[i].value + if t[i].name == ip then 1 else 0
  {
    if t == [] then []
    else [if t[0].name == ip then t[0].(value := t[0].value + 1) else t[0]] + Increment(t[1..], ip)
  }

  /** `counts[ip] = (counts[ip] || 0) + 1` on an object whose keys keep their insertion order. */
  function Bump(t: seq<IpCount>, ip: string): (r: seq<IpCount>)
    ensures !Listed(t, ip) ==> r == t + [IpCount(ip, 1)]
    ensures Listed(t, ip) ==> |r| == |t| && forall i :: 0 <= i < |t| ==>
      r[i].name == t[i].name && r[i].value == t[i].value + if t[i].name == ip then 1 else 0
  {
    if Listed(t, ip) then Increment(t, ip) else t + [IpCount(ip, 1)]
  }

  /** The count object the `forEach` over the rows builds for one side. */
  function Tally(rows: seq<Endpoints>, side: Side): seq<IpCount> {
    if rows == [] then []
    else
      var t := Tally(rows[..|rows| - 1], side);
      var ip := Pick(rows[|rows| - 1], side);
      if Tallied(ip) then Bump(t, ip.value) else t
  }

  /** `t` has one entry per counted address of `rows`, holding how many rows carry it. */
  ghost predicate CountsOf(t: seq<IpCount>, rows: seq<Endpoints>, side: Side) {
    && DistinctNames(t)
    && (forall i :: 0 <= i < |t| ==> t[i].value == Occurrences(rows, side, t[i].name) && t[i].value >= 1)
    && (forall ip :: Occurrences(rows, side, ip) > 0 ==> Listed(t, ip))
  }

  /** A row without a counted address on `side` leaves the count object exact. */
  lemma CountsSkip(t: seq<IpCount>, rows: seq<Endpoints>, side: Side)
    requires rows != [] && CountsOf(t, rows[..|rows| - 1], side)
    requires !Tallied(Pick(rows[|rows| - 1], side))
    ensures CountsOf(t, rows, side)
  {
  }

  /** An address seen for the first time gets an entry of its own, at the end, counting one. */
  lemma CountsAppend(t: seq<IpCount>, rows: seq<Endpoints>, side: Side)
    requires rows != [] && CountsOf(t, rows[..|rows| - 1], side)
    requires var ip := Pick(rows[|rows| - 1], side); Tallied(ip) && !Listed(t, ip.value)
    ensures CountsOf(t + [IpCount(Pick(rows[|rows| - 1], side).value, 1)], rows, side)
  {
    var ip := Pick(rows[|rows| - 1], side).value;
    var r := t + [IpCount(ip, 1)];
    assert Occurrences(rows[..|rows| - 1], side, ip) == 0;
    forall x | Occurrences(rows, side, x) > 0 ensures Listed(r, x) {
      if x == ip {
        assert r[|t|].name == ip;
      } else {
        assert Occurrences(rows[..|rows| - 1], side, x) > 0;
        var i :| 0 <= i < |t| && t[i].name == x;
        assert r[i].name == x;
      }
    }
  }

  /** An address seen before has its entry's count raised by one, in place. */
  lemma CountsIncrement(t: seq<IpCount>, rows: seq<Endpoints>, side: Side)
    requires rows != [] && CountsOf(t, rows[..|rows| - 1], side)
    requires var ip := Pick(rows[|rows| - 1], side); Tallied(ip) && Listed(t, ip.value)
    ensures CountsOf(Bump(t, Pick(rows[|rows| - 1], side).value), rows, side)
  {
    var ip := Pick(rows[|rows| - 1], side).value;
    IncrementedDistinct(t, ip);
    IncrementedValues(t, rows, side, ip);
    IncrementedListed(t, rows, side, ip);
  }

  lemma IncrementedDistinct(t: seq<IpCount>, ip: string)
    requires DistinctNames(t) && Listed(t, ip)
    ensures DistinctNames(Bump(t, ip))
  {
    var r := Bump(t, ip);
    forall i, j | 0 <= i < j < |r| ensures r[i].name != r[j].name {
      assert r[i].name == t[i].name && r[j].name == t[j].name;
    }
  }

  lemma IncrementedValues(t: seq<IpCount>, rows: seq<Endpoints>, side: Side, ip: string)
    requires rows != [] && CountsOf(t, rows[..|rows| - 1], side)
    requires Pick(rows[|rows| - 1], side) == Some(ip) && Tallied(Some(ip)) && Listed(t, ip)
    ensures var r := Bump(t, ip);
      forall i :: 0 <= i < |r| ==> r[i].value == Occurrences(rows, side, r[i].name) && r[i].value >= 1
  {
    var r := Bump(t, ip);
    forall i | 0 <= i < |r|
      ensures r[i].value == Occurrences(rows, side, r[i].name) && r[i].value >= 1
    {
      assert r[i].name == t[i].name;
    }
  }

  lemma IncrementedListed(t: seq<IpCount>, rows: seq<Endpoints>, side: Side, ip: string)
    requires rows != [] && CountsOf(t, rows[..|rows| - 1], side)
    requires Pick(rows[|rows| - 1], side) == Some(ip) && Tallied(Some(ip)) && Listed(t, ip)
    ensures var r := Bump(t, ip);
      forall x :: Occurrences(rows, side, x) > 0 ==> Listed(r, x)
  {
    var r := Bump(t, ip);
    forall x | Occurrences(rows, side, x) > 0 ensures Listed(r, x) {
      if x != ip {
        assert Occurrences(rows[..|rows| - 1], side, x) > 0;
      }
      var i :| 0 <= i < |t| && t[i].name == x;
      assert r[i].name == x;
    }
  }

  /** Counting one more row keeps the count object exact. */
  lemma CountsStep(t: seq<IpCount>, rows: seq<Endpoints>, side: Side)
    requires rows != [] && CountsOf(t, rows[..|rows| - 1], side)
    ensures var ip := Pick(rows[|rows| - 1], side);
      CountsOf(if Tallied(ip) then Bump(t, ip.value) else t, rows, side)
  {
    var ip := Pick(rows[|rows| - 1], side);
    if !Tallied(ip) {
      CountsSkip(t, rows, side);
    } else if Listed(t, ip.value) {
      CountsIncrement(t, rows, side);
    } else {
      CountsAppend(t, rows, side);
    }
  }

  /** The count object has one entry per counted address, holding how many rows carry it. */
  lemma {:induction false} TallyCounts(rows: seq<Endpoints>, side: Side)
    ensures CountsOf(Tally(rows, side), rows, side)
  {
    if rows != [] {
      TallyCounts(rows[..|rows| - 1], side);
      CountsStep(Tally(rows[..|rows| - 1], side), rows, side);
    }
  }

  /** A row with a counted address on `side` makes that address occur. */
  lemma {:induction false} OccursAt(rows: seq<Endpoints>, side: Side, i: nat)
    requires i < |rows| && Tallied(Pick(rows[i], side))
    ensures Occurrences(rows, side, Pick(rows[i], side).value) > 0
  {
    if i < |rows| - 1 {
      assert rows[..|rows| - 1][i] == rows[i];
      OccursAt(rows[..|rows| - 1], side, i);
    }
  }

  /** An address that occurs is carried by some row. */
  lemma {:induction false} OccurrenceWitness(rows: seq<Endpoints>, side: Side, ip: string) returns (i: nat)
    requires Occurrences(rows, side, ip) > 0
    ensures i < |rows| && Pick(rows[i], side) == Some(ip) && Tallied(Some(ip))
  {
    var last := Pick(rows[|rows| - 1], side);
    if Tallied(last) && last.value == ip {
      i := |rows| - 1;
    } else {
      i := OccurrenceWitness(rows[..|rows| - 1], side, ip);
    }
  }

  predicate MoreFlows(a: IpCount, b: IpCount) {
    a.value >= b.value
  }

  /** `Object.entries(counts).sort((a, b) => b[1] - a[1]).slice(0, 10)`. */
  function TopTen(t: seq<IpCount>): seq<IpCount> {
    var s := Sorting.Sort(t, MoreFlows);
    s[..if |s| < 10 then |s| else 10]
  }

  /**
   * At most ten entries, in decreasing count, all taken from the count
   * object; every entry left out has no more than any entry kept, and
   * nothing is left out of a count object of ten entries or fewer.
   */
  lemma TopTenBest(t: seq<IpCount>)
    ensures var r := TopTen(t);
      && |r| <= 10
      && Sorting.Sorted(r, MoreFlows)
      && multiset(r) <= multiset(t)
      && (|t| <= 10 ==> multiset(r) == multiset(t))
      && (forall e, f :: e in t && e !in r && f in r ==> f.value >= e.value)
  {
    var s := Sorting.Sort(t, MoreFlows);
    var k := if |s| < 10 then |s| else 10;
    var r := s[..k];
    assert multiset(s) == multiset(r) + multiset(s[k..]) by {
      assert s == r + s[k..];
    }
    assert Sorting.Sorted(r, MoreFlows) by {
      assert forall i :: 0 <= i < k ==> r[i] == s[i];
    }
    PrefixOutranks(s, k);
    LeftOutOutranked(t, s, k);
  }

  /** What a prefix of a rearrangement of `t` leaves out is in the rest of it, so it counts no more than the prefix. */
  lemma LeftOutOutranked(t: seq<IpCount>, s: seq<IpCount>, k: nat)
    requires k <= |s| && multiset(s) == multiset(t)
    requires multiset(s) == multiset(s[..k]) + multiset(s[k..])
    requires forall e, f :: e in s[k..] && f in s[..k] ==> f.value >= e.value
    ensures forall e, f :: e in t && e !in s[..k] && f in s[..k] ==> f.value >= e.value
  {
    forall e, f | e in t && e !in s[..k] && f in s[..k]
      ensures f.value >= e.value
    {
      assert e in multiset(s);
      assert e in multiset(s[k..]);
    }
  }

  /** In a list sorted by decreasing count, every entry of a prefix counts at least as much as every later one. */
  lemma PrefixOutranks(s: seq<IpCount>, k: nat)
    requires k <= |s| && Sorting.Sorted(s, MoreFlows)
    ensures forall e, f :: e in s[k..] && f in s[..k] ==> f.value >= e.value
  {
    forall e, f | e in s[k..] && f in s[..k]
      ensures f.value >= e.value
    {
      var j :| 0 <= j < |s[k..]| && s[k..][j] == e;
      var i :| 0 <= i < k && s[..k][i] == f;
      assert MoreFlows(s[i], s[k + j]);
    }
  }

  /** The chart data: the top ten source addresses, or the top ten destinations when no source was counted. */
  function TopSources(rows: seq<Endpoints>): seq<IpCount> {
    var top := TopTen(Tally(rows, Source));
    if |top| > 0 then top else TopTen(Tally(rows, Destination))
  }

  predicate AnyTallied(rows: seq<Endpoints>, side: Side) {
    exists i :: 0 <= i < |rows| && Tallied(Pick(rows[i], side))
  }

  /** A side is counted at all exactly when its count object is not empty. */
  lemma TallyNonEmpty(rows: seq<Endpoints>, side: Side)
    ensures |Tally(rows, side)| > 0 <==> AnyTallied(rows, side)
  {
    var t := Tally(rows, side);
    TallyCounts(rows, side);
    if AnyTallied(rows, side) {
      var i :| 0 <= i < |rows| && Tallied(Pick(rows[i], side));
      OccursAt(rows, side, i);
      assert Listed(t, Pick(rows[i], side).value);
    }
    if |t| > 0 {
      var i := OccurrenceWitness(rows, side, t[0].name);
    }
  }

  /**
   * The top ten of one side's count object: each entry with the number of rows
   * that carry its address; an address left out leaves ten shown, each
   * carried by at least as many rows.
   */
  lemma {:induction false} TopOfTally(rows: seq<Endpoints>, side: Side)
    ensures var r := TopTen(Tally(rows, side));
      && (forall f :: f in r ==> f.value == Occurrences(rows, side, f.name) && f.value >= 1)
      && (forall ip :: Occurrences(rows, side, ip) > 0 && !Listed(r, ip) ==>
            |r| == 10 && forall f :: f in r ==> f.value >= Occurrences(rows, side, ip))
  {
    var t := Tally(rows, side);
    TallyCounts(rows, side);
    TopKeepsCounts(t, rows, side);
    TopLeavesOutFewer(t, rows, side);
  }

  /** The entries shown are entries of an exact count object. */
  lemma TopKeepsCounts(t: seq<IpCount>, rows: seq<Endpoints>, side: Side)
    requires CountsOf(t, rows, side)
    ensures forall f :: f in TopTen(t) ==> f.value == Occurrences(rows, side, f.name) && f.value >= 1
  {
    var r := TopTen(t);
    TopTenBest(t);
    forall f | f in r
      ensures f.value == Occurrences(rows, side, f.name) && f.value >= 1
    {
      assert f in multiset(t);
      var i :| 0 <= i < |t| && t[i] == f;
    }
  }

  /** An address of an exact count object left out of the top ten is outnumbered by all ten shown. */
  lemma TopLeavesOutFewer(t: seq<IpCount>, rows: seq<Endpoints>, side: Side)
    requires CountsOf(t, rows, side)
    ensures var r := TopTen(t);
      forall ip :: Occurrences(rows, side, ip) > 0 && !Listed(r, ip) ==>
        |r| == 10 && forall f :: f in r ==> f.value >= Occurrences(rows, side, ip)
  {
    var r := TopTen(t);
    TopTenBest(t);
    forall ip | Occurrences(rows, side, ip) > 0 && !Listed(r, ip)
      ensures |r| == 10 && forall f :: f in r ==> f.value >= Occurrences(rows, side, ip)
    {
      assert Listed(t, ip);
      var i :| 0 <= i < |t| && t[i].name == ip;
      assert forall j :: 0 <= j < |r| ==> r[j].name != ip;
      assert t[i] !in r;
      assert t[i] in multiset(t);
      assert |t| > 10;
    }
  }

  /**
   * The addresses shown are source addresses when any row has one, else
   * destination addresses; at most ten, in decreasing count, each with the
   * number of rows that carry it; an address left out leaves ten shown, each
   * carried by at least as many rows; nothing is shown only when no row has
   * a counted address on either side.
   */
  lemma TopSourcesBest(rows: seq<Endpoints>)
    ensures var r := TopSources(rows);
      var side := if AnyTallied(rows, Source) then Source else Destination;
      && |r| <= 10
      && Sorting.Sorted(r, MoreFlows)
      && (forall f :: f in r ==> f.value == Occurrences(rows, side, f.name) && f.value >= 1)
      && (forall ip :: Occurrences(rows, side, ip) > 0 && !Listed(r, ip) ==>
            |r| == 10 && forall f :: f in r ==> f.value >= Occurrences(rows, side, ip))
      && (|r| > 0 <==> AnyTallied(rows, Source) || AnyTallied(rows, Destination))
  {
    var side := if AnyTallied(rows, Source) then Source else Destination;
    TallyNonEmpty(rows, Source);
    TallyNonEmpty(rows, Destination);
    TopTenBest(Tally(rows, Source));
    TopTenBest(Tally(rows, Destination));
    TopOfTally(rows, side);
  }

  /**
   * `analyzeTopSources`: nothing for no malicious flows; else both count
   * objects are built in one pass over the rows and `TopSources` is returned.
   */
  method AnalyzeTopSources(attackRows: seq<Endpoints>) returns (top: Option<seq<IpCount>>)
    ensures top.None? <==> attackRows == []
    ensures top.Some? ==> top.value == TopSources(attackRows)
  {
    if |attackRows| == 0 {
      return None;
    }
    var srcIpCounts: seq<IpCount> := [];
    var dstIpCounts: seq<IpCount> := [];
    var i := 0;
    while i < |attackRows|
      invariant 0 <= i <= |attackRows|
      invariant srcIpCounts == Tally(attackRows[..i], Source)
      invariant dstIpCounts == Tally(attackRows[..i], Destination)
    {
      var row := attackRows[i];
      assert attackRows[..i + 1][..i] == attackRows[..i];
      if Tallied(row.srcIp) {
        srcIpCounts := Bump(srcIpCounts, row.srcIp.value);
      }
      if Tallied(row.dstIp) {
        dstIpCounts := Bump(dstIpCounts, row.dstIp.value);
      }
      i := i + 1;
    }
    assert attackRows[..i] == attackRows;
    var topSrcIPs := TopTen(srcIpCounts);
    var topDstIPs := if |topSrcIPs| == 0 then TopTen(dstIpCounts) else [];
    top := Some(if |topSrcIPs| > 0 then topSrcIPs else topDstIPs);
  }

  // ---------------------------------------------------------------------------
  // The PCAP file picker

  const UserKind: string := "user"
  const SampleKind: string := "sample"
  const SamplesPath: string := "samples"

  datatype PcapFile = PcapFile(name: string, kind: string, path: string)

  /** An item of the listing: a bare file name, or a described file. */
  datatype PcapEntry = Bare(fileName: string) | Described(file: PcapFile)

  /** A bare name is a sample file of the `samples` directory. */
  function AsFile(e: PcapEntry): PcapFile {
    match e
    case Bare(n) => PcapFile(n, SampleKind, SamplesPath)
    case Described(f) => f
  }

  /** The listing with every item read as a file, in order. */
  function Listing(entries: seq<PcapEntry>): (files: seq<PcapFile>)
    ensures |files| == |entries|
    ensures forall j :: 0 <= j < |entries| ==> files[j] == AsFile(entries[j])
  {
    if entries == [] then [] else Listing(entries[..|entries| - 1]) + [AsFile(entries[|entries| - 1])]
  }

  predicate Named(m: seq<PcapFile>, n: string) {
    exists g :: g in m && g.name == n
  }

  predicate UserNamed(m: seq<PcapFile>, n: string) {
    exists g :: g in m && g.name == n && g.kind == UserKind
  }

  predicate DistinctFileNames(m: seq<PcapFile>) {
    forall i, j :: 0 <= i < j < |m| ==> m[i].name != m[j].name
  }

  /** `byName.get(n)` on a map kept as its entries in insertion order. */
  function Get(m: seq<PcapFile>, n: string): (r: Option<PcapFile>)
    ensures r.Some? ==> r.value in m && r.value.name == n
    ensures r.None? <==> !Named(m, n)
  {
    if m == [] then None
    else if m[0].name == n then Some(m[0])
    else
      var r := Get(m[1..], n);
      assert forall g :: g in m ==> g == m[0] || g in m[1..];
      r
  }

  function Replace(m: seq<PcapFile>, f: PcapFile): (r: seq<PcapFile>)
    ensures |r| == |m|
    ensures forall i :: 0 <= i < |m| ==> r[i] == if m[i].name == f.name then f else m[i]
  {
    if m == [] then [] else [if m[0].name == f.name then f else m[0]] + Replace(m[1..], f)
  }

  /** `byName.set(f.name, f)`: a present key keeps its place and takes the new value, a new key goes last. */
  function Put(m: seq<PcapFile>, f: PcapFile): (r: seq<PcapFile>)
    ensures !Named(m, f.name) ==> r == m + [f]
    ensures Named(m, f.name) ==> |r| == |m| && forall i :: 0 <= i < |m| ==> r[i] == if m[i].name == f.name then f else m[i]
  {
    if Named(m, f.name) then Replace(m, f) else m + [f]
  }

  /** A file is stored when its name is new, or when it is a user's file and the stored one is not. */
  predicate Replaces(existing: Option<PcapFile>, f: PcapFile) {
    existing.None? || (existing.value.kind != UserKind && f.kind == UserKind)
  }

  /** The `byName` map after the loop over the listing. */
  function ByName(files: seq<PcapFile>): seq<PcapFile> {
    if files == [] then []
    else
      var m := ByName(files[..|files| - 1]);
      var f := files[|files| - 1];
      if Replaces(Get(m, f.name), f) then Put(m, f) else m
  }

  /** What the map holds after the listing: one file per name, every one taken from the listing. */
  ghost predicate Picked(m: seq<PcapFile>, files: seq<PcapFile>) {
    && DistinctFileNames(m)
    && (forall g :: g in m ==> g in files)
    && (forall g :: g in files ==> Named(m, g.name))
    && (forall g :: g in files && g.kind == UserKind ==> UserNamed(m, g.name))
  }

  /** Storing the next item keeps every name once, and a user's file is never displaced. */
  lemma PickedStep(m: seq<PcapFile>, files: seq<PcapFile>)
    requires files != [] && Picked(m, files[..|files| - 1])
    ensures var f := files[|files| - 1];
      Picked(if Replaces(Get(m, f.name), f) then Put(m, f) else m, files)
  {
    var f := files[|files| - 1];
    assert files == files[..|files| - 1] + [f];
    if !Replaces(Get(m, f.name), f) {
      PickedKeep(m, files[..|files| - 1], f);
    } else if !Named(m, f.name) {
      PickedAppend(m, files[..|files| - 1], f);
    } else {
      PickedReplace(m, files[..|files| - 1], f, Put(m, f));
    }
  }

  lemma PickedKeep(m: seq<PcapFile>, before: seq<PcapFile>, f: PcapFile)
    requires Picked(m, before) && !Replaces(Get(m, f.name), f)
    ensures Picked(m, before + [f])
  {
    var g := Get(m, f.name).value;
    assert Named(m, f.name);
    if f.kind == UserKind {
      assert UserNamed(m, f.name);
    }
  }

  lemma PickedAppend(m: seq<PcapFile>, before: seq<PcapFile>, f: PcapFile)
    requires Picked(m, before) && !Named(m, f.name)
    ensures Picked(m + [f], before + [f])
  {
    var r := m + [f];
    assert forall g :: g in r ==> g in m || g == f;
    assert f in r;
    assert forall g :: g in m ==> g in r;
  }

  /** Replacing the entry named like `f` keeps the names distinct and every other entry. */
  lemma ReplacedMembers(m: seq<PcapFile>, f: PcapFile, r: seq<PcapFile>)
    requires DistinctFileNames(m) && Named(m, f.name)
    requires |r| == |m| && forall i :: 0 <= i < |m| ==> r[i] == if m[i].name == f.name then f else m[i]
    ensures DistinctFileNames(r) && f in r
    ensures forall g :: g in m && g.name != f.name ==> g in r
    ensures forall g :: g in r ==> g == f || g in m
  {
    assert forall i :: 0 <= i < |r| ==> r[i].name == m[i].name;
    assert f in r by {
      var i :| 0 <= i < |m| && m[i].name == f.name;
      assert r[i] == f;
    }
    forall g | g in m && g.name != f.name ensures g in r {
      var i :| 0 <= i < |m| && m[i] == g;
      assert r[i] == g;
    }
    forall g | g in r ensures g == f || g in m {
      var i :| 0 <= i < |r| && r[i] == g;
      if g != f {
        assert g == m[i];
      }
    }
  }

  lemma PickedReplace(m: seq<PcapFile>, before: seq<PcapFile>, f: PcapFile, r: seq<PcapFile>)
    requires Picked(m, before) && Named(m, f.name) && f.kind == UserKind
    requires |r| == |m| && forall i :: 0 <= i < |m| ==> r[i] == if m[i].name == f.name then f else m[i]
    ensures Picked(r, before + [f])
  {
    ReplacedMembers(m, f, r);
    assert forall g :: g in r ==> g in before + [f];
    assert forall g :: g in before + [f] ==> Named(r, g.name) by {
      forall g | g in before + [f] && g != f ensures Named(r, g.name) {
        var h :| h in m && h.name == g.name;
        if h.name != f.name {
          assert h in r;
        }
      }
    }
    assert forall g :: g in before + [f] && g.kind == UserKind ==> UserNamed(r, g.name) by {
      forall g | g in before + [f] && g.kind == UserKind && g != f ensures UserNamed(r, g.name) {
        var h :| h in m && h.name == g.name && h.kind == UserKind;
        if h.name != f.name {
          assert h in r;
        }
      }
    }
  }

  /**
   * After the loop the map holds one file per listed name, each one of the
   * listed files, and a user's file for every name some user file has.
   */
  lemma {:induction false} ByNamePicks(files: seq<PcapFile>)
    ensures Picked(ByName(files), files)
  {
    if files != [] {
      ByNamePicks(files[..|files| - 1]);
      PickedStep(ByName(files[..|files| - 1]), files);
    }
  }

  /** The users' files of the map, in its order. */
  function Users(m: seq<PcapFile>): (r: seq<PcapFile>)
    ensures forall f :: f in r ==> f.kind == UserKind
  {
    if m == [] then []
    else Users(m[..|m| - 1]) + if m[|m| - 1].kind == UserKind then [m[|m| - 1]] else []
  }

  /** The other files of the map, in its order. */
  function Samples(m: seq<PcapFile>): (r: seq<PcapFile>)
    ensures forall f :: f in r ==> f.kind != UserKind
  {
    if m == [] then []
    else Samples(m[..|m| - 1]) + if m[|m| - 1].kind != UserKind then [m[|m| - 1]] else []
  }

  lemma SplitSnoc(m: seq<PcapFile>, f: PcapFile)
    ensures Users(m + [f]) == Users(m) + if f.kind == UserKind then [f] else []
    ensures Samples(m + [f]) == Samples(m) + if f.kind != UserKind then [f] else []
  {
    assert (m + [f])[..|m|] == m;
  }

  /** Splitting the map into users' and other files loses and adds nothing. */
  lemma {:induction false} SplitKeepsAll(m: seq<PcapFile>)
    ensures multiset(Users(m)) + multiset(Samples(m)) == multiset(m)
  {
    if m != [] {
      SplitKeepsAll(m[..|m| - 1]);
      assert m == m[..|m| - 1] + [m[|m| - 1]];
    }
  }

  /** `a.name.toLowerCase().localeCompare(b.name.toLowerCase()) <= 0`, taking code-unit order for the locale's. */
  predicate NameOrder(a: PcapFile, b: PcapFile) {
    LexLessEq(ToLower(a.name), ToLower(b.name))
  }

  lemma NameOrderTotal()
    ensures Sorting.TotalPreorder(NameOrder)
  {
    forall a: PcapFile, b: PcapFile ensures NameOrder(a, b) || NameOrder(b, a) {
      LexTotal(ToLower(a.name), ToLower(b.name));
    }
    forall a: PcapFile, b: PcapFile, c: PcapFile | NameOrder(a, b) && NameOrder(b, c) ensures NameOrder(a, c) {
      LexTransitive(ToLower(a.name), ToLower(b.name), ToLower(c.name));
    }
  }

  /** The options of the picker: the users' files, then the others, each group by name ignoring case. */
  function PcapOptions(pcapFiles: Option<seq<PcapEntry>>): seq<PcapFile> {
    var m := ByName(Listing(pcapFiles.GetOr([])));
    NameOrderTotal();
    Sorting.Sort(Users(m), NameOrder) + Sorting.Sort(Samples(m), NameOrder)
  }

  /**
   * The options are the files the map holds, reordered: users' files come
   * before all others, and each group is in name order.
   */
  lemma PcapOptionsOrder(pcapFiles: Option<seq<PcapEntry>>)
    ensures var r := PcapOptions(pcapFiles);
      && multiset(r) == multiset(ByName(Listing(pcapFiles.GetOr([]))))
      && (forall i, j :: 0 <= i < j < |r| && r[j].kind == UserKind ==> r[i].kind == UserKind)
      && (forall i, j :: 0 <= i < j < |r| && (r[i].kind == UserKind <==> r[j].kind == UserKind) ==> NameOrder(r[i], r[j]))
  {
    var m := ByName(Listing(pcapFiles.GetOr([])));
    NameOrderTotal();
    var u := Sorting.Sort(Users(m), NameOrder);
    var s := Sorting.Sort(Samples(m), NameOrder);
    SplitKeepsAll(m);
    GroupsInOrder(u, s, Users(m), Samples(m));
  }

  /** Two sorted groups, the first all users' files and the second none, concatenate to the order the picker shows. */
  lemma GroupsInOrder(u: seq<PcapFile>, s: seq<PcapFile>, users: seq<PcapFile>, others: seq<PcapFile>)
    requires multiset(u) == multiset(users) && multiset(s) == multiset(others)
    requires forall f :: f in users ==> f.kind == UserKind
    requires forall f :: f in others ==> f.kind != UserKind
    requires Sorting.Sorted(u, NameOrder) && Sorting.Sorted(s, NameOrder)
    ensures var r := u + s;
      && (forall i, j :: 0 <= i < j < |r| && r[j].kind == UserKind ==> r[i].kind == UserKind)
      && (forall i, j :: 0 <= i < j < |r| && (r[i].kind == UserKind <==> r[j].kind == UserKind) ==> NameOrder(r[i], r[j]))
  {
    var r := u + s;
    assert forall k :: 0 <= k < |u| ==> u[k].kind == UserKind by {
      forall k | 0 <= k < |u| ensures u[k].kind == UserKind {
        assert u[k] in multiset(users);
      }
    }
    assert forall k :: 0 <= k < |s| ==> s[k].kind != UserKind by {
      forall k | 0 <= k < |s| ensures s[k].kind != UserKind {
        assert s[k] in multiset(others);
      }
    }
    forall i, j | 0 <= i < j < |r| && (r[i].kind == UserKind <==> r[j].kind == UserKind)
      ensures NameOrder(r[i], r[j])
    {
      if j < |u| {
        assert NameOrder(u[i], u[j]);
      } else {
        assert i >= |u|;
        assert NameOrder(s[i - |u|], s[j - |u|]);
      }
    }
  }

  /**
   * Every listed name has one option; a name with a user's file shows a
   * user's file; every option is one of the listed files (a bare name read
   * as a sample); a listing that is not an array shows nothing.
   */
  lemma PcapOptionsCover(pcapFiles: Option<seq<PcapEntry>>)
    ensures var r := PcapOptions(pcapFiles);
      var files := Listing(pcapFiles.GetOr([]));
      && (forall f :: f in r ==> f in files)
      && (forall f :: f in files ==> Named(r, f.name))
      && (forall f :: f in files && f.kind == UserKind ==> UserNamed(r, f.name))
      && (pcapFiles.None? ==> r == [])
  {
    var files := Listing(pcapFiles.GetOr([]));
    var m := ByName(files);
    ByNamePicks(files);
    PcapOptionsOrder(pcapFiles);
    SameMembers(PcapOptions(pcapFiles), m);
  }

  /** Two sequences with the same elements hold the same names and the same users' names. */
  lemma SameMembers(r: seq<PcapFile>, m: seq<PcapFile>)
    requires multiset(r) == multiset(m)
    ensures forall f :: f in r <==> f in m
    ensures forall n :: Named(m, n) ==> Named(r, n)
    ensures forall n :: UserNamed(m, n) ==> UserNamed(r, n)
  {
    assert forall f :: f in r <==> f in multiset(r);
    assert forall f :: f in m <==> f in multiset(m);
  }

  /** The loop over the listing that fills `byName`. */
  method FillByName(entries: seq<PcapEntry>) returns (byName: seq<PcapFile>)
    ensures byName == ByName(Listing(entries))
  {
    byName := [];
    var i := 0;
    while i < |entries|
      invariant 0 <= i <= |entries|
      invariant byName == ByName(Listing(entries[..i]))
    {
      assert entries[..i + 1][..i] == entries[..i];
      var f := AsFile(entries[i]);
      assert Listing(entries[..i + 1]) == Listing(entries[..i]) + [f];
      assert (Listing(entries[..i]) + [f])[..i] == Listing(entries[..i]);
      var existing := Get(byName, f.name);
      if existing.None? || (existing.value.kind != UserKind && f.kind == UserKind) {
        byName := Put(byName, f);
      }
      i := i + 1;
    }
    assert entries[..i] == entries;
  }

  /** The loop over `byName.values()` that separates the users' files from the others. */
  method GroupByKind(byName: seq<PcapFile>) returns (users: seq<PcapFile>, samples: seq<PcapFile>)
    ensures users == Users(byName) && samples == Samples(byName)
  {
    users, samples := [], [];
    var k := 0;
    while k < |byName|
      invariant 0 <= k <= |byName|
      invariant users == Users(byName[..k]) && samples == Samples(byName[..k])
    {
      assert byName[..k + 1] == byName[..k] + [byName[k]];
      SplitSnoc(byName[..k], byName[k]);
      if byName[k].kind == UserKind {
        users := users + [byName[k]];
      } else {
        samples := samples + [byName[k]];
      }
      k := k + 1;
    }
    assert byName[..k] == byName;
  }

  /**
   * The picker's option list as the page builds it: the map from the
   * listing (an empty one when the listing is not an array), the two
   * groups, then the two sorts.
   */
  method BuildPcapOptions(pcapFiles: Option<seq<PcapEntry>>) returns (options: seq<PcapFile>)
    ensures options == PcapOptions(pcapFiles)
  {
    var entries := if pcapFiles.Some? then pcapFiles.value else [];
    var byName := FillByName(entries);
    var users, samples := GroupByKind(byName);
    NameOrderTotal();
    options := Sorting.Sort(users, NameOrder) + Sorting.Sort(samples, NameOrder);
  }
}
