/**
 * The chart hash of `src/hashSimfile.ts`: the note data is minimized
 * measure by measure (pairs of rows are folded together while every second
 * row is blank), the tempo list is written as `beat=value` entries, and the
 * first 16 hex digits of the SHA-1 of the two texts together are the hash.
 */
module Hash {
  import opened Text
  import opened Types

  // ---------------------------------------------------------------------
  // NormaliseBPMs
  // ---------------------------------------------------------------------

  /** `${beat.toFixed(3)}=${value.toFixed(3)}` for one tempo point. */
  function BPMEntry(p: TimingPoint, host: Host): string {
    host.toFixed3(p.beat) + "=" + host.toFixed3(p.value)
  }

  function BPMEntries(bpms: seq<TimingPoint>, host: Host): (r: seq<string>)
    ensures |r| == |bpms|
  {
    seq(|bpms|, i requires 0 <= i < |bpms| => BPMEntry(bpms[i], host))
  }

  /** The tempo list as the hash sees it: the entries joined with `","`. */
  function NormaliseBPMs(bpms: seq<TimingPoint>, host: Host): string {
    JoinWith(BPMEntries(bpms, host), ",")
  }

  /** `toFixed(3)` never writes a comma. */
  ghost predicate CommaFreeFixed(host: Host) {
    forall x: real :: NoneIn(host.toFixed3(x), {','})
  }

  /**
   * One entry per tempo point, in declared order: splitting the normalised
   * text on `","` gives back exactly the entries, and no points give `""`.
   */
  lemma NormaliseBPMsEntries(bpms: seq<TimingPoint>, host: Host)
    requires CommaFreeFixed(host)
    ensures |bpms| == 0 ==> NormaliseBPMs(bpms, host) == ""
    ensures |bpms| > 0 ==>
      SplitOn(NormaliseBPMs(bpms, host), {','}) == BPMEntries(bpms, host)
  {
    var es := BPMEntries(bpms, host);
    forall k | 0 <= k < |es|
      ensures NoneIn(es[k], {','})
    {
      var p := bpms[k];
      assert NoneIn(host.toFixed3(p.beat), {','}) && NoneIn(host.toFixed3(p.value), {','});
      JoinFree([host.toFixed3(p.beat), host.toFixed3(p.value)], "=", {','});
      assert JoinWith([host.toFixed3(p.beat), host.toFixed3(p.value)], "=") == es[k];
    }
    if |bpms| > 0 {
      SplitOfJoin(es, ',', {','});
    }
  }

  // ---------------------------------------------------------------------
  // MinimizeMeasure
  // ---------------------------------------------------------------------

  /** A row with no character other than `'0'` (`/[^0]/u` finds nothing). */
  predicate IsZeroRow(row: string) {
    forall j :: 0 <= j < |row| ==> row[j] == '0'
  }

  /** Every odd-indexed row is blank. */
  predicate OddRowsZero(rows: seq<string>) {
    forall i :: 0 <= i < |rows| && i % 2 == 1 ==> IsZeroRow(rows[i])
  }

  /** The loop condition and the inner check together: one pass may fold. */
  predicate Halvable(rows: seq<string>) {
    |rows| % 2 == 0 && OddRowsZero(rows)
  }

  /** `rows.filter((e, i) => i % 2 === 0)`. */
  function EvenRows(rows: seq<string>): seq<string> {
    seq((|rows| + 1) / 2, i requires 0 <= i < (|rows| + 1) / 2 => rows[2 * i])
  }

  /**
   * The minimized measure: passes are repeated while the measure is
   * non-empty and halvable. The guard on a non-empty measure is the
   * correction this model makes (see `MinimizeAsWritten`).
   */
  function Minimized(rows: seq<string>): seq<string>
    decreases |rows|
  {
    if |rows| > 0 && Halvable(rows) then Minimized(EvenRows(rows)) else rows
  }

  /** The number of passes `Minimized` makes. */
  function Passes(rows: seq<string>): nat
    decreases |rows|
  {
    if |rows| > 0 && Halvable(rows) then 1 + Passes(EvenRows(rows)) else 0
  }

  function Pow2(k: nat): (r: nat)
    ensures r > 0
  {
    if k == 0 then 1 else 2 * Pow2(k - 1)
  }

  /**
   * A measure with an odd number of rows, or with a non-blank odd-indexed
   * row, comes back unchanged.
   */
  lemma MinimizedUnchanged(rows: seq<string>)
    requires |rows| % 2 == 1 || exists i :: 0 <= i < |rows| && i % 2 == 1 && !IsZeroRow(rows[i])
    ensures Minimized(rows) == rows && Passes(rows) == 0
  {
  }

  /** After `k` passes the measure has the input's length divided by `2^k`. */
  lemma {:induction false} MinimizedLength(rows: seq<string>)
    ensures |rows| == |Minimized(rows)| * Pow2(Passes(rows))
    decreases |rows|
  {
    if |rows| > 0 && Halvable(rows) {
      var e := EvenRows(rows);
      MinimizedLength(e);
      var q := Pow2(Passes(e));
      assert Minimized(rows) == Minimized(e);
      assert Pow2(Passes(rows)) == 2 * q;
      assert |rows| == 2 * |e|;
      LengthStep(|rows|, |e|, |Minimized(e)|, q);
    }
  }

  lemma LengthStep(n: nat, ne: nat, nr: nat, q: nat)
    requires ne == nr * q && n == 2 * ne
    ensures n == nr * (2 * q)
  {
  }

  /** After `k` passes the measure is every `2^k`-th row of the input, in order. */
  lemma {:induction false} MinimizedSamples(rows: seq<string>)
    ensures forall i :: 0 <= i < |Minimized(rows)| ==>
      i * Pow2(Passes(rows)) < |rows| && Minimized(rows)[i] == rows[i * Pow2(Passes(rows))]
    decreases |rows|
  {
    if |rows| > 0 && Halvable(rows) {
      var e := EvenRows(rows);
      MinimizedSamples(e);
      SamplesStep(rows, e, Minimized(e), Pow2(Passes(e)));
    }
  }

  lemma SamplesStep(rows: seq<string>, e: seq<string>, r: seq<string>, q: nat)
    requires |rows| > 0 && Halvable(rows) && e == EvenRows(rows)
    requires forall i :: 0 <= i < |r| ==> i * q < |e| && r[i] == e[i * q]
    ensures forall i :: 0 <= i < |r| ==> i * (2 * q) < |rows| && r[i] == rows[i * (2 * q)]
  {
    forall i | 0 <= i < |r|
      ensures i * (2 * q) < |rows| && r[i] == rows[i * (2 * q)]
    {
      var k := i * q;
      assert k < |e| && r[i] == e[k];
      assert e[k] == rows[2 * k];
      MulAssoc(i, q);
    }
  }

  /** Every row a pass drops is blank. */
  lemma {:induction false} MinimizedDropsBlank(rows: seq<string>)
    ensures forall j :: 0 <= j < |rows| && !IsKept(j, Passes(rows)) ==> IsZeroRow(rows[j])
    decreases |rows|
  {
    if |rows| > 0 && Halvable(rows) {
      var e := EvenRows(rows);
      MinimizedDropsBlank(e);
      var k := Passes(e);
      assert Passes(rows) == k + 1;
      assert |e| == |rows| / 2;
      forall j | 0 <= j < |rows| && !IsKept(j, k + 1)
        ensures IsZeroRow(rows[j])
      {
        if j % 2 == 0 {
          assert !IsKept(j / 2, k);
          assert e[j / 2] == rows[j];
        }
      }
    }
  }

  lemma MulAssoc(a: nat, b: nat)
    ensures a * (2 * b) == 2 * (a * b)
  {
  }

  /** `j` is a multiple of `2^k`: the row at `j` survives `k` passes. */
  predicate IsKept(j: nat, k: nat) {
    k == 0 || (j % 2 == 0 && IsKept(j / 2, k - 1))
  }

  /** The first row always survives. */
  lemma {:induction false} MinimizedKeepsFirst(rows: seq<string>)
    requires |rows| > 0
    ensures |Minimized(rows)| > 0 && Minimized(rows)[0] == rows[0]
    decreases |rows|
  {
    if Halvable(rows) {
      MinimizedKeepsFirst(EvenRows(rows));
    }
  }

  /** Every row of the result is a row of the input. */
  lemma {:induction false} MinimizedMembers(rows: seq<string>)
    ensures forall i :: 0 <= i < |Minimized(rows)| ==> Minimized(rows)[i] in rows
    decreases |rows|
  {
    if |rows| > 0 && Halvable(rows) {
      var e := EvenRows(rows);
      MinimizedMembers(e);
      assert forall i :: 0 <= i < |e| ==> e[i] in rows;
    }
  }

  /** A minimized measure cannot be folded again: it is empty or not halvable. */
  lemma {:induction false} MinimizedIsFinal(rows: seq<string>)
    ensures Minimized(rows) == [] || !Halvable(Minimized(rows))
    decreases |rows|
  {
    if |rows| > 0 && Halvable(rows) {
      MinimizedIsFinal(EvenRows(rows));
    }
  }

  /** Minimizing twice is minimizing once. */
  lemma MinimizedIdempotent(rows: seq<string>)
    ensures Minimized(Minimized(rows)) == Minimized(rows)
  {
    MinimizedIsFinal(rows);
  }

  /** The measure drawn in the source's comment folds to its two notes. */
  lemma MinimizedExample(rows: seq<string>)
    requires rows == ["1000", "0000", "0100", "0000"]
    ensures Minimized(rows) == ["1000", "0100"]
  {
    assert IsZeroRow(rows[1]) && IsZeroRow(rows[3]);
    assert Halvable(rows);
    var e := EvenRows(rows);
    assert e == ["1000", "0100"];
    assert e[1][1] != '0';
    assert !Halvable(e);
  }

  /**
   * `MinimizeMeasure` as written: its loop only tests for an even row
   * count, so it runs for as long as `fuel` lasts on the empty measure.
   * `None` means the fuel ran out.
   */
  function MinimizeAsWritten(rows: seq<string>, fuel: nat): Option<seq<string>>
    decreases fuel
  {
    if fuel == 0 then None
    else if Halvable(rows) then MinimizeAsWritten(EvenRows(rows), fuel - 1)
    else Some(rows)
  }

  /** An empty measure (two adjacent commas in the notes) never leaves the loop. */
  lemma {:induction false} EmptyMeasureNeverEnds(fuel: nat)
    ensures MinimizeAsWritten([], fuel) == None
    decreases fuel
  {
    if fuel > 0 {
      assert Halvable([]) && EvenRows([]) == [];
      EmptyMeasureNeverEnds(fuel - 1);
    }
  }

  /** On a non-empty measure the loop as written ends with `Minimized`. */
  lemma {:induction false} AsWrittenAgrees(rows: seq<string>, fuel: nat)
    requires |rows| > 0 && fuel > |rows|
    ensures MinimizeAsWritten(rows, fuel) == Some(Minimized(rows))
    decreases |rows|
  {
    if Halvable(rows) {
      AsWrittenAgrees(EvenRows(rows), fuel - 1);
    }
  }

  /** `MinimizeMeasure`, with the loop guarded by a non-empty measure. */
  method MinimizeMeasure(measureLines: seq<string>) returns (rows: seq<string>)
    ensures rows == Minimized(measureLines)
  {
    rows := measureLines;
    while |rows| > 0 && |rows| % 2 == 0
      invariant Minimized(rows) == Minimized(measureLines)
      decreases |rows|
    {
      var i := 1;
      while i < |rows|
        invariant 1 <= i && i % 2 == 1
        invariant forall j :: 0 <= j < i && j < |rows| && j % 2 == 1 ==> IsZeroRow(rows[j])
      {
        if !IsZeroRow(rows[i]) {
          assert !Halvable(rows);
          return;
        }
        i := i + 2;
      }
      assert Halvable(rows);
      rows := EvenRows(rows);
    }
  }

  // ---------------------------------------------------------------------
  // MinimizeChart
  // ---------------------------------------------------------------------

  const LineBreaks: set<char> := {'\r', '\n'}

  /** `measure.split(/[\r\n]+/u).filter((e) => e !== "")`. */
  function Rows(measure: string): seq<string> {
    NonEmpty(SplitRuns(measure, LineBreaks))
  }

  /** One measure of the minimized chart: its minimized rows joined with `"\n"`. */
  function MeasureText(measure: string): string {
    JoinWith(Minimized(Rows(measure)), "\n")
  }

  function MeasureTexts(measures: seq<string>): (r: seq<string>)
    ensures |r| == |measures|
  {
    seq(|measures|, i requires 0 <= i < |measures| => MeasureText(measures[i]))
  }

  /** The note data as the hash sees it. */
  function MinimizedChart(chart: string): string {
    JoinWith(MeasureTexts(SplitOn(chart, {','})), "\n,\n")
  }

  method MinimizeChart(chartStr: string) returns (s: string)
    ensures s == MinimizedChart(chartStr)
  {
    var measures := SplitOn(chartStr, {','});
    var newData: seq<string> := [];
    var i := 0;
    while i < |measures|
      invariant 0 <= i <= |measures| && |newData| == i
      invariant forall k :: 0 <= k < i ==> newData[k] == MeasureText(measures[k])
    {
      var min := MinimizeMeasure(Rows(measures[i]));
      newData := newData + [JoinWith(min, "\n")];
      i := i + 1;
    }
    assert newData == MeasureTexts(measures);
    s := JoinWith(newData, "\n,\n");
  }

  /** The rows of a measure are its non-empty lines, in order. */
  lemma RowsAreLines(measure: string)
    ensures Rows(measure) == NonEmpty(SplitOn(measure, LineBreaks))
  {
    RunsKeepNonEmpty(measure, LineBreaks);
  }

  /** Rows are non-empty, hold no line break, and no comma if the measure has none. */
  lemma RowsClean(measure: string)
    ensures forall k :: 0 <= k < |Rows(measure)| ==>
      Rows(measure)[k] != "" && NoneIn(Rows(measure)[k], LineBreaks)
      && (NoneIn(measure, {','}) ==> NoneIn(Rows(measure)[k], {','}))
  {
    var lines := SplitOn(measure, LineBreaks);
    RowsAreLines(measure);
    NonEmptyMembers(lines);
    SplitPiecesFree(measure, LineBreaks);
    if NoneIn(measure, {','}) {
      SplitKeepsFree(measure, LineBreaks, {','});
    }
  }

  /**
   * An extra line break next to another one changes no row: `"\r\n"` reads
   * as `"\n"`, and a blank line disappears.
   */
  lemma ExtraLineBreak(a: string, c: char, d: char, b: string)
    requires c in LineBreaks && d in LineBreaks
    ensures Rows(a + [c] + [d] + b) == Rows(a + [d] + b)
  {
    RowsAreLines(a + [c] + [d] + b);
    RowsAreLines(a + [d] + b);
    SplitDoubleSep(a, c, d, b, LineBreaks);
    SplitAroundSep(a, d, b, LineBreaks);
    NonEmptyBlankBetween(SplitOn(a, LineBreaks), SplitOn(b, LineBreaks));
  }

  /** Line breaks at either end of a measure change no row. */
  lemma RowsPadding(y: string, c: char)
    requires c in LineBreaks
    ensures Rows([c] + y) == Rows(y) && Rows(y + [c]) == Rows(y)
  {
    RowsAreLines(y);
    RowsAreLines([c] + y);
    RowsAreLines(y + [c]);
    SplitLeadingSep(c, y, LineBreaks);
    SplitTrailingSep(y, c, LineBreaks);
    NonEmptyDropsBlank(SplitOn(y, LineBreaks));
  }

  /** Reading the rows back from a minimized measure's text gives its rows. */
  lemma RowsOfJoined(rs: seq<string>)
    requires forall k :: 0 <= k < |rs| ==> rs[k] != "" && NoneIn(rs[k], LineBreaks)
    ensures Rows(JoinWith(rs, "\n")) == rs
  {
    RowsAreLines(JoinWith(rs, "\n"));
    if |rs| == 0 {
      assert SplitOn("", LineBreaks) == [""];
    } else {
      SplitOfJoin(rs, '\n', LineBreaks);
      NonEmptyKeepsAll(rs);
    }
  }

  /** A minimized measure's text minimizes to itself. */
  lemma MeasureTextIdempotent(measure: string)
    ensures MeasureText(MeasureText(measure)) == MeasureText(measure)
  {
    var rs := Minimized(Rows(measure));
    RowsClean(measure);
    MinimizedMembers(Rows(measure));
    RowsOfJoined(rs);
    MinimizedIdempotent(Rows(measure));
  }

  /** A measure's text has no comma when the measure has none. */
  lemma MeasureTextCommaFree(measure: string)
    requires NoneIn(measure, {','})
    ensures NoneIn(MeasureText(measure), {','})
  {
    var rs := Minimized(Rows(measure));
    RowsClean(measure);
    MinimizedMembers(Rows(measure));
    JoinFree(rs, "\n", {','});
  }

  /**
   * Splitting the re-joined chart on `","` finds the measures again, each
   * with a line break added at one or both ends, which no measure text sees.
   */
  lemma {:induction false} ChartSplit(ms: seq<string>)
    requires |ms| >= 1
    requires forall i :: 0 <= i < |ms| ==> NoneIn(ms[i], {','})
    ensures var s := SplitOn(JoinWith(ms, "\n,\n"), {','});
      |s| == |ms| && forall i :: 0 <= i < |ms| ==> MeasureText(s[i]) == MeasureText(ms[i])
    decreases |ms|
  {
    if |ms| == 1 {
      SplitNoSep(ms[0], {','});
    } else {
      var j := JoinWith(ms[1..], "\n,\n");
      ChartSplit(ms[1..]);
      var s' := SplitOn(j, {','});
      var head := ms[0] + "\n";
      ChartJoinStep(ms);
      SplitAroundSep(head, ',', "\n" + j, {','});
      assert NoneIn(head, {','});
      SplitNoSep(head, {','});
      SplitLeadingOther('\n', j, {','});
      var s := SplitOn(JoinWith(ms, "\n,\n"), {','});
      assert s == [head] + ([['\n'] + s'[0]] + s'[1..]);
      MeasurePadding(ms[0]);
      MeasurePadding(s'[0]);
      ChartSplitStep(ms, s', s, MeasureText);
    }
  }

  /** A line break added at either end leaves a measure's text as it was. */
  lemma MeasurePadding(y: string)
    ensures MeasureText(['\n'] + y) == MeasureText(y) && MeasureText(y + ['\n']) == MeasureText(y)
  {
    RowsPadding(y, '\n');
  }

  /**
   * The step of `ChartSplit` for any view `f` of a measure that ignores a
   * line break at either end.
   */
  lemma ChartSplitStep(ms: seq<string>, s': seq<string>, s: seq<string>, f: string -> string)
    requires |ms| > 1 && |s'| == |ms| - 1
    requires f(ms[0] + "\n") == f(ms[0]) && f(['\n'] + s'[0]) == f(s'[0])
    requires forall i :: 0 <= i < |s'| ==> f(s'[i]) == f(ms[1..][i])
    requires s == [ms[0] + "\n"] + ([['\n'] + s'[0]] + s'[1..])
    ensures |s| == |ms| && forall i :: 0 <= i < |ms| ==> f(s[i]) == f(ms[i])
  {
    forall i | 0 <= i < |ms|
      ensures f(s[i]) == f(ms[i])
    {
      if i >= 2 {
        assert s[i] == s'[i - 1] && ms[1..][i - 1] == ms[i];
      } else if i == 1 {
        assert s[1] == ['\n'] + s'[0] && ms[1..][0] == ms[1];
      }
    }
  }

  lemma ChartJoinStep(ms: seq<string>)
    requires |ms| > 1
    ensures JoinWith(ms, "\n,\n") == (ms[0] + "\n") + [','] + ("\n" + JoinWith(ms[1..], "\n,\n"))
  {
    var j := JoinWith(ms[1..], "\n,\n");
    assert JoinWith(ms, "\n,\n") == ms[0] + "\n,\n" + j;
  }

  /**
   * The chart minimizes to itself once minimized: the hash of a chart and
   * of its minimized notes agree. There are exactly as many measures, and
   * commas, as in the input.
   */
  lemma MinimizedChartIdempotent(chart: string)
    ensures MinimizedChart(MinimizedChart(chart)) == MinimizedChart(chart)
    ensures CountIn(MinimizedChart(chart), {','}) == CountIn(chart, {','})
  {
    var ps := SplitOn(chart, {','});
    var ms := MeasureTexts(ps);
    SplitPiecesFree(chart, {','});
    forall i | 0 <= i < |ms|
      ensures NoneIn(ms[i], {','})
    {
      MeasureTextCommaFree(ps[i]);
    }
    ChartSplit(ms);
    var s := SplitOn(MinimizedChart(chart), {','});
    forall i | 0 <= i < |ms|
      ensures MeasureText(s[i]) == ms[i]
    {
      MeasureTextIdempotent(ps[i]);
    }
    assert MeasureTexts(s) == ms;
    SplitCount(chart, {','});
    SplitCount(MinimizedChart(chart), {','});
  }

  // ---------------------------------------------------------------------
  // hashSimfileFromString
  // ---------------------------------------------------------------------

  datatype FileType = SM | SSC

  datatype HashError = SSCUnsupported

  /** `hashSimfileFromString`: SSC is refused, otherwise 16 hex digits of SHA-1. */
  function HashSimfile(bpms: seq<TimingPoint>, notes: string, fileType: FileType, host: Host)
    : (r: Result<string, HashError>)
    ensures r.Err? <==> fileType == SSC
    ensures r.Ok? ==> |r.value| == 16 && forall i :: 0 <= i < 16 ==> IsHexDigit(r.value[i])
  {
    var bpmStr := NormaliseBPMs(bpms, host);
    var minNotesStr := MinimizedChart(notes);
    if fileType == SSC then Err(SSCUnsupported)
    else Ok(host.sha1(minNotesStr + bpmStr)[..16])
  }

  /** Hashing the minimized notes gives the same hash as the notes. */
  lemma HashOfMinimizedNotes(bpms: seq<TimingPoint>, notes: string, fileType: FileType, host: Host)
    ensures HashSimfile(bpms, MinimizedChart(notes), fileType, host)
      == HashSimfile(bpms, notes, fileType, host)
  {
    MinimizedChartIdempotent(notes);
  }

  /** The hash is a prefix of the digest of the minimized notes and the tempo text. */
  lemma HashIsDigestPrefix(bpms: seq<TimingPoint>, notes: string, host: Host)
    ensures var r := HashSimfile(bpms, notes, SM, host);
      r.Ok? && r.value + host.sha1(MinimizedChart(notes) + NormaliseBPMs(bpms, host))[16..]
        == host.sha1(MinimizedChart(notes) + NormaliseBPMs(bpms, host))
  {
    var d := host.sha1(MinimizedChart(notes) + NormaliseBPMs(bpms, host));
    assert d[..16] + d[16..] == d;
  }
}
