/**
 * The breakdown generator of `src/breakdown.ts`: a two-state automaton over
 * the per-measure note counts that writes a short summary string, a
 * rewriting pass that folds `-`-joined numbers into sums, the total stream
 * count and the stream density.
 *
 * Stream sizes are kept in sixteenths of a measure: a stream measure with
 * `n` notes contributes `n / 16` measures, so the running sums of the source
 * are exact multiples of 1/16 and are held here as the whole number of
 * sixteenths.
 */
module Breakdown {
  import opened Text
  import opened Types

  /** `MIN_NOTES_TO_BE_CONSIDERED_STREAM`. */
  const StreamThreshold: nat := 16

  predicate IsStream(notes: nat) {
    notes >= StreamThreshold
  }

  datatype MinLevel = Basic | Medium

  datatype Phase = Break | Stream

  /** `n.toFixed(0)` for `n = s16 / 16`: round half up. */
  function RoundedMeasures(s16: nat): nat {
    (s16 + 8) / 16
  }

  /** The token written for a break run of `n` counted measures. */
  function BreakToken(n: nat, level: MinLevel): string {
    match level
    case Basic => if n <= 1 then "-" else " (" + NatToString(n) + ")"
    case Medium => if n <= 4 then "-" else if n < 32 then "/" else "|"
  }

  predicate EndsWithParen(s: string) {
    |s| > 0 && s[|s| - 1] == ')'
  }

  // ---------------------------------------------------------------------
  // calculateDetailed
  // ---------------------------------------------------------------------

  /** The variables of `calculateDetailed`: `bd`, `state`, `currentBreakSize`, `currentStreamSize`. */
  datatype Machine = Machine(bd: string, phase: Phase, breakSize: nat, stream16: nat)

  /** One measure through the automaton. */
  function Feed(m: Machine, notes: nat, level: MinLevel): Machine {
    if IsStream(notes) then
      var entered :=
        if m.phase == Stream then m
        else if m.bd != "" then Machine(m.bd + BreakToken(m.breakSize, level), Stream, 0, m.stream16)
        else m.(phase := Stream);
      entered.(stream16 := entered.stream16 + notes)
    else if m.phase == Stream then
      var sep := if EndsWithParen(m.bd) then " " else "";
      Machine(m.bd + sep + NatToString(RoundedMeasures(m.stream16)), Break, m.breakSize, 0)
    else
      m.(breakSize := m.breakSize + 1)
  }

  /** The automaton after the given measures, from the initial BREAK state. */
  function Run(npm: seq<nat>, level: MinLevel): Machine {
    if |npm| == 0 then Machine("", Break, 0, 0)
    else Feed(Run(npm[..|npm| - 1], level), npm[|npm| - 1], level)
  }

  /** The string `calculateDetailed` returns. */
  function Detailed(npm: seq<nat>, level: MinLevel): string {
    Run(npm, level).bd
  }

  method CalculateDetailed(npm: seq<nat>, level: MinLevel) returns (bd: string)
    ensures bd == Detailed(npm, level)
  {
    bd := "";
    var currentBreakSize: nat := 0;
    var currentStream16: nat := 0;
    var state := Break;
    for i := 0 to |npm|
      invariant Run(npm[..i], level) == Machine(bd, state, currentBreakSize, currentStream16)
    {
      assert npm[..i + 1][..i] == npm[..i];
      var notes := npm[i];
      if notes >= StreamThreshold {
        if state == Break {
          state := Stream;
          // the break is written only once something precedes it
          if bd != "" {
            bd := bd + BreakToken(currentBreakSize, level);
            currentBreakSize := 0;
          }
        }
        currentStream16 := currentStream16 + notes;
      } else if state == Stream {
        state := Break;
        if EndsWithParen(bd) {
          bd := bd + " " + NatToString(RoundedMeasures(currentStream16));
        } else {
          bd := bd + NatToString(RoundedMeasures(currentStream16));
        }
        currentStream16 := 0;
      } else {
        currentBreakSize := currentBreakSize + 1;
      }
    }
    assert npm[..|npm|] == npm;
  }

  // ---------------------------------------------------------------------
  // The level-free view of the automaton: which tokens it emits
  // ---------------------------------------------------------------------

  /** What the automaton writes, before it is rendered at a level. */
  datatype Event = Size(measures: nat) | Gap(count: nat)

  /** The automaton's state without its output; `started` says output exists. */
  datatype Tally = Tally(phase: Phase, breakSize: nat, stream16: nat, started: bool)

  function TallyFeed(t: Tally, notes: nat): Tally {
    if IsStream(notes) then
      if t.phase == Stream then t.(stream16 := t.stream16 + notes)
      else if t.started then Tally(Stream, 0, t.stream16 + notes, true)
      else t.(phase := Stream, stream16 := t.stream16 + notes)
    else if t.phase == Stream then Tally(Break, t.breakSize, 0, true)
    else t.(breakSize := t.breakSize + 1)
  }

  function TallyRun(npm: seq<nat>): Tally {
    if |npm| == 0 then Tally(Break, 0, 0, false)
    else TallyFeed(TallyRun(npm[..|npm| - 1]), npm[|npm| - 1])
  }

  /** The tokens one measure emits from a given state. */
  function StepEvents(t: Tally, notes: nat): seq<Event> {
    if IsStream(notes) then
      if t.phase == Break && t.started then [Gap(t.breakSize)] else []
    else if t.phase == Stream then [Size(RoundedMeasures(t.stream16))]
    else []
  }

  function Events(npm: seq<nat>): seq<Event> {
    if |npm| == 0 then []
    else Events(npm[..|npm| - 1]) + StepEvents(TallyRun(npm[..|npm| - 1]), npm[|npm| - 1])
  }

  /** The tokens as one level writes them. */
  function Render(evs: seq<Event>, level: MinLevel): string {
    if |evs| == 0 then ""
    else
      var pre := Render(evs[..|evs| - 1], level);
      var e := evs[|evs| - 1];
      if e.Gap? then pre + BreakToken(e.count, level)
      else pre + (if EndsWithParen(pre) then " " else "") + NatToString(e.measures)
  }

  lemma RenderSnoc(evs: seq<Event>, e: Event, level: MinLevel)
    ensures e.Gap? ==> Render(evs + [e], level) == Render(evs, level) + BreakToken(e.count, level)
    ensures e.Size? ==>
      Render(evs + [e], level) == Render(evs, level) + (if EndsWithParen(Render(evs, level)) then " " else "") + NatToString(e.measures)
  {
    assert (evs + [e])[..|evs|] == evs;
  }

  /**
   * Both levels run the same automaton: the state (phase, break counter,
   * stream size) is the level-free tally, and the output is the same event
   * sequence rendered at that level. So BASIC and MEDIUM emit the same
   * numbers at the same places and differ only in how a break is written.
   */
  lemma {:induction false} RunRendersEvents(npm: seq<nat>, level: MinLevel)
    ensures var m, t := Run(npm, level), TallyRun(npm);
      m.phase == t.phase && m.breakSize == t.breakSize && m.stream16 == t.stream16
      && (m.bd != "" <==> t.started)
      && m.bd == Render(Events(npm), level)
    decreases |npm|
  {
    if |npm| > 0 {
      var pre := npm[..|npm| - 1];
      var x := npm[|npm| - 1];
      RunRendersEvents(pre, level);
      FeedRendersStep(Run(pre, level), TallyRun(pre), Events(pre), x, level);
    }
  }

  /** One measure keeps the machine and its tally in step. */
  lemma FeedRendersStep(m: Machine, t: Tally, evs: seq<Event>, x: nat, level: MinLevel)
    requires m.phase == t.phase && m.breakSize == t.breakSize && m.stream16 == t.stream16
    requires (m.bd != "" <==> t.started) && m.bd == Render(evs, level)
    ensures var m', t' := Feed(m, x, level), TallyFeed(t, x);
      m'.phase == t'.phase && m'.breakSize == t'.breakSize && m'.stream16 == t'.stream16
      && (m'.bd != "" <==> t'.started)
      && m'.bd == Render(evs + StepEvents(t, x), level)
  {
    var step := StepEvents(t, x);
    if step == [] {
      assert evs + step == evs;
    } else {
      assert step == [step[0]];
      RenderSnoc(evs, step[0], level);
      if !IsStream(x) {
        NonEmptyNumeral(RoundedMeasures(m.stream16));
      }
    }
  }


  lemma NonEmptyNumeral(n: nat)
    ensures NatToString(n) != "" && !EndsWithParen(NatToString(n))
  {
    var s := NatToString(n);
    assert IsDigit(s[|s| - 1]);
  }

  /** The events alternate, starting with a stream size: size, gap, size, gap, ... */
  lemma {:induction false} EventsAlternate(npm: seq<nat>)
    ensures var evs, t := Events(npm), TallyRun(npm);
      (forall i :: 0 <= i < |evs| ==> (evs[i].Size? <==> i % 2 == 0))
      && (t.started <==> |evs| > 0)
      && (t.phase == Stream ==> |evs| % 2 == 0)
      && (t.phase == Break ==> |evs| == 0 || |evs| % 2 == 1)
    decreases |npm|
  {
    if |npm| > 0 {
      EventsAlternate(npm[..|npm| - 1]);
    }
  }

  lemma {:induction false} RenderHead(evs: seq<Event>, level: MinLevel)
    requires |evs| > 0 && evs[0].Size?
    ensures |Render(evs, level)| > 0 && IsDigit(Render(evs, level)[0])
    decreases |evs|
  {
    var pre := evs[..|evs| - 1];
    if |evs| == 1 {
      NonEmptyNumeral(evs[0].measures);
    } else {
      RenderHead(pre, level);
    }
  }

  /** The output never starts with a break token: it is empty or opens with a digit. */
  lemma DetailedStartsWithNumber(npm: seq<nat>, level: MinLevel)
    ensures Detailed(npm, level) == "" || IsDigit(Detailed(npm, level)[0])
  {
    RunRendersEvents(npm, level);
    EventsAlternate(npm);
    var evs := Events(npm);
    if |evs| > 0 {
      RenderHead(evs, level);
    }
  }

  lemma EventsSnoc(s: seq<nat>, x: nat)
    ensures TallyRun(s + [x]) == TallyFeed(TallyRun(s), x)
    ensures Events(s + [x]) == Events(s) + StepEvents(TallyRun(s), x)
  {
    assert (s + [x])[..|s|] == s;
  }

  lemma RunSnoc(s: seq<nat>, x: nat, level: MinLevel)
    ensures Run(s + [x], level) == Feed(Run(s, level), x, level)
  {
    assert (s + [x])[..|s|] == s;
  }

  /**
   * A stream run still open at the end of the input is never written; only
   * the break before it is, when something was written before that break.
   */
  lemma {:induction false} OpenStreamNotFlushed(npm: seq<nat>, tail: seq<nat>, level: MinLevel)
    requires forall i :: 0 <= i < |tail| ==> IsStream(tail[i])
    ensures var m := Run(npm, level);
      Detailed(npm + tail, level) ==
        m.bd + (if |tail| > 0 && m.phase == Break && m.bd != "" then BreakToken(m.breakSize, level) else "")
    decreases |tail|
  {
    if |tail| == 0 {
      assert npm + tail == npm;
    } else {
      var init := tail[..|tail| - 1];
      assert npm + tail == (npm + init) + [tail[|tail| - 1]];
      RunSnoc(npm + init, tail[|tail| - 1], level);
      OpenStreamNotFlushed(npm, init, level);
      if |init| > 0 {
        OpenStreamPhase(npm, init, level);
      } else {
        assert npm + init == npm;
      }
    }
  }

  lemma {:induction false} OpenStreamPhase(npm: seq<nat>, tail: seq<nat>, level: MinLevel)
    requires |tail| > 0 && forall i :: 0 <= i < |tail| ==> IsStream(tail[i])
    ensures Run(npm + tail, level).phase == Stream
    decreases |tail|
  {
    var init := tail[..|tail| - 1];
    assert npm + tail == (npm + init) + [tail[|tail| - 1]];
    RunSnoc(npm + init, tail[|tail| - 1], level);
    if |init| > 0 {
      OpenStreamPhase(npm, init, level);
    }
  }

  /** A run of `n` break measures. */
  function Rests(n: nat): (r: seq<nat>)
    ensures |r| == n && forall i :: 0 <= i < n ==> r[i] == 0
  {
    seq(n, _ => 0)
  }

  lemma {:induction false} RestsAccumulate(npm: seq<nat>, n: nat)
    requires TallyRun(npm).phase == Break
    ensures TallyRun(npm + Rests(n)) == TallyRun(npm).(breakSize := TallyRun(npm).breakSize + n)
    ensures Events(npm + Rests(n)) == Events(npm)
    decreases n
  {
    if n > 0 {
      assert npm + Rests(n) == (npm + Rests(n - 1)) + [0];
      RestsAccumulate(npm, n - 1);
      EventsSnoc(npm + Rests(n - 1), 0);
    } else {
      assert npm + Rests(0) == npm;
    }
  }

  /**
   * The break counter, for any chart: after a stream (whose measures are
   * tallied in `p`), `n` break measures and the next stream measure write
   * the stream's size and then a gap of the counter carried into the stream
   * plus `n - 1`. The measure that closes the stream is not counted, and the
   * counter is 0 again once the gap is written.
   */
  lemma {:induction false} BreakCounterRule(p: seq<nat>, n: nat, s: nat)
    requires TallyRun(p).phase == Stream && n >= 1 && IsStream(s)
    ensures var t := TallyRun(p);
      Events(p + Rests(n) + [s]) == Events(p) + [Size(RoundedMeasures(t.stream16)), Gap(t.breakSize + n - 1)]
      && TallyRun(p + Rests(n) + [s]) == Tally(Stream, 0, s, true)
  {
    var t := TallyRun(p);
    var w := p + Rests(n);
    StreamThenRests(p, n);
    GapOfCounter(w, s, t.breakSize + n - 1);
    assert Events(w) + [Gap(t.breakSize + n - 1)] == Events(p) + [Size(RoundedMeasures(t.stream16)), Gap(t.breakSize + n - 1)];
  }

  /** A stream measure after a written break of counter `b` writes a gap of `b` and resets the counter. */
  lemma {:induction false} GapOfCounter(w: seq<nat>, s: nat, b: nat)
    requires TallyRun(w) == Tally(Break, b, 0, true) && IsStream(s)
    ensures Events(w + [s]) == Events(w) + [Gap(b)]
    ensures TallyRun(w + [s]) == Tally(Stream, 0, s, true)
  {
    EventsSnoc(w, s);
  }

  /** The first break measure after a stream writes its size; it and the ones after it count from the carried counter. */
  lemma {:induction false} StreamThenRests(p: seq<nat>, n: nat)
    requires TallyRun(p).phase == Stream && n >= 1
    ensures TallyRun(p + Rests(n)) == Tally(Break, TallyRun(p).breakSize + n - 1, 0, true)
    ensures Events(p + Rests(n)) == Events(p) + [Size(RoundedMeasures(TallyRun(p).stream16))]
    decreases n
  {
    var pre := p + Rests(n - 1);
    assert p + Rests(n) == pre + [0];
    EventsSnoc(pre, 0);
    if n > 1 {
      StreamThenRests(p, n - 1);
    } else {
      assert pre == p;
    }
  }

  /**
   * Nothing resets the counter before the first stream: the break measures
   * that open a chart are carried into the first stream, and so into the
   * first gap that `BreakCounterRule` writes.
   */
  lemma {:induction false} LeadingRestsCarried(lead: nat, s: nat)
    requires IsStream(s)
    ensures TallyRun(Rests(lead) + [s]) == Tally(Stream, lead, s, false)
    ensures Events(Rests(lead) + [s]) == []
  {
    RestsAccumulate([], lead);
    assert [] + Rests(lead) == Rests(lead);
    EventsSnoc(Rests(lead), s);
  }

  /**
   * The break counter is reset only when a break is written, so the break
   * measures before the first stream are added to the first reported break,
   * and the measure that closes a stream is not counted.
   */
  lemma {:induction false} LeadingBreaksCarryOver(lead: nat, gap: nat)
    requires gap >= 1
    ensures Detailed(Rests(lead) + [16] + Rests(gap) + [16, 0], Basic) ==
      if lead + gap - 1 <= 1 then "1-1" else "1 (" + NatToString(lead + gap - 1) + ") 1"
  {
    var npm := Rests(lead) + [16] + Rests(gap) + [16, 0];
    var evs := CarryOverEvents(lead, gap);
    RenderSizeGapSize(npm, lead + gap - 1);
  }

  /** How BASIC writes a stream, one gap and a stream of one measure each. */
  lemma {:induction false} RenderSizeGapSize(npm: seq<nat>, g: nat)
    requires Events(npm) == [Size(1), Gap(g), Size(1)]
    ensures Detailed(npm, Basic) == if g <= 1 then "1-1" else "1 (" + NatToString(g) + ") 1"
  {
    RunRendersEvents(npm, Basic);
    RenderThree(g);
  }

  lemma RenderThree(g: nat)
    ensures Render([Size(1), Gap(g), Size(1)], Basic) == if g <= 1 then "1-1" else "1 (" + NatToString(g) + ") 1"
  {
    var e1, e2, e3 := [Size(1)], [Size(1), Gap(g)], [Size(1), Gap(g), Size(1)];
    RenderSnoc([], Size(1), Basic);
    assert [] + [Size(1)] == e1;
    assert NatToString(1) == "1";
    assert Render(e1, Basic) == "1";
    RenderSnoc(e1, Gap(g), Basic);
    assert e1 + [Gap(g)] == e2;
    var r2 := "1" + BreakToken(g, Basic);
    assert Render(e2, Basic) == r2;
    RenderSnoc(e2, Size(1), Basic);
    assert e2 + [Size(1)] == e3;
    RenderThreeText(g, r2, Render(e3, Basic));
  }

  lemma RenderThreeText(g: nat, r2: string, r3: string)
    requires r2 == "1" + BreakToken(g, Basic)
    requires r3 == r2 + (if EndsWithParen(r2) then " " else "") + "1"
    ensures r3 == if g <= 1 then "1-1" else "1 (" + NatToString(g) + ") 1"
  {
    if g <= 1 {
      assert r2 == "1-" && !EndsWithParen(r2);
      assert r2 + "" + "1" == "1-1";
    } else {
      var n := NatToString(g);
      assert r2 == "1 (" + n + ")";
      assert EndsWithParen(r2);
      assert r2 + " " + "1" == "1 (" + n + ") 1";
    }
  }

  lemma {:induction false} CarryOverEvents(lead: nat, gap: nat) returns (evs: seq<Event>)
    requires gap >= 1
    ensures evs == [Size(1), Gap(lead + gap - 1), Size(1)]
    ensures Events(Rests(lead) + [16] + Rests(gap) + [16, 0]) == evs
  {
    var d := CarryOverPrefix(lead, gap);
    EventsSnoc(d, 0);
    evs := [Size(1), Gap(lead + gap - 1), Size(1)];
    assert d + [0] == Rests(lead) + [16] + Rests(gap) + [16, 0];
  }

  /** Up to the second stream measure: one size written, the merged gap written. */
  lemma {:induction false} CarryOverPrefix(lead: nat, gap: nat) returns (d: seq<nat>)
    requires gap >= 1
    ensures d == Rests(lead) + [16] + Rests(gap) + [16]
    ensures TallyRun(d) == Tally(Stream, 0, 16, true)
    ensures Events(d) == [Size(1), Gap(lead + gap - 1)]
  {
    var c := CarryOverFirst(lead, gap);
    GapOfCounter(c, 16, lead + gap - 1);
    d := c + [16];
    assert [Size(1)] + [Gap(lead + gap - 1)] == [Size(1), Gap(lead + gap - 1)];
  }

  /** Through the first stream measure and the break run after it. */
  lemma {:induction false} CarryOverFirst(lead: nat, gap: nat) returns (c: seq<nat>)
    requires gap >= 1
    ensures c == Rests(lead) + [16] + Rests(gap)
    ensures TallyRun(c) == Tally(Break, lead + gap - 1, 0, true)
    ensures Events(c) == [Size(1)]
  {
    var b1 := CarryOverOpen(lead);
    RestsAccumulate(b1, gap - 1);
    c := b1 + Rests(gap - 1);
    RestsSplit(gap);
    assert c == Rests(lead) + [16] + Rests(gap);
  }

  /** The leading breaks, one stream measure, and the break that closes it. */
  lemma {:induction false} CarryOverOpen(lead: nat) returns (b1: seq<nat>)
    ensures b1 == Rests(lead) + [16, 0]
    ensures TallyRun(b1) == Tally(Break, lead, 0, true)
    ensures Events(b1) == [Size(1)]
  {
    var a := Rests(lead);
    RestsAccumulate([], lead);
    assert [] + a == a;
    EventsSnoc(a, 16);
    EventsSnoc(a + [16], 0);
    b1 := a + [16] + [0];
  }

  lemma RestsSplit(gap: nat)
    requires gap >= 1
    ensures Rests(gap) == [0] + Rests(gap - 1)
  {
  }

  /** The two example strings of the breakdown for one chart. */
  lemma DetailedExample()
    ensures Detailed([16, 16, 0, 0, 0, 16, 16, 16, 0], Basic) == "2 (2) 3"
    ensures Detailed([16, 16, 0, 0, 0, 16, 16, 16, 0], Medium) == "2-3"
  {
    var npm: seq<nat> := [16, 16, 0, 0, 0, 16, 16, 16, 0];
    var b := ExampleRun(npm, Basic);
    var m := ExampleRun(npm, Medium);
    assert NatToString(2) == "2" && NatToString(3) == "3";
    assert b == "2" + " (" + "2" + ")";
    assert b + " " + "3" == "2 (2) 3";
  }

  /** The example chart measure by measure: the text written before its last measure. */
  lemma ExampleRun(npm: seq<nat>, level: MinLevel) returns (bd6: string)
    requires npm == [16, 16, 0, 0, 0, 16, 16, 16, 0]
    ensures bd6 == "2" + BreakToken(2, level)
    ensures Detailed(npm, level) == bd6 + (if EndsWithParen(bd6) then " " else "") + NatToString(3)
  {
    var p := npm[..8];
    ExampleSecondStream(p, level);
    bd6 := "2" + BreakToken(2, level);
    RunSnoc(p, 0, level);
    assert p + [0] == npm;
  }

  /** The second stream, three measures long, still open. */
  lemma ExampleSecondStream(npm: seq<nat>, level: MinLevel)
    requires npm == [16, 16, 0, 0, 0, 16, 16, 16]
    ensures Run(npm, level) == Machine("2" + BreakToken(2, level), Stream, 0, 48)
  {
    var p := npm[..5];
    ExampleOpening(p, level);
    var q := p + [16];
    RunSnoc(p, 16, level);
    var q2 := q + [16];
    RunSnoc(q, 16, level);
    RunSnoc(q2, 16, level);
    assert q2 + [16] == npm;
  }

  /** The first stream of two measures and the three break measures after it. */
  lemma ExampleOpening(npm: seq<nat>, level: MinLevel)
    requires npm == [16, 16, 0, 0, 0]
    ensures Run(npm, level) == Machine("2", Break, 2, 0)
  {
    var p: seq<nat> := [];
    var p1 := p + [16];
    RunSnoc(p, 16, level);
    var p2 := p1 + [16];
    RunSnoc(p1, 16, level);
    var p3 := p2 + [0];
    RunSnoc(p2, 0, level);
    assert NatToString(2) == "2";
    var p4 := p3 + [0];
    RunSnoc(p3, 0, level);
    RunSnoc(p4, 0, level);
    assert p4 + [0] == npm;
  }

  // ---------------------------------------------------------------------
  // fullySimplify
  // ---------------------------------------------------------------------

  /** `outStr` and `curStr` of `fullySimplify`. */
  datatype Scan = Scan(out: string, cur: string)

  predicate IsDivider(c: char) {
    c == '|' || c == '/'
  }

  /** The sum of the `-`-separated numbers of a buffer. */
  function GroupSum(cur: string): nat {
    SumValues(SplitOn(cur, {'-'}))
  }

  function ScanChar(st: Scan, c: char): Scan {
    if IsDivider(c) then Scan(st.out + NatToString(GroupSum(st.cur)) + "*" + [c], "")
    else Scan(st.out, st.cur + [c])
  }

  function ScanFrom(st: Scan, s: string): Scan
    decreases |s|
  {
    if |s| == 0 then st else ScanFrom(ScanChar(st, s[0]), s[1..])
  }

  /** The text after the last buffer is flushed, before the trailing divider is dropped. */
  function Unstripped(s: string): string {
    var st := ScanFrom(Scan("", ""), s);
    if st.cur == "" then st.out
    else if '-' in st.cur then st.out + NatToString(GroupSum(st.cur)) + "*"
    else st.out + st.cur
  }

  predicate EndsWithDivisor(s: string) {
    |s| > 0 && (s[|s| - 1] == '|' || s[|s| - 1] == '/' || s[|s| - 1] == '-')
  }

  /**
   * The string `fullySimplify` returns: the flushed text with a trailing
   * `|`, `/` or `-` removed. Only a `/` or `|` written by the last divider
   * is ever removed, and nothing the result ends in would be removed again.
   */
  function FullySimplified(s: string): (r: string)
    ensures !EndsWithDivisor(r)
    ensures var u := Unstripped(s);
      u == r || (|u| == |r| + 1 && u[..|r|] == r && IsDivider(u[|r|]))
  {
    UnstrippedEnd(s);
    var u := Unstripped(s);
    if EndsWithDivisor(u) then u[..|u| - 1] else u
  }

  predicate NoDivider(s: string) {
    forall i :: 0 <= i < |s| ==> !IsDivider(s[i])
  }

  /** What the scan has written so far is empty or ends in `*` and a divider. */
  predicate OutShape(out: string) {
    out == "" || (|out| >= 2 && IsDivider(out[|out| - 1]) && out[|out| - 2] == '*')
  }

  lemma {:induction false} ScanShape(st: Scan, s: string)
    requires OutShape(st.out) && NoDivider(st.cur)
    ensures OutShape(ScanFrom(st, s).out) && NoDivider(ScanFrom(st, s).cur)
    decreases |s|
  {
    if |s| > 0 {
      var c := s[0];
      if IsDivider(c) {
        var o := st.out + NatToString(GroupSum(st.cur)) + "*" + [c];
        assert o[|o| - 1] == c && o[|o| - 2] == '*';
      } else {
        var cur := st.cur + [c];
        assert forall i :: 0 <= i < |cur| ==> cur[i] == (if i < |st.cur| then st.cur[i] else c);
      }
      ScanShape(ScanChar(st, c), s[1..]);
    }
  }

  /**
   * The flushed text never ends in `-`: a final buffer holding a `-` is
   * written as its sum and `*`. When it ends in a divider, a `*` precedes it.
   * So the `-` of the trailing-divisor pattern never matches.
   */
  lemma {:induction false} UnstrippedEnd(s: string)
    ensures var u := Unstripped(s); |u| > 0 ==> u[|u| - 1] != '-'
    ensures var u := Unstripped(s); |u| > 0 && IsDivider(u[|u| - 1]) ==> |u| >= 2 && u[|u| - 2] == '*'
  {
    ScanShape(Scan("", ""), s);
    var st := ScanFrom(Scan("", ""), s);
    var u := Unstripped(s);
    if st.cur == "" {
      assert u == st.out;
    } else if '-' in st.cur {
      assert u[|u| - 1] == '*';
    } else {
      assert u == st.out + st.cur;
      assert u[|u| - 1] == st.cur[|st.cur| - 1];
    }
  }

  /** Two `-`-joined numbers simplify to their sum and `*`, as `"2-3"` gives `"5*"`. */
  lemma {:induction false} SimplifyTwoGroups(a: string, b: string)
    requires AllDigits(a) && AllDigits(b)
    ensures FullySimplified(a + "-" + b) == NatToString(DigitsValue(a) + DigitsValue(b)) + "*"
  {
    TwoGroupsShape(a, b);
    SimplifyGroup(a + "-" + b);
    TwoGroupsSum(a, b);
  }

  /** Text with no divider but a `-` simplifies to the sum of its numbers and `*`. */
  lemma {:induction false} SimplifyGroup(g: string)
    requires NoDivider(g) && '-' in g
    ensures FullySimplified(g) == NatToString(GroupSum(g)) + "*"
  {
    LastGroup(g);
    SimplifiedSum(g, GroupSum(g));
  }

  /** A text flushed as one sum and `*` keeps its `*`: nothing is stripped. */
  lemma {:induction false} SimplifiedSum(s: string, v: nat)
    requires Unstripped(s) == NatToString(v) + "*"
    ensures FullySimplified(s) == NatToString(v) + "*"
  {
    var u := NatToString(v) + "*";
    assert u[|u| - 1] == '*';
  }

  lemma {:induction false} TwoGroupsShape(a: string, b: string)
    requires AllDigits(a) && AllDigits(b)
    ensures NoDivider(a + "-" + b) && '-' in a + "-" + b
  {
    var g := a + "-" + b;
    assert forall i :: 0 <= i < |g| ==> g[i] == (if i < |a| then a[i] else if i == |a| then '-' else b[i - |a| - 1]);
    assert g[|a|] == '-';
  }

  lemma {:induction false} TwoGroupsSum(a: string, b: string)
    requires AllDigits(a) && AllDigits(b)
    ensures GroupSum(a + "-" + b) == DigitsValue(a) + DigitsValue(b)
  {
    SplitNoSep(a, {'-'});
    SplitNoSep(b, {'-'});
    SplitAroundSep(a, '-', b, {'-'});
    var ps := SplitOn(a + "-" + b, {'-'});
    assert ps == [a, b];
    assert ps[..1] == [a] && [a][..0] == [];
    DigitsPrefixIsWhole(a);
    DigitsPrefixIsWhole(b);
    assert SumValues(ps) == SumValues([a]) + PieceValue(b);
  }

  method FullySimplify(partiallySimplified: string) returns (r: string)
    ensures r == FullySimplified(partiallySimplified)
  {
    var outStr := "";
    var curStr := "";
    for i := 0 to |partiallySimplified|
      invariant ScanFrom(Scan(outStr, curStr), partiallySimplified[i..]) == ScanFrom(Scan("", ""), partiallySimplified)
    {
      var c := partiallySimplified[i];
      assert partiallySimplified[i..][1..] == partiallySimplified[i + 1..];
      if c == '|' || c == '/' {
        outStr := outStr + NatToString(GroupSum(curStr)) + "*" + [c];
        curStr := "";
      } else {
        curStr := curStr + [c];
      }
    }
    if curStr != "" {
      if '-' in curStr {
        outStr := outStr + NatToString(GroupSum(curStr)) + "*";
      } else {
        outStr := outStr + curStr;
      }
    }
    if |outStr| > 0 && (outStr[|outStr| - 1] == '|' || outStr[|outStr| - 1] == '/' || outStr[|outStr| - 1] == '-') {
      r := outStr[..|outStr| - 1];
    } else {
      r := outStr;
    }
  }

  lemma {:induction false} ScanAppend(st: Scan, a: string, b: string)
    ensures ScanFrom(st, a + b) == ScanFrom(ScanFrom(st, a), b)
    decreases |a|
  {
    if |a| == 0 {
      assert a + b == b;
    } else {
      assert (a + b)[1..] == a[1..] + b;
      ScanAppend(ScanChar(st, a[0]), a[1..], b);
    }
  }

  /** Text without a divider only grows the buffer. */
  lemma {:induction false} ScanBuffers(st: Scan, g: string)
    requires forall i :: 0 <= i < |g| ==> !IsDivider(g[i])
    ensures ScanFrom(st, g) == Scan(st.out, st.cur + g)
    decreases |g|
  {
    if |g| == 0 {
      assert st.cur + g == st.cur;
    } else {
      ScanBuffers(ScanChar(st, g[0]), g[1..]);
      assert st.cur + [g[0]] + g[1..] == st.cur + g;
    }
  }

  /** Output already written is never revisited. */
  lemma {:induction false} ScanKeepsOutput(out: string, s: string)
    ensures ScanFrom(Scan(out, ""), s) == Scan(out + ScanFrom(Scan("", ""), s).out, ScanFrom(Scan("", ""), s).cur)
  {
    ScanKeepsOutputFrom(out, "", "", s);
    assert out + "" == out;
  }

  lemma {:induction false} ScanKeepsOutputFrom(out: string, o: string, cur: string, s: string)
    ensures ScanFrom(Scan(out + o, cur), s) == Scan(out + ScanFrom(Scan(o, cur), s).out, ScanFrom(Scan(o, cur), s).cur)
    decreases |s|
  {
    if |s| == 0 {
    } else if IsDivider(s[0]) {
      var o' := o + NatToString(GroupSum(cur)) + "*" + [s[0]];
      assert out + o + NatToString(GroupSum(cur)) + "*" + [s[0]] == out + o';
      assert ScanChar(Scan(out + o, cur), s[0]) == Scan(out + o', "");
      assert ScanChar(Scan(o, cur), s[0]) == Scan(o', "");
      ScanKeepsOutputFrom(out, o', "", s[1..]);
    } else {
      assert ScanChar(Scan(out + o, cur), s[0]) == Scan(out + o, cur + [s[0]]);
      ScanKeepsOutputFrom(out, o, cur + [s[0]], s[1..]);
    }
  }

  /**
   * A `/` or `|` turns the numbers buffered before it into their sum,
   * followed by `*` and the same divider; what follows is simplified on
   * its own.
   */
  lemma {:induction false} GroupThenDivider(g: string, c: char, rest: string)
    requires forall i :: 0 <= i < |g| ==> !IsDivider(g[i])
    requires IsDivider(c)
    ensures Unstripped(g + [c] + rest) == NatToString(GroupSum(g)) + "*" + [c] + Unstripped(rest)
  {
    var head := NatToString(GroupSum(g)) + "*" + [c];
    GroupThenDividerScan(g, c, rest);
    var st := ScanFrom(Scan("", ""), rest);
    ScanKeepsOutput(head, rest);
    assert ScanFrom(Scan("", ""), g + [c] + rest) == Scan(head + st.out, st.cur);
    if st.cur != "" && '-' in st.cur {
      var n := NatToString(GroupSum(st.cur));
      assert head + st.out + n + "*" == head + (st.out + n + "*");
    } else if st.cur != "" {
      assert head + st.out + st.cur == head + (st.out + st.cur);
    }
  }

  lemma {:induction false} GroupThenDividerScan(g: string, c: char, rest: string)
    requires forall i :: 0 <= i < |g| ==> !IsDivider(g[i])
    requires IsDivider(c)
    ensures ScanFrom(Scan("", ""), g + [c] + rest) == ScanFrom(Scan(NatToString(GroupSum(g)) + "*" + [c], ""), rest)
  {
    var head := NatToString(GroupSum(g)) + "*" + [c];
    ScanAppend(Scan("", ""), g + [c], rest);
    ScanAppend(Scan("", ""), g, [c]);
    ScanBuffers(Scan("", ""), g);
    assert "" + g == g;
    assert ScanFrom(Scan("", g), [c]) == Scan(head, "") by {
      assert "" + NatToString(GroupSum(g)) + "*" + [c] == head;
      assert [c][1..] == [];
    }
  }

  /** The final buffer becomes its sum and `*` when it holds a `-`, and is copied otherwise. */
  lemma LastGroup(g: string)
    requires forall i :: 0 <= i < |g| ==> !IsDivider(g[i])
    ensures Unstripped(g) == if '-' in g then NatToString(GroupSum(g)) + "*" else g
  {
    ScanBuffers(Scan("", ""), g);
    assert "" + g == g;
    var st := ScanFrom(Scan("", ""), g);
    assert st.out == "" && st.cur == g;
    if g != "" && '-' in g {
      assert "" + NatToString(GroupSum(g)) + "*" == NatToString(GroupSum(g)) + "*";
    }
  }

  lemma SimplifyExample(s: string)
    requires s == "2-3"
    ensures FullySimplified(s) == "5*"
  {
    assert NoneIn(s, {'|', '/'});
    LastGroup(s);
    GroupSumExample(s);
    assert NatToString(5) == "5";
  }

  lemma GroupSumExample(s: string)
    requires s == "2-3"
    ensures GroupSum(s) == 5
  {
    SplitAtFirst(s, {'-'}, 1);
    var two, three := s[..1], s[2..];
    SplitNoSep(three, {'-'});
    var p := SplitOn(s, {'-'});
    assert p == [two, three];
    assert p[..1] == [two] && p[..1][..0] == [];
    PieceValueOfNumeral(2);
    PieceValueOfNumeral(3);
    assert NatToString(2) == two && NatToString(3) == three;
    assert PieceValue(two) == 2 && PieceValue(three) == 3;
    assert SumValues(p[..1]) == 2;
    assert GroupSum(s) == SumValues(p);
  }

  // ---------------------------------------------------------------------
  // calculateTotal
  // ---------------------------------------------------------------------

  /** The stream measures' note counts summed: the total in sixteenths. */
  function StreamSum16(npm: seq<nat>): nat {
    if |npm| == 0 then 0
    else StreamSum16(npm[..|npm| - 1]) + (if IsStream(npm[|npm| - 1]) then npm[|npm| - 1] else 0)
  }

  function StreamCount(npm: seq<nat>): nat {
    if |npm| == 0 then 0
    else StreamCount(npm[..|npm| - 1]) + (if IsStream(npm[|npm| - 1]) then 1 else 0)
  }

  /** Every stream measure contributes at least one whole measure to the total. */
  lemma {:induction false} TotalAtLeastStreamCount(npm: seq<nat>)
    ensures StreamSum16(npm) >= 16 * StreamCount(npm)
    ensures StreamSum16(npm) == 0 <==> forall i :: 0 <= i < |npm| ==> !IsStream(npm[i])
    decreases |npm|
  {
    if |npm| > 0 {
      var pre := npm[..|npm| - 1];
      TotalAtLeastStreamCount(pre);
      assert forall i :: 0 <= i < |pre| ==> pre[i] == npm[i];
    }
  }

  /**
   * The decimal digits of `k / 16` after the point, for `0 < k < 16`:
   * `k / 16 == k * 625 / 10000`, so they are the four digits of `k * 625`
   * (zero-padded), without the trailing zeros `toString` never prints.
   */
  function Sixteenths(k: nat): string
    requires 0 < k < 16
  {
    FractionDigits(k * 625, 4)
  }

  /** `total.toString()` for `total = s16 / 16`. */
  function TotalText(s16: nat): string {
    NatToString(s16 / 16) + (if s16 % 16 == 0 then "" else "." + Sixteenths(s16 % 16))
  }

  /** The fraction digits denote exactly `k / 16` and end in a non-zero digit. */
  lemma SixteenthsExact(k: nat)
    requires 0 < k < 16
    ensures AllDigits(Sixteenths(k)) && |Sixteenths(k)| > 0 && Sixteenths(k)[|Sixteenths(k)| - 1] != '0'
    ensures DigitsValue(Sixteenths(k)) * 16 == k * Pow10(|Sixteenths(k)|)
  {
    assert Pow10(4) == 10000;
    FractionDigitsValue(k * 625, 4);
    var r := Sixteenths(k);
    Pow10Add(|r|, 4 - |r|);
    ScaleBack(DigitsValue(r), k, Pow10(4 - |r|), Pow10(|r|));
  }

  /** From `v * p == k * 625` and `q * p == 10000`: `v / q == k / 16`. */
  lemma ScaleBack(v: nat, k: nat, p: nat, q: nat)
    requires p > 0 && v * p == k * 625 && q * p == 10000
    ensures v * 16 == k * q
  {
    assert (v * 16) * p == k * 10000;
    assert (k * q) * p == k * 10000;
  }

  /**
   * The text of a total of `q` whole measures and `k` sixteenths reads back
   * as that total: the digits of `q`, then, only when `k` is not zero, a
   * point and fraction digits that denote exactly `k / 16` and do not end in
   * a zero.
   */
  lemma TotalTextDenotes(q: nat, k: nat)
    requires k < 16
    ensures k == 0 ==> TotalText(16 * q + k) == NatToString(q)
    ensures k != 0 ==> var fr := Sixteenths(k);
      TotalText(16 * q + k) == NatToString(q) + "." + fr
      && AllDigits(fr) && |fr| > 0 && fr[|fr| - 1] != '0'
      && DigitsValue(fr) * 16 == k * Pow10(|fr|)
  {
    WholeAndSixteenths(q, k);
    var w := NatToString(q);
    if k == 0 {
      assert w + "" == w;
    } else {
      SixteenthsExact(k);
      assert w + ("." + Sixteenths(k)) == w + "." + Sixteenths(k);
    }
  }

  lemma WholeAndSixteenths(q: nat, k: nat)
    requires k < 16
    ensures (16 * q + k) / 16 == q && (16 * q + k) % 16 == k
  {
  }

  method CalculateTotal(npm: seq<nat>) returns (total: string)
    ensures total == TotalText(StreamSum16(npm))
  {
    var total16: nat := 0;
    for i := 0 to |npm|
      invariant total16 == StreamSum16(npm[..i])
    {
      assert npm[..i + 1][..i] == npm[..i];
      var notes := npm[i];
      if notes >= StreamThreshold {
        total16 := total16 + notes;
      }
    }
    assert npm[..|npm|] == npm;
    total := TotalText(total16);
  }

  // ---------------------------------------------------------------------
  // calculateDensity
  // ---------------------------------------------------------------------

  /** `findIndex` of the first stream measure, -1 when there is none. */
  function FirstStream(npm: seq<nat>): (r: int)
    ensures -1 <= r < |npm|
  {
    if |npm| == 0 then -1
    else if IsStream(npm[0]) then 0
    else
      var k := FirstStream(npm[1..]);
      if k == -1 then -1 else k + 1
  }

  /** `findIndex` finds the first stream measure, and reports -1 exactly when there is none. */
  lemma {:induction false} FirstStreamIsFirst(npm: seq<nat>)
    ensures var r := FirstStream(npm);
      (r == -1 <==> forall i :: 0 <= i < |npm| ==> !IsStream(npm[i]))
      && (r >= 0 ==> IsStream(npm[r]) && forall i :: 0 <= i < r ==> !IsStream(npm[i]))
    decreases |npm|
  {
    if |npm| > 0 && !IsStream(npm[0]) {
      FirstStreamIsFirst(npm[1..]);
      assert forall i :: 1 <= i < |npm| ==> npm[i] == npm[1..][i - 1];
    }
  }

  function Reversed(s: seq<nat>): (r: seq<nat>)
    ensures |r| == |s|
  {
    if |s| == 0 then [] else [s[|s| - 1]] + Reversed(s[..|s| - 1])
  }

  lemma {:induction false} ReversedAt(s: seq<nat>)
    ensures forall i :: 0 <= i < |s| ==> Reversed(s)[i] == s[|s| - 1 - i]
    decreases |s|
  {
    if |s| > 0 {
      ReversedAt(s[..|s| - 1]);
    }
  }

  /** JavaScript `slice(start, end)`: negative bounds count from the end, all bounds clamp. */
  function Slice(s: seq<nat>, start: int, end: int): seq<nat> {
    var lo := if start < 0 then (if |s| + start < 0 then 0 else |s| + start) else (if start > |s| then |s| else start);
    var hi := if end < 0 then (if |s| + end < 0 then 0 else |s| + end) else (if end > |s| then |s| else end);
    if lo < hi then s[lo..hi] else []
  }

  /** `stream` (in sixteenths) and `breaks` after the loop of `calculateDensity`. */
  function DensityTally(span: seq<nat>): (nat, nat) {
    if |span| == 0 then (0, 0)
    else
      var (st, br) := DensityTally(span[..|span| - 1]);
      var notes := span[|span| - 1];
      if IsStream(notes) then (st + notes, br)
      else if st > 0 then (st, br + 1)
      else (st, br)
  }

  function DensitySpan(npm: seq<nat>): seq<nat> {
    Slice(npm, FirstStream(npm), |npm| - FirstStream(Reversed(npm)))
  }

  /** The percentage of the span's measures that are stream, given the loop's two sums. */
  function DensityValue(stream16: nat, breaks: nat): real {
    if breaks == 0 then 100.0
    else 100.0 * (stream16 as real / 16.0) / (stream16 as real / 16.0 + breaks as real)
  }

  /** The value `calculateDensity` returns. */
  function Density(npm: seq<nat>): real {
    var t := DensityTally(DensitySpan(npm));
    DensityValue(t.0, t.1)
  }

  method CalculateDensity(npm: seq<nat>) returns (density: real)
    ensures density == Density(npm)
  {
    var breaks: nat := 0;
    var stream16: nat := 0;
    var firstStream := FirstStream(npm);
    var lastStream := FirstStream(Reversed(npm));
    var span := Slice(npm, firstStream, |npm| - lastStream);
    assert span == DensitySpan(npm);
    for i := 0 to |span|
      invariant (stream16, breaks) == DensityTally(span[..i])
    {
      assert span[..i + 1][..i] == span[..i];
      var notes := span[i];
      if notes >= StreamThreshold {
        stream16 := stream16 + notes;
      } else if stream16 > 0 {
        // breaks only count once a stream has been seen
        breaks := breaks + 1;
      }
    }
    assert span[..|span|] == span;
    assert DensityTally(DensitySpan(npm)) == (stream16, breaks);
    if breaks == 0 {
      return 100.0;
    }
    density := 100.0 * (stream16 as real / 16.0) / (stream16 as real / 16.0 + breaks as real);
  }

  /** No break measure lies between the first and the last stream measure. */
  predicate Unbroken(npm: seq<nat>) {
    forall i, k, j :: 0 <= i < k < j < |npm| && IsStream(npm[i]) && IsStream(npm[j]) ==> IsStream(npm[k])
  }

  /** Over a span that opens with a stream measure, breaks are counted exactly when present. */
  lemma {:induction false} TallyCountsBreaks(span: seq<nat>)
    requires |span| > 0 && IsStream(span[0])
    ensures DensityTally(span).0 >= 16
    ensures DensityTally(span).1 == 0 <==> forall k :: 0 <= k < |span| ==> IsStream(span[k])
    decreases |span|
  {
    if |span| > 1 {
      var pre := span[..|span| - 1];
      TallyCountsBreaks(pre);
      assert forall k :: 0 <= k < |pre| ==> pre[k] == span[k];
    }
  }

  /** The span `calculateDensity` walks runs from the first to the last stream measure. */
  lemma SpanIsStreamRange(npm: seq<nat>)
    requires FirstStream(npm) >= 0
    ensures var f, l := FirstStream(npm), |npm| - 1 - FirstStream(Reversed(npm));
      f <= l < |npm| && DensitySpan(npm) == npm[f..l + 1]
      && IsStream(npm[f]) && (forall i :: 0 <= i < f ==> !IsStream(npm[i]))
      && IsStream(npm[l]) && (forall i :: l < i < |npm| ==> !IsStream(npm[i]))
  {
    FirstStreamIsFirst(npm);
    var f := FirstStream(npm);
    var l := LastStream(npm);
    var hi := |npm| - FirstStream(Reversed(npm));
    SliceWithin(npm, f, hi);
    assert DensitySpan(npm) == Slice(npm, f, hi);
  }

  lemma SliceWithin(s: seq<nat>, lo: int, hi: int)
    requires 0 <= lo < hi <= |s|
    ensures Slice(s, lo, hi) == s[lo..hi]
  {
  }

  /** The last stream measure, found as the first one of the reversed chart. */
  lemma LastStream(npm: seq<nat>) returns (l: int)
    requires FirstStream(npm) >= 0
    ensures l == |npm| - 1 - FirstStream(Reversed(npm))
    ensures FirstStream(npm) <= l < |npm| && IsStream(npm[l])
    ensures forall i :: l < i < |npm| ==> !IsStream(npm[i])
  {
    var rv := Reversed(npm);
    ReversedAt(npm);
    FirstStreamIsFirst(npm);
    FirstStreamIsFirst(rv);
    var f := FirstStream(npm);
    assert rv[|npm| - 1 - f] == npm[f];
    var r := FirstStream(rv);
    l := |npm| - 1 - r;
    assert rv[r] == npm[l];
    forall i | l < i < |npm| ensures !IsStream(npm[i]) {
      assert rv[|npm| - 1 - i] == npm[i];
    }
  }

  /** The number of break (non-stream) measures. */
  function BreakCount(npm: seq<nat>): nat {
    if |npm| == 0 then 0
    else BreakCount(npm[..|npm| - 1]) + (if IsStream(npm[|npm| - 1]) then 0 else 1)
  }

  /**
   * What the two sums of `calculateDensity` count: `stream` is the notes of
   * every stream measure of the chart (all of them lie in the span, so it is
   * sixteen times the chart's total), and `breaks` is the number of break
   * measures between the first and the last stream measure.
   */
  lemma {:induction false} DensityMeaning(npm: seq<nat>)
    requires FirstStream(npm) >= 0
    ensures var f, l := FirstStream(npm), |npm| - 1 - FirstStream(Reversed(npm));
      f <= l < |npm|
      && DensityTally(DensitySpan(npm)) == (StreamSum16(npm), BreakCount(npm[f..l + 1]))
      && Density(npm) == DensityValue(StreamSum16(npm), BreakCount(npm[f..l + 1]))
  {
    SpanIsStreamRange(npm);
    var f, l := FirstStream(npm), |npm| - 1 - FirstStream(Reversed(npm));
    SpanSums(npm, f, l);
  }

  /** From the first to the last stream measure, the sums are the chart's stream notes and the span's breaks. */
  lemma {:induction false} SpanSums(npm: seq<nat>, f: nat, l: nat)
    requires f <= l < |npm| && IsStream(npm[f])
    requires forall i :: 0 <= i < f ==> !IsStream(npm[i])
    requires forall i :: l < i < |npm| ==> !IsStream(npm[i])
    ensures DensityTally(npm[f..l + 1]) == (StreamSum16(npm), BreakCount(npm[f..l + 1]))
  {
    var span := npm[f..l + 1];
    assert span[0] == npm[f];
    TallyIsSums(span);
    StreamSumWithin(npm, f, l + 1);
  }

  /** Over a span that opens with a stream measure the loop's sums are the stream notes and the break count. */
  lemma {:induction false} TallyIsSums(span: seq<nat>)
    requires |span| > 0 && IsStream(span[0])
    ensures DensityTally(span) == (StreamSum16(span), BreakCount(span))
    decreases |span|
  {
    var pre := span[..|span| - 1];
    if |pre| > 0 {
      assert pre[0] == span[0];
      TallyIsSums(pre);
      TallyCountsBreaks(pre);
    }
  }

  /** Dropping break measures from both ends leaves the stream notes' sum unchanged. */
  lemma {:induction false} StreamSumWithin(npm: seq<nat>, lo: nat, hi: nat)
    requires lo <= hi <= |npm|
    requires forall i :: 0 <= i < lo ==> !IsStream(npm[i])
    requires forall i :: hi <= i < |npm| ==> !IsStream(npm[i])
    ensures StreamSum16(npm[lo..hi]) == StreamSum16(npm)
  {
    var a, b, c := npm[..lo], npm[lo..hi], npm[hi..];
    assert npm == a + b + c;
    StreamSumAppend(a + b, c);
    StreamSumAppend(a, b);
    assert forall i :: 0 <= i < |a| ==> a[i] == npm[i];
    assert forall i :: 0 <= i < |c| ==> c[i] == npm[hi + i];
    TotalAtLeastStreamCount(a);
    TotalAtLeastStreamCount(c);
  }

  lemma {:induction false} StreamSumAppend(a: seq<nat>, b: seq<nat>)
    ensures StreamSum16(a + b) == StreamSum16(a) + StreamSum16(b)
    decreases |b|
  {
    if |b| > 0 {
      var b' := b[..|b| - 1];
      assert (a + b)[..|a + b| - 1] == a + b';
      StreamSumAppend(a, b');
    } else {
      assert a + b == a;
    }
  }

  /**
   * The density is 100 exactly when no break measure lies between the first
   * and the last stream measure; otherwise it lies strictly between 0 and 100.
   */
  lemma DensityFullIffUnbroken(npm: seq<nat>)
    ensures Density(npm) == 100.0 <==> Unbroken(npm)
    ensures !Unbroken(npm) ==> 0.0 < Density(npm) < 100.0
  {
    if !Unbroken(npm) {
      DensityBelowFull(npm);
    } else if FirstStream(npm) == -1 {
      FirstStreamIsFirst(npm);
      NoStreamTally(DensitySpan(npm));
    } else {
      SpanIsStreamRange(npm);
      var f, l := FirstStream(npm), |npm| - 1 - FirstStream(Reversed(npm));
      UnbrokenSpan(npm, f, l);
      DensityWhenUnbroken(npm, f, l);
    }
  }

  lemma DensityWhenUnbroken(npm: seq<nat>, f: nat, l: nat)
    requires f <= l < |npm| && DensitySpan(npm) == npm[f..l + 1]
    requires forall k :: f <= k <= l ==> IsStream(npm[k])
    ensures Density(npm) == 100.0
  {
    var span := DensitySpan(npm);
    assert forall k :: 0 <= k < |span| ==> IsStream(span[k]) by {
      assert forall k :: 0 <= k < |span| ==> span[k] == npm[f + k];
    }
    TallyCountsBreaks(span);
  }

  lemma UnbrokenSpan(npm: seq<nat>, f: nat, l: nat)
    requires Unbroken(npm) && f <= l < |npm| && IsStream(npm[f]) && IsStream(npm[l])
    ensures forall k :: f <= k <= l ==> IsStream(npm[k])
  {
  }

  lemma DensityBelowFull(npm: seq<nat>)
    requires !Unbroken(npm)
    ensures 0.0 < Density(npm) < 100.0
  {
    var i, k, j := BreakWitness(npm);
    FirstStreamIsFirst(npm);
    SpanIsStreamRange(npm);
    var f, l := FirstStream(npm), |npm| - 1 - FirstStream(Reversed(npm));
    assert f <= i && j <= l;
    DensityWhenBroken(npm, f, l, k);
  }

  lemma BreakWitness(npm: seq<nat>) returns (i: nat, k: nat, j: nat)
    requires !Unbroken(npm)
    ensures i < k < j < |npm| && IsStream(npm[i]) && IsStream(npm[j]) && !IsStream(npm[k])
  {
    i, k, j :| 0 <= i < k < j < |npm| && IsStream(npm[i]) && IsStream(npm[j]) && !IsStream(npm[k]);
  }

  lemma DensityWhenBroken(npm: seq<nat>, f: nat, l: nat, k: nat)
    requires f <= k <= l < |npm| && DensitySpan(npm) == npm[f..l + 1]
    requires IsStream(npm[f]) && !IsStream(npm[k])
    ensures 0.0 < Density(npm) < 100.0
  {
    var span := DensitySpan(npm);
    assert span[0] == npm[f] && span[k - f] == npm[k];
    TallyCountsBreaks(span);
    var (st, br) := DensityTally(span);
    FractionBelowWhole(st as real / 16.0, br as real);
  }

  lemma FractionBelowWhole(x: real, b: real)
    requires x >= 1.0 && b >= 1.0
    ensures 0.0 < 100.0 * x / (x + b) < 100.0
  {
    assert 100.0 * x < 100.0 * (x + b);
  }

  lemma {:induction false} NoStreamTally(span: seq<nat>)
    requires forall k :: 0 <= k < |span| ==> !IsStream(span[k])
    ensures DensityTally(span) == (0, 0)
    decreases |span|
  {
    if |span| > 0 {
      NoStreamTally(span[..|span| - 1]);
    }
  }

  lemma DensityExample(npm: seq<nat>)
    requires npm == [16, 16, 0, 0, 0, 16, 16, 16, 0]
    ensures Density(npm) == 62.5
    ensures TotalText(StreamSum16(npm)) == "5"
  {
    SpanIsStreamRange(npm);
    var l := |npm| - 1 - FirstStream(Reversed(npm));
    assert IsStream(npm[7]) && !IsStream(npm[8]);
    assert l == 7;
    var span := npm[..8];
    assert DensitySpan(npm) == span;
    ExampleSums(span);
    assert DensityTally(span) == (80, 3);
    assert 100.0 * (80.0 / 16.0) / (80.0 / 16.0 + 3.0) == 62.5;
    assert npm == span + [0];
    assert StreamSum16(npm) == StreamSum16(span) by {
      assert npm[..|npm| - 1] == span;
    }
    assert NatToString(5) == "5";
  }

  /** The density loop and the stream total over the example's span, one measure at a time. */
  lemma ExampleSums(span: seq<nat>)
    requires span == [16, 16, 0, 0, 0, 16, 16, 16]
    ensures DensityTally(span) == (80, 3) && StreamSum16(span) == 80
  {
    var p: seq<nat> := [];
    var i := 0;
    var expected := [(16, 0, 16), (32, 0, 32), (32, 1, 32), (32, 2, 32), (32, 3, 32), (48, 3, 48), (64, 3, 64), (80, 3, 80)];
    while i < 8
      invariant 0 <= i <= 8 && p == span[..i]
      invariant i > 0 ==> DensityTally(p) == (expected[i - 1].0, expected[i - 1].1) && StreamSum16(p) == expected[i - 1].2
    {
      assert span[..i + 1][..i] == p;
      p := span[..i + 1];
      i := i + 1;
    }
    assert p == span;
  }

  // ---------------------------------------------------------------------
  // CreateBreakdowns
  // ---------------------------------------------------------------------

  /** The breakdown record of a chart, or None when no measure is stream. */
  function CreateBreakdowns(npm: seq<nat>): (r: Option<Breakdown>)
    ensures r.None? <==> forall i :: 0 <= i < |npm| ==> !IsStream(npm[i])
  {
    if forall i :: 0 <= i < |npm| ==> !IsStream(npm[i]) then None
    else
      var partiallySimplified := Detailed(npm, Medium);
      Some(Breakdown(
        Detailed(npm, Basic),
        partiallySimplified,
        FullySimplified(partiallySimplified),
        TotalText(StreamSum16(npm)),
        Density(npm)))
  }

  /** A chart with streams always gets a breakdown, and its parts are as derived above. */
  lemma BreakdownExample()
    ensures CreateBreakdowns([16, 16, 0, 0, 0, 16, 16, 16, 0])
      == Some(Breakdown("2 (2) 3", "2-3", "5*", "5", 62.5))
  {
    DetailedExample();
    SimplifyExample("2-3");
    DensityExample([16, 16, 0, 0, 0, 16, 16, 16, 0]);
    var npm: seq<nat> := [16, 16, 0, 0, 0, 16, 16, 16, 0];
    assert IsStream(npm[0]);
  }
}
