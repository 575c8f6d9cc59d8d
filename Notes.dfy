/**
 * The per-chart part of `src/parser.ts`: how one `#NOTES` value becomes a
 * chart record, with its note counts per measure, its stream tempo tier,
 * its duration and its notes per second.
 */
module Notes {
  import opened Text
  import opened Types
  import opened Breakdown
  import opened Hash

  // ---------------------------------------------------------------------
  // #countNotesPerMeasure
  // ---------------------------------------------------------------------

  /** Tap notes, hold heads and roll heads (`/[124]/u`). */
  const NoteChars: set<char> := {'1', '2', '4'}

  predicate HasNote(line: string) {
    exists j :: 0 <= j < |line| && line[j] in NoteChars
  }

  /** The number of lines holding a note. */
  function NoteLines(lines: seq<string>): nat {
    if |lines| == 0 then 0
    else NoteLines(lines[..|lines| - 1]) + (if HasNote(lines[|lines| - 1]) then 1 else 0)
  }

  /** The count of one measure: its lines are cut at runs of `"\n"` only. */
  function MeasureNotes(measure: string): nat {
    NoteLines(SplitRuns(measure, {'\n'}))
  }

  function NotesPerMeasure(notes: string): (r: seq<nat>)
    ensures |r| == |SplitOn(notes, {','})|
  {
    var measures := SplitOn(notes, {','});
    seq(|measures|, i requires 0 <= i < |measures| => MeasureNotes(measures[i]))
  }

  method CountNotesPerMeasure(notes: string) returns (notesPerMeasure: seq<nat>)
    ensures notesPerMeasure == NotesPerMeasure(notes)
  {
    notesPerMeasure := [];
    var measures := SplitOn(notes, {','});
    for m := 0 to |measures|
      invariant |notesPerMeasure| == m
      invariant forall k :: 0 <= k < m ==> notesPerMeasure[k] == MeasureNotes(measures[k])
    {
      var count := 0;
      var lines := SplitRuns(measures[m], {'\n'});
      for k := 0 to |lines|
        invariant count == NoteLines(lines[..k])
      {
        assert lines[..k + 1][..k] == lines[..k];
        if HasNote(lines[k]) {
          count := count + 1;
        }
      }
      assert lines[..|lines|] == lines;
      assert count == MeasureNotes(measures[m]);
      notesPerMeasure := notesPerMeasure + [count];
    }
  }

  /** One count per comma-separated piece: one more than there are commas. */
  lemma MeasureCount(notes: string)
    ensures |NotesPerMeasure(notes)| == CountIn(notes, {','}) + 1
  {
    SplitCount(notes, {','});
  }

  /**
   * A count never exceeds the number of lines; it is zero exactly when no
   * line holds a note and equals the line count exactly when every line does.
   */
  lemma {:induction false} NoteLinesBounds(lines: seq<string>)
    ensures NoteLines(lines) <= |lines|
    ensures NoteLines(lines) == 0 <==> forall k :: 0 <= k < |lines| ==> !HasNote(lines[k])
    ensures NoteLines(lines) == |lines| <==> forall k :: 0 <= k < |lines| ==> HasNote(lines[k])
    decreases |lines|
  {
    if |lines| > 0 {
      var pre := lines[..|lines| - 1];
      NoteLinesBounds(pre);
      assert forall k :: 0 <= k < |pre| ==> pre[k] == lines[k];
    }
  }

  // ---------------------------------------------------------------------
  // getTierBPM
  // ---------------------------------------------------------------------

  /**
   * `noteFreqDist[k]` in sixteenths: each stream measure with `k` notes adds
   * `k / 16` measures of stream to the bucket of `k`.
   */
  function Bucket(npm: seq<nat>, k: nat): nat {
    if |npm| == 0 then 0
    else Bucket(npm[..|npm| - 1], k) + (if npm[|npm| - 1] == k && IsStream(k) then k else 0)
  }

  /**
   * The bucket of `k` exists and holds at least 5% of all stream:
   * `B / 16 >= (T / 16) * 0.05` is `20 * B >= T` in sixteenths.
   */
  predicate Qualifies(npm: seq<nat>, k: nat) {
    IsStream(k) && Bucket(npm, k) > 0 && 20 * Bucket(npm, k) >= StreamSum16(npm)
  }

  /** The first qualifying note count at or below `k`, counting down. */
  function TierFrom(npm: seq<nat>, k: nat): Option<nat>
    decreases k
  {
    if k < StreamThreshold then None
    else if Qualifies(npm, k) then Some(k)
    else TierFrom(npm, k - 1)
  }

  /** Every key of the distribution is at most the total, so the count-down starts there. */
  function Tier(npm: seq<nat>): Option<nat> {
    TierFrom(npm, StreamSum16(npm))
  }

  /** No point's tempo exceeds the first one's by more than 1 (lower ones may). */
  predicate WithinOneOfFirst(bpms: seq<TimingPoint>)
    requires |bpms| > 0
  {
    forall i :: 0 <= i < |bpms| ==> bpms[i].value - bpms[0].value <= 1.0
  }

  /** A tempo scaled by a note count over 16 (`bpm * (key / 16)`). */
  function Scaled(bpm: real, key: nat): real {
    bpm * (key as real / 16.0)
  }

  function TierBPM(bpms: seq<TimingPoint>, npm: seq<nat>): Option<real> {
    if |bpms| == 0 || !WithinOneOfFirst(bpms) then None
    else
      match Tier(npm)
      case Some(k) => Some(Scaled(bpms[0].value, k))
      case None => Some(bpms[0].value)
  }

  method GetTierBPM(bpms: seq<TimingPoint>, notesPerMeasure: seq<nat>) returns (r: Option<real>)
    ensures r == TierBPM(bpms, notesPerMeasure)
  {
    if |bpms| == 0 {
      return None;
    }
    var firstBPM := bpms[0].value;
    for i := 0 to |bpms|
      invariant forall j :: 0 <= j < i ==> bpms[j].value - firstBPM <= 1.0
    {
      if bpms[i].value - firstBPM > 1.0 {
        return None;
      }
    }
    var noteFreqDist: map<nat, nat> := map[];
    var totalStream: nat := 0;
    for i := 0 to |notesPerMeasure|
      invariant totalStream == StreamSum16(notesPerMeasure[..i])
      invariant IsDistribution(noteFreqDist, notesPerMeasure[..i])
    {
      var notes := notesPerMeasure[i];
      assert notesPerMeasure[..i + 1] == notesPerMeasure[..i] + [notes];
      DistributionStep(noteFreqDist, notesPerMeasure[..i], notes);
      if notes < StreamThreshold {
        continue;
      }
      if notes in noteFreqDist {
        noteFreqDist := noteFreqDist[notes := noteFreqDist[notes] + notes];
      } else {
        noteFreqDist := noteFreqDist[notes := notes];
      }
      totalStream := totalStream + notes;
    }
    assert notesPerMeasure[..|notesPerMeasure|] == notesPerMeasure;
    assert WithinOneOfFirst(bpms);
    var key: nat := totalStream;
    while key >= StreamThreshold
      invariant TierFrom(notesPerMeasure, key) == Tier(notesPerMeasure)
    {
      if key in noteFreqDist && 20 * noteFreqDist[key] >= totalStream {
        TierFound(bpms, notesPerMeasure, key);
        return Some(Scaled(firstBPM, key));
      }
      assert !Qualifies(notesPerMeasure, key);
      key := key - 1;
    }
    TierFound(bpms, notesPerMeasure, key);
    return Some(firstBPM);
  }

  /** The count-down's answer once it stops at `key`. */
  lemma TierFound(bpms: seq<TimingPoint>, npm: seq<nat>, key: nat)
    requires |bpms| > 0 && WithinOneOfFirst(bpms) && TierFrom(npm, key) == Tier(npm)
    ensures key >= StreamThreshold && Qualifies(npm, key) ==>
      TierBPM(bpms, npm) == Some(Scaled(bpms[0].value, key))
    ensures key < StreamThreshold ==> TierBPM(bpms, npm) == Some(bpms[0].value)
  {
    if key >= StreamThreshold && Qualifies(npm, key) {
      assert TierFrom(npm, key) == Some(key);
    }
  }

  /** `dist` holds exactly the filled buckets of `npm`, each with its sum. */
  ghost predicate IsDistribution(dist: map<nat, nat>, npm: seq<nat>) {
    (forall k: nat :: k in dist <==> Bucket(npm, k) > 0)
    && (forall k :: k in dist ==> dist[k] == Bucket(npm, k))
  }

  /** Adding one measure's count to the distribution, as the loop does. */
  lemma DistributionStep(dist: map<nat, nat>, npm: seq<nat>, x: nat)
    requires IsDistribution(dist, npm)
    ensures !IsStream(x) ==> IsDistribution(dist, npm + [x])
    ensures IsStream(x) ==>
      IsDistribution(dist[x := (if x in dist then dist[x] else 0) + x], npm + [x])
  {
    BucketSnoc(npm, x);
  }

  lemma BucketSnoc(s: seq<nat>, x: nat)
    ensures StreamSum16(s + [x]) == StreamSum16(s) + (if IsStream(x) then x else 0)
    ensures forall k: nat :: Bucket(s + [x], k) == Bucket(s, k) + (if x == k && IsStream(k) then k else 0)
  {
    assert (s + [x])[..|s|] == s;
  }

  /** A bucket is a share of the total, and a filled bucket holds at least its key. */
  lemma {:induction false} BucketBounds(npm: seq<nat>, k: nat)
    ensures Bucket(npm, k) <= StreamSum16(npm)
    ensures Bucket(npm, k) > 0 ==> IsStream(k) && k <= Bucket(npm, k)
    decreases |npm|
  {
    if |npm| > 0 {
      BucketBounds(npm[..|npm| - 1], k);
    }
  }

  /** The count-down from `k` finds the largest qualifying count not above `k`. */
  lemma {:induction false} TierFromIsLargest(npm: seq<nat>, k: nat)
    ensures TierFrom(npm, k).Some? ==>
      var t := TierFrom(npm, k).value;
      t <= k && Qualifies(npm, t) && forall j: nat :: t < j <= k ==> !Qualifies(npm, j)
    ensures TierFrom(npm, k).None? ==> forall j: nat :: j <= k ==> !Qualifies(npm, j)
    decreases k
  {
    if k >= StreamThreshold && !Qualifies(npm, k) {
      TierFromIsLargest(npm, k - 1);
    }
  }

  /**
   * The tier is the largest note count whose bucket holds at least 5% of
   * the stream; when there is none, no count qualifies at all.
   */
  lemma TierIsLargest(npm: seq<nat>)
    ensures Tier(npm).Some? ==>
      Qualifies(npm, Tier(npm).value) && forall j: nat :: j > Tier(npm).value ==> !Qualifies(npm, j)
    ensures Tier(npm).None? ==> forall j: nat :: !Qualifies(npm, j)
  {
    TierFromIsLargest(npm, StreamSum16(npm));
    forall j: nat | Qualifies(npm, j)
      ensures j <= StreamSum16(npm)
    {
      BucketBounds(npm, j);
    }
  }

  /**
   * There is no tier tempo exactly when there are no points or some point
   * is more than 1 above the first; otherwise the first tempo is scaled by
   * the tier over 16, or kept when no count qualifies.
   */
  lemma TierBPMCases(bpms: seq<TimingPoint>, npm: seq<nat>)
    ensures TierBPM(bpms, npm).None? <==>
      |bpms| == 0 || exists i :: 0 <= i < |bpms| && bpms[i].value > bpms[0].value + 1.0
    ensures |bpms| > 0 && TierBPM(bpms, npm).Some? ==>
      (forall k: nat :: IsStream(k) ==> !Qualifies(npm, k)) ==> TierBPM(bpms, npm) == Some(bpms[0].value)
  {
    TierIsLargest(npm);
  }

  /** Without any stream measure the tier tempo is the first tempo. */
  lemma {:induction false} NoStreamNoBucket(npm: seq<nat>, k: nat)
    requires forall i :: 0 <= i < |npm| ==> !IsStream(npm[i])
    ensures Bucket(npm, k) == 0
    decreases |npm|
  {
    if |npm| > 0 {
      NoStreamNoBucket(npm[..|npm| - 1], k);
    }
  }

  lemma TierBPMWithoutStream(bpms: seq<TimingPoint>, npm: seq<nat>)
    requires |bpms| > 0 && WithinOneOfFirst(bpms)
    requires forall i :: 0 <= i < |npm| ==> !IsStream(npm[i])
    ensures TierBPM(bpms, npm) == Some(bpms[0].value)
  {
    forall k: nat
      ensures !Qualifies(npm, k)
    {
      NoStreamNoBucket(npm, k);
    }
    TierIsLargest(npm);
  }

  // ---------------------------------------------------------------------
  // #calculateLength
  // ---------------------------------------------------------------------

  /** Beats covered by point `i`: up to the next point, or to the end of the last measure. */
  function Beats(bpms: seq<TimingPoint>, i: nat, finalMeasure: nat): real
    requires i < |bpms|
  {
    if i + 1 < |bpms| then bpms[i + 1].beat - bpms[i].beat
    else (finalMeasure * 4) as real - bpms[i].beat
  }

  predicate NonZeroTempos(bpms: seq<TimingPoint>, n: nat)
    requires n <= |bpms|
  {
    forall i :: 0 <= i < n ==> bpms[i].value != 0.0
  }

  /** Seconds taken by `beats` beats at `bpm` beats a minute. */
  function Seconds(beats: real, bpm: real): real
    requires bpm != 0.0
  {
    beats * (60.0 / bpm)
  }

  /** Seconds spent under the first `n` points. */
  function LengthUpTo(bpms: seq<TimingPoint>, n: nat, finalMeasure: nat): real
    requires n <= |bpms| && NonZeroTempos(bpms, n)
  {
    if n == 0 then 0.0
    else LengthUpTo(bpms, n - 1, finalMeasure) + Seconds(Beats(bpms, n - 1, finalMeasure), bpms[n - 1].value)
  }

  /** The duration in seconds; None where a zero tempo makes it non-finite. */
  function Length(bpms: seq<TimingPoint>, finalMeasure: nat): Option<real> {
    if NonZeroTempos(bpms, |bpms|) then Some(LengthUpTo(bpms, |bpms|, finalMeasure)) else None
  }

  method CalculateLength(bpms: seq<TimingPoint>, finalMeasure: nat) returns (r: Option<real>)
    ensures r == Length(bpms, finalMeasure)
  {
    var length := 0.0;
    for i := 0 to |bpms|
      invariant NonZeroTempos(bpms, i) && length == LengthUpTo(bpms, i, finalMeasure)
    {
      var bpm := bpms[i];
      var beats;
      if i + 1 < |bpms| {
        beats := bpms[i + 1].beat - bpm.beat;
      } else {
        beats := (finalMeasure * 4) as real - bpm.beat;
      }
      if bpm.value == 0.0 {
        return None;
      }
      length := length + Seconds(beats, bpm.value);
    }
    return Some(length);
  }

  /** The beats of the first `n` points. */
  function BeatsUpTo(bpms: seq<TimingPoint>, n: nat, finalMeasure: nat): real
    requires n <= |bpms|
  {
    if n == 0 then 0.0 else BeatsUpTo(bpms, n - 1, finalMeasure) + Beats(bpms, n - 1, finalMeasure)
  }

  /** The beats telescope: they run from the first point to the point reached. */
  lemma {:induction false} BeatsTelescope(bpms: seq<TimingPoint>, n: nat, finalMeasure: nat)
    requires 0 < n <= |bpms|
    ensures n < |bpms| ==> BeatsUpTo(bpms, n, finalMeasure) == bpms[n].beat - bpms[0].beat
    ensures n == |bpms| ==> BeatsUpTo(bpms, n, finalMeasure) == (finalMeasure * 4) as real - bpms[0].beat
    decreases n
  {
    if n > 1 {
      BeatsTelescope(bpms, n - 1, finalMeasure);
    }
  }

  /** Under one tempo every beat lasts the same. */
  lemma {:induction false} LengthScalesBeats(bpms: seq<TimingPoint>, n: nat, finalMeasure: nat, v: real)
    requires n <= |bpms| && v != 0.0
    requires forall i :: 0 <= i < |bpms| ==> bpms[i].value == v
    ensures NonZeroTempos(bpms, n)
    ensures LengthUpTo(bpms, n, finalMeasure) == Seconds(BeatsUpTo(bpms, n, finalMeasure), v)
    decreases n
  {
    if n > 0 {
      LengthScalesBeats(bpms, n - 1, finalMeasure, v);
      Distributes(BeatsUpTo(bpms, n - 1, finalMeasure), Beats(bpms, n - 1, finalMeasure), v);
    }
  }

  lemma Distributes(a: real, b: real, v: real)
    requires v != 0.0
    ensures Seconds(a + b, v) == Seconds(a, v) + Seconds(b, v)
  {
  }

  /**
   * With one tempo `v` throughout, the chart lasts from the first point to
   * the end of the last measure at `60 / v` seconds a beat; without points
   * it lasts 0 seconds.
   */
  lemma LengthConstantTempo(bpms: seq<TimingPoint>, finalMeasure: nat, v: real)
    requires v != 0.0 && forall i :: 0 <= i < |bpms| ==> bpms[i].value == v
    ensures |bpms| == 0 ==> Length(bpms, finalMeasure) == Some(0.0)
    ensures |bpms| > 0 ==>
      Length(bpms, finalMeasure) == Some(Seconds((finalMeasure * 4) as real - bpms[0].beat, v))
  {
    LengthScalesBeats(bpms, |bpms|, finalMeasure, v);
    if |bpms| > 0 {
      BeatsTelescope(bpms, |bpms|, finalMeasure);
    }
  }

  /** A zero tempo anywhere leaves the length undefined. */
  lemma LengthZeroTempo(bpms: seq<TimingPoint>, finalMeasure: nat, i: nat)
    requires i < |bpms| && bpms[i].value == 0.0
    ensures Length(bpms, finalMeasure) == None
  {
  }

  // ---------------------------------------------------------------------
  // #calculateNPSPerMeasure
  // ---------------------------------------------------------------------

  /**
   * Among the first `n` points, the one with the greatest beat not after
   * `beat`, the earliest declared among equal beats: the first match of a
   * stable sort by descending beat.
   */
  function BestAt(bpms: seq<TimingPoint>, beat: real, n: nat): (r: Option<nat>)
    requires n <= |bpms|
    ensures r.Some? ==> r.value < n
  {
    if n == 0 then None
    else
      var b := BestAt(bpms, beat, n - 1);
      if bpms[n - 1].beat <= beat && (b.None? || bpms[n - 1].beat > bpms[b.value].beat) then Some(n - 1)
      else b
  }

  /** `getThisMeasuresBPM`: the tempo in force at `beat`, else the first tempo. */
  function TempoAt(bpms: seq<TimingPoint>, beat: real): real
    requires |bpms| > 0
  {
    match BestAt(bpms, beat, |bpms|)
    case Some(i) => bpms[i].value
    case None => bpms[0].value
  }

  /** Measure `i` starts at beat `i / 4` and has `notes * bpm / 240` notes a second. */
  function NPSPerMeasure(npm: seq<nat>, bpms: seq<TimingPoint>): (r: seq<real>)
    requires |bpms| > 0
    ensures |r| == |npm|
  {
    seq(|npm|, i requires 0 <= i < |npm| => npm[i] as real * (TempoAt(bpms, i as real / 4.0) / 240.0))
  }

  /**
   * The chosen point is not after `beat`, no point not after `beat` lies
   * later, and no earlier point shares its beat; no choice means every
   * point lies after `beat`.
   */
  lemma {:induction false} BestAtIsLatest(bpms: seq<TimingPoint>, beat: real, n: nat)
    requires n <= |bpms|
    ensures BestAt(bpms, beat, n).Some? ==>
      var i := BestAt(bpms, beat, n).value;
      bpms[i].beat <= beat
      && (forall j :: 0 <= j < n && bpms[j].beat <= beat ==> bpms[j].beat <= bpms[i].beat)
      && (forall j :: 0 <= j < i && bpms[j].beat <= beat ==> bpms[j].beat < bpms[i].beat)
    ensures BestAt(bpms, beat, n).None? ==> forall j :: 0 <= j < n ==> bpms[j].beat > beat
    decreases n
  {
    if n > 0 {
      BestAtIsLatest(bpms, beat, n - 1);
    }
  }

  /** Under one tempo `v` every measure has `notes * v / 240` notes a second. */
  lemma NPSConstantTempo(npm: seq<nat>, bpms: seq<TimingPoint>, v: real)
    requires |bpms| > 0 && forall i :: 0 <= i < |bpms| ==> bpms[i].value == v
    ensures forall i :: 0 <= i < |npm| ==> NPSPerMeasure(npm, bpms)[i] == npm[i] as real * (v / 240.0)
  {
    forall beat: real
      ensures TempoAt(bpms, beat) == v
    {
      var b := BestAt(bpms, beat, |bpms|);
    }
  }

  // ---------------------------------------------------------------------
  // #parseNotesSM
  // ---------------------------------------------------------------------

  /** `notesStr.split(":").map((e) => e.trimStart())`. */
  function NotesEntries(notesStr: string): (r: seq<string>)
    ensures |r| == |SplitOn(notesStr, {':'})|
  {
    var parts := SplitOn(notesStr, {':'});
    seq(|parts|, i requires 0 <= i < |parts| => TrimStart(parts[i]))
  }

  /**
   * One `#NOTES` value with the tempo and stop points declared so far:
   * `Ok(None)` for a play style other than `dance-single`.
   */
  function ParseNotes(notesStr: string, bpms: seq<TimingPoint>, stops: seq<TimingPoint>, host: Host)
    : Result<Option<Chart>, ParseError>
  {
    var entries := NotesEntries(notesStr);
    if |entries| != 6 then Err(MalformedNotes)
    else if entries[0] != "dance-single" then Ok(None)
    else if |bpms| == 0 then Err(NoTempoPoints)
    else
      var notes := entries[5];
      var npm := NotesPerMeasure(notes);
      Ok(Some(Chart(
        bpms,
        entries[1],
        TierBPM(bpms, npm),
        entries[3],
        npm,
        stops,
        HashSimfile(bpms, notes, SM, host).value,
        entries[2],
        CreateBreakdowns(npm),
        Length(bpms, |npm|),
        NPSPerMeasure(npm, bpms))))
  }

  method ParseNotesSM(notesStr: string, bpms: seq<TimingPoint>, stops: seq<TimingPoint>, host: Host)
    returns (r: Result<Option<Chart>, ParseError>)
    ensures r == ParseNotes(notesStr, bpms, stops, host)
  {
    var entries := NotesEntries(notesStr);
    if |entries| != 6 {
      return Err(MalformedNotes);
    }
    var playtype, credit, difficultyTag, level, notes := entries[0], entries[1], entries[2], entries[3], entries[5];
    if playtype != "dance-single" {
      return Ok(None);
    }
    var notesPerMeasure := CountNotesPerMeasure(notes);
    var hash := HashSimfile(bpms, notes, SM, host);
    var streamBPM := GetTierBPM(bpms, notesPerMeasure);
    var length := CalculateLength(bpms, |notesPerMeasure|);
    if |bpms| == 0 {
      return Err(NoTempoPoints);
    }
    return Ok(Some(Chart(
      bpms, credit, streamBPM, level, notesPerMeasure, stops, hash.value, difficultyTag,
      CreateBreakdowns(notesPerMeasure), length, NPSPerMeasure(notesPerMeasure, bpms))));
  }

  /**
   * A value that does not split into six `:`-fields is an error; a play
   * style other than `dance-single` gives no chart and no error; a chart
   * keeps the points it was given, one count per measure and a 16-digit hash.
   */
  lemma ParseNotesCases(notesStr: string, bpms: seq<TimingPoint>, stops: seq<TimingPoint>, host: Host)
    ensures var r := ParseNotes(notesStr, bpms, stops, host);
      (r.Err? ==> r.error.NotesError())
      && (r == Err(MalformedNotes) <==> CountIn(notesStr, {':'}) != 5)
      && (r == Ok(None) <==>
            CountIn(notesStr, {':'}) == 5 && TrimStart(SplitOn(notesStr, {':'})[0]) != "dance-single")
      && (r.Ok? && r.value.Some? ==>
            var ch := r.value.value;
            ch.bpms == bpms && ch.stops == stops && |bpms| > 0
            && |ch.notesPerMeasure| == CountIn(NotesEntries(notesStr)[5], {','}) + 1
            && |ch.hashGSv3| == 16
            && (ch.breakdown.None? <==> forall i :: 0 <= i < |ch.notesPerMeasure| ==> !IsStream(ch.notesPerMeasure[i])))
  {
    SplitCount(notesStr, {':'});
    var entries := NotesEntries(notesStr);
    if |entries| == 6 {
      MeasureCount(entries[5]);
    }
  }
}
