/**
 * `readElement` and `SMParser.parseSM` of `src/parser.ts`: comments are cut
 * from every line, the text is split into `;`-terminated elements, and each
 * element updates the metadata, the tempo and stop points or the charts.
 */
module Parser {
  import opened Text
  import opened Types
  import opened Notes

  // ---------------------------------------------------------------------
  // readElement
  // ---------------------------------------------------------------------

  /** A `KEY<delimiter>value` pair, both halves trimmed. */
  datatype Element = Element(key: string, value: string)

  /**
   * Everything before the first delimiter is the key; the other pieces are
   * joined back with the delimiter, so later delimiters stay in the value.
   */
  function ReadElement(element: string, delimiter: char): Element {
    var parts := SplitOn(element, {delimiter});
    Element(Trim(parts[0]), Trim(JoinWith(parts[1..], [delimiter])))
  }

  /**
   * The key ends at the first delimiter and the value is all the rest,
   * later delimiters included: `#TITLE:apo::lith` has the key `#TITLE`
   * and the value `apo::lith`.
   */
  lemma ReadElementAtFirst(key: string, value: string, delimiter: char)
    requires NoneIn(key, {delimiter})
    ensures ReadElement(key + [delimiter] + value, delimiter) == Element(Trim(key), Trim(value))
  {
    var element := key + [delimiter] + value;
    var i := |key|;
    assert element[..i] == key && element[i + 1..] == value;
    SplitAtFirst(element, {delimiter}, i);
    assert SplitOn(element, {delimiter})[1..] == SplitOn(value, {delimiter});
    JoinSplit(value, delimiter);
  }

  /** Without a delimiter the whole text is the key and the value is empty. */
  lemma ReadElementNoDelimiter(element: string, delimiter: char)
    requires NoneIn(element, {delimiter})
    ensures ReadElement(element, delimiter) == Element(Trim(element), "")
  {
    SplitNoSep(element, {delimiter});
  }

  // ---------------------------------------------------------------------
  // Comment removal
  // ---------------------------------------------------------------------

  /** No `//` anywhere in `s`. */
  predicate NoComment(s: string) {
    forall j :: 0 <= j < |s| - 1 ==> !(s[j] == '/' && s[j + 1] == '/')
  }

  /** `line.split("//")[0]`: the line up to its first `//`. */
  function BeforeComment(line: string): (r: string)
    ensures |r| <= |line| && r == line[..|r|] && NoComment(r)
    ensures |r| < |line| ==> |r| + 2 <= |line| && line[|r|] == '/' && line[|r| + 1] == '/'
  {
    if |line| < 2 then line
    else if line[0] == '/' && line[1] == '/' then ""
    else
      var r := BeforeComment(line[1..]);
      assert r == [] || r[0] == line[1];
      [line[0]] + r
  }

  /** The stripped lines, each followed by `"\n"`. */
  function Stripped(lines: seq<string>): string {
    if |lines| == 0 then "" else BeforeComment(lines[0]) + "\n" + Stripped(lines[1..])
  }

  /** Lines are cut at runs of `\r` and `\n`, as `split(/[\r\n]+/u)` does. */
  const LineBreaks: set<char> := {'\r', '\n'}

  function StripComments(content: string): string {
    Stripped(SplitRuns(content, LineBreaks))
  }

  /** The stripped text grows by one stripped line at a time. */
  lemma {:induction false} StrippedSnoc(lines: seq<string>, line: string)
    ensures Stripped(lines + [line]) == Stripped(lines) + BeforeComment(line) + "\n"
    decreases |lines|
  {
    if |lines| > 0 {
      assert (lines + [line])[1..] == lines[1..] + [line];
      StrippedSnoc(lines[1..], line);
    } else {
      assert lines + [line] == [line];
    }
  }

  /** Each line's text before its first `//`, line by line. */
  function Cuts(lines: seq<string>): (r: seq<string>)
    ensures |r| == |lines|
  {
    seq(|lines|, i requires 0 <= i < |lines| => BeforeComment(lines[i]))
  }

  /**
   * Split at `"\n"`, the stripped text gives back the cut lines followed by
   * one empty piece, as long as no line holds a `"\n"` of its own.
   */
  lemma {:induction false} StrippedLines(lines: seq<string>)
    requires forall i :: 0 <= i < |lines| ==> NoneIn(lines[i], {'\n'})
    ensures SplitOn(Stripped(lines), {'\n'}) == Cuts(lines) + [""]
    decreases |lines|
  {
    if |lines| > 0 {
      var cut, rest := BeforeComment(lines[0]), Stripped(lines[1..]);
      assert Stripped(lines) == cut + ['\n'] + rest;
      assert NoneIn(lines[0], {'\n'});
      assert NoneIn(cut, {'\n'}) by {
        assert forall j :: 0 <= j < |cut| ==> cut[j] == lines[0][j];
      }
      SplitNoSep(cut, {'\n'});
      SplitAroundSep(cut, '\n', rest, {'\n'});
      StrippedLines(lines[1..]);
      assert Cuts(lines) == [cut] + Cuts(lines[1..]);
    }
  }

  /** No comment marker and no line break other than `"\n"` survives. */
  lemma {:induction false} StrippedClean(lines: seq<string>)
    requires forall i :: 0 <= i < |lines| ==> NoneIn(lines[i], LineBreaks)
    ensures NoComment(Stripped(lines)) && NoneIn(Stripped(lines), {'\r'})
    decreases |lines|
  {
    if |lines| > 0 {
      var cut := BeforeComment(lines[0]);
      var rest := Stripped(lines[1..]);
      StrippedClean(lines[1..]);
      assert forall j :: 0 <= j < |cut| ==> cut[j] == lines[0][j];
      var s := cut + "\n" + rest;
      assert forall j :: 0 <= j < |s| ==> s[j] == (if j < |cut| then cut[j] else if j == |cut| then '\n' else rest[j - |cut| - 1]);
    }
  }

  /**
   * The text the parser splits into elements holds no `//` and no `\r`,
   * and its lines are the source lines cut at their first `//`.
   */
  lemma StripCommentsShape(content: string)
    ensures NoComment(StripComments(content)) && NoneIn(StripComments(content), {'\r'})
    ensures SplitOn(StripComments(content), {'\n'}) == Cuts(SplitRuns(content, LineBreaks)) + [""]
  {
    var lines := SplitRuns(content, LineBreaks);
    StrippedClean(lines);
    assert forall i :: 0 <= i < |lines| ==> NoneIn(lines[i], {'\n'}) by {
      assert forall i :: 0 <= i < |lines| ==> NoneIn(lines[i], LineBreaks);
    }
    StrippedLines(lines);
  }

  // ---------------------------------------------------------------------
  // The element fold
  // ---------------------------------------------------------------------

  /** `Partial<SMMetadata>`: a field is None until its key is declared. */
  datatype PartialMeta = PartialMeta(
    title: Option<string>,
    artist: Option<string>,
    subtitle: Option<string>,
    titleTranslit: Option<string>,
    artistTranslit: Option<string>,
    subtitleTranslit: Option<string>)

  /** The parser's state between elements. */
  datatype Acc = Acc(meta: PartialMeta, bpms: seq<TimingPoint>, stops: seq<TimingPoint>, charts: seq<Chart>)

  const Start: Acc := Acc(PartialMeta(None, None, None, None, None, None), [], [], [])

  /** `value || null`. */
  function OrNull(value: string): (r: Option<string>)
    ensures r.None? <==> value == ""
  {
    if value == "" then None else Some(value)
  }

  /** `value.split(",").map((e) => e.trim())`. */
  function TrimmedPieces(value: string): (r: seq<string>)
    ensures |r| == |SplitOn(value, {','})|
  {
    var pieces := SplitOn(value, {','});
    seq(|pieces|, i requires 0 <= i < |pieces| => Trim(pieces[i]))
  }

  /** `BEAT=VALUE`, both halves read by `Number`. */
  function ToPoint(e: Element, host: Host): TimingPoint {
    TimingPoint(host.toNumber(e.key), host.toNumber(e.value))
  }

  /** The points of trimmed pieces `BEAT=VALUE`, in order. */
  function PointsOf(pieces: seq<string>, host: Host): (r: seq<TimingPoint>)
    ensures |r| == |pieces|
  {
    if |pieces| == 0 then []
    else PointsOf(pieces[..|pieces| - 1], host) + [ToPoint(ReadElement(pieces[|pieces| - 1], '='), host)]
  }

  /** The points of one `#BPMS` or `#STOPS` value, one per `,`-piece. */
  function TimingPoints(value: string, host: Host): (r: seq<TimingPoint>)
    ensures |r| == |SplitOn(value, {','})|
  {
    PointsOf(TrimmedPieces(value), host)
  }

  /** The cases of the key `switch` of `parseSM`; any other key is `Other`. */
  datatype Key =
    | Title | Artist | Subtitle | TitleTranslit | ArtistTranslit | SubtitleTranslit
    | Bpms | Stops | Notes | Other

  function KeyOf(key: string): Key {
    if key == "#TITLE" then Title
    else if key == "#ARTIST" then Artist
    else if key == "#SUBTITLE" then Subtitle
    else if key == "#TITLETRANSLIT" then TitleTranslit
    else if key == "#ARTISTTRANSLIT" then ArtistTranslit
    else if key == "#SUBTITLETRANSLIT" then SubtitleTranslit
    else if key == "#BPMS" then Bpms
    else if key == "#STOPS" then Stops
    else if key == "#NOTES" then Notes
    else Other
  }

  /** An element of the file with its key classified. */
  datatype Entry = Entry(kind: Key, value: string)

  function EntryOf(e: Element): Entry {
    Entry(KeyOf(e.key), e.value)
  }



  /** An element whose key falls in case `key` and whose value is not blank. */
  predicate DeclaresAt(e: Entry, key: Key) {
    e.kind == key && Trim(e.value) != ""
  }

  /**
   * One element's effect. A `#NOTES` element adds its chart, or stops the
   * parse with its error; every other element goes through `Apply`.
   */
  function Step(acc: Acc, e: Entry, host: Host): Result<Acc, ParseError> {
    if DeclaresAt(e, Notes) then AddChart(acc, ParseNotes(e.value, acc.bpms, acc.stops, host))
    else Ok(Apply(acc, e, host))
  }

  /** `charts.push(chart)`, nothing for a skipped chart, and the error otherwise. */
  function AddChart(acc: Acc, chart: Result<Option<Chart>, ParseError>): Result<Acc, ParseError> {
    match chart
    case Err(err) => Err(err)
    case Ok(None) => Ok(acc)
    case Ok(Some(c)) => Ok(acc.(charts := acc.charts + [c]))
  }

  /** The cases of the key switch other than `#NOTES`; blank values and unknown keys change nothing. */
  function Apply(acc: Acc, e: Entry, host: Host): Acc {
    var value := e.value;
    if Trim(value) == "" then acc
    else
      match e.kind
      case Title => acc.(meta := acc.meta.(title := Some(value)))
      case Artist => acc.(meta := acc.meta.(artist := Some(value)))
      case Subtitle => acc.(meta := acc.meta.(subtitle := OrNull(value)))
      case TitleTranslit => acc.(meta := acc.meta.(titleTranslit := OrNull(value)))
      case ArtistTranslit => acc.(meta := acc.meta.(artistTranslit := OrNull(value)))
      case SubtitleTranslit => acc.(meta := acc.meta.(subtitleTranslit := OrNull(value)))
      case Bpms => acc.(bpms := acc.bpms + TimingPoints(value, host))
      case Stops => acc.(stops := acc.stops + TimingPoints(value, host))
      case _ => acc
  }


  /** The elements in order; the first error stops the parse. */
  function Fold(elements: seq<Entry>, host: Host): Result<Acc, ParseError> {
    if |elements| == 0 then Ok(Start)
    else
      match Fold(elements[..|elements| - 1], host)
      case Err(err) => Err(err)
      case Ok(acc) => Step(acc, elements[|elements| - 1], host)
  }

  /** Every `;`-terminated element of the stripped text, read at its first `:` and classified. */
  function Elements(content: string): (r: seq<Entry>)
    ensures |r| == |SplitOn(StripComments(content), {';'})|
  {
    ReadAll(SplitOn(StripComments(content), {';'}))
  }

  function ReadAll(elements: seq<string>): (r: seq<Entry>)
    ensures |r| == |elements|
  {
    seq(|elements|, i requires 0 <= i < |elements| => EntryOf(ReadElement(elements[i], ':')))
  }

  /**
   * A chart holds the parser's own point lists rather than copies, so in
   * the result every chart lists the points of the whole file.
   */
  function Shared(charts: seq<Chart>, bpms: seq<TimingPoint>, stops: seq<TimingPoint>): (r: seq<Chart>)
    ensures |r| == |charts|
    ensures forall i :: 0 <= i < |r| ==> r[i].bpms == bpms && r[i].stops == stops
  {
    seq(|charts|, i requires 0 <= i < |charts| => charts[i].(bpms := bpms, stops := stops))
  }

  /** `parseSM`: a missing artist is reported before a missing title. */
  function ParseSpec(content: string, host: Host): Result<Parsed, ParseError> {
    Finish(Fold(Elements(content), host))
  }

  /** The checks and the record built after the last element. */
  function Finish(folded: Result<Acc, ParseError>): Result<Parsed, ParseError> {
    match folded
    case Err(err) => Err(err)
    case Ok(acc) =>
      var m := acc.meta;
      if m.artist.None? then Err(NoArtist)
      else if m.title.None? then Err(NoTitle)
      else
        Ok(Parsed(
          Metadata(m.title.value, m.artist.value, m.subtitle, m.titleTranslit, m.artistTranslit, m.subtitleTranslit),
          Shared(acc.charts, acc.bpms, acc.stops)))
  }

  method ParseSM(smContent: string, host: Host) returns (r: Result<Parsed, ParseError>)
    ensures r == ParseSpec(smContent, host)
  {
    var newSMContent := RemoveComments(smContent);
    var folded := ReadElements(SplitOn(newSMContent, {';'}), host);
    if folded.Err? {
      return Err(folded.error);
    }
    var partialMeta := folded.value.meta;
    if partialMeta.artist.None? {
      return Err(NoArtist);
    }
    if partialMeta.title.None? {
      return Err(NoTitle);
    }
    var meta := Metadata(
      partialMeta.title.value, partialMeta.artist.value, partialMeta.subtitle,
      partialMeta.titleTranslit, partialMeta.artistTranslit, partialMeta.subtitleTranslit);
    return Ok(Parsed(meta, Shared(folded.value.charts, folded.value.bpms, folded.value.stops)));
  }

  /** The first loop of `parseSM`: each line cut at its first `//` and ended with a line feed. */
  method RemoveComments(smContent: string) returns (newSMContent: string)
    ensures newSMContent == StripComments(smContent)
  {
    newSMContent := "";
    var lines := SplitRuns(smContent, LineBreaks);
    for i := 0 to |lines|
      invariant newSMContent == Stripped(lines[..i])
    {
      StrippedSnoc(lines[..i], lines[i]);
      assert lines[..i + 1] == lines[..i] + [lines[i]];
      newSMContent := newSMContent + BeforeComment(lines[i]) + "\n";
    }
    assert lines[..|lines|] == lines;
  }

  /** The second loop of `parseSM`: the key `switch` applied to each element in turn. */
  method ReadElements(elements: seq<string>, host: Host) returns (r: Result<Acc, ParseError>)
    ensures r == Fold(ReadAll(elements), host)
  {
    var charts: seq<Chart> := [];
    var partialMeta := Start.meta;
    var bpms: seq<TimingPoint> := [];
    var stops: seq<TimingPoint> := [];
    ghost var read := ReadAll(elements);
    for i := 0 to |elements|
      invariant Fold(read[..i], host) == Ok(Acc(partialMeta, bpms, stops, charts))
    {
      assert read[..i + 1][..i] == read[..i];
      ghost var acc := Acc(partialMeta, bpms, stops, charts);
      assert Fold(read[..i + 1], host) == Step(acc, read[i], host);
      var e := ReadElement(elements[i], ':');
      assert read[i] == EntryOf(e);
      var next := ApplyElement(Acc(partialMeta, bpms, stops, charts), e.key, e.value, host);
      if next.Err? {
        FoldErrorStays(read, i + 1, host);
        return Err(next.error);
      }
      partialMeta, bpms, stops, charts := next.value.meta, next.value.bpms, next.value.stops, next.value.charts;
    }
    assert read[..|elements|] == read;
    return Ok(Acc(partialMeta, bpms, stops, charts));
  }

  /** The body of the second loop: skip a blank value, else `switch (key)`. */
  method ApplyElement(acc: Acc, key: string, value: string, host: Host) returns (r: Result<Acc, ParseError>)
    ensures r == Step(acc, Entry(KeyOf(key), value), host)
  {
    var partialMeta, bpms, stops, charts := acc.meta, acc.bpms, acc.stops, acc.charts;
    if Trim(value) == "" {
      return Ok(acc);
    }
    match KeyOf(key) {
    case Title =>
      partialMeta := partialMeta.(title := Some(value));
    case Artist =>
      partialMeta := partialMeta.(artist := Some(value));
    case Subtitle =>
      partialMeta := partialMeta.(subtitle := OrNull(value));
    case TitleTranslit =>
      partialMeta := partialMeta.(titleTranslit := OrNull(value));
    case ArtistTranslit =>
      partialMeta := partialMeta.(artistTranslit := OrNull(value));
    case SubtitleTranslit =>
      partialMeta := partialMeta.(subtitleTranslit := OrNull(value));
    case Bpms =>
      bpms := PushPoints(bpms, value, host);
    case Stops =>
      stops := PushPoints(stops, value, host);
    case Notes =>
      var chart := ParseNotesSM(value, bpms, stops, host);
      if chart.Err? {
        return Err(chart.error);
      }
      if chart.value.Some? {
        charts := charts + [chart.value.value];
      }
    case Other =>
    }
    r := Ok(Acc(partialMeta, bpms, stops, charts));
  }

  /** The `#BPMS`/`#STOPS` loop: one `push` per `,`-piece of `value`. */
  method PushPoints(points: seq<TimingPoint>, value: string, host: Host) returns (r: seq<TimingPoint>)
    ensures r == points + TimingPoints(value, host)
  {
    r := points;
    var elements := TrimmedPieces(value);
    for j := 0 to |elements|
      invariant r == points + PointsOf(elements[..j], host)
    {
      var p := ReadElement(elements[j], '=');
      assert elements[..j + 1][..j] == elements[..j];
      r := r + [TimingPoint(host.toNumber(p.key), host.toNumber(p.value))];
    }
    assert elements[..|elements|] == elements;
  }

  /** Once an element fails, the parse fails with that error. */
  lemma {:induction false} FoldErrorStays(elements: seq<Entry>, n: nat, host: Host)
    requires n <= |elements| && Fold(elements[..n], host).Err?
    ensures Fold(elements, host) == Fold(elements[..n], host)
    decreases |elements|
  {
    if n < |elements| {
      var pre := elements[..|elements| - 1];
      assert pre[..n] == elements[..n];
      FoldErrorStays(pre, n, host);
    } else {
      assert elements[..n] == elements;
    }
  }

  // ---------------------------------------------------------------------
  // What the fold computes
  // ---------------------------------------------------------------------

  /** The value of the last element that declares `key`, if any does. */
  function LastValue(elements: seq<Entry>, key: Key): Option<string> {
    if |elements| == 0 then None
    else if DeclaresAt(elements[|elements| - 1], key) then Some(elements[|elements| - 1].value)
    else LastValue(elements[..|elements| - 1], key)
  }

  predicate Declares(elements: seq<Entry>, key: Key) {
    exists i :: 0 <= i < |elements| && DeclaresAt(elements[i], key)
  }

  /** A key has a value exactly when some element declares it. */
  lemma {:induction false} LastValueDeclared(elements: seq<Entry>, key: Key)
    ensures LastValue(elements, key).None? <==> !Declares(elements, key)
    decreases |elements|
  {
    if |elements| > 0 {
      var pre := elements[..|elements| - 1];
      LastValueDeclared(pre, key);
      assert forall i :: 0 <= i < |pre| ==> pre[i] == elements[i];
    }
  }

  /** The value a key has is that of the last element declaring it: later ones override earlier ones. */
  lemma {:induction false} LastValueIsLast(elements: seq<Entry>, key: Key)
    ensures LastValue(elements, key).Some? ==>
      exists i :: 0 <= i < |elements| && DeclaresAt(elements[i], key)
        && elements[i].value == LastValue(elements, key).value
        && forall j :: i < j < |elements| ==> !DeclaresAt(elements[j], key)
    decreases |elements|
  {
    if |elements| > 0 {
      var pre := elements[..|elements| - 1];
      var last := elements[|elements| - 1];
      if DeclaresAt(last, key) {
        assert LastValue(elements, key).value == last.value;
      } else {
        LastValueIsLast(pre, key);
        if LastValue(pre, key).Some? {
          var i :| 0 <= i < |pre| && DeclaresAt(pre[i], key)
            && pre[i].value == LastValue(pre, key).value
            && forall j :: i < j < |pre| ==> !DeclaresAt(pre[j], key);
          assert elements[i] == pre[i];
          assert forall j :: i < j < |elements| ==> !DeclaresAt(elements[j], key) by {
            forall j | i < j < |elements| ensures !DeclaresAt(elements[j], key) {
              if j < |pre| {
                assert elements[j] == pre[j];
              }
            }
          }
        }
      }
    }
  }

  /** All points declared under `key` (`#BPMS` or `#STOPS`), in order. */
  function AllPoints(elements: seq<Entry>, key: Key, host: Host): seq<TimingPoint> {
    if |elements| == 0 then []
    else
      var last := elements[|elements| - 1];
      var before := AllPoints(elements[..|elements| - 1], key, host);
      if DeclaresAt(last, key) then before + TimingPoints(last.value, host) else before
  }

  /**
   * The charts of the `#NOTES` elements in declaration order, each parsed
   * with the points declared before it; other play styles add none.
   */
  function DeclaredCharts(elements: seq<Entry>, host: Host): seq<Chart> {
    if |elements| == 0 then []
    else
      var pre := elements[..|elements| - 1];
      var e := elements[|elements| - 1];
      var before := DeclaredCharts(pre, host);
      if DeclaresAt(e, Notes) then
        match ParseNotes(e.value, AllPoints(pre, Bpms, host), AllPoints(pre, Stops, host), host)
        case Ok(Some(c)) => before + [c]
        case _ => before
      else before
  }

  /** At most one chart per `#NOTES` element. */
  lemma {:induction false} DeclaredChartsCount(elements: seq<Entry>, host: Host)
    ensures |DeclaredCharts(elements, host)| <= Declarations(elements, Notes)
    decreases |elements|
  {
    if |elements| > 0 {
      DeclaredChartsCount(elements[..|elements| - 1], host);
    }
  }

  /** The number of elements that declare `key`. */
  function Declarations(elements: seq<Entry>, key: Key): nat {
    if |elements| == 0 then 0
    else Declarations(elements[..|elements| - 1], key) + (if DeclaresAt(elements[|elements| - 1], key) then 1 else 0)
  }

  /**
   * After any prefix of the elements: each metadata field is the value of
   * its last declaration, the point lists are all declared points in order,
   * and there is at most one chart per `#NOTES` element.
   */
  lemma {:induction false} FoldState(elements: seq<Entry>, host: Host)
    ensures Fold(elements, host).Ok? ==>
      var acc := Fold(elements, host).value;
      acc.meta == PartialMeta(
        LastValue(elements, Title), LastValue(elements, Artist), LastValue(elements, Subtitle),
        LastValue(elements, TitleTranslit), LastValue(elements, ArtistTranslit),
        LastValue(elements, SubtitleTranslit))
      && acc.bpms == AllPoints(elements, Bpms, host)
      && acc.stops == AllPoints(elements, Stops, host)
      && acc.charts == DeclaredCharts(elements, host)
    ensures Fold(elements, host).Err? ==> Fold(elements, host).error.NotesError()
    decreases |elements|
  {
    if |elements| > 0 {
      var pre := elements[..|elements| - 1];
      FoldState(pre, host);
      if Fold(pre, host).Ok? {
        var acc, e := Fold(pre, host).value, elements[|elements| - 1];
        if DeclaresAt(e, Notes) {
          var chart := ParseNotes(e.value, acc.bpms, acc.stops, host);
          AddChartGrows(acc, chart);
          ParseNotesCases(e.value, acc.bpms, acc.stops, host);
        } else {
          ApplyMeta(acc, e, host);
          ApplyLists(acc, e, host);
        }
      }
    }
  }

  /** The value a field holds after `e`: its own if it declares `key`, else the old one. */
  function Updated(previous: Option<string>, e: Entry, key: Key): Option<string> {
    if DeclaresAt(e, key) then Some(e.value) else previous
  }

  /** What one element changes in the metadata: only the field its key names. */
  lemma ApplyMeta(acc: Acc, e: Entry, host: Host)
    ensures Apply(acc, e, host).meta == PartialMeta(
      Updated(acc.meta.title, e, Title), Updated(acc.meta.artist, e, Artist),
      Updated(acc.meta.subtitle, e, Subtitle), Updated(acc.meta.titleTranslit, e, TitleTranslit),
      Updated(acc.meta.artistTranslit, e, ArtistTranslit),
      Updated(acc.meta.subtitleTranslit, e, SubtitleTranslit))
  {
    if Trim(e.value) != "" {
      assert e.value != "";
    }
  }

  /** `#BPMS` and `#STOPS` append their points; no other key touches the lists or the charts. */
  lemma ApplyLists(acc: Acc, e: Entry, host: Host)
    ensures var a := Apply(acc, e, host);
      a.bpms == (if DeclaresAt(e, Bpms) then acc.bpms + TimingPoints(e.value, host) else acc.bpms)
      && a.stops == (if DeclaresAt(e, Stops) then acc.stops + TimingPoints(e.value, host) else acc.stops)
      && a.charts == acc.charts
  {
    // One case per list, so that each is checked on its own.
    if Trim(e.value) != "" {
      match e.kind
      case Bpms =>
      case Stops =>
      case _ =>
    }
  }

  /** A chart changes nothing but the chart list, which grows by at most one. */
  lemma AddChartGrows(acc: Acc, chart: Result<Option<Chart>, ParseError>)
    ensures AddChart(acc, chart).Ok? ==>
      var a := AddChart(acc, chart).value;
      a.meta == acc.meta && a.bpms == acc.bpms && a.stops == acc.stops
      && acc.charts <= a.charts && |a.charts| <= |acc.charts| + 1
    ensures AddChart(acc, chart).Err? <==> chart.Err?
  {
  }

  /**
   * The outcome of `parseSM` in terms of the declarations of the file: a
   * missing artist is reported before a missing title; every metadata field
   * is its last non-blank declaration; the charts are those of the `#NOTES`
   * elements in order, each holding the point lists of the whole file.
   */
  lemma ParseOutcome(content: string, host: Host)
    ensures var els := Elements(content); var r := ParseSpec(content, host);
      (r == Err(NoArtist) <==> Fold(els, host).Ok? && !Declares(els, Artist))
      && (r == Err(NoTitle) <==> Fold(els, host).Ok? && Declares(els, Artist) && !Declares(els, Title))
      && (r.Err? && r.error.NotesError() <==> Fold(els, host).Err?)
      && (r.Ok? ==>
        Some(r.value.meta.title) == LastValue(els, Title)
        && Some(r.value.meta.artist) == LastValue(els, Artist)
        && r.value.meta.subtitle == LastValue(els, Subtitle)
        && r.value.meta.titleTranslit == LastValue(els, TitleTranslit)
        && r.value.meta.artistTranslit == LastValue(els, ArtistTranslit)
        && r.value.meta.subtitleTranslit == LastValue(els, SubtitleTranslit)
        && r.value.charts == Shared(DeclaredCharts(els, host), AllPoints(els, Bpms, host), AllPoints(els, Stops, host))
        && |r.value.charts| <= Declarations(els, Notes))
  {
    var els := Elements(content);
    FinishErrors(els, host);
    FinishMeta(els, host);
    FinishCharts(els, host);
  }

  /** The checks after the loop: a missing artist is reported first, then a missing title. */
  lemma FinishErrors(els: seq<Entry>, host: Host)
    ensures var r := Finish(Fold(els, host));
      (r == Err(NoArtist) <==> Fold(els, host).Ok? && !Declares(els, Artist))
      && (r == Err(NoTitle) <==> Fold(els, host).Ok? && Declares(els, Artist) && !Declares(els, Title))
      && (r.Err? && r.error.NotesError() <==> Fold(els, host).Err?)
  {
    FoldState(els, host);
    LastValueDeclared(els, Artist);
    LastValueDeclared(els, Title);
    FinishChecks(Fold(els, host), LastValue(els, Artist), LastValue(els, Title));
  }

  /** The two checks after the loop, on the artist and title the fold ended with. */
  lemma FinishChecks(folded: Result<Acc, ParseError>, artist: Option<string>, title: Option<string>)
    requires folded.Ok? ==> folded.value.meta.artist == artist && folded.value.meta.title == title
    requires folded.Err? ==> folded.error.NotesError()
    ensures Finish(folded) == Err(NoArtist) <==> folded.Ok? && artist.None?
    ensures Finish(folded) == Err(NoTitle) <==> folded.Ok? && artist.Some? && title.None?
    ensures Finish(folded).Err? && Finish(folded).error.NotesError() <==> folded.Err?
  {
  }

  /** The metadata of the record is that of the last declarations of the file. */
  lemma FinishMeta(els: seq<Entry>, host: Host)
    ensures var r := Finish(Fold(els, host));
      r.Ok? ==>
        Some(r.value.meta.title) == LastValue(els, Title)
        && Some(r.value.meta.artist) == LastValue(els, Artist)
        && r.value.meta.subtitle == LastValue(els, Subtitle)
        && r.value.meta.titleTranslit == LastValue(els, TitleTranslit)
        && r.value.meta.artistTranslit == LastValue(els, ArtistTranslit)
        && r.value.meta.subtitleTranslit == LastValue(els, SubtitleTranslit)
  {
    FoldState(els, host);
  }

  /** The charts in declaration order, at most one per `#NOTES` element, sharing the final point lists. */
  lemma FinishCharts(els: seq<Entry>, host: Host)
    ensures var r := Finish(Fold(els, host));
      r.Ok? ==>
        r.value.charts == Shared(DeclaredCharts(els, host), AllPoints(els, Bpms, host), AllPoints(els, Stops, host))
        && |r.value.charts| <= Declarations(els, Notes)
  {
    FoldState(els, host);
    DeclaredChartsCount(els, host);
    FinishShares(Fold(els, host), DeclaredCharts(els, host), AllPoints(els, Bpms, host), AllPoints(els, Stops, host));
  }

  /** The record shares the final point lists among the folded charts. */
  lemma FinishShares(folded: Result<Acc, ParseError>, charts: seq<Chart>, bpms: seq<TimingPoint>, stops: seq<TimingPoint>)
    requires folded.Ok? ==> folded.value.charts == charts && folded.value.bpms == bpms && folded.value.stops == stops
    ensures Finish(folded).Ok? ==> Finish(folded).value.charts == Shared(charts, bpms, stops)
  {
  }

  /** One point per `,`-piece: one more than there are commas. */
  lemma TimingPointsCount(value: string, host: Host)
    ensures |TimingPoints(value, host)| == CountIn(value, {','}) + 1
  {
    SplitCount(value, {','});
  }
}
