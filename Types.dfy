/**
 * The records the parser produces (the repository's `SMChart`, `SMMetadata`
 * and `SMResults` shapes) and the runtime services the core relies on
 * without defining them.
 */
module Types {
  import opened Text

  /** A tempo change (`#BPMS`) or a pause (`#STOPS`) anchored at a beat. */
  datatype TimingPoint = TimingPoint(beat: real, value: real)

  predicate IsHexDigit(c: char) {
    ('0' <= c <= '9') || ('a' <= c <= 'f')
  }

  /** A SHA-1 digest as `digest("hex")` renders it: 40 lower-case hex digits. */
  type Digest = s: string | |s| == 40 && forall i :: 0 <= i < |s| ==> IsHexDigit(s[i])
    witness "0000000000000000000000000000000000000000"

  /**
   * The runtime services the core calls: `Number(text)` for timing values,
   * `x.toFixed(3)` for the tempo list of the hash, and the SHA-1 hex digest
   * of the `crypto` module.
   */
  datatype Host = Host(
    toNumber: string -> real,
    toFixed3: real -> string,
    sha1: string -> Digest)

  /** The four summary strings and the density of one chart. */
  datatype Breakdown = Breakdown(
    detailed: string,
    partiallySimplified: string,
    simplified: string,
    total: string,
    density: real)

  /**
   * One parsed `dance-single` chart. `length` is None where a zero tempo
   * makes the source's duration non-finite.
   */
  datatype Chart = Chart(
    bpms: seq<TimingPoint>,
    credit: string,
    streamBPM: Option<real>,
    level: string,
    notesPerMeasure: seq<nat>,
    stops: seq<TimingPoint>,
    hashGSv3: string,
    difficultyTag: string,
    breakdown: Option<Breakdown>,
    length: Option<real>,
    npsPerMeasure: seq<real>)

  datatype Metadata = Metadata(
    title: string,
    artist: string,
    subtitle: Option<string>,
    titleTranslit: Option<string>,
    artistTranslit: Option<string>,
    subtitleTranslit: Option<string>)

  datatype Parsed = Parsed(meta: Metadata, charts: seq<Chart>)

  /** The errors `parseSM` throws. */
  datatype ParseError =
    | NoArtist        // no non-blank `#ARTIST`
    | NoTitle         // no non-blank `#TITLE`
    | MalformedNotes  // a `#NOTES` value without exactly six `:`-fields
    | NoTempoPoints   // a `dance-single` chart declared before any `#BPMS` point
  {
    /** The errors a `#NOTES` value can raise. */
    predicate NotesError() {
      this == MalformedNotes || this == NoTempoPoints
    }
  }
}
