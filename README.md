# parse-sm-files, modelled in Dafny

This project models the core of `parse-sm-files`: it reads StepMania `.sm`
simfiles and computes per-chart statistics. The model has three parts:

- **`parseSM`.** It removes `//` comments line by line, cuts the text into
  `;`-terminated `#KEY:value` elements and folds them into metadata, tempo
  (`#BPMS`) and stop (`#STOPS`) point lists, and charts. A missing artist is
  an error, and so is a missing title.
- **`#parseNotesSM`.** It turns one `#NOTES` value into a chart: notes per
  measure, stream tempo tier, duration and notes per second, plus the
  breakdown and hash below.
- **The breakdown.** `breakdown.ts` renders a chart's stream/break structure
  as text (`"2 (2) 3"`, `"2-3"`, `"5*"`), the stream total and the density.
  **The hash.** `hashSimfile.ts` minimizes the note data, normalises the
  tempo list and keeps 16 hex digits of its SHA-1.

The files are:

- `Text.dfy`: the JavaScript string primitives the code relies on (`split`
  on a character or a character class, `join`, `trim`, `trimStart`,
  `filter(e => e !== "")`, decimal rendering of numbers).
- `Types.dfy`: the result records and the errors. It also defines `Host`,
  which holds the runtime services the code calls but does not define:
  `Number(text)`, `x.toFixed(3)` and the SHA-1 hex digest.
- `Breakdown.dfy`, `Hash.dfy`, `Notes.dfy` and `Parser.dfy` follow the
  source functions.

Each `for` or `while` loop of the source that the model covers is a
`method` with a `for` or `while` loop. It is proved to return the value of
a specification `function`. The source's promises are then proved as lemmas
about those functions. Three iterations are functions instead. The reverse
scan for a measure's tempo (src/parser.ts:292) is the recursive function
`Notes.BestAt`. The `map` calls of `#calculateNPSPerMeasure`
(src/parser.ts:302) and `NormaliseBPMs` (src/hashSimfile.ts:25) are
sequence comprehensions (`Notes.NPSPerMeasure`, `Hash.BPMEntries`).

Stream measures are counted in sixteenths: a measure with `n >= 16` notes
adds `n / 16` measures. This keeps the stream arithmetic exact. Where the
source prints a number (`toFixed(0)`, `toString()`), the model renders the
decimal text from those integers.

## Model

| member | source | states |
|---|---|---|
| Text.TrimSpec | src/parser.ts:21 | `trim` removes exactly the leading and the trailing whitespace: the result is the middle slice, and it neither starts nor ends with whitespace |
| Text.TrimBlank | src/parser.ts:55-57 | a value trims to `""` exactly when it is all whitespace, which is the blank-value skip |
| Text.TrimOfTrimmed | src/parser.ts:55 | trimming an already trimmed value leaves it unchanged |
| Text.SplitPiecesFree | src/parser.ts:11 | no piece of `split` contains a separator |
| Text.JoinSplit | src/parser.ts:11-18 | joining the pieces of `split(c)` with `c` gives back the original text |
| Text.SplitCount | src/parser.ts:51 | `split` gives one piece more than there are separators |
| Text.SplitAtFirst | src/parser.ts:11-18 | splitting at the first separator gives the text before it, followed by the pieces of the rest |
| Text.SplitRuns | src/parser.ts:45 | `split(/[\r\n]+/u)`: pieces hold no separator and every inner piece is non-empty |
| Text.RunsKeepNonEmpty | src/hashSimfile.ts:67 | once empty pieces are dropped, splitting at runs of separators is the same as splitting at each separator |
| Text.NonEmptyIdempotent | src/hashSimfile.ts:67 | `filter((e) => e !== "")` applied twice is the same as applied once |
| Text.NatToString | src/breakdown.ts:62 | a whole number renders as decimal digits that denote it, with no leading zero |
| Text.PieceValueOfNumeral | src/breakdown.ts:115 | `parseFloat` of a rendered whole number reads that number back |
| Text.FractionDigitsValue | src/breakdown.ts:152 | the digits after the point denote `n / 10^w` exactly and do not end in `0` |
| Parser.ReadElementAtFirst | src/parser.ts:8-22 | an element splits at its first delimiter only. A delimiter-free key and any value (which may hold more delimiters, as in `#TITLE:apo::lith`) come back as the trimmed key and the trimmed value |
| Parser.ReadElementNoDelimiter | src/parser.ts:8-22 | without a delimiter, the trimmed element is the key and the value is `""` |
| Parser.BeforeComment | src/parser.ts:46 | `line.split("//")[0]` is a prefix of the line that holds no `//`, and when it is shorter, the line continues with `//` |
| Parser.RemoveComments | src/parser.ts:43-49 | the comment loop returns each line (lines split at runs of `\r`/`\n`) cut before its first `//`, each followed by `"\n"` |
| Parser.StrippedSnoc | src/parser.ts:45-49 | each pass of the comment loop appends one cut line and `"\n"` |
| Parser.StrippedLines | src/parser.ts:45-49 | splitting the stripped text at `"\n"` gives back the cut lines, then one empty piece |
| Parser.StrippedClean | src/parser.ts:45-49 | no `//` and no `\r` survive comment removal |
| Parser.StripCommentsShape | src/parser.ts:43-49 | for any file content: the text the element loop splits holds no `//` and no `\r`, and its lines are the source lines cut at `//` |
| Parser.TimingPointsCount | src/parser.ts:91-113 | a `#BPMS`/`#STOPS` value gives one point per comma plus one |
| Parser.PushPoints | src/parser.ts:94-98 | the push loop appends exactly the value's points, in order |
| Parser.Elements | src/parser.ts:51-52 | one element per `;`-piece of the stripped text |
| Parser.ApplyElement | src/parser.ts:52-126 | one pass of the element loop is one `Step`. A blank value is skipped. A metadata key sets its field. `#BPMS`/`#STOPS` append points. `#NOTES` parses a chart, adds it when it is `dance-single`, and propagates the error |
| Parser.ReadElements | src/parser.ts:51-128 | the element loop computes the fold of `Step` over the elements and stops at the first error |
| Parser.FoldErrorStays | src/parser.ts:115-126 | once a `#NOTES` value throws, the outcome is that error, whatever follows |
| Parser.ParseSM | src/parser.ts:31-157 | `parseSM` returns exactly `ParseSpec`: the comment loop, then the element fold, then the artist and title checks |
| Parser.LastValueDeclared | src/parser.ts:55-89 | a metadata field stays unset exactly when no element declares it with a non-blank value |
| Parser.LastValueIsLast | src/parser.ts:59-89 | a set field holds the value of a declaring element that no later element overrides |
| Parser.ApplyMeta | src/parser.ts:59-89 | one element changes only the metadata field its key names, and only when its value is not blank |
| Parser.ApplyLists | src/parser.ts:91-113 | `#BPMS` and `#STOPS` append their points to their own list; no other key touches either list or the charts |
| Parser.AddChartGrows | src/parser.ts:115-126 | a `#NOTES` element changes only the chart list, which grows by at most one. The step fails exactly when the chart parse fails |
| Parser.DeclaredChartsCount | src/parser.ts:115-126 | at most one chart per `#NOTES` element |
| Parser.FoldState | src/parser.ts:51-128 | after any prefix of the elements, each field is its last non-blank declaration and the point lists are all declared points in order. The charts are the `dance-single` charts of the `#NOTES` elements, each parsed with the points declared before it. The only errors are `#NOTES` errors |
| Parser.Shared | src/parser.ts:193-199 | every chart holds the parser's own `bpms` and `stops` arrays, the same ones for every chart |
| Parser.FinishErrors | src/parser.ts:130-138 | `NoArtist` exactly when the fold succeeds without an artist. `NoTitle` exactly when the fold succeeds with an artist but no title. A `#NOTES` error exactly when the fold fails |
| Parser.FinishMeta | src/parser.ts:140-147 | all six metadata fields are their last declarations; absent optional fields are null |
| Parser.FinishCharts | src/parser.ts:153-156 | the returned charts are the declared charts in order, each holding the final point lists of the whole file, at most one per `#NOTES` element |
| Parser.ParseOutcome | src/parser.ts:31-157 | the whole of `parseSM` in terms of the file's declarations: the error cases in both directions, every metadata field, and the chart list |
| Notes.CountNotesPerMeasure | src/parser.ts:309-331 | the loop gives, for each `,`-piece, the number of its lines (split at runs of `\n`) that hold a `1`, `2` or `4` |
| Notes.MeasureCount | src/parser.ts:312-314 | one count per measure: the number of commas plus one |
| Notes.NoteLinesBounds | src/parser.ts:317-325 | a measure's count is at most its line count. It is 0 exactly when no line holds a note, and equal to the line count exactly when every line does |
| Notes.GetTierBPM | src/parser.ts:209-259 | the loops return exactly `TierBPM` |
| Notes.TierBPMCases | src/parser.ts:209-259 | null exactly when there is no point or some tempo exceeds the first by more than 1; without a qualifying stream bucket, the first tempo |
| Notes.DistributionStep | src/parser.ts:231-245 | each pass of the distribution loop keeps `noteFreqDist` equal to the bucket sums of the measures read so far |
| Notes.BucketSnoc | src/parser.ts:236-244 | one measure adds its notes to its own bucket and to the total, and only if it is stream |
| Notes.BucketBounds | src/parser.ts:228-245 | no bucket exceeds the total; a non-empty bucket's key is a stream count no larger than the bucket |
| Notes.NoStreamNoBucket | src/parser.ts:231-234 | without stream measures every bucket is empty |
| Notes.TierFromIsLargest | src/parser.ts:249-255 | counting down from `k`, the first qualifying key is the largest qualifying key up to `k` |
| Notes.TierIsLargest | src/parser.ts:247-255 | the chosen key holds at least 5% of all stream and no larger key does; no key is chosen only when none qualifies |
| Notes.TierFound | src/parser.ts:249-258 | the result is the first tempo times `key / 16` for the chosen key, or the first tempo when none is chosen |
| Notes.TierBPMWithoutStream | src/parser.ts:257-258 | a chart with no stream measure gets the first tempo |
| Notes.CalculateLength | src/parser.ts:261-284 | the loop returns exactly `Length`: each point's beats, up to the next point or the end of the last measure, at that point's tempo |
| Notes.BeatsTelescope | src/parser.ts:264-276 | the beats of the first `n` points sum to the distance from the first beat to the next point, or to `finalMeasure * 4` |
| Notes.LengthScalesBeats | src/parser.ts:261-284 | under one tempo, the partial length is the seconds of the partial beats |
| Notes.LengthConstantTempo | src/parser.ts:261-284 | under one constant tempo, the length is the seconds from the first beat to the end of the last measure; 0 without points |
| Notes.LengthZeroTempo | src/parser.ts:278 | a zero tempo makes the length undefined (non-finite in the source) |
| Notes.BestAtIsLatest | src/parser.ts:290-300 | the chosen point is at or before the beat, no such point is later, and among equal beats the first declared wins; with none at or before the beat, the first tempo is used |
| Notes.NPSPerMeasure | src/parser.ts:302-306 | one notes-per-second value per measure |
| Notes.NPSConstantTempo | src/parser.ts:289-307 | under one constant tempo `v`, measure `i` gives `notes * v / 240` |
| Notes.NotesEntries | src/parser.ts:169 | one entry per `:`-piece |
| Notes.ParseNotesSM | src/parser.ts:159-206 | `#parseNotesSM` returns exactly `ParseNotes` |
| Notes.ParseNotesCases | src/parser.ts:159-206 | `MalformedNotes` exactly when the value lacks exactly five `:`. No chart and no error exactly for other play styles. A chart keeps the given point lists, has one count per measure, a 16-digit hash, and no breakdown exactly when no measure is stream. All errors are `#NOTES` errors |
| Breakdown.CalculateDetailed | src/breakdown.ts:33-103 | the loop returns exactly `Detailed`, the state machine's output |
| Breakdown.RunRendersEvents | src/breakdown.ts:51-100 | BASIC and MEDIUM run the same state machine: the output is one level-free sequence of sizes and gaps, rendered at that level |
| Breakdown.FeedRendersStep | src/breakdown.ts:51-100 | one measure keeps the machine and its level-free tally in step |
| Breakdown.RenderSnoc | src/breakdown.ts:57-93 | a gap appends its break token; a size appends its number, after a space when the text ends in `)` |
| Breakdown.EventsAlternate | src/breakdown.ts:51-100 | sizes and gaps alternate, starting with a size |
| Breakdown.DetailedStartsWithNumber | src/breakdown.ts:57 | the breakdown is empty or starts with a digit: no break is written before the first stream |
| Breakdown.OpenStreamNotFlushed | src/breakdown.ts:82-95 | a stream still open at the end of the chart is never written; only the break before it is |
| Breakdown.RestsAccumulate | src/breakdown.ts:96-99 | break measures only grow the counter and write nothing |
| Breakdown.BreakCounterRule | src/breakdown.ts:50-99 | for any measures `p` that end inside a stream, `n >= 1` break measures and a stream measure: the stream's rounded size is written, then a gap of the counter carried into the stream plus `n - 1` (the measure that ends the stream is not counted), and the counter is 0 afterwards |
| Breakdown.StreamThenRests | src/breakdown.ts:82-98 | after a stream, `n >= 1` break measures write only the stream's size and leave the counter at the carried value plus `n - 1` |
| Breakdown.GapOfCounter | src/breakdown.ts:51-79 | a stream measure after a written break with counter `b` writes exactly a gap of `b` and resets the counter to 0 |
| Breakdown.LeadingRestsCarried | src/breakdown.ts:40-99 | break measures that open a chart write nothing and are all carried into the counter of the first stream |
| Breakdown.LeadingBreaksCarryOver | src/breakdown.ts:40-99 | example of `BreakCounterRule`: the counter resets only when a break is written. So leading break measures are added to the first written break, and the measure that ends a stream is not counted |
| Breakdown.DetailedExample | src/breakdown.ts:33-103 | `[16,16,0,0,0,16,16,16,0]` gives `"2 (2) 3"` in BASIC and `"2-3"` in MEDIUM |
| Breakdown.FullySimplify | src/breakdown.ts:105-138 | the loop returns exactly `FullySimplified` |
| Breakdown.FullySimplified | src/breakdown.ts:136-137 | the result never ends in `\|`, `/` or `-`. It is the flushed text itself, or that text without its last character, and then that character is a `/` or `\|` |
| Breakdown.UnstrippedEnd | src/breakdown.ts:125-137 | the flushed text never ends in `-`, because a final buffer holding a `-` is written as a sum and `*`. When it ends in `/` or `\|`, a `*` comes just before it, so only a divider the last group wrote can be removed |
| Breakdown.SimplifyGroup | src/breakdown.ts:105-137 | any text with no `/` or `\|` and at least one `-` simplifies to the sum of its `-`-separated numbers followed by `*` |
| Breakdown.SimplifyTwoGroups | src/breakdown.ts:105-137 | for any two digit groups `a` and `b`, `a-b` simplifies to the decimal text of their sum followed by `*`, as `"2-3"` gives `"5*"` |
| Breakdown.ScanBuffers | src/breakdown.ts:120-122 | text without `/` or `\|` only grows the buffer |
| Breakdown.GroupThenDivider | src/breakdown.ts:110-119 | the numbers buffered before `/` or `\|` become their sum followed by `*` and the divider |
| Breakdown.LastGroup | src/breakdown.ts:125-134 | the last buffer becomes its sum and `*` when it holds a `-`, and is copied otherwise |
| Breakdown.SimplifyExample | src/breakdown.ts:105-138 | `"2-3"` simplifies to `"5*"` |
| Breakdown.CalculateTotal | src/breakdown.ts:140-153 | the loop returns the text of the sum of `notes / 16` over the stream measures |
| Breakdown.TotalAtLeastStreamCount | src/breakdown.ts:144-150 | every stream measure adds at least one measure; the total is 0 exactly when no measure is stream |
| Breakdown.TotalTextDenotes | src/breakdown.ts:152 | `toString()` of `q + k/16` is the digits of `q`, then, only when `k != 0`, a point and digits that denote `k/16` exactly and do not end in `0` |
| Breakdown.SixteenthsExact | src/breakdown.ts:152 | the fraction digits of `k/16` denote it exactly |
| Breakdown.CalculateDensity | src/breakdown.ts:155-181 | the loop returns exactly `Density` |
| Breakdown.FirstStreamIsFirst | src/breakdown.ts:159 | `findIndex` returns the first stream measure, and -1 exactly when there is none |
| Breakdown.ReversedAt | src/breakdown.ts:162-165 | `slice(0).reverse()` puts element `i` at `len - 1 - i` |
| Breakdown.SpanIsStreamRange | src/breakdown.ts:159-167 | the sliced span runs from the first stream measure to the last one |
| Breakdown.LastStream | src/breakdown.ts:162-167 | the reversed `findIndex` locates the last stream measure |
| Breakdown.TallyCountsBreaks | src/breakdown.ts:167-174 | on a span opening with stream, the break counter is 0 exactly when every measure is stream |
| Breakdown.DensityFullIffUnbroken | src/breakdown.ts:155-181 | the density is 100 exactly when no break lies between the first and the last stream measure; otherwise it is strictly between 0 and 100 |
| Breakdown.DensityMeaning | src/breakdown.ts:155-181 | for any chart with a stream measure: `stream` sums the notes of every stream measure of the chart (so it is sixteen times the total), `breaks` counts the break measures between the first and the last stream measure, and the density is computed from these two |
| Breakdown.TallyIsSums | src/breakdown.ts:167-174 | over any span that opens with a stream measure, the loop's two sums are the span's stream notes and its number of break measures |
| Breakdown.DensityExample | src/breakdown.ts:140-181 | the example chart has density 62.5 and total `"5"` |
| Breakdown.CreateBreakdowns | src/breakdown.ts:6-24 | null exactly when no measure is stream |
| Breakdown.BreakdownExample | src/breakdown.ts:6-24 | the example chart's whole record: `"2 (2) 3"`, `"2-3"`, `"5*"`, `"5"`, 62.5 |
| Hash.NormaliseBPMsEntries | src/hashSimfile.ts:24-26 | the tempo text splits at `,` into one `beat=value` entry per point, in order; no points give `""` |
| Hash.MinimizeMeasure | src/hashSimfile.ts:28-61 | the loop returns exactly `Minimized`, the corrected minimization |
| Hash.MinimizedUnchanged | src/hashSimfile.ts:37-54 | a measure with an odd row count, or a non-zero odd-indexed row, comes back unchanged |
| Hash.MinimizedLength | src/hashSimfile.ts:37-58 | the input length is the result length times `2^passes` |
| Hash.MinimizedSamples | src/hashSimfile.ts:57 | row `i` of the result is row `i * 2^passes` of the input |
| Hash.MinimizedDropsBlank | src/hashSimfile.ts:46-57 | every dropped row is all zeros |
| Hash.MinimizedKeepsFirst | src/hashSimfile.ts:57 | the first row is always kept |
| Hash.MinimizedMembers | src/hashSimfile.ts:57 | every row of the result is a row of the input |
| Hash.MinimizedIsFinal | src/hashSimfile.ts:37-58 | the result cannot be halved again |
| Hash.MinimizedIdempotent | src/hashSimfile.ts:28-61 | minimizing twice is the same as once |
| Hash.MinimizedExample | src/hashSimfile.ts:38-45 | `1000,0000,0100,0000` becomes `1000,0100` |
| Hash.EmptyMeasureNeverEnds | src/hashSimfile.ts:37-58 | as written, the loop never ends on an empty measure |
| Hash.AsWrittenAgrees | src/hashSimfile.ts:37-58 | on a non-empty measure the loop as written ends, with the corrected result |
| Hash.MinimizeChart | src/hashSimfile.ts:63-73 | the loop returns exactly `MinimizedChart`: each `,`-measure minimized, rows joined with `"\n"`, measures joined with `"\n,\n"` |
| Hash.RowsAreLines | src/hashSimfile.ts:67 | the non-empty lines are the same whether split at runs of line breaks or at each one |
| Hash.RowsClean | src/hashSimfile.ts:67 | rows are non-empty and hold no line break (and no comma when the measure holds none) |
| Hash.RowsOfJoined | src/hashSimfile.ts:67-69 | the rows of a `"\n"`-joined measure are the joined rows |
| Hash.MeasureTextIdempotent | src/hashSimfile.ts:67-69 | minimizing a minimized measure changes nothing |
| Hash.MeasureTextCommaFree | src/hashSimfile.ts:67-69 | a measure's minimized text holds no comma |
| Hash.ChartSplit | src/hashSimfile.ts:66-72 | splitting a `"\n,\n"`-joined chart at `,` gives back its measures, up to surrounding line breaks |
| Hash.MinimizedChartIdempotent | src/hashSimfile.ts:63-73 | minimizing a minimized chart changes nothing and keeps the number of measures |
| Hash.HashSimfile | src/hashSimfile.ts:79-93 | SSC is refused, and only SSC; otherwise the hash is 16 lower-case hex digits |
| Hash.HashOfMinimizedNotes | src/hashSimfile.ts:79-93 | hashing the minimized notes gives the same hash as the notes |
| Hash.HashIsDigestPrefix | src/hashSimfile.ts:92 | the hash is the first 16 digits of the SHA-1 of the minimized notes followed by the tempo text |

## Left out

- Floating point is not modelled bit by bit. Beats, tempos, lengths and notes per second are Dafny `real`s. Stream amounts are whole sixteenths, exact as in the source (`n / 16` is exact in binary floating point). `Number(text)`, `toFixed(3)` and SHA-1 are `Host` functions passed as parameters.
- `RoundToNDP` (src/hashSimfile.ts:15-19) is not called by the core and is not modelled.
- The logger (`CreateLogger` and its `error` and `verbose` calls) is left out; it only writes messages.
- The `SMParser` class holds its logger and the constant `MIN_NOTES_TO_BE_CONSIDERED_STREAM` (src/parser.ts:208), which is `Breakdown.StreamThreshold` here. Its methods update neither, so they are module-level functions and methods here.
- batch.ts and main.ts (file walking, reading files, printing) are not part of this model.
- Notes.GetTierBPM: the source sorts the distribution's keys in descending order and walks them. The model counts down from the stream total, which is at least every key. The first qualifying key is the same, and Notes.BucketBounds and Notes.TierFromIsLargest prove the count-down finds the largest qualifying key.
- Notes.GetTierBPM: buckets hold note counts rather than `notes / 16` measures. The 5% test compares two sums scaled by the same 16, so it is unchanged.
- Notes.BestAtIsLatest: `bpms.slice().sort(...)` is replaced by a direct search for the latest point at or before the beat, with ties going to the first declared point. This is what a stable descending sort yields.
- The notes-per-second lookup uses beat `i / 4` for measure `i`, as the source writes it. Measure `i` begins at beat `4 * i`, but the source's expression is kept.
- Notes.CalculateLength: where a tempo is 0, the source's division gives `Infinity` or `NaN`; the model returns `None` instead.
- A `dance-single` chart declared before any `#BPMS` point throws a `TypeError` in the source, at `bpms[0].value` in the notes-per-second lookup. The model reports `NoTempoPoints`.
- Charts hold the parser's own `bpms` and `stops` arrays rather than copies. So every returned chart lists every point of the file (Parser.Shared), while the fields computed from the notes use the points declared before the chart. The code is followed here.
- `parseFloat` in `fullySimplify` is modelled as the value of the leading decimal digits. The strings it reads come from `calculateDetailed` and hold only digits and dividers, so signs, points and exponents cannot occur.
- The unused `npsPerMeasure` parameter of `CreateBreakdowns` and the unused `currentStreamBPM` constant are dropped.
- `hashSimfileFromString` throws for `"ssc"`; the model returns `Err(SSCUnsupported)`.
- `#parseNotesSM` and `parseSM` throw; the model returns `Err` of `ParseError` instead, and a thrown `#NOTES` error ends the element loop, as the exception does.
- Strings are sequences of Unicode scalar values rather than UTF-16 code units, so surrogate pairs are not modelled.
- Minimized measures are joined with `"\n,\n"`, as the code writes.
- Notes.NPSPerMeasure: its contract states only one value per measure. The value itself is stated for constant tempo by Notes.NPSConstantTempo.

## Findings

| source | as written | input that shows it | evidently intended | confidence | as-written member | corrected member |
|---|---|---|---|---|---|---|
| src/hashSimfile.ts:37-58 | the loop `while (rows.length % 2 === 0)` halves the rows while every odd-indexed row is zero, and never tests for an empty measure | a `#NOTES` note field holding an empty measure, such as `0000\n,\n,\n1000`: the measure between the two commas has no rows, `0 % 2 === 0` holds forever, and filtering `[]` gives `[]`, so hashing never returns | stop when no rows are left: an empty measure minimizes to itself | not executed | Hash.EmptyMeasureNeverEnds | Hash.MinimizeMeasure |
