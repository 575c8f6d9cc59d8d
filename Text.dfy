/**
 * String primitives the simfile code takes from the JavaScript runtime:
 * `split` on one character or on a character class, `join`, `trim`,
 * `trimStart`, decimal rendering of whole numbers and the digit reading
 * `parseFloat` performs on digit strings.
 */
module Text {

  datatype Option<+T> = None | Some(value: T)

  datatype Result<+T, +E> = Ok(value: T) | Err(error: E)

  /** ECMAScript WhiteSpace and LineTerminator code points: what `trim` removes. */
  predicate IsSpace(c: char) {
    || c == '\t' || c == '\n' || c == '\U{B}' || c == '\U{C}' || c == '\r'
    || c == ' ' || c == '\U{A0}' || c == '\U{1680}'
    || ('\U{2000}' <= c <= '\U{200A}')
    || c == '\U{2028}' || c == '\U{2029}' || c == '\U{202F}' || c == '\U{205F}'
    || c == '\U{3000}' || c == '\U{FEFF}'
  }

  predicate AllSpace(s: string) {
    forall i :: 0 <= i < |s| ==> IsSpace(s[i])
  }

  /** The number of blanks `s` starts with. */
  function LeadingSpaces(s: string): (n: nat)
    ensures n <= |s|
  {
    if |s| > 0 && IsSpace(s[0]) then 1 + LeadingSpaces(s[1..]) else 0
  }

  /** The leading blanks are blank and the character after them is not. */
  lemma {:induction false} LeadingSpacesSpec(s: string)
    ensures AllSpace(s[..LeadingSpaces(s)])
    ensures LeadingSpaces(s) < |s| ==> !IsSpace(s[LeadingSpaces(s)])
    decreases |s|
  {
    if |s| > 0 && IsSpace(s[0]) {
      LeadingSpacesSpec(s[1..]);
      var n := LeadingSpaces(s);
      assert forall i :: 1 <= i < n ==> s[..n][i] == s[1..][..n - 1][i - 1];
    }
  }

  /** `String.prototype.trimStart`. */
  function TrimStart(s: string): string {
    s[LeadingSpaces(s)..]
  }

  /** `String.prototype.trimEnd`. */
  function TrimEnd(s: string): (r: string)
    ensures |r| <= |s| && r == s[..|r|]
  {
    if |s| > 0 && IsSpace(s[|s| - 1]) then TrimEnd(s[..|s| - 1]) else s
  }

  /** `trimEnd` drops only blanks, and what it keeps does not end with one. */
  lemma {:induction false} TrimEndSpec(s: string)
    ensures AllSpace(s[|TrimEnd(s)|..])
    ensures TrimEnd(s) == [] || !IsSpace(TrimEnd(s)[|TrimEnd(s)| - 1])
    decreases |s|
  {
    if |s| > 0 && IsSpace(s[|s| - 1]) {
      var p := s[..|s| - 1];
      var r := TrimEnd(p);
      TrimEndSpec(p);
      assert TrimEnd(s) == r;
      assert s[|r|..] == p[|r|..] + [s[|s| - 1]];
      AllSpaceJoin(p[|r|..], [s[|s| - 1]]);
    }
  }

  /** `String.prototype.trim`. */
  function Trim(s: string): (r: string)
    ensures |r| <= |s|
  {
    TrimEnd(TrimStart(s))
  }

  /** `trim` keeps a slice of `s` that starts after its leading blanks. */
  lemma TrimSlice(s: string)
    ensures var r := Trim(s); var k := LeadingSpaces(s);
      k + |r| <= |s| && r == s[k..k + |r|]
  {
    var k := LeadingSpaces(s);
    var t := s[k..];
    var r := TrimEnd(t);
    assert s[k..k + |r|] == t[..|r|];
  }

  /**
   * `trim` drops only blanks, and what remains neither starts nor ends
   * with a blank.
   */
  lemma TrimSpec(s: string)
    ensures var r := Trim(s); var k := LeadingSpaces(s);
      k + |r| <= |s| && r == s[k..k + |r|]
      && AllSpace(s[..k]) && AllSpace(s[k + |r|..])
      && (r == [] || (!IsSpace(r[0]) && !IsSpace(r[|r| - 1])))
  {
    TrimSlice(s);
    LeadingSpacesSpec(s);
    TrimEndSpec(s[LeadingSpaces(s)..]);
    var k := LeadingSpaces(s);
    var t := s[k..];
    var r := TrimEnd(t);
    TrailAfterSlice(s, k, |r|);
    if r != [] {
      assert r[0] == s[k];
    }
  }

  lemma TrailAfterSlice(s: string, k: nat, n: nat)
    requires k + n <= |s| && AllSpace(s[k..][n..])
    ensures AllSpace(s[k + n..])
  {
    assert s[k..][n..] == s[k + n..];
  }

  /** Nothing remains of `s` exactly when it is all blank. */
  lemma TrimBlank(s: string)
    ensures Trim(s) == [] <==> AllSpace(s)
  {
    TrimSpec(s);
    var k := LeadingSpaces(s);
    if Trim(s) == [] {
      assert s == s[..k] + s[k..];
      AllSpaceJoin(s[..k], s[k..]);
    } else {
      var c := Trim(s)[0];
      assert c == s[k];
    }
  }

  lemma AllSpaceJoin(a: string, b: string)
    requires AllSpace(a) && AllSpace(b)
    ensures AllSpace(a + b)
  {
    assert forall i :: 0 <= i < |a + b| ==> (a + b)[i] == if i < |a| then a[i] else b[i - |a|];
  }

  lemma TrimOfTrimmed(s: string)
    requires s == [] || (!IsSpace(s[0]) && !IsSpace(s[|s| - 1]))
    ensures Trim(s) == s
  {
    assert LeadingSpaces(s) == 0;
    assert s[0..] == s;
  }

  /**
   * `s.split(c)` for a one-character separator `c`, generalised to a set of
   * separator characters: every occurrence of a separator ends a piece.
   */
  function SplitOn(s: string, seps: set<char>): (r: seq<string>)
    ensures |r| >= 1
  {
    if |s| == 0 then [""]
    else if s[0] in seps then [""] + SplitOn(s[1..], seps)
    else
      var t := SplitOn(s[1..], seps);
      [[s[0]] + t[0]] + t[1..]
  }

  /** No piece contains a separator. */
  lemma {:induction false} SplitPiecesFree(s: string, seps: set<char>)
    ensures forall k :: 0 <= k < |SplitOn(s, seps)| ==> NoneIn(SplitOn(s, seps)[k], seps)
    decreases |s|
  {
    if |s| > 0 {
      SplitPiecesFree(s[1..], seps);
    }
  }

  /** `parts.join(sep)`. */
  function JoinWith(parts: seq<string>, sep: string): string {
    if |parts| == 0 then ""
    else if |parts| == 1 then parts[0]
    else parts[0] + sep + JoinWith(parts[1..], sep)
  }

  /** Number of characters of `s` that lie in `seps`. */
  function CountIn(s: string, seps: set<char>): nat {
    if |s| == 0 then 0 else (if s[0] in seps then 1 else 0) + CountIn(s[1..], seps)
  }

  predicate NoneIn(s: string, seps: set<char>) {
    forall j :: 0 <= j < |s| ==> s[j] !in seps
  }

  /** Joining the pieces with the separator gives the text back. */
  lemma {:induction false} JoinSplit(s: string, c: char)
    ensures JoinWith(SplitOn(s, {c}), [c]) == s
    decreases |s|
  {
    if |s| > 0 {
      JoinSplit(s[1..], c);
      var t := SplitOn(s[1..], {c});
      if s[0] != c {
        if |t| > 1 {
          assert t == [t[0]] + t[1..];
          assert JoinWith(t, [c]) == t[0] + [c] + JoinWith(t[1..], [c]);
          assert ([s[0]] + t[0]) + [c] + JoinWith(t[1..], [c]) == [s[0]] + JoinWith(t, [c]);
        }
      }
    }
  }

  /** There is exactly one piece more than there are separators. */
  lemma {:induction false} SplitCount(s: string, seps: set<char>)
    ensures |SplitOn(s, seps)| == CountIn(s, seps) + 1
    decreases |s|
  {
    if |s| > 0 {
      SplitCount(s[1..], seps);
    }
  }

  /** Text without a separator is one piece. */
  lemma {:induction false} SplitNoSep(s: string, seps: set<char>)
    requires NoneIn(s, seps)
    ensures SplitOn(s, seps) == [s]
    decreases |s|
  {
    if |s| > 0 {
      SplitNoSep(s[1..], seps);
      assert [s[0]] + s[1..] == s;
    }
  }

  /** Splitting cuts at the first separator: the first piece is the text before it. */
  lemma {:induction false} SplitAtFirst(s: string, seps: set<char>, i: nat)
    requires i < |s| && s[i] in seps && NoneIn(s[..i], seps)
    ensures SplitOn(s, seps) == [s[..i]] + SplitOn(s[i + 1..], seps)
    decreases i
  {
    if i > 0 {
      assert s[1..][..i - 1] == s[..i][1..];
      SplitAtFirst(s[1..], seps, i - 1);
      assert s[1..][i..] == s[i + 1..];
      assert [s[0]] + s[1..][..i - 1] == s[..i];
    }
  }

  /** A separator between `a` and `b` keeps their pieces apart. */
  lemma {:induction false} SplitAroundSep(a: string, c: char, b: string, seps: set<char>)
    requires c in seps
    ensures SplitOn(a + [c] + b, seps) == SplitOn(a, seps) + SplitOn(b, seps)
    decreases |a|
  {
    var s := a + [c] + b;
    if |a| == 0 {
      assert s == [c] + b && s[1..] == b;
    } else {
      assert s[0] == a[0] && s[1..] == a[1..] + [c] + b;
      SplitAroundSep(a[1..], c, b, seps);
      var p', q := SplitOn(a[1..], seps), SplitOn(b, seps);
      var t := SplitOn(s[1..], seps);
      assert t == p' + q;
      if a[0] !in seps {
        assert t[0] == p'[0] && t[1..] == p'[1..] + q;
        assert SplitOn(a, seps) == [[a[0]] + p'[0]] + p'[1..];
      }
    }
  }

  /** The pieces that are not empty, in order (`.filter((e) => e !== "")`). */
  function NonEmpty(ps: seq<string>): (r: seq<string>)
    ensures |r| <= |ps|
    ensures forall k :: 0 <= k < |r| ==> r[k] != ""
  {
    if |ps| == 0 then []
    else (if ps[0] == "" then [] else [ps[0]]) + NonEmpty(ps[1..])
  }

  lemma {:induction false} NonEmptyAppend(a: seq<string>, b: seq<string>)
    ensures NonEmpty(a + b) == NonEmpty(a) + NonEmpty(b)
    decreases |a|
  {
    if |a| > 0 {
      assert (a + b)[1..] == a[1..] + b;
      NonEmptyAppend(a[1..], b);
    } else {
      assert a + b == b;
    }
  }

  /**
   * `s.split(/[seps]+/u)`: a run of separators is one cut, so the empty
   * pieces inside the text disappear, while a leading or trailing separator
   * still yields an empty first or last piece.
   */
  function SplitRuns(s: string, seps: set<char>): (r: seq<string>)
    ensures |r| >= 1
    ensures forall k :: 0 <= k < |r| ==> NoneIn(r[k], seps)
    ensures forall k :: 0 < k < |r| - 1 ==> r[k] != ""
  {
    var p := SplitOn(s, seps);
    SplitPiecesFree(s, seps);
    if |p| <= 2 then p
    else
      var mid := NonEmpty(p[1..|p| - 1]);
      assert forall k :: 0 <= k < |mid| ==> mid[k] in p[1..|p| - 1] by {
        NonEmptyMembers(p[1..|p| - 1]);
      }
      [p[0]] + mid + [p[|p| - 1]]
  }

  lemma {:induction false} NonEmptyMembers(ps: seq<string>)
    ensures forall k :: 0 <= k < |NonEmpty(ps)| ==> NonEmpty(ps)[k] in ps
    decreases |ps|
  {
    if |ps| > 0 {
      NonEmptyMembers(ps[1..]);
    }
  }

  /** The non-empty pieces of a run split are those of the plain split. */
  lemma RunsKeepNonEmpty(s: string, seps: set<char>)
    ensures NonEmpty(SplitRuns(s, seps)) == NonEmpty(SplitOn(s, seps))
  {
    var p := SplitOn(s, seps);
    if |p| > 2 {
      var x, mid, y := p[0], p[1..|p| - 1], p[|p| - 1];
      assert p == [x] + mid + [y];
      var m := NonEmpty(mid);
      assert SplitRuns(s, seps) == [p[0]] + NonEmpty(p[1..|p| - 1]) + [p[|p| - 1]];
      RunsKeepStep(x, mid, y);
    }
  }

  lemma RunsKeepStep(x: string, mid: seq<string>, y: string)
    ensures NonEmpty([x] + NonEmpty(mid) + [y]) == NonEmpty([x] + mid + [y])
  {
    NonEmptyThree(x, mid, y);
    NonEmptyThree(x, NonEmpty(mid), y);
    NonEmptyIdempotent(mid);
  }

  lemma NonEmptyThree(x: string, m: seq<string>, y: string)
    ensures NonEmpty([x] + m + [y]) == NonEmpty([x]) + NonEmpty(m) + NonEmpty([y])
  {
    NonEmptyAppend([x] + m, [y]);
    NonEmptyAppend([x], m);
  }

  lemma {:induction false} NonEmptyIdempotent(ps: seq<string>)
    ensures NonEmpty(NonEmpty(ps)) == NonEmpty(ps)
    decreases |ps|
  {
    if |ps| > 0 {
      NonEmptyIdempotent(ps[1..]);
      NonEmptyAppend(if ps[0] == "" then [] else [ps[0]], NonEmpty(ps[1..]));
    }
  }

  predicate IsDigit(c: char) {
    '0' <= c <= '9'
  }

  predicate AllDigits(s: string) {
    forall i :: 0 <= i < |s| ==> IsDigit(s[i])
  }

  /** The value of a string of decimal digits (the empty string reads as 0). */
  function DigitsValue(s: string): nat
    requires AllDigits(s)
  {
    if |s| == 0 then 0 else 10 * DigitsValue(s[..|s| - 1]) + (s[|s| - 1] as int - '0' as int)
  }

  /** `n.toFixed(0)` for a whole number `n`: its decimal digits, no leading zero. */
  function NatToString(n: nat): (r: string)
    ensures |r| >= 1 && AllDigits(r)
    ensures DigitsValue(r) == n
    ensures r[0] == '0' ==> r == "0"
  {
    if n < 10 then [('0' as int + n) as char]
    else
      var h := NatToString(n / 10);
      var r := h + [('0' as int + n % 10) as char];
      assert r[..|r| - 1] == h;
      r
  }

  /** The longest prefix of `s` made of digits. */
  function LeadingDigits(s: string): (r: string)
    ensures |r| <= |s| && AllDigits(r) && r == s[..|r|]
    ensures |r| == |s| || !IsDigit(s[|r|])
  {
    if |s| > 0 && IsDigit(s[0]) then [s[0]] + LeadingDigits(s[1..]) else ""
  }

  /**
   * `parseFloat(p) || 0` on the pieces the breakdown strings contain: the
   * value of the leading digits, 0 when there are none (NaN is falsy).
   */
  function PieceValue(p: string): nat {
    DigitsValue(LeadingDigits(p))
  }

  lemma PieceValueOfNumeral(n: nat)
    ensures PieceValue(NatToString(n)) == n
  {
    var s := NatToString(n);
    DigitsPrefixIsWhole(s);
  }

  lemma DigitsPrefixIsWhole(s: string)
    requires AllDigits(s)
    ensures LeadingDigits(s) == s
  {
  }

  /** A leading zero does not change the value of a digit string. */
  lemma {:induction false} LeadingZero(s: string)
    requires AllDigits(s)
    ensures AllDigits("0" + s) && DigitsValue("0" + s) == DigitsValue(s)
    decreases |s|
  {
    if |s| > 0 {
      LeadingZero(s[..|s| - 1]);
      assert ("0" + s)[..|s|] == "0" + s[..|s| - 1];
    }
  }

  function Pow10(n: nat): (r: nat)
    ensures r > 0
  {
    if n == 0 then 1 else 10 * Pow10(n - 1)
  }

  lemma {:induction false} Pow10Add(a: nat, b: nat)
    ensures Pow10(a + b) == Pow10(a) * Pow10(b)
    decreases a
  {
    if a > 0 {
      Pow10Add(a - 1, b);
    }
  }

  /** A number below `10^m` has at most `m` digits. */
  lemma {:induction false} NatToStringLength(n: nat, m: nat)
    requires m >= 1 && n < Pow10(m)
    ensures |NatToString(n)| <= m
    decreases m
  {
    if n >= 10 {
      NatToStringLength(n / 10, m - 1);
    }
  }

  function Zeros(n: nat): (r: string)
    ensures |r| == n && AllDigits(r)
  {
    seq(n, _ => '0')
  }

  /** Leading zeros do not change the value of a digit string. */
  lemma {:induction false} ZerosValue(z: nat, s: string)
    requires AllDigits(s)
    ensures AllDigits(Zeros(z) + s) && DigitsValue(Zeros(z) + s) == DigitsValue(s)
    decreases z
  {
    if z > 0 {
      ZerosValue(z - 1, s);
      assert Zeros(z) + s == "0" + (Zeros(z - 1) + s);
      LeadingZero(Zeros(z - 1) + s);
    } else {
      assert Zeros(z) + s == s;
    }
  }

  /** Trailing zeros multiply the value by a power of ten. */
  lemma {:induction false} TrailingZerosValue(s: string, z: nat)
    requires AllDigits(s)
    ensures AllDigits(s + Zeros(z)) && DigitsValue(s + Zeros(z)) == DigitsValue(s) * Pow10(z)
    decreases z
  {
    if z > 0 {
      TrailingZerosValue(s, z - 1);
      var v := s + Zeros(z - 1);
      var u := s + Zeros(z);
      assert u == v + "0";
      assert u[..|u| - 1] == v;
      ShiftLeft(DigitsValue(s), Pow10(z - 1), DigitsValue(u));
    } else {
      assert s + Zeros(z) == s;
    }
  }

  /** The string without its trailing zeros. */
  lemma ShiftLeft(a: nat, p: nat, u: nat)
    requires u == 10 * (a * p)
    ensures u == a * (10 * p)
  {
  }

  function StripZeros(s: string): (r: string)
    ensures |r| <= |s| && r == s[..|r|]
    ensures r == [] || r[|r| - 1] != '0'
    ensures forall i :: |r| <= i < |s| ==> s[i] == '0'
  {
    if |s| > 0 && s[|s| - 1] == '0' then StripZeros(s[..|s| - 1]) else s
  }

  /** The digits after the point of `n / 10^w` (for `n < 10^w`), without trailing zeros. */
  function FractionDigits(n: nat, w: nat): string {
    var t := NatToString(n);
    StripZeros(Zeros(if |t| < w then w - |t| else 0) + t)
  }

  /** The fraction digits read back, scaled to `w` places, give `n`; the last one is not a zero. */
  lemma FractionDigitsValue(n: nat, w: nat)
    requires w >= 1 && 0 < n < Pow10(w)
    ensures var r := FractionDigits(n, w);
      AllDigits(r) && 0 < |r| <= w && r[|r| - 1] != '0'
      && DigitsValue(r) * Pow10(w - |r|) == n
  {
    var d := Padded(n, w);
    var r := StripZeros(d);
    StripValue(d);
    NonZeroFactor(DigitsValue(r), Pow10(w - |r|), n);
  }

  lemma NonZeroFactor(v: nat, p: nat, n: nat)
    requires v * p == n && n > 0
    ensures v != 0
  {
  }

  /** `n` written with exactly `w` digits, zeros in front. */
  lemma Padded(n: nat, w: nat) returns (d: string)
    requires w >= 1 && n < Pow10(w)
    ensures StripZeros(d) == FractionDigits(n, w)
    ensures |d| == w && AllDigits(d) && DigitsValue(d) == n
  {
    var t := NatToString(n);
    NatToStringLength(n, w);
    d := Zeros(w - |t|) + t;
    ZerosValue(w - |t|, t);
  }

  /** Dropping trailing zeros divides the value by a power of ten. */
  lemma StripValue(d: string)
    requires AllDigits(d)
    ensures var r := StripZeros(d); AllDigits(r) && DigitsValue(d) == DigitsValue(r) * Pow10(|d| - |r|)
  {
    var r := StripZeros(d);
    StrippedSplit(d, r);
    TrailingZerosValue(r, |d| - |r|);
  }

  lemma StrippedSplit(d: string, r: string)
    requires |r| <= |d| && r == d[..|r|]
    requires forall i :: |r| <= i < |d| ==> d[i] == '0'
    ensures d == r + Zeros(|d| - |r|)
  {
    assert d == d[..|r|] + d[|r|..];
  }

  /** Sum of the values of a sequence of pieces. */
  function SumValues(ps: seq<string>): nat {
    if |ps| == 0 then 0 else SumValues(ps[..|ps| - 1]) + PieceValue(ps[|ps| - 1])
  }
  /** Characters absent from the text are absent from every piece. */
  lemma {:induction false} SplitKeepsFree(s: string, seps: set<char>, xs: set<char>)
    requires NoneIn(s, xs)
    ensures forall k :: 0 <= k < |SplitOn(s, seps)| ==> NoneIn(SplitOn(s, seps)[k], xs)
    decreases |s|
  {
    if |s| > 0 {
      assert NoneIn(s[1..], xs);
      SplitKeepsFree(s[1..], seps, xs);
    }
  }

  /** Splitting a join of separator-free parts gives the parts back. */
  lemma {:induction false} SplitOfJoin(parts: seq<string>, c: char, seps: set<char>)
    requires c in seps && |parts| >= 1
    requires forall k :: 0 <= k < |parts| ==> NoneIn(parts[k], seps)
    ensures SplitOn(JoinWith(parts, [c]), seps) == parts
    decreases |parts|
  {
    SplitNoSep(parts[0], seps);
    if |parts| > 1 {
      var rest := JoinWith(parts[1..], [c]);
      SplitOfJoin(parts[1..], c, seps);
      SplitAroundSep(parts[0], c, rest, seps);
      assert parts == [parts[0]] + parts[1..];
    }
  }

  /** A join of parts and a separator free of `xs` is free of `xs`. */
  lemma {:induction false} JoinFree(parts: seq<string>, sep: string, xs: set<char>)
    requires NoneIn(sep, xs)
    requires forall k :: 0 <= k < |parts| ==> NoneIn(parts[k], xs)
    ensures NoneIn(JoinWith(parts, sep), xs)
    decreases |parts|
  {
    if |parts| > 1 {
      JoinFree(parts[1..], sep, xs);
      var rest := JoinWith(parts[1..], sep);
      var j := parts[0] + sep + rest;
      assert forall i :: 0 <= i < |j| ==> j[i] in parts[0] || j[i] in sep || j[i] in rest by {
        forall i | 0 <= i < |j|
          ensures j[i] in parts[0] || j[i] in sep || j[i] in rest
        {
          if i < |parts[0]| {
            assert j[i] == parts[0][i];
          } else if i < |parts[0]| + |sep| {
            assert j[i] == sep[i - |parts[0]|];
          } else {
            assert j[i] == rest[i - |parts[0]| - |sep|];
          }
        }
      }
    }
  }

  /** Filtering pieces that are all non-empty changes nothing. */
  lemma {:induction false} NonEmptyKeepsAll(ps: seq<string>)
    requires forall k :: 0 <= k < |ps| ==> ps[k] != ""
    ensures NonEmpty(ps) == ps
    decreases |ps|
  {
    if |ps| > 0 {
      NonEmptyKeepsAll(ps[1..]);
    }
  }
  /** A leading separator opens with an empty piece. */
  lemma SplitLeadingSep(c: char, b: string, seps: set<char>)
    requires c in seps
    ensures SplitOn([c] + b, seps) == [""] + SplitOn(b, seps)
  {
    assert ([c] + b)[0] == c && ([c] + b)[1..] == b;
  }

  /** A trailing separator closes with an empty piece. */
  lemma SplitTrailingSep(a: string, c: char, seps: set<char>)
    requires c in seps
    ensures SplitOn(a + [c], seps) == SplitOn(a, seps) + [""]
  {
    SplitAroundSep(a, c, [], seps);
    assert a + [c] + [] == a + [c];
  }

  /** An empty piece at either end is filtered away. */
  lemma NonEmptyDropsBlank(q: seq<string>)
    ensures NonEmpty([""] + q) == NonEmpty(q) && NonEmpty(q + [""]) == NonEmpty(q)
  {
    assert ([""] + q)[1..] == q;
    NonEmptyAppend(q, [""]);
    assert NonEmpty([""]) == [];
    assert NonEmpty(q) + [] == NonEmpty(q);
  }

  /** An empty piece between two lists of pieces is filtered away. */
  lemma NonEmptyBlankBetween(p: seq<string>, q: seq<string>)
    ensures NonEmpty(p + ([""] + q)) == NonEmpty(p + q)
  {
    NonEmptyAppend(p, [""] + q);
    NonEmptyAppend(p, q);
    NonEmptyDropsBlank(q);
  }

  /** Two separators in a row leave an empty piece between them. */
  lemma SplitDoubleSep(a: string, c: char, d: char, b: string, seps: set<char>)
    requires c in seps && d in seps
    ensures SplitOn(a + [c] + [d] + b, seps) == SplitOn(a, seps) + ([""] + SplitOn(b, seps))
  {
    assert a + [c] + [d] + b == a + [c] + ([d] + b);
    SplitAroundSep(a, c, [d] + b, seps);
    SplitLeadingSep(d, b, seps);
  }

  /** A leading character that is not a separator joins the first piece. */
  lemma SplitLeadingOther(c: char, b: string, seps: set<char>)
    requires c !in seps
    ensures var q := SplitOn(b, seps); SplitOn([c] + b, seps) == [[c] + q[0]] + q[1..]
  {
    assert ([c] + b)[0] == c && ([c] + b)[1..] == b;
  }
}
