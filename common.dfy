/** Shared records of the application (the interfaces and unions of types.ts),
    the outcome wrappers used for the source's thrown errors, and the
    JavaScript number helpers (Math.round, Math.ceil, Math.min, Math.max). */
module Common {

  datatype Option<T> = None | Some(value: T)

  /** A call that either produces a value or throws an Error with a message. */
  datatype Result<T> = Ok(value: T) | Err(msg: string)

  /** SplitDuration: the clip lengths offered, in seconds. */
  type SplitDuration = d: int | d == 15 || d == 30 || d == 60 || d == 90 witness 15

  /** SplitAspectRatio: 'Original' | '9:16' | '16:9' | '1:1'. */
  datatype SplitAspectRatio = Original | Ratio9x16 | Ratio16x9 | Ratio1x1

  /** AspectRatio of the generator: '9:16' | '16:9' | '1:1' | '4:3' | '3:4'. */
  datatype AspectRatio = AR9x16 | AR16x9 | AR1x1 | AR4x3 | AR3x4

  datatype MediaType = Video | Image

  /** The options of one split run. The overlap and the score threshold come
      from sliders parsed with parseInt, so they are integers. */
  datatype SplitOptions = SplitOptions(
    duration: SplitDuration,
    overlap: int,
    minViralScore: int,
    aspectRatio: SplitAspectRatio)

  /** One kept clip of the splitter. Times are seconds. */
  datatype SplitSegment = SplitSegment(
    id: string,
    index: nat,
    startTime: real,
    endTime: real,
    duration: real,
    title: string,
    description: string,
    explanation: string,
    hashtags: seq<string>,
    viralScore: real,
    thumbnail: string,
    isLandscape: bool,
    hasWatermark: bool)

  /** The per-day usage counters persisted by the application. */
  datatype UserUsage = UserUsage(date: string, veoCount: int, splitCount: int)

  /** An item of the generated media gallery. */
  datatype GeneratedMedia = GeneratedMedia(
    id: string,
    uri: string,
    kind: MediaType,
    prompt: string,
    aspectRatio: string,
    style: string,
    timestamp: int,
    hasWatermark: bool)

  /** The request handed to the generative media provider. */
  datatype VideoConfig = VideoConfig(
    prompt: string,
    aspectRatio: AspectRatio,
    style: string,
    startImage: Option<string>,
    startImageMimeType: Option<string>,
    generateType: MediaType)

  /** What frame analysis returns. An empty explanation stands for a missing
      one; a missing hashtag list is None (an empty list is a present one). */
  datatype Analysis = Analysis(
    title: string,
    description: string,
    viralScore: real,
    explanation: string,
    hashtags: Option<seq<string>>)

  /** The text form of an AspectRatio, as stored in GeneratedMedia. */
  function AspectRatioText(a: AspectRatio): string
  {
    match a
    case AR9x16 => "9:16"
    case AR16x9 => "16:9"
    case AR1x1 => "1:1"
    case AR4x3 => "4:3"
    case AR3x4 => "3:4"
  }

  function MinReal(a: real, b: real): real { if a <= b then a else b }
  function MaxReal(a: real, b: real): real { if a >= b then a else b }
  function MinInt(a: int, b: int): int { if a <= b then a else b }
  function MaxInt(a: int, b: int): int { if a >= b then a else b }

  /** Math.round: the nearest integer, halves rounded up. */
  function Round(x: real): (r: int)
    ensures x - 0.5 < r as real <= x + 0.5
  {
    (x + 0.5).Floor
  }

  /** Math.ceil: the least integer not below x. */
  function Ceil(x: real): (r: int)
    ensures x <= r as real < x + 1.0
  {
    -((-x).Floor)
  }
}

/** String helpers the components use: the whitespace class of JavaScript
    regular expressions and String.prototype.trim, `replace(/\s+/g, '-')`,
    ASCII lower-casing, decimal digits and substring search. */
module Text {
  import opened Common

  /** The characters matched by \s (and removed by trim) in JavaScript. */
  predicate IsSpace(c: char)
  {
    c == ' ' || c == '\t' || c == '\n' || c == '\r' || c == '\U{000B}' || c == '\U{000C}'
    || c == '\U{00A0}' || c == '\U{1680}' || ('\U{2000}' <= c <= '\U{200A}')
    || c == '\U{2028}' || c == '\U{2029}' || c == '\U{202F}' || c == '\U{205F}'
    || c == '\U{3000}' || c == '\U{FEFF}'
  }

  predicate NoSpace(s: string)
  {
    forall i :: 0 <= i < |s| ==> !IsSpace(s[i])
  }

  /** `!s.trim()`: the string is empty once trimmed. */
  predicate IsBlank(s: string)
  {
    forall i :: 0 <= i < |s| ==> IsSpace(s[i])
  }

  /** Drops a leading run of whitespace. */
  function SkipSpaces(s: string): (r: string)
    ensures |r| <= |s| && r == s[|s| - |r|..]
    ensures r == [] || !IsSpace(r[0])
    ensures forall i :: 0 <= i < |s| - |r| ==> IsSpace(s[i])
  {
    if s != [] && IsSpace(s[0]) then SkipSpaces(s[1..]) else s
  }

  /** `s.replace(/\s+/g, '-')`: every maximal run of whitespace becomes one dash. */
  function Dashify(s: string): (r: string)
    decreases |s|
  {
    if s == [] then []
    else if IsSpace(s[0]) then "-" + Dashify(SkipSpaces(s[1..]))
    else [s[0]] + Dashify(s[1..])
  }

  /** The result of Dashify holds no whitespace and is never longer than its input. */
  lemma {:induction false} DashifyNoSpace(s: string)
    ensures NoSpace(Dashify(s)) && |Dashify(s)| <= |s|
    decreases |s|
  {
    if s == [] {
    } else if IsSpace(s[0]) {
      DashifyNoSpace(SkipSpaces(s[1..]));
    } else {
      DashifyNoSpace(s[1..]);
    }
  }

  /** A string without whitespace is left as it is. */
  lemma {:induction false} DashifyIdentity(s: string)
    requires NoSpace(s)
    ensures Dashify(s) == s
    decreases |s|
  {
    if s != [] {
      assert !IsSpace(s[0]);
      DashifyIdentity(s[1..]);
    }
  }

  /** Replacing twice is replacing once. */
  lemma DashifyIdempotent(s: string)
    ensures Dashify(Dashify(s)) == Dashify(s)
  {
    DashifyNoSpace(s);
    DashifyIdentity(Dashify(s));
  }

  /** A run of whitespace between two words gives exactly one dash. */
  lemma DashifyJoinsWords(a: string, run: string, b: string)
    requires NoSpace(a) && NoSpace(b) && run != [] && IsBlank(run)
    ensures Dashify(a + run + b) == a + "-" + b
  {
    DashifyConcatWord(a, run + b);
    assert a + run + b == a + (run + b);
    SkipRun(run, b);
    DashifyIdentity(b);
  }

  lemma {:induction false} DashifyConcatWord(a: string, t: string)
    requires NoSpace(a)
    ensures Dashify(a + t) == a + Dashify(t)
    decreases |a|
  {
    if a != [] {
      var s := a + t;
      assert s[0] == a[0] && !IsSpace(a[0]) && s[1..] == a[1..] + t;
      assert Dashify(s) == [s[0]] + Dashify(s[1..]);
      DashifyConcatWord(a[1..], t);
      assert [a[0]] + (a[1..] + Dashify(t)) == a + Dashify(t);
    } else {
      assert a + t == t;
    }
  }

  lemma {:induction false} SkipRun(run: string, b: string)
    requires run != [] && IsBlank(run) && NoSpace(b)
    ensures Dashify(run + b) == "-" + Dashify(b)
  {
    assert (run + b)[1..] == run[1..] + b;
    SkipAll(run[1..], b);
  }

  lemma {:induction false} SkipAll(run: string, b: string)
    requires IsBlank(run) && NoSpace(b)
    ensures SkipSpaces(run + b) == b
    decreases |run|
  {
    if run == [] {
      assert run + b == b;
      assert b == [] || !IsSpace(b[0]);
    } else {
      var s := run + b;
      assert s[0] == run[0] && IsSpace(s[0]);
      assert s[1..] == run[1..] + b;
      SkipAll(run[1..], b);
    }
  }

  predicate IsUpperAscii(c: char) { 'A' <= c <= 'Z' }

  function LowerChar(c: char): char
  {
    if IsUpperAscii(c) then (c as int + 32) as char else c
  }

  /** `toLowerCase()`, restricted to the ASCII letters. */
  function ToLower(s: string): (r: string)
    ensures |r| == |s|
    ensures forall i :: 0 <= i < |s| ==> r[i] == LowerChar(s[i])
  {
    seq(|s|, i requires 0 <= i < |s| => LowerChar(s[i]))
  }

  /** Lower-casing leaves no capital, keeps every other character, and is idempotent. */
  lemma ToLowerFacts(s: string)
    ensures forall i :: 0 <= i < |s| ==> !IsUpperAscii(ToLower(s)[i])
    ensures forall i :: 0 <= i < |s| && !IsUpperAscii(s[i]) ==> ToLower(s)[i] == s[i]
    ensures ToLower(ToLower(s)) == ToLower(s)
  {
  }

  /** Lower-casing keeps whitespace where it is and adds none. */
  lemma ToLowerKeepsNoSpace(s: string)
    requires NoSpace(s)
    ensures NoSpace(ToLower(s))
  {
  }

  function DigitChar(d: nat): char
    requires d < 10
  {
    ('0' as int + d) as char
  }

  predicate IsDigit(c: char) { '0' <= c <= '9' }

  function DigitValue(c: char): nat
    requires IsDigit(c)
  {
    c as int - '0' as int
  }

  /** Number.prototype.toString for a non-negative integer: its decimal digits. */
  function NatText(n: nat): (r: string)
    ensures r != []
    ensures forall i :: 0 <= i < |r| ==> IsDigit(r[i])
  {
    if n < 10 then [DigitChar(n)] else NatText(n / 10) + [DigitChar(n % 10)]
  }

  /** Integer text, with a leading minus sign for negatives. */
  function IntText(i: int): string
  {
    if i < 0 then "-" + NatText(-i) else NatText(i)
  }

  predicate AllDigits(s: string)
  {
    forall i :: 0 <= i < |s| ==> IsDigit(s[i])
  }

  /** The value of a string of decimal digits. */
  function DigitsValue(s: string): nat
    requires forall i :: 0 <= i < |s| ==> IsDigit(s[i])
  {
    if s == [] then 0 else DigitsValue(s[..|s| - 1]) * 10 + DigitValue(s[|s| - 1])
  }

  /** Reading back the digits of a number gives the number. */
  lemma {:induction false} NatTextRoundTrip(n: nat)
    ensures DigitsValue(NatText(n)) == n
  {
    if n >= 10 {
      var t := NatText(n);
      assert t[..|t| - 1] == NatText(n / 10);
      NatTextRoundTrip(n / 10);
    }
  }

  /** `str.padStart(2, '0')`. */
  function PadStart2(s: string): (r: string)
    ensures |r| == if |s| < 2 then 2 else |s|
    ensures |s| >= 2 ==> r == s
    ensures |s| < 2 ==> r == seq(2 - |s|, _ => '0') + s
  {
    if |s| == 0 then "00" else if |s| == 1 then "0" + s else s
  }

  /** `s.startsWith(p)`. */
  predicate StartsWith(s: string, p: string)
  {
    |p| <= |s| && s[..|p|] == p
  }

  /** `s.includes(sub)`. */
  predicate Contains(s: string, sub: string)
  {
    exists i :: 0 <= i <= |s| - |sub| && OccursAt(s, sub, i)
  }

  predicate OccursAt(s: string, sub: string, i: nat)
  {
    i + |sub| <= |s| && s[i..i + |sub|] == sub
  }

  /** `s.slice(0, n)`. */
  function Take(s: string, n: nat): (r: string)
    ensures |r| == if |s| < n then |s| else n
    ensures r == s[..|r|]
  {
    if |s| <= n then s else s[..n]
  }

  /** `s.split(',')[1]`: the text between the first comma and the next one
      (or the end), or None (undefined) when s holds no comma. */
  function CommaField1(s: string): (r: Option<string>)
    ensures r.None? <==> ',' !in s
    ensures r.Some? ==> ',' !in r.value
    ensures r.Some? ==>
      var i := IndexOf(s, ',');
      && i + 1 + |r.value| <= |s| && s[i + 1..i + 1 + |r.value|] == r.value
      && (i + 1 + |r.value| == |s| || s[i + 1 + |r.value|] == ',')
  {
    var i := IndexOf(s, ',');
    if i == |s| then None
    else
      var rest := s[i + 1..];
      Some(rest[..IndexOf(rest, ',')])
  }

  /** For `header,payload` with no comma in either part, the field is the payload. */
  lemma CommaField1Of(header: string, payload: string)
    requires ',' !in header && ',' !in payload
    ensures CommaField1(header + "," + payload) == Some(payload)
  {
    var s := header + "," + payload;
    assert s[|header|] == ',';
    assert IndexOf(s, ',') == |header| by {
      IndexOfFirst(s, ',', |header|);
    }
    assert s[|header| + 1..] == payload;
    assert IndexOf(payload, ',') == |payload|;
    assert payload[..|payload|] == payload;
  }

  lemma IndexOfFirst(s: string, c: char, k: nat)
    requires k < |s| && s[k] == c && forall i :: 0 <= i < k ==> s[i] != c
    ensures IndexOf(s, c) == k
  {
  }

  /** The first c of `a + [c] + b` is the one after a, when a holds none. */
  lemma {:induction false} IndexOfAfter(a: string, c: char, b: string)
    requires forall i :: 0 <= i < |a| ==> a[i] != c
    ensures IndexOf(a + [c] + b, c) == |a|
    decreases |a|
  {
    if a != [] {
      assert (a + [c] + b)[1..] == a[1..] + [c] + b;
      IndexOfAfter(a[1..], c, b);
    }
  }

  /** Index of the first occurrence of c, or |s| when there is none. */
  function IndexOf(s: string, c: char): (k: nat)
    ensures k <= |s|
    ensures k < |s| ==> s[k] == c
    ensures forall i :: 0 <= i < k ==> s[i] != c
  {
    if s == [] then 0 else if s[0] == c then 0 else 1 + IndexOf(s[1..], c)
  }
}
