/** The JavaScript string operations the services rely on, written out:
    `trim`, `startsWith`, `includes`, `indexOf`, `split`, `join`, a
    non-global `replace` of one character, ASCII `toLowerCase` and the
    decimal rendering of a non-negative integer in a template literal. */
module JsText {

  /** The characters `String.prototype.trim` strips and the regular-expression
      class `\s` matches: ECMAScript WhiteSpace and LineTerminator. */
  predicate IsWhitespace(c: char) {
    c == '\t' || c == '\n' || c == '\U{B}' || c == '\U{C}' || c == '\r' || c == ' '
    || c == '\U{A0}' || c == '\U{1680}' || ('\U{2000}' <= c <= '\U{200A}')
    || c == '\U{2028}' || c == '\U{2029}' || c == '\U{202F}' || c == '\U{205F}'
    || c == '\U{3000}' || c == '\U{FEFF}'
  }

  predicate AllWhitespace(s: string) {
    forall i :: 0 <= i < |s| ==> IsWhitespace(s[i])
  }

  predicate NoWhitespace(s: string) {
    forall i :: 0 <= i < |s| ==> !IsWhitespace(s[i])
  }

  /** `s` neither starts nor ends with whitespace. */
  predicate Trimmed(s: string) {
    s == [] || (!IsWhitespace(s[0]) && !IsWhitespace(s[|s| - 1]))
  }

  /** The index of the first character at or after `i` that is not
      whitespace, or `|s|` when there is none. */
  function SkipWhitespace(s: string, i: nat): (j: nat)
    requires i <= |s|
    ensures i <= j <= |s|
    ensures j < |s| ==> !IsWhitespace(s[j])
    decreases |s| - i
  {
    if i < |s| && IsWhitespace(s[i]) then SkipWhitespace(s, i + 1) else i
  }

  /** One past the last character before `j` that is not whitespace, or 0
      when there is none. */
  function SkipWhitespaceBack(s: string, j: nat): (i: nat)
    requires j <= |s|
    ensures i <= j
    ensures 0 < i ==> !IsWhitespace(s[i - 1])
  {
    if 0 < j && IsWhitespace(s[j - 1]) then SkipWhitespaceBack(s, j - 1) else j
  }

  /** Everything `SkipWhitespace` passes over is whitespace. */
  lemma {:induction false} SkippedIsWhitespace(s: string, i: nat, k: nat)
    requires i <= |s| && i <= k < SkipWhitespace(s, i)
    ensures IsWhitespace(s[k])
    decreases |s| - i
  {
    if i < k {
      SkippedIsWhitespace(s, i + 1, k);
    }
  }

  /** A whitespace run from `i` ended by a non-whitespace character (or by
      the end of the string) is the run `SkipWhitespace` passes over. */
  lemma {:induction false} SkipWhitespaceReaches(s: string, i: nat, q: nat)
    requires i <= q <= |s|
    requires forall k :: i <= k < q ==> IsWhitespace(s[k])
    requires q < |s| ==> !IsWhitespace(s[q])
    ensures SkipWhitespace(s, i) == q
    decreases q - i
  {
    if i < q {
      SkipWhitespaceReaches(s, i + 1, q);
    }
  }

  /** Walking back from `j` stops after any character that is not whitespace. */
  lemma {:induction false} SkipBackStopsAfter(s: string, j: nat, k: nat)
    requires k < j <= |s| && !IsWhitespace(s[k])
    ensures k < SkipWhitespaceBack(s, j)
  {
    if k < j - 1 {
      SkipBackStopsAfter(s, j - 1, k);
    }
  }

  /** Everything `SkipWhitespaceBack` walks back over is whitespace. */
  lemma {:induction false} SkippedBackIsWhitespace(s: string, j: nat, k: nat)
    requires j <= |s| && SkipWhitespaceBack(s, j) <= k < j
    ensures IsWhitespace(s[k])
  {
    if k < j - 1 {
      SkippedBackIsWhitespace(s, j - 1, k);
    }
  }

  /** The two ends `Trim` cuts at: only whitespace lies before the first and
      after the second, and when they cross the whole string is whitespace. */
  lemma TrimEnds(s: string)
    ensures var i, j := SkipWhitespace(s, 0), SkipWhitespaceBack(s, |s|);
      && AllWhitespace(s[..i]) && AllWhitespace(s[j..])
      && (j <= i ==> i == |s|)
  {
    var i, j := SkipWhitespace(s, 0), SkipWhitespaceBack(s, |s|);
    forall k | 0 <= k < i
      ensures IsWhitespace(s[..i][k])
    {
      SkippedIsWhitespace(s, 0, k);
    }
    forall k | j <= k < |s|
      ensures IsWhitespace(s[k])
    {
      SkippedBackIsWhitespace(s, |s|, k);
    }
    if i < |s| {
      SkipBackStopsAfter(s, |s|, i);
    }
  }

  /** `String.prototype.trim`: the slice between the leading and the trailing
      whitespace. */
  function Trim(s: string): (r: string)
    ensures Trimmed(r)
    ensures |r| <= |s|
  {
    var i := SkipWhitespace(s, 0);
    var j := SkipWhitespaceBack(s, |s|);
    if i < j then s[i..j] else []
  }

  /** What `trim` removes is whitespace at the two ends and nothing else: the
      result is a slice of `s` with only whitespace before and after it. */
  lemma TrimCutsOnlyEdges(s: string)
    ensures exists i, j :: 0 <= i <= j <= |s| && Trim(s) == s[i..j]
                           && AllWhitespace(s[..i]) && AllWhitespace(s[j..])
  {
    var i := SkipWhitespace(s, 0);
    var j := SkipWhitespaceBack(s, |s|);
    TrimEnds(s);
    if j <= i {
      assert Trim(s) == s[|s|..|s|] && s[..|s|] == s[..i];
    }
  }

  /** Trimming leaves nothing exactly when the string is all whitespace. */
  lemma TrimEmptyIff(s: string)
    ensures Trim(s) == [] <==> AllWhitespace(s)
  {
    var i := SkipWhitespace(s, 0);
    if i == |s| {
      forall k | 0 <= k < |s|
        ensures IsWhitespace(s[k])
      {
        SkippedIsWhitespace(s, 0, k);
      }
    } else {
      SkipBackStopsAfter(s, |s|, i);
    }
  }

  /** A string without surrounding whitespace is its own trim. */
  lemma TrimOfTrimmed(s: string)
    requires Trimmed(s)
    ensures Trim(s) == s
  {
    if s != [] {
      assert SkipWhitespace(s, 0) == 0;
      assert SkipWhitespaceBack(s, |s|) == |s|;
      assert s[0..|s|] == s;
    }
  }

  /** Trimming twice is trimming once. */
  lemma TrimIdempotent(s: string)
    ensures Trim(Trim(s)) == Trim(s)
  {
    TrimOfTrimmed(Trim(s));
  }

  /** `s.startsWith(p)`. */
  predicate StartsWith(s: string, p: string) {
    |p| <= |s| && s[..|p|] == p
  }

  /** `p` occurs in `s` starting at index `i`. */
  predicate OccursAt(s: string, p: string, i: int) {
    0 <= i && i + |p| <= |s| && s[i..i + |p|] == p
  }

  /** `s.includes(p)`. */
  predicate Contains(s: string, p: string) {
    exists i | 0 <= i <= |s| :: OccursAt(s, p, i)
  }

  function LowerAscii(c: char): (d: char)
    ensures 'A' <= c <= 'Z' ==> 'a' <= d <= 'z' && d as int - c as int == 32
    ensures !('A' <= c <= 'Z') ==> d == c
  {
    if 'A' <= c <= 'Z' then (c as int + 32) as char else c
  }

  /** `toLowerCase` restricted to the ASCII letters. */
  function ToLowerAscii(s: string): (r: string)
    ensures |r| == |s|
  {
    seq(|s|, i requires 0 <= i < |s| => LowerAscii(s[i]))
  }

  /** The index of the first `c` at or after `i`, or `|s|` when there is none. */
  function IndexFrom(s: string, c: char, i: nat): (j: nat)
    requires i <= |s|
    ensures i <= j <= |s|
    ensures j < |s| ==> s[j] == c
    ensures forall k :: i <= k < j ==> s[k] != c
    decreases |s| - i
  {
    if i == |s| || s[i] == c then i else IndexFrom(s, c, i + 1)
  }

  /** `s.indexOf(c)`, with `|s|` standing for "not found". */
  function IndexOf(s: string, c: char): (i: nat)
    ensures i <= |s|
    ensures i < |s| ==> s[i] == c
    ensures forall k :: 0 <= k < i ==> s[k] != c
  {
    IndexFrom(s, c, 0)
  }

  /** `s.replace(c, '')` with a one-character string pattern: only the first
      occurrence of `c` is removed. */
  function RemoveFirst(s: string, c: char): (r: string)
    ensures c !in s ==> r == s
    ensures c in s ==> |r| == |s| - 1
    ensures s != [] && s[0] == c ==> r == s[1..]
  {
    var i := IndexOf(s, c);
    if i < |s| then s[..i] + s[i + 1..] else s
  }

  /** Only the first occurrence goes: the characters before it and after it
      are kept, in order. */
  lemma RemoveFirstKeepsTheRest(s: string, c: char)
    requires c in s
    ensures var i := IndexOf(s, c);
      RemoveFirst(s, c)[..i] == s[..i] && RemoveFirst(s, c)[i..] == s[i + 1..]
  {
  }

  /** String concatenation is associative (stated once so that proofs need
      not rediscover it by extensionality). */
  lemma ConcatAssociative(a: string, b: string, c: string)
    ensures (a + b) + c == a + (b + c)
  {
  }

  /** `parts.join(sep)`. */
  function Join(parts: seq<string>, sep: string): string {
    if parts == [] then ""
    else if |parts| == 1 then parts[0]
    else parts[0] + sep + Join(parts[1..], sep)
  }

  /** Joining a longer list adds the separator and the new last part. */
  lemma {:induction false} JoinSnoc(parts: seq<string>, p: string, sep: string)
    requires parts != []
    ensures Join(parts + [p], sep) == Join(parts, sep) + sep + p
  {
    if |parts| == 1 {
      assert parts + [p] == [parts[0], p];
    } else {
      assert (parts + [p])[1..] == parts[1..] + [p];
      JoinSnoc(parts[1..], p, sep);
    }
  }

  /** The length of a join: every part, and one separator between each two. */
  lemma {:induction false} JoinLength(parts: seq<string>, sep: string)
    requires parts != []
    ensures |Join(parts, sep)| == SumOfLengths(parts) + (|parts| - 1) * |sep|
  {
    if |parts| > 1 {
      JoinLength(parts[1..], sep);
    }
  }

  function SumOfLengths(parts: seq<string>): nat {
    if parts == [] then 0 else |parts[0]| + SumOfLengths(parts[1..])
  }

  /** The pieces of `s[start..]` between the separators, at least one. */
  function SplitFrom(s: string, sep: char, start: nat): (r: seq<string>)
    requires start <= |s|
    ensures |r| >= 1
    decreases |s| - start
  {
    var i := IndexFrom(s, sep, start);
    if i < |s| then [s[start..i]] + SplitFrom(s, sep, i + 1) else [s[start..]]
  }

  /** `s.split(sep)` for a one-character separator. */
  function Split(s: string, sep: char): (r: seq<string>)
    ensures |r| >= 1
  {
    SplitFrom(s, sep, 0)
  }

  /** No piece holds the separator. */
  lemma {:induction false} SplitFromPiecesLackSeparator(s: string, sep: char, start: nat)
    requires start <= |s|
    ensures forall k :: 0 <= k < |SplitFrom(s, sep, start)| ==> sep !in SplitFrom(s, sep, start)[k]
    decreases |s| - start
  {
    var i := IndexFrom(s, sep, start);
    if i < |s| {
      SplitFromPiecesLackSeparator(s, sep, i + 1);
      var head := s[start..i];
      assert forall k :: 0 <= k < |head| ==> head[k] == s[start + k];
    }
  }

  /** Joining the pieces with the separator gives the string back. */
  lemma {:induction false} SplitFromJoin(s: string, sep: char, start: nat)
    requires start <= |s|
    ensures Join(SplitFrom(s, sep, start), [sep]) == s[start..]
    decreases |s| - start
  {
    var i := IndexFrom(s, sep, start);
    if i < |s| {
      var head, rest := s[start..i], SplitFrom(s, sep, i + 1);
      calc {
        Join(SplitFrom(s, sep, start), [sep]);
        Join([head] + rest, [sep]);
        { JoinCons(head, rest, [sep]); }
        head + [sep] + Join(rest, [sep]);
        { SplitFromJoin(s, sep, i + 1); }
        head + [sep] + s[i + 1..];
        { CutAround(s, start, i); }
        s[start..];
      }
    } else {
      assert SplitFrom(s, sep, start) == [s[start..]];
    }
  }

  lemma JoinCons(head: string, rest: seq<string>, sep: string)
    requires rest != []
    ensures Join([head] + rest, sep) == head + sep + Join(rest, sep)
  {
    assert ([head] + rest)[1..] == rest;
  }

  lemma CutAround(s: string, start: nat, i: nat)
    requires start <= i < |s|
    ensures s[start..] == s[start..i] + [s[i]] + s[i + 1..]
  {
  }

  /** `split` loses nothing: joining the pieces with the separator restores
      the string, and no piece holds the separator. */
  lemma SplitJoin(s: string, sep: char)
    ensures Join(Split(s, sep), [sep]) == s
    ensures forall k :: 0 <= k < |Split(s, sep)| ==> sep !in Split(s, sep)[k]
  {
    SplitFromJoin(s, sep, 0);
    SplitFromPiecesLackSeparator(s, sep, 0);
    assert s[0..] == s;
  }

  /** A string without the separator splits into itself alone. */
  lemma SplitWithoutSeparator(s: string, sep: char)
    requires sep !in s
    ensures Split(s, sep) == [s]
  {
    assert s[0..] == s;
  }

  predicate IsDigit(c: char) {
    '0' <= c <= '9'
  }

  predicate AllDigits(s: string) {
    forall i :: 0 <= i < |s| ==> IsDigit(s[i])
  }

  function DigitChar(d: nat): (c: char)
    requires d < 10
    ensures IsDigit(c)
  {
    ('0' as int + d) as char
  }

  function DigitValue(c: char): nat
    requires IsDigit(c)
  {
    c as int - '0' as int
  }

  /** The decimal rendering of `n` (what `${n}` gives for a non-negative
      integer): a non-empty run of digits. */
  function NatToString(n: nat): (r: string)
    ensures r != [] && AllDigits(r)
  {
    if n < 10 then [DigitChar(n)] else NatToString(n / 10) + [DigitChar(n % 10)]
  }

  /** Reads a run of decimal digits back as a number. */
  function ParseNat(s: string): nat
    requires AllDigits(s)
  {
    if s == [] then 0 else ParseNat(s[..|s| - 1]) * 10 + DigitValue(s[|s| - 1])
  }

  /** Reading the rendering back gives the number. */
  lemma {:induction false} ParseNatToString(n: nat)
    ensures ParseNat(NatToString(n)) == n
  {
    if n >= 10 {
      var s := NatToString(n);
      assert s[..|s| - 1] == NatToString(n / 10);
      ParseNatToString(n / 10);
    }
  }

  /** Different numbers render differently. */
  lemma NatToStringInjective(m: nat, n: nat)
    requires NatToString(m) == NatToString(n)
    ensures m == n
  {
    ParseNatToString(m);
    ParseNatToString(n);
  }
}
