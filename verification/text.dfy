/**
 The JavaScript string operations the recipe scanner is built from:
 `split` on one character, `trim`, `toLowerCase`, `includes`, `startsWith`
 and the two regular expressions `^\d+\.` and `^\d+\.\s*`.
 Strings are sequences of Unicode scalar values.
 */
module Text {

  datatype Option<+T> = None | Some(value: T)

  /** The ECMAScript WhiteSpace and LineTerminator code points: exactly what
      `trim` removes and what `\s` matches. */
  predicate IsWhiteSpace(c: char) {
    || c == '\t' || c == '\n' || c == '\U{000B}' || c == '\U{000C}' || c == '\r'
    || c == ' ' || c == '\U{00A0}' || c == '\U{1680}'
    || ('\U{2000}' <= c <= '\U{200A}')
    || c == '\U{2028}' || c == '\U{2029}' || c == '\U{202F}' || c == '\U{205F}'
    || c == '\U{3000}' || c == '\U{FEFF}'
  }

  predicate AllWhiteSpace(s: string) {
    forall i :: 0 <= i < |s| ==> IsWhiteSpace(s[i])
  }

  /** Neither end of `s` is white space. */
  predicate IsTrimmed(s: string) {
    s == [] || (!IsWhiteSpace(s[0]) && !IsWhiteSpace(s[|s| - 1]))
  }

  // ---------------------------------------------------------------------------
  // trim

  /** The `\s*` prefix removal (and `trimStart`). */
  function TrimStart(s: string): (r: string)
    ensures |r| <= |s| && r == s[|s| - |r|..]
    ensures forall i :: 0 <= i < |s| - |r| ==> IsWhiteSpace(s[i])
    ensures r == [] || !IsWhiteSpace(r[0])
  {
    if |s| > 0 && IsWhiteSpace(s[0]) then TrimStart(s[1..]) else s
  }

  function TrimEnd(s: string): (r: string)
    ensures |r| <= |s| && r == s[..|r|]
    ensures forall i :: |r| <= i < |s| ==> IsWhiteSpace(s[i])
    ensures r == [] || !IsWhiteSpace(r[|r| - 1])
  {
    if |s| > 0 && IsWhiteSpace(s[|s| - 1]) then TrimEnd(s[..|s| - 1]) else s
  }

  /** `String.prototype.trim`. */
  function Trim(s: string): (r: string)
    ensures IsTrimmed(r)
    ensures |r| <= |s|
    ensures forall c :: c in r ==> c in s
  {
    TrimEnd(TrimStart(s))
  }

  /** `r` sits at position `k` of `s` with only white space around it. */
  ghost predicate PaddedAt(s: string, r: string, k: int) {
    0 <= k <= |s| - |r| && s[k..k + |r|] == r && AllWhiteSpace(s[..k]) && AllWhiteSpace(s[k + |r|..])
  }

  /** What trimming removes is white space on both sides of the result. */
  lemma TrimIsCore(s: string)
    ensures exists k :: PaddedAt(s, Trim(s), k)
  {
    var a := TrimStart(s);
    var r := TrimEnd(a);
    var k := |s| - |a|;
    assert s[k..k + |r|] == r by {
      assert a == s[k..] && r == a[..|r|];
    }
    WhitePrefix(s, k);
    forall i | k + |r| <= i < |s|
      ensures IsWhiteSpace(s[i])
    {
      assert s[i] == a[i - k];
    }
    WhiteSuffix(s, k + |r|);
    assert Trim(s) == r;
    assert PaddedAt(s, r, k);
  }

  lemma WhitePrefix(s: string, k: int)
    requires 0 <= k <= |s| && forall i :: 0 <= i < k ==> IsWhiteSpace(s[i])
    ensures AllWhiteSpace(s[..k])
  {
    assert forall i :: 0 <= i < k ==> s[..k][i] == s[i];
  }

  lemma WhiteSuffix(s: string, k: int)
    requires 0 <= k <= |s| && forall i :: k <= i < |s| ==> IsWhiteSpace(s[i])
    ensures AllWhiteSpace(s[k..])
  {
    assert forall i :: 0 <= i < |s| - k ==> s[k..][i] == s[k + i];
  }

  /** Trimming undoes white-space padding around a trimmed string. */
  lemma {:induction false} TrimPadded(pre: string, m: string, post: string)
    requires AllWhiteSpace(pre) && AllWhiteSpace(post) && IsTrimmed(m)
    ensures Trim(pre + m + post) == m
  {
    if m == [] {
      assert pre + m + post == (pre + post) + [];
      assert AllWhiteSpace(pre + post);
      TrimStartPadded(pre + post, []);
    } else {
      assert pre + m + post == pre + (m + post);
      assert (m + post)[0] == m[0];
      TrimStartPadded(pre, m + post);
      TrimEndPadded(m, post);
    }
  }

  lemma {:induction false} TrimStartPadded(pre: string, rest: string)
    requires AllWhiteSpace(pre) && (rest == [] || !IsWhiteSpace(rest[0]))
    ensures TrimStart(pre + rest) == rest
    decreases |pre|
  {
    if pre != [] {
      assert (pre + rest)[1..] == pre[1..] + rest;
      TrimStartPadded(pre[1..], rest);
    } else {
      assert pre + rest == rest;
    }
  }

  lemma {:induction false} TrimEndPadded(m: string, post: string)
    requires AllWhiteSpace(post) && (m == [] || !IsWhiteSpace(m[|m| - 1]))
    ensures TrimEnd(m + post) == m
    decreases |post|
  {
    if post != [] {
      assert (m + post)[..|m + post| - 1] == m + post[..|post| - 1];
      TrimEndPadded(m, post[..|post| - 1]);
    } else {
      assert m + post == m;
    }
  }

  /** A trimmed string is its own trim, so trimming is idempotent. */
  lemma TrimTrimmed(s: string)
    requires IsTrimmed(s)
    ensures Trim(s) == s
  {
    TrimPadded([], s, []);
    assert [] + s + [] == s;
  }

  lemma TrimIdempotent(s: string)
    ensures Trim(Trim(s)) == Trim(s)
  {
    TrimTrimmed(Trim(s));
  }

  /** A string trims to nothing exactly when it is all white space. */
  lemma TrimEmptyIff(s: string)
    ensures Trim(s) == [] <==> AllWhiteSpace(s)
  {
    if AllWhiteSpace(s) {
      TrimPadded(s, [], []);
      assert s + [] + [] == s;
    }
  }

  // ---------------------------------------------------------------------------
  // toLowerCase, restricted to ASCII letters

  function LowerChar(c: char): char {
    if 'A' <= c <= 'Z' then (c as int + 32) as char else c
  }

  /** `toLowerCase` on the ASCII letters; every other character is kept. */
  function Lower(s: string): (r: string)
    ensures |r| == |s|
    ensures forall i :: 0 <= i < |s| ==> r[i] == LowerChar(s[i])
  {
    if s == [] then [] else [LowerChar(s[0])] + Lower(s[1..])
  }

  // ---------------------------------------------------------------------------
  // includes

  ghost predicate OccursAt(s: string, t: string, i: int) {
    0 <= i && i + |t| <= |s| && s[i..i + |t|] == t
  }

  /** `String.prototype.includes`: a text found in `s` is never longer than
      `s`, and the empty text is found in every string. */
  predicate Contains(s: string, t: string)
    ensures Contains(s, t) ==> |t| <= |s|
    ensures t == [] ==> Contains(s, t)
    decreases |s|
  {
    t <= s || (|s| > 0 && Contains(s[1..], t))
  }

  /** `Contains` is the search for an occurrence at some position. */
  lemma ContainsIff(s: string, t: string)
    ensures Contains(s, t) <==> exists i :: OccursAt(s, t, i)
  {
    if Contains(s, t) {
      ContainsOccurs(s, t);
    }
    if exists i :: OccursAt(s, t, i) {
      var i :| OccursAt(s, t, i);
      OccursContains(s, t, i);
    }
  }

  lemma {:induction false} ContainsOccurs(s: string, t: string)
    requires Contains(s, t)
    ensures exists i :: OccursAt(s, t, i)
    decreases |s|
  {
    if t <= s {
      assert OccursAt(s, t, 0);
    } else {
      ContainsOccurs(s[1..], t);
      var i :| OccursAt(s[1..], t, i);
      assert s[i + 1..i + 1 + |t|] == s[1..][i..i + |t|];
      assert OccursAt(s, t, i + 1);
    }
  }

  lemma {:induction false} OccursContains(s: string, t: string, i: int)
    requires OccursAt(s, t, i)
    ensures Contains(s, t)
    decreases i
  {
    if i == 0 {
      assert t <= s;
    } else {
      assert s[1..][i - 1..i - 1 + |t|] == s[i..i + |t|];
      OccursContains(s[1..], t, i - 1);
    }
  }

  // ---------------------------------------------------------------------------
  // split and join on one separator character

  /** Position of the first `c` in `s`. */
  function IndexOf(s: string, c: char): (k: nat)
    requires c in s
    ensures k < |s| && s[k] == c
    ensures forall j :: 0 <= j < k ==> s[j] != c
  {
    if s[0] == c then 0 else 1 + IndexOf(s[1..], c)
  }

  /** `Array.prototype.join` with a one-character separator. */
  function Join(parts: seq<string>, c: char): string {
    if |parts| == 0 then []
    else if |parts| == 1 then parts[0]
    else parts[0] + [c] + Join(parts[1..], c)
  }

  /** `String.prototype.split` with a one-character separator: the pieces
      between consecutive separators, never fewer than one. */
  function Split(s: string, c: char): (parts: seq<string>)
    ensures |parts| >= 1
    ensures |parts| > 1 <==> c in s
    ensures forall i :: 0 <= i < |parts| ==> c !in parts[i]
    decreases |s|
  {
    if c in s then
      var k := IndexOf(s, c);
      assert forall j :: 0 <= j < k ==> s[..k][j] == s[j];
      [s[..k]] + Split(s[k + 1..], c)
    else
      [s]
  }

  /** Joining the pieces of a split restores the string. */
  lemma {:induction false} JoinSplit(s: string, c: char)
    ensures Join(Split(s, c), c) == s
    decreases |s|
  {
    if c in s {
      var k := IndexOf(s, c);
      JoinSplit(s[k + 1..], c);
      assert s == s[..k] + [c] + s[k + 1..];
    }
  }

  /** Splitting undoes joining pieces free of the separator. */
  lemma {:induction false} SplitJoin(parts: seq<string>, c: char)
    requires |parts| >= 1
    requires forall i :: 0 <= i < |parts| ==> c !in parts[i]
    ensures Split(Join(parts, c), c) == parts
    decreases |parts|
  {
    if |parts| > 1 {
      var tail := Join(parts[1..], c);
      SplitAfter(parts[0], c, tail);
      SplitJoin(parts[1..], c);
    }
  }

  /** Splitting a string at its first separator. */
  lemma SplitAfter(a: string, c: char, b: string)
    requires c !in a
    ensures Split(a + [c] + b, c) == [a] + Split(b, c)
  {
    var s := a + [c] + b;
    IndexOfAfter(a, c, b);
    assert s[..|a|] == a;
    assert s[|a| + 1..] == b;
  }

  lemma IndexOfAfter(a: string, c: char, b: string)
    requires c !in a
    ensures c in a + [c] + b && IndexOf(a + [c] + b, c) == |a|
  {
    var s := a + [c] + b;
    assert s[|a|] == c;
    var k := IndexOf(s, c);
    assert forall j :: 0 <= j < |a| ==> s[j] == a[j];
  }

  /** `s.split(':')[1]`: the text after the first colon, absent when `s`
      holds no colon. `SecondSegmentIsBetweenColons` says where it ends. */
  function SecondSegment(s: string): (r: Option<string>)
    ensures r.Some? <==> ':' in s
    ensures r.Some? ==> ':' !in r.value
  {
    var parts := Split(s, ':');
    if |parts| > 1 then Some(parts[1]) else None
  }

  /** The second segment is the text between the first colon and either the
      next colon or the end. */
  lemma SecondSegmentIsBetweenColons(s: string)
    requires ':' in s
    ensures var k := IndexOf(s, ':');
            var v := SecondSegment(s).value;
            var e := k + 1 + |v|;
            && e <= |s| && s[k + 1..e] == v
            && (e == |s| || s[e] == ':')
  {
    var k := IndexOf(s, ':');
    var rest := s[k + 1..];
    var v := SecondSegment(s).value;
    SplitAtFirst(s, ':');
    assert v == Split(rest, ':')[0];
    FirstPiece(rest, ':');
    PieceOfSuffix(s, k + 1, v, ':');
  }

  /** A piece that starts a suffix of `s`, read as a slice of `s`. */
  lemma PieceOfSuffix(s: string, a: int, p: string, c: char)
    requires 0 <= a <= |s|
    requires |p| <= |s[a..]| && s[a..][..|p|] == p && (|p| == |s[a..]| || s[a..][|p|] == c)
    ensures a + |p| <= |s| && s[a..a + |p|] == p && (a + |p| == |s| || s[a + |p|] == c)
  {
    assert s[a..a + |p|] == s[a..][..|p|];
  }

  /** A split is the text before the first separator followed by the split
      of the text after it. */
  lemma SplitAtFirst(s: string, c: char)
    requires c in s
    ensures Split(s, c) == [s[..IndexOf(s, c)]] + Split(s[IndexOf(s, c) + 1..], c)
  {
  }

  /** The first piece of a split is the text before the first separator. */
  lemma FirstPiece(s: string, c: char)
    ensures var p := Split(s, c)[0];
            |p| <= |s| && s[..|p|] == p && (|p| == |s| || s[|p|] == c)
  {
    if c in s {
      var k := IndexOf(s, c);
      assert Split(s, c)[0] == s[..k];
    }
  }

  /** The second segment read back: the text placed between the first colon
      and either the end or a further colon. */
  lemma SecondSegmentOf(pre: string, seg: string, rest: string)
    requires ':' !in pre && ':' !in seg
    requires rest == [] || rest[0] == ':'
    ensures SecondSegment(pre + [':'] + seg + rest) == Some(seg)
  {
    var s := pre + [':'] + seg + rest;
    var after := seg + rest;
    assert s == pre + [':'] + after;
    SplitAfter(pre, ':', after);
    FirstPieceOf(seg, rest);
    assert Split(s, ':')[1] == seg;
  }

  /** Splitting a colon-free text followed by nothing or by a colon gives that
      text as the first piece. */
  lemma FirstPieceOf(seg: string, rest: string)
    requires ':' !in seg
    requires rest == [] || rest[0] == ':'
    ensures Split(seg + rest, ':')[0] == seg
  {
    if rest != [] {
      assert seg + rest == seg + [':'] + rest[1..];
      SplitAfter(seg, ':', rest[1..]);
    } else {
      assert seg + rest == seg;
    }
  }

  // ---------------------------------------------------------------------------
  // the numbered-step marker `^\d+\.`

  /** JavaScript's `\d`: the ASCII digits only. */
  predicate IsDigit(c: char) {
    '0' <= c <= '9'
  }

  predicate AllDigits(s: string) {
    forall i :: 0 <= i < |s| ==> IsDigit(s[i])
  }

  /** Length of the longest all-digit prefix of `s`. */
  function DigitRun(s: string): (n: nat)
    ensures n <= |s|
    ensures forall i :: 0 <= i < n ==> IsDigit(s[i])
    ensures n == |s| || !IsDigit(s[n])
  {
    if |s| > 0 && IsDigit(s[0]) then 1 + DigitRun(s[1..]) else 0
  }

  /** `/^\d+\./.test(s)`, computed greedily: a line that passes starts with
      a digit and holds a period. */
  predicate StartsWithStepNumber(s: string)
    ensures StartsWithStepNumber(s) ==> |s| >= 2 && IsDigit(s[0]) && '.' in s
  {
    var n := DigitRun(s);
    0 < n < |s| && s[n] == '.'
  }

  /** The digit run of a digit string followed by a non-digit is that string. */
  lemma {:induction false} DigitRunOf(digits: string, rest: string)
    requires AllDigits(digits)
    requires rest == [] || !IsDigit(rest[0])
    ensures DigitRun(digits + rest) == |digits|
    decreases |digits|
  {
    if digits == [] {
      assert digits + rest == rest;
    } else {
      assert (digits + rest)[1..] == digits[1..] + rest;
      DigitRunOf(digits[1..], rest);
    }
  }

  /** `s` begins with `k` digits and then a period. */
  ghost predicate StepMarkerAt(s: string, k: int) {
    1 <= k < |s| && (forall i :: 0 <= i < k ==> IsDigit(s[i])) && s[k] == '.'
  }

  /** The greedy test agrees with the regular expression's meaning, and the
      digits a match consumes are exactly the longest digit run. */
  lemma StepNumberIff(s: string)
    ensures StartsWithStepNumber(s) <==> exists k :: StepMarkerAt(s, k)
    ensures forall k :: StepMarkerAt(s, k) ==> k == DigitRun(s)
  {
    var n := DigitRun(s);
    if StartsWithStepNumber(s) {
      assert StepMarkerAt(s, n);
    }
    forall k | StepMarkerAt(s, k)
      ensures k == n
    {
    }
  }

  // `s.replace(/^\d+\.\s*/, '').trim()` on a line that has the marker.
  function StripStepMarker(s: string): (r: string)
    requires StartsWithStepNumber(s)
    ensures IsTrimmed(r)
    ensures |r| < |s|
  {
    Trim(TrimStart(s[DigitRun(s) + 1..]))
  }
}
