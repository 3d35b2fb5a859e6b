/**
 * The JavaScript string built-ins the application relies on (`indexOf`, `split`,
 * `join`, `trim`, `startsWith`, `replace`, `toLowerCase`, `substring` and the
 * `||` fallback on strings), stated over Dafny strings, with the facts about them
 * that the rest of the model uses.
 */
module JsString {
  import opened Wrappers

  /** The characters `\s` matches in a JavaScript regular expression; `trim` removes the same set. */
  predicate IsWhitespace(c: char) {
    || c == ' ' || c == '\t' || c == '\n' || c == '\U{B}' || c == '\U{C}' || c == '\r'
    || c == '\U{A0}' || c == '\U{1680}' || ('\U{2000}' <= c <= '\U{200A}')
    || c == '\U{2028}' || c == '\U{2029}' || c == '\U{202F}' || c == '\U{205F}'
    || c == '\U{3000}' || c == '\U{FEFF}'
  }

  /** JavaScript truthiness of a value that is a string, `undefined` or `null`. */
  predicate Truthy(s: Option<string>) {
    s.Some? && s.value != ""
  }

  /** `s || fallback` where `s` may be `undefined` or `null`. */
  function OrElse(s: Option<string>, fallback: string): string {
    if Truthy(s) then s.value else fallback
  }

  /** `s || null`: the empty string becomes `null`, anything else passes through. */
  function OrNull(s: Option<string>): Option<string> {
    if Truthy(s) then s else None
  }

  /** `a || b || c || ... || null`: the first truthy alternative. */
  function FirstTruthy(alternatives: seq<Option<string>>): Option<string> {
    if alternatives == [] then None
    else if Truthy(alternatives[0]) then alternatives[0]
    else FirstTruthy(alternatives[1..])
  }

  /**
   * The `||` chain yields the first non-empty alternative, and `null` exactly
   * when every alternative is missing or empty.
   */
  lemma {:induction false} FirstTruthySpec(alternatives: seq<Option<string>>)
    ensures var r := FirstTruthy(alternatives);
            && (r.Some? ==> r.value != "" && exists k :: 0 <= k < |alternatives| && alternatives[k] == r &&
                                                       forall m :: 0 <= m < k ==> !Truthy(alternatives[m]))
            && (r.None? ==> forall k :: 0 <= k < |alternatives| ==> !Truthy(alternatives[k]))
  {
    if alternatives != [] && !Truthy(alternatives[0]) {
      var rest := alternatives[1..];
      FirstTruthySpec(rest);
      var r := FirstTruthy(rest);
      if r.Some? {
        var k :| 0 <= k < |rest| && rest[k] == r && forall m :: 0 <= m < k ==> !Truthy(rest[m]);
        assert alternatives[k + 1] == r;
        forall m | 0 <= m < k + 1 ensures !Truthy(alternatives[m]) {
          if m > 0 { assert alternatives[m] == rest[m - 1]; }
        }
      } else {
        forall k | 0 <= k < |alternatives| ensures !Truthy(alternatives[k]) {
          if k > 0 { assert alternatives[k] == rest[k - 1]; }
        }
      }
    } else if alternatives != [] {
      assert alternatives[0] == FirstTruthy(alternatives);
    }
  }

  /** `pat` occurs in `s` at index `i`. */
  predicate OccursAt(s: string, pat: string, i: nat) {
    i + |pat| <= |s| && s[i..i + |pat|] == pat
  }

  /** `s.includes(pat)`. */
  predicate Contains(s: string, pat: string) {
    exists i: nat | i <= |s| :: OccursAt(s, pat, i)
  }

  /** `s.indexOf(pat, from)`: the first occurrence of `pat` at or after `from`. */
  function IndexFrom(s: string, pat: string, from: nat): (r: Option<nat>)
    decreases |s| + 1 - from
    ensures r.Some? ==> from <= r.value && OccursAt(s, pat, r.value)
    ensures forall j: nat :: from <= j && (r.None? || j < r.value) ==> !OccursAt(s, pat, j)
  {
    if from + |pat| > |s| then None
    else if OccursAt(s, pat, from) then Some(from)
    else IndexFrom(s, pat, from + 1)
  }

  /** `s.indexOf(pat)`, with `None` for -1. */
  function IndexOf(s: string, pat: string): (r: Option<nat>)
    ensures r.None? <==> !Contains(s, pat)
    ensures r.Some? ==> OccursAt(s, pat, r.value) &&
                        forall j: nat :: j < r.value ==> !OccursAt(s, pat, j)
  {
    IndexFrom(s, pat, 0)
  }

  /** An occurrence inside the slice `s[a..b]` is an occurrence in `s`, shifted by `a`. */
  lemma OccursInSlice(s: string, pat: string, a: nat, b: nat, j: nat)
    requires a <= b <= |s|
    ensures OccursAt(s[a..b], pat, j) <==> j + |pat| <= b - a && OccursAt(s, pat, a + j)
  {
    if j + |pat| <= b - a {
      var x, y := s[a..b][j..j + |pat|], s[a + j..a + j + |pat|];
      assert |x| == |y|;
      forall k | 0 <= k < |x| ensures x[k] == y[k] {
        assert x[k] == s[a + j + k];
      }
      assert s[a..b][j..j + |pat|] == s[a + j..a + j + |pat|];
    }
  }

  /** A slice of a string that does not contain `pat` does not contain it either. */
  lemma {:induction false} SliceKeepsAbsence(s: string, pat: string, a: nat, b: nat)
    requires a <= b <= |s|
    requires !Contains(s, pat)
    ensures !Contains(s[a..b], pat)
  {
    forall j: nat ensures !OccursAt(s[a..b], pat, j) {
      OccursInSlice(s, pat, a, b, j);
    }
  }

  /** The text before the first occurrence of a separator does not contain it. */
  lemma PrefixBeforeFirst(s: string, sep: string, i: nat)
    requires |sep| > 0 && IndexOf(s, sep) == Some(i)
    ensures !Contains(s[..i], sep)
  {
    forall j: nat ensures !OccursAt(s[..i], sep, j) {
      OccursInSlice(s, sep, 0, i, j);
    }
  }

  /** `s.split(sep)` for a non-empty separator: the pieces between successive occurrences. */
  function Split(s: string, sep: string): (parts: seq<string>)
    requires |sep| > 0
    decreases |s|
    ensures |parts| >= 1
  {
    match IndexOf(s, sep)
    case None => [s]
    case Some(i) => [s[..i]] + Split(s[i + |sep|..], sep)
  }

  /** No piece of a split contains the separator. */
  lemma {:induction false} SplitPiecesLackSeparator(s: string, sep: string)
    requires |sep| > 0
    ensures forall k :: 0 <= k < |Split(s, sep)| ==> !Contains(Split(s, sep)[k], sep)
    decreases |s|
  {
    var r := IndexOf(s, sep);
    if r.Some? {
      var i := r.value;
      SplitStep(s, sep, i);
      PrefixBeforeFirst(s, sep, i);
      SplitPiecesLackSeparator(s[i + |sep|..], sep);
    }
  }

  /** `parts.join(sep)`. */
  function Join(parts: seq<string>, sep: string): string {
    if |parts| == 0 then ""
    else if |parts| == 1 then parts[0]
    else parts[0] + sep + Join(parts[1..], sep)
  }

  /** One step of a split: the piece before the first separator, then the split of the rest. */
  lemma SplitStep(s: string, sep: string, i: nat)
    requires |sep| > 0 && IndexOf(s, sep) == Some(i)
    ensures i + |sep| <= |s|
    ensures Split(s, sep) == [s[..i]] + Split(s[i + |sep|..], sep)
    ensures s == s[..i] + sep + s[i + |sep|..]
  {
    OccurrenceSplits(s, sep, i);
  }

  /** A string is the text before an occurrence, the occurrence, and the text after it. */
  lemma OccurrenceSplits(s: string, pat: string, i: nat)
    requires OccursAt(s, pat, i)
    ensures s == s[..i] + pat + s[i + |pat|..]
  {
    assert s == s[..i] + s[i..i + |pat|] + s[i + |pat|..];
  }

  /** Joining the pieces of a split with the same separator gives back the string. */
  lemma {:induction false} SplitThenJoin(s: string, sep: string)
    requires |sep| > 0
    ensures Join(Split(s, sep), sep) == s
    decreases |s|
  {
    var r := IndexOf(s, sep);
    if r.None? {
      assert Split(s, sep) == [s];
    } else {
      var i := r.value;
      var rest := s[i + |sep|..];
      SplitStep(s, sep, i);
      SplitThenJoin(rest, sep);
      var parts := Split(rest, sep);
      assert Join([s[..i]] + parts, sep) == s[..i] + sep + Join(parts, sep) by {
        assert ([s[..i]] + parts)[1..] == parts;
      }
    }
  }

  /** The index of the first occurrence of `pat`, or the length of `s` when there is none. */
  function Upto(s: string, pat: string): (n: nat)
    ensures n <= |s|
  {
    match IndexOf(s, pat)
    case None => |s|
    case Some(i) => i
  }

  /** The text before the first occurrence of `sep`, or all of `s`. */
  function Before(s: string, sep: string): string {
    s[..Upto(s, sep)]
  }

  function Min(a: nat, b: nat): nat {
    if a <= b then a else b
  }

  /**
   * The first occurrence in a prefix `s[..j]`: the first occurrence in `s` when it
   * ends within the prefix, and none otherwise.
   */
  lemma UptoOfPrefix(s: string, pat: string, j: nat)
    requires j <= |s|
    ensures Upto(s[..j], pat) == if Upto(s, pat) + |pat| <= j then Upto(s, pat) else j
  {
    var k := Upto(s, pat);
    if k + |pat| <= j {
      OccursInSlice(s, pat, 0, j, k);
      forall m: nat | m < k ensures !OccursAt(s[..j], pat, m) {
        OccursInSlice(s, pat, 0, j, m);
      }
      assert IndexOf(s[..j], pat) == Some(k);
    } else {
      forall m: nat ensures !OccursAt(s[..j], pat, m) {
        OccursInSlice(s, pat, 0, j, m);
      }
    }
  }

  /**
   * Cutting before the first `p` and then before the first `q` cuts before
   * whichever comes first, provided an occurrence of `p` cannot start inside one
   * of `q` (the first character of `p` is not in `q`).
   */
  lemma CutAtFirstOfTwo(s: string, p: string, q: string)
    requires |p| > 0 && p[0] !in q
    ensures Before(Before(s, p), q) == s[..Min(Upto(s, p), Upto(s, q))]
  {
    var j := Upto(s, p);
    var k := Upto(s, q);
    UptoOfPrefix(s, q, j);
    StraddleChar(s, p, q, j, k);
  }

  /** An occurrence of `p` that starts inside one of `q` starts with a character of `q`. */
  lemma StraddleChar(s: string, p: string, q: string, j: nat, k: nat)
    ensures |p| > 0 && k < j < k + |q| && OccursAt(s, p, j) && OccursAt(s, q, k) ==> q[j - k] == p[0]
  {
    if |p| > 0 && k < j < k + |q| && OccursAt(s, p, j) && OccursAt(s, q, k) {
      assert s[j..j + |p|][0] == s[j];
      assert s[k..k + |q|][j - k] == s[j];
    }
  }

  /** The text after the first occurrence of `sep`, when there is one. */
  function After(s: string, sep: string): Option<string> {
    match IndexOf(s, sep)
    case None => None
    case Some(i) => Some(s[i + |sep|..])
  }

  /**
   * `s.split(sep)[0]` is the text before the first separator; `s.split(sep)[1]`
   * exists exactly when the separator occurs, and is the text between the first
   * and the second occurrence (or the end).
   */
  lemma SplitFirstTwo(s: string, sep: string)
    requires |sep| > 0
    ensures Split(s, sep)[0] == Before(s, sep)
    ensures |Split(s, sep)| >= 2 <==> Contains(s, sep)
    ensures Contains(s, sep) ==> Split(s, sep)[1] == Before(After(s, sep).value, sep)
  {
    var r := IndexOf(s, sep);
    if r.None? {
      assert Split(s, sep) == [s];
    } else {
      var i := r.value;
      var rest := s[i + |sep|..];
      SplitStep(s, sep, i);
      var r' := IndexOf(rest, sep);
      if r'.None? {
        assert Split(rest, sep) == [rest];
      } else {
        SplitStep(rest, sep, r'.value);
      }
    }
  }

  /** Splitting on one character that the first piece does not contain. */
  lemma SplitOnChar(a: string, c: char, b: string)
    requires c !in a
    ensures Split(a + [c] + b, [c]) == [a] + Split(b, [c])
  {
    var s := a + [c] + b;
    assert OccursAt(s, [c], |a|);
    forall j: nat | j < |a| ensures !OccursAt(s, [c], j) {
      assert s[j..j + 1] == [a[j]];
    }
    assert IndexOf(s, [c]) == Some(|a|);
    assert s[..|a|] == a;
    assert s[|a| + 1..] == b;
  }

  /** A single-character string occurs exactly where its character does. */
  lemma ContainsChar(s: string, c: char)
    ensures Contains(s, [c]) <==> c in s
  {
    if c in s {
      var j :| 0 <= j < |s| && s[j] == c;
      assert OccursAt(s, [c], j);
    }
    if Contains(s, [c]) {
      var j: nat :| j <= |s| && OccursAt(s, [c], j);
      assert s[j..j + 1][0] == s[j];
    }
  }

  /** `parts[0]` and `parts.slice(1).join(sep)` of `s.split(sep)`. */
  function HeadAndTail(s: string, sep: string): (string, string)
    requires |sep| > 0
  {
    var parts := Split(s, sep);
    (parts[0], Join(parts[1..], sep))
  }

  /**
   * Splitting at the first separator: the head never contains the separator; when
   * `s` contains it, head, separator and tail put back together are `s`; otherwise
   * the head is all of `s` and the tail is empty.
   */
  lemma HeadAndTailSpec(s: string, sep: string)
    requires |sep| > 0
    ensures !Contains(HeadAndTail(s, sep).0, sep)
    ensures Contains(s, sep) ==> HeadAndTail(s, sep).0 + sep + HeadAndTail(s, sep).1 == s
    ensures !Contains(s, sep) ==> HeadAndTail(s, sep) == (s, "")
  {
    var parts := Split(s, sep);
    SplitThenJoin(s, sep);
    SplitFirstTwo(s, sep);
    SplitPiecesLackSeparator(s, sep);
    if Contains(s, sep) {
      assert Join(parts, sep) == parts[0] + sep + Join(parts[1..], sep);
    }
  }

  /** `s.startsWith(p)`. */
  predicate StartsWith(s: string, p: string) {
    |p| <= |s| && s[..|p|] == p
  }

  /** `s.replace(pat, rep)` with a string pattern: only the first occurrence is replaced. */
  function ReplaceFirst(s: string, pat: string, rep: string): string {
    match IndexOf(s, pat)
    case None => s
    case Some(i) => s[..i] + rep + s[i + |pat|..]
  }

  /** Replacing a prefix by the empty string drops it. */
  lemma ReplacePrefix(s: string, p: string)
    requires StartsWith(s, p)
    ensures ReplaceFirst(s, p, "") == s[|p|..]
  {
    assert OccursAt(s, p, 0);
  }

  /** `s.substring(0, n)`. */
  function Prefix(s: string, n: nat): string {
    if n <= |s| then s[..n] else s
  }

  /** `s.trimStart()`: `s` without its leading whitespace. */
  function TrimStart(s: string): string {
    if |s| > 0 && IsWhitespace(s[0]) then TrimStart(s[1..]) else s
  }

  /** `s.trimEnd()`: `s` without its trailing whitespace. */
  function TrimEnd(s: string): string {
    if |s| > 0 && IsWhitespace(s[|s| - 1]) then TrimEnd(s[..|s| - 1]) else s
  }

  /** `s.trim()`. */
  function Trim(s: string): string {
    TrimEnd(TrimStart(s))
  }

  /** `trimStart` drops exactly the leading run of whitespace: it yields a suffix that starts with none. */
  lemma {:induction false} TrimStartSpec(s: string)
    ensures var r := TrimStart(s);
            && |r| <= |s| && r == s[|s| - |r|..]
            && (r == [] || !IsWhitespace(r[0]))
            && forall i :: 0 <= i < |s| - |r| ==> IsWhitespace(s[i])
  {
    if |s| > 0 && IsWhitespace(s[0]) {
      TrimStartSpec(s[1..]);
      var r := TrimStart(s[1..]);
      assert forall i :: 1 <= i < |s| - |r| ==> s[i] == s[1..][i - 1];
    }
  }

  /** `trimEnd` drops exactly the trailing run of whitespace: it yields a prefix that ends with none. */
  lemma {:induction false} TrimEndSpec(s: string)
    ensures var r := TrimEnd(s);
            && |r| <= |s| && r == s[..|r|]
            && (r == [] || !IsWhitespace(r[|r| - 1]))
            && forall i :: |r| <= i < |s| ==> IsWhitespace(s[i])
  {
    if |s| > 0 && IsWhitespace(s[|s| - 1]) {
      TrimEndSpec(s[..|s| - 1]);
    }
  }

  /**
   * Trimming yields a slice of the input without whitespace at either end, so a
   * pattern missing from the input is missing from the result.
   */
  lemma TrimSpec(s: string, pat: string)
    ensures |Trim(s)| <= |s|
    ensures Trim(s) == [] || (!IsWhitespace(Trim(s)[0]) && !IsWhitespace(Trim(s)[|Trim(s)| - 1]))
    ensures !Contains(s, pat) ==> !Contains(Trim(s), pat)
  {
    var t := TrimStart(s);
    var r := TrimEnd(t);
    TrimStartSpec(s);
    TrimEndSpec(t);
    var a := |s| - |t|;
    assert r == s[a..a + |r|];
    if r != [] {
      assert r[0] == t[0];
    }
    if !Contains(s, pat) {
      SliceKeepsAbsence(s, pat, a, a + |r|);
    }
  }

  /** ASCII `toLowerCase` of one character. */
  function LowerChar(c: char): char {
    if 'A' <= c <= 'Z' then (c as int + 32) as char else c
  }

  /** `s.toLowerCase()`, restricted to ASCII letters. */
  function ToLower(s: string): (r: string)
    ensures |r| == |s|
    ensures forall i :: 0 <= i < |s| ==> r[i] == LowerChar(s[i])
  {
    if s == [] then [] else [LowerChar(s[0])] + ToLower(s[1..])
  }

  /** `s.replace(/\s+/g, '')`: every whitespace character removed, the rest kept in order. */
  function RemoveWhitespace(s: string): (r: string)
    ensures |r| <= |s|
    ensures forall i :: 0 <= i < |r| ==> !IsWhitespace(r[i])
  {
    if s == [] then []
    else if IsWhitespace(s[0]) then RemoveWhitespace(s[1..])
    else [s[0]] + RemoveWhitespace(s[1..])
  }
}
