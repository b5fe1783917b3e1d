/**
 * Python's string primitives as the model uses them: whitespace as `str.isspace`
 * sees it, `strip`, `lower`, `title`, `str.join`, `str.replace(c, '')`,
 * `startswith`, and decimal rendering of non-negative integers.
 */
module Text {

  /** The characters Python's `str.isspace`, `str.split()` and `str.strip()` treat as whitespace. */
  predicate IsSpace(c: char) {
    c == ' ' || c == '\t' || c == '\n' || c == '\r' || c == '\U{0B}' || c == '\U{0C}'
    || ('\U{1C}' <= c <= '\U{1F}') || c == '\U{85}' || c == '\U{A0}' || c == '\U{1680}'
    || ('\U{2000}' <= c <= '\U{200A}') || c == '\U{2028}' || c == '\U{2029}'
    || c == '\U{202F}' || c == '\U{205F}' || c == '\U{3000}'
  }

  /** Neither end of `s` is whitespace: what `str.strip()` produces. */
  predicate IsStripped(s: string) {
    s == [] || (!IsSpace(s[0]) && !IsSpace(s[|s| - 1]))
  }

  predicate StartsWith(s: string, prefix: string) {
    |prefix| <= |s| && s[..|prefix|] == prefix
  }

  /** `t` occurs in `s` as a contiguous block (Python's `t in s`). */
  ghost predicate IsInfix<T>(t: seq<T>, s: seq<T>) {
    exists i :: OccursAt(t, s, i)
  }

  /** `t` occurs in `s` starting at position `i`. */
  ghost predicate OccursAt<T>(t: seq<T>, s: seq<T>, i: int) {
    0 <= i <= |s| - |t| && s[i..i + |t|] == t
  }

  lemma InfixAt<T>(t: seq<T>, s: seq<T>, i: int)
    requires OccursAt(t, s, i)
    ensures IsInfix(t, s)
  {
  }

  /** `idx` lists strictly increasing positions of `b` that spell `a`. */
  ghost predicate EmbedsAt<T>(a: seq<T>, b: seq<T>, idx: seq<nat>) {
    && |idx| == |a|
    && (forall i :: 0 <= i < |idx| ==> idx[i] < |b| && a[i] == b[idx[i]])
    && (forall i, j :: 0 <= i < j < |idx| ==> idx[i] < idx[j])
  }

  /** `a` is obtained from `b` by deleting elements. */
  ghost predicate IsSubsequence<T>(a: seq<T>, b: seq<T>) {
    exists idx :: EmbedsAt(a, b, idx)
  }

  /** A block of a subsequence is again a subsequence. */
  lemma InfixOfSubsequence<T>(a: seq<T>, b: seq<T>, i: nat, j: nat)
    requires IsSubsequence(a, b) && i <= j <= |a|
    ensures IsSubsequence(a[i..j], b)
  {
    var idx :| EmbedsAt(a, b, idx);
    assert EmbedsAt(a[i..j], b, idx[i..j]);
  }

  lemma InfixSelf<T>(s: seq<T>)
    ensures IsInfix(s, s)
  {
    assert s[0..|s|] == s;
    InfixAt(s, s, 0);
  }

  /** A block of `s` is a block of `s + w`. */
  lemma InfixPrefix<T>(t: seq<T>, s: seq<T>, w: seq<T>)
    requires IsInfix(t, s)
    ensures IsInfix(t, s + w)
  {
    var i :| OccursAt(t, s, i);
    assert (s + w)[i..i + |t|] == s[i..i + |t|];
    InfixAt(t, s + w, i);
  }

  /** A block of `s` is a block of `u + s`. */
  lemma InfixSuffix<T>(t: seq<T>, u: seq<T>, s: seq<T>)
    requires IsInfix(t, s)
    ensures IsInfix(t, u + s)
  {
    var i :| OccursAt(t, s, i);
    assert (u + s)[|u| + i..|u| + i + |t|] == s[i..i + |t|];
    InfixAt(t, u + s, |u| + i);
  }

  /** A block of a block of `s` is a block of `s`. */
  lemma InfixTrans<T>(a: seq<T>, b: seq<T>, c: seq<T>)
    requires IsInfix(a, b) && IsInfix(b, c)
    ensures IsInfix(a, c)
  {
    var i :| OccursAt(a, b, i);
    var j :| OccursAt(b, c, j);
    forall k | 0 <= k < |a| ensures c[j + i + k] == a[k] {
      assert c[j + (i + k)] == c[j..j + |b|][i + k] == b[i + k];
    }
    assert c[j + i..j + i + |a|] == a;
    InfixAt(a, c, j + i);
  }

  /** In `a + b + c`, `a` opens the text and `b` follows it. */
  lemma ConcatParts(a: string, b: string, c: string)
    ensures StartsWith(a + b + c, a)
    ensures OccursAt(b, a + b + c, |a|) && IsInfix(b, a + b + c)
  {
    var s := a + b + c;
    assert s[..|a|] == a;
    assert s[|a|..|a| + |b|] == b;
    InfixAt(b, s, |a|);
  }

  /** Both fields of a line `a + x + b + y` (a label, a value, a separator, a value) occur in it. */
  lemma FieldsInfix<T>(a: seq<T>, x: seq<T>, b: seq<T>, y: seq<T>)
    ensures IsInfix(x, a + x + b + y) && IsInfix(y, a + x + b + y)
  {
    InfixSelf(x);
    InfixSuffix(x, a, x);
    InfixPrefix(x, a + x, b);
    InfixPrefix(x, a + x + b, y);
    InfixSelf(y);
    InfixSuffix(y, a + x + b, y);
  }

  // ---------------------------------------------------------------- strip

  /** Index of the first non-whitespace character (|s| when there is none). */
  function TextStart(s: string): (i: nat)
    ensures i <= |s|
    ensures forall k :: 0 <= k < i ==> IsSpace(s[k])
    ensures i < |s| ==> !IsSpace(s[i])
  {
    if s == [] || !IsSpace(s[0]) then 0 else 1 + TextStart(s[1..])
  }

  /** One past the last non-whitespace character (0 when there is none). */
  function TextEnd(s: string): (j: nat)
    ensures j <= |s|
    ensures forall k :: j <= k < |s| ==> IsSpace(s[k])
    ensures j > 0 ==> !IsSpace(s[j - 1])
  {
    if s == [] || !IsSpace(s[|s| - 1]) then |s| else TextEnd(s[..|s| - 1])
  }

  /** Python's `s.strip()`: drop leading and trailing whitespace. */
  function Strip(s: string): (r: string)
    ensures IsStripped(r)
    ensures TextStart(s) + |r| <= |s| && r == s[TextStart(s)..TextStart(s) + |r|]
    ensures forall k :: 0 <= k < |s| && !(TextStart(s) <= k < TextStart(s) + |r|) ==> IsSpace(s[k])
    ensures IsStripped(s) ==> r == s
  {
    var i, j := TextStart(s), TextEnd(s);
    if i == |s| then "" else s[i..j]
  }

  lemma StripIsInfix(s: string)
    ensures IsInfix(Strip(s), s)
  {
    InfixAt(Strip(s), s, TextStart(s));
  }

  // ---------------------------------------------------------------- case

  /** `str.lower()` on ASCII letters; other characters are kept. */
  function LowerChar(c: char): char {
    if 'A' <= c <= 'Z' then (c as int + 32) as char else c
  }

  function UpperChar(c: char): char {
    if 'a' <= c <= 'z' then (c as int - 32) as char else c
  }

  predicate IsCased(c: char) {
    ('a' <= c <= 'z') || ('A' <= c <= 'Z')
  }

  /** Python's `s.lower()` (ASCII letters only). */
  function Lower(s: string): (r: string)
    ensures |r| == |s|
    ensures forall k :: 0 <= k < |s| ==> r[k] == LowerChar(s[k])
  {
    if s == [] then [] else Lower(s[..|s| - 1]) + [LowerChar(s[|s| - 1])]
  }

  predicate IsLower(s: string) {
    forall k :: 0 <= k < |s| ==> LowerChar(s[k]) == s[k]
  }

  /** Lower-casing does not touch whitespace, so a stripped string stays stripped. */
  lemma LowerKeepsStripped(s: string)
    requires IsStripped(s)
    ensures IsStripped(Lower(s)) && IsLower(Lower(s)) && |Lower(s)| == |s|
  {
  }

  lemma LowerOfLower(s: string)
    requires IsLower(s)
    ensures Lower(s) == s
  {
  }

  /**
   * What `str.title()` puts at position `k`: a cased character is upper-cased
   * when the character before it is not cased, and lower-cased otherwise.
   */
  function TitledChar(s: string, k: nat): char
    requires k < |s|
  {
    var c := s[k];
    if !IsCased(c) then c
    else if k == 0 || !IsCased(s[k - 1]) then UpperChar(c)
    else LowerChar(c)
  }

  /** Python's `s.title()` (ASCII letters only). */
  function Title(s: string): (r: string)
    ensures |r| == |s|
    ensures forall k :: 0 <= k < |s| ==> r[k] == TitledChar(s, k)
  {
    if s == [] then []
    else
      var n := |s| - 1;
      var p := s[..n];
      assert forall k :: 0 <= k < n ==> TitledChar(p, k) == TitledChar(s, k);
      Title(p) + [TitledChar(s, n)]
  }

  // ---------------------------------------------------------------- join

  /** Python's `sep.join(parts)`. */
  function Join(sep: string, parts: seq<string>): string {
    if parts == [] then ""
    else if |parts| == 1 then parts[0]
    else Join(sep, parts[..|parts| - 1]) + sep + parts[|parts| - 1]
  }

  /** Every part can be found inside the joined text. */
  lemma {:induction false} JoinContainsPart(sep: string, parts: seq<string>, k: nat)
    requires k < |parts|
    ensures IsInfix(parts[k], Join(sep, parts))
  {
    if |parts| == 1 {
      InfixAt(parts[k], Join(sep, parts), 0);
    } else {
      var init := parts[..|parts| - 1];
      var j := Join(sep, init);
      var whole := Join(sep, parts);
      assert whole == j + sep + parts[|parts| - 1];
      if k == |parts| - 1 {
        assert whole[|j + sep|..|j + sep| + |parts[k]|] == parts[k];
        InfixAt(parts[k], whole, |j + sep|);
      } else {
        JoinContainsPart(sep, init, k);
        assert init[k] == parts[k];
        var i :| OccursAt(parts[k], j, i);
        assert whole[i..i + |parts[k]|] == j[i..i + |parts[k]|];
        InfixAt(parts[k], whole, i);
      }
    }
  }

  // ---------------------------------------------------------------- removal

  /** The characters of `s` that are not in `drop`, in order. */
  function Keep(s: string, drop: seq<char>): (r: string)
    ensures |r| <= |s|
    ensures forall k :: 0 <= k < |r| ==> r[k] !in drop
  {
    if s == [] then ""
    else Keep(s[..|s| - 1], drop) + (if s[|s| - 1] in drop then "" else [s[|s| - 1]])
  }

  /** Positions of the kept characters: the witness that `Keep` is a subsequence. */
  function KeptPositions(s: string, drop: seq<char>): (idx: seq<nat>)
    ensures EmbedsAt(Keep(s, drop), s, idx)
    ensures forall i :: 0 <= i < |idx| ==> idx[i] < |s|
  {
    if s == [] then []
    else
      var rest := KeptPositions(s[..|s| - 1], drop);
      assert EmbedsAt(Keep(s[..|s| - 1], drop), s, rest);
      if s[|s| - 1] in drop then rest else rest + [|s| - 1]
  }

  lemma KeepIsSubsequence(s: string, drop: seq<char>)
    ensures IsSubsequence(Keep(s, drop), s)
  {
    var idx := KeptPositions(s, drop);
  }

  /**
   * Removing one more character from what is kept is keeping with a larger drop
   * list: a loop of `s = s.replace(c, '')` computes one `Keep`.
   */
  lemma {:induction false} KeepThenDrop(s: string, drop: seq<char>, c: char)
    ensures Keep(Keep(s, drop), [c]) == Keep(s, drop + [c])
  {
    if s != [] {
      var init := s[..|s| - 1];
      KeepThenDrop(init, drop, c);
      var x := s[|s| - 1];
      var tail := if x in drop then "" else [x];
      assert Keep(s, drop) == Keep(init, drop) + tail;
      KeepAppend(Keep(init, drop), tail, [c]);
    }
  }

  lemma {:induction false} KeepAppend(a: string, b: string, drop: seq<char>)
    ensures Keep(a + b, drop) == Keep(a, drop) + Keep(b, drop)
    decreases |b|
  {
    if b == [] {
      assert a + b == a;
    } else {
      var b' := b[..|b| - 1];
      assert (a + b)[..|a + b| - 1] == a + b';
      KeepAppend(a, b', drop);
    }
  }

  // ---------------------------------------------------------------- lists

  predicate NoDuplicates(s: seq<string>) {
    forall i, j :: 0 <= i < j < |s| ==> s[i] != s[j]
  }

  /**
   * Python's `xs[-n:]`: the last `n` elements for positive `n`, the whole
   * list for `n == 0` (since `-0 == 0`), and all but the first `-n` for
   * negative `n`. The answer is always a suffix of `xs`.
   */
  function Suffix<T>(xs: seq<T>, n: int): (r: seq<T>)
    ensures |r| <= |xs| && r == xs[|xs| - |r|..]
    ensures n > 0 ==> |r| == if n < |xs| then n else |xs|
    ensures n == 0 ==> |r| == |xs|
    ensures n < 0 ==> |r| == if -n < |xs| then |xs| + n else 0
  {
    if n > 0 then (if n < |xs| then xs[|xs| - n..] else xs)
    else if n == 0 then xs
    else if -n < |xs| then xs[-n..] else []
  }

  // ---------------------------------------------------------------- numbers

  function DigitChar(d: nat): (c: char)
    requires d < 10
    ensures '0' <= c <= '9' && c as int - '0' as int == d
  {
    ('0' as int + d) as char
  }

  predicate AllDigits(r: string) {
    forall k :: 0 <= k < |r| ==> '0' <= r[k] <= '9'
  }

  /** The number a string of decimal digits spells, most significant first. */
  function DigitsValue(r: string): nat
    requires AllDigits(r)
  {
    if r == [] then 0 else 10 * DigitsValue(r[..|r| - 1]) + (r[|r| - 1] as int - '0' as int)
  }

  /** Python's `str(n)` for a non-negative integer: the decimal digits of `n`, no leading zero. */
  function NatToString(n: nat): (r: string)
    ensures |r| >= 1 && AllDigits(r)
    ensures DigitsValue(r) == n
    ensures |r| > 1 ==> r[0] != '0'
    decreases n
  {
    if n < 10 then [DigitChar(n)]
    else
      var p := NatToString(n / 10);
      var r := p + [DigitChar(n % 10)];
      assert r[..|r| - 1] == p;
      r
  }
}
