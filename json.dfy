/**
 * JSON-like values as the Python code handles them: `dict`s keep insertion
 * order and unique keys, `d.get`, `d[k] = v`, `d.update(e)`, truthiness, and
 * the text `str(v)` / `repr(v)` produce when a value lands in an f-string.
 */
module Json {
  import opened Wrappers
  import opened Text

  /**
   * A value that travels through the system. Numbers carry the text Python's
   * `str()` gives them; an object is its list of entries in insertion order.
   */
  datatype Value =
    | Null
    | Bool(b: bool)
    | Num(text: string)
    | Str(s: string)
    | Arr(items: seq<Value>)
    | Obj(entries: seq<(string, Value)>)

  /** The keys of a list of entries, in order. */
  function Keys(d: seq<(string, Value)>): seq<string> {
    seq(|d|, i requires 0 <= i < |d| => d[i].0)
  }

  predicate HasKey(d: seq<(string, Value)>, k: string) {
    exists i :: 0 <= i < |d| && d[i].0 == k
  }

  predicate UniqueKeys(d: seq<(string, Value)>) {
    forall i, j :: 0 <= i < j < |d| ==> d[i].0 != d[j].0
  }

  /** A Python `dict`: entries in insertion order, no key twice. */
  type Dict = d: seq<(string, Value)> | UniqueKeys(d)

  /** Position of the first entry with key `k`, or -1 when there is none. */
  function IndexOf(d: seq<(string, Value)>, k: string): (i: int)
    ensures -1 <= i < |d|
    ensures i == -1 <==> !HasKey(d, k)
    ensures 0 <= i ==> d[i].0 == k && forall j :: 0 <= j < i ==> d[j].0 != k
  {
    if d == [] then -1
    else if d[0].0 == k then 0
    else
      var j := IndexOf(d[1..], k);
      assert forall i :: 1 <= i < |d| ==> d[i] == d[1..][i - 1];
      if j < 0 then -1 else j + 1
  }

  /** Entry lists with the same keys at the same positions find a key at the same place. */
  lemma SameKeysSameIndex(d: seq<(string, Value)>, e: seq<(string, Value)>, k: string)
    requires |d| <= |e|
    requires forall i :: 0 <= i < |d| ==> d[i].0 == e[i].0
    requires forall i :: |d| <= i < |e| ==> e[i].0 != k
    ensures IndexOf(d, k) == IndexOf(e, k)
  {
    var a, b := IndexOf(d, k), IndexOf(e, k);
    if a >= 0 {
      assert e[a].0 == k;
    }
    if b >= 0 {
      assert d[b].0 == k;
    }
  }

  /** `d.get(k)`: the value stored under `k`, `None` when absent. */
  function Get(d: seq<(string, Value)>, k: string): (r: Option<Value>)
    ensures r.None? <==> !HasKey(d, k)
    ensures r.Some? ==> (k, r.value) in d
  {
    var i := IndexOf(d, k);
    if i < 0 then None else Some(d[i].1)
  }

  /** `d.get(k, default)`. */
  function GetOr(d: seq<(string, Value)>, k: string, default: Value): Value {
    Get(d, k).GetOr(default)
  }

  /** In a dict every entry is what `get` finds under its key. */
  lemma GetEntry(d: Dict, i: nat)
    requires i < |d|
    ensures Get(d, d[i].0) == Some(d[i].1)
  {
  }

  /**
   * `d[k] = v`: an existing key keeps its position and takes the new value,
   * a new key is appended.
   */
  function Set(d: Dict, k: string, v: Value): (r: Dict)
    ensures |r| == if HasKey(d, k) then |d| else |d| + 1
    ensures forall i :: 0 <= i < |d| ==> r[i].0 == d[i].0
    ensures !HasKey(d, k) ==> r == d + [(k, v)]
    ensures Get(r, k) == Some(v)
    ensures forall k' :: k' != k ==> Get(r, k') == Get(d, k')
  {
    var i := IndexOf(d, k);
    var r := if i < 0 then d + [(k, v)] else d[i := (k, v)];
    assert UniqueKeys(r) by {
      if i >= 0 {
        assert forall j :: 0 <= j < |d| ==> r[j].0 == d[j].0;
      }
    }
    var r: Dict := r;
    assert Get(r, k) == Some(v) by {
      GetEntry(r, if i < 0 then |d| else i);
    }
    forall k' | k' != k ensures Get(r, k') == Get(d, k') {
      SameKeysSameIndex(d, r, k');
      var j := IndexOf(d, k');
      if j >= 0 {
        assert r[j] == d[j];
      }
    }
    r
  }

  /** `d.update(e)`: every entry of `e`, in order, is assigned into `d`. */
  function Update(d: Dict, e: Dict): (r: Dict)
    decreases |e|
  {
    if e == [] then d
    else
      var init: Dict := e[..|e| - 1];
      Set(Update(d, init), e[|e| - 1].0, e[|e| - 1].1)
  }

  /**
   * After an update a key maps to the value `e` gives it when `e` has the key,
   * and otherwise keeps the value it had in `d`: a shallow merge, later wins.
   */
  lemma {:induction false} UpdateGet(d: Dict, e: Dict, k: string)
    ensures Get(Update(d, e), k) == if HasKey(e, k) then Get(e, k) else Get(d, k)
    decreases |e|
  {
    if e != [] {
      var init: Dict := e[..|e| - 1];
      UpdateGet(d, init, k);
      if e[|e| - 1].0 == k {
        GetEntry(e, |e| - 1);
      } else {
        GetDropLast(e, k);
      }
    }
  }

  /** A key other than the last entry's is found, or missed, before that entry. */
  lemma GetDropLast(e: seq<(string, Value)>, k: string)
    requires e != [] && e[|e| - 1].0 != k
    ensures HasKey(e, k) <==> HasKey(e[..|e| - 1], k)
    ensures Get(e, k) == Get(e[..|e| - 1], k)
  {
    var init := e[..|e| - 1];
    SameKeysSameIndex(init, e, k);
    var j := IndexOf(e, k);
    if j >= 0 {
      assert init[j] == e[j];
    }
  }

  /** Keys already in `d` keep their positions; `update` never drops a key. */
  lemma {:induction false} UpdateKeepsKeys(d: Dict, e: Dict)
    ensures |Update(d, e)| >= |d|
    ensures forall i :: 0 <= i < |d| ==> Update(d, e)[i].0 == d[i].0
    decreases |e|
  {
    if e != [] {
      var init: Dict := e[..|e| - 1];
      UpdateKeepsKeys(d, init);
    }
  }

  /**
   * `dict(pairs)`, as `json.loads` builds an object: the keys of the text,
   * each at its first position and with the value of its last occurrence.
   */
  function FromPairs(pairs: seq<(string, Value)>): (r: Dict)
    ensures forall k :: HasKey(r, k) <==> HasKey(pairs, k)
    decreases |pairs|
  {
    if pairs == [] then []
    else
      var init := pairs[..|pairs| - 1];
      var last := pairs[|pairs| - 1];
      var p := FromPairs(init);
      var r := Set(p, last.0, last.1);
      assert forall k :: HasKey(r, k) <==> HasKey(p, k) || k == last.0 by {
        forall k ensures HasKey(r, k) <==> HasKey(p, k) || k == last.0 {
          assert Get(r, k).Some? <==> Get(p, k).Some? || k == last.0;
        }
      }
      assert forall k :: HasKey(pairs, k) <==> HasKey(init, k) || k == last.0 by {
        assert forall i :: 0 <= i < |init| ==> init[i] == pairs[i];
      }
      r
  }

  /** A key takes the value of its last occurrence among the pairs. */
  lemma {:induction false} FromPairsLastWins(pairs: seq<(string, Value)>, i: nat)
    requires i < |pairs| && LastWithKey(pairs, i)
    ensures Get(FromPairs(pairs), pairs[i].0) == Some(pairs[i].1)
    decreases |pairs|
  {
    var init := pairs[..|pairs| - 1];
    var last := pairs[|pairs| - 1];
    if i < |pairs| - 1 {
      assert init[i] == pairs[i] && pairs[i].0 != last.0;
      assert LastWithKey(init, i) by {
        forall j | i < j < |init| ensures init[j].0 != init[i].0 {
          assert init[j] == pairs[j];
        }
      }
      FromPairsLastWins(init, i);
    }
  }

  /** No entry after position `i` has the key of entry `i`: its value is the one a dict keeps. */
  predicate LastWithKey(pairs: seq<(string, Value)>, i: nat)
    requires i < |pairs|
  {
    forall j :: i < j < |pairs| ==> pairs[j].0 != pairs[i].0
  }

  /** Python truthiness: `None`, `False`, zero, and empty strings, lists and dicts are false. */
  predicate Truthy(v: Value) {
    match v
    case Null => false
    case Bool(b) => b
    case Num(t) => t != "0" && t != "0.0" && t != "-0.0"
    case Str(s) => s != ""
    case Arr(items) => items != []
    case Obj(entries) => entries != []
  }

  // ---------------------------------------------------------------- string repr

  /** The characters `repr` writes as `\xhh`: C0 controls, DEL, C1 controls, no-break space and soft hyphen. */
  predicate Unprintable(c: char) {
    c as int < 0x20 || (0x7f <= c as int <= 0xa0) || c as int == 0xad
  }

  /** A character `repr` writes as itself, whatever the quote mark. */
  predicate Plain(c: char) {
    c != '\\' && !Unprintable(c)
  }

  function HexDigit(d: nat): (c: char)
    requires d < 16
    ensures HexValue(c) == d
  {
    if d < 10 then ('0' as int + d) as char else ('a' as int + d - 10) as char
  }

  function HexValue(c: char): (d: nat)
    ensures d < 16
  {
    if '0' <= c <= '9' then c as int - '0' as int
    else if 'a' <= c <= 'f' then c as int - 'a' as int + 10
    else 0
  }

  /** How `repr` writes one character inside quotes `q`. */
  function EscapeChar(c: char, q: char): string {
    if c == '\\' then ['\\', '\\']
    else if c == q then ['\\', q]
    else if c == '\t' then ['\\', 't']
    else if c == '\n' then ['\\', 'n']
    else if c == '\r' then ['\\', 'r']
    else if Unprintable(c) then ['\\', 'x', HexDigit(c as int / 16), HexDigit(c as int % 16)]
    else [c]
  }

  function Escape(s: string, q: char): string {
    if s == [] then [] else EscapeChar(s[0], q) + Escape(s[1..], q)
  }

  /** The quote mark `repr` picks: double quotes only when the string holds `'` but no `"`. */
  function QuoteMark(s: string): (q: char)
    ensures q == '\'' || q == '"'
    ensures q in s ==> '\'' in s && '"' in s
  {
    if '\'' in s && '"' !in s then '"' else '\''
  }

  /**
   * `repr` of a string: the string between quote marks, with backslashes
   * doubled, the chosen quote mark escaped, and tab, newline, carriage return
   * and the other unprintable characters written as escapes.
   */
  function Quote(s: string): (r: string)
    ensures |r| >= |s| + 2 && r[0] == QuoteMark(s) && r[|r| - 1] == QuoteMark(s)
  {
    var q := QuoteMark(s);
    EscapeLength(s, q);
    [q] + Escape(s, q) + [q]
  }

  lemma {:induction false} EscapeLength(s: string, q: char)
    ensures |Escape(s, q)| >= |s|
  {
    if s != [] {
      EscapeLength(s[1..], q);
    }
  }

  /** A string of plain characters that does not hold both quote marks is shown as it is, between quotes. */
  lemma QuotePlain(s: string)
    requires forall i :: 0 <= i < |s| ==> Plain(s[i])
    requires !('\'' in s && '"' in s)
    ensures Quote(s) == [QuoteMark(s)] + s + [QuoteMark(s)]
  {
    EscapePlain(s, QuoteMark(s));
  }

  /** Text with only plain characters and no quote mark `q` is written as it is. */
  lemma {:induction false} EscapePlain(s: string, q: char)
    requires forall i :: 0 <= i < |s| ==> Plain(s[i])
    requires q !in s
    ensures Escape(s, q) == s
  {
    if s != [] {
      var t := s[1..];
      assert forall i :: 0 <= i < |t| ==> t[i] == s[i + 1];
      EscapePlain(t, q);
      PlainChar(s[0], q);
      assert s == [s[0]] + t;
    }
  }

  lemma PlainChar(c: char, q: char)
    requires Plain(c) && c != q
    ensures EscapeChar(c, q) == [c]
  {
  }

  /** Reading back the escapes of a string literal: the inverse of `Escape`. */
  function Unescape(t: string): string
    decreases |t|
  {
    if t == [] then []
    else if t[0] == '\\' && |t| >= 2 then
      if t[1] == 't' then ['\t'] + Unescape(t[2..])
      else if t[1] == 'n' then ['\n'] + Unescape(t[2..])
      else if t[1] == 'r' then ['\r'] + Unescape(t[2..])
      else if t[1] == 'x' && |t| >= 4 then [(16 * HexValue(t[2]) + HexValue(t[3])) as char] + Unescape(t[4..])
      else [t[1]] + Unescape(t[2..])
    else [t[0]] + Unescape(t[1..])
  }

  lemma UnescapeChar(c: char, q: char, rest: string)
    requires q == '\'' || q == '"'
    ensures Unescape(EscapeChar(c, q) + rest) == [c] + Unescape(rest)
  {
    var e := EscapeChar(c, q);
    var t := e + rest;
    assert t[..|e|] == e && t[|e|..] == rest;
    if |e| == 4 {
      var x := c as int;
      assert 16 * (x / 16) + x % 16 == x;
      assert t[2] == HexDigit(x / 16) && t[3] == HexDigit(x % 16);
    }
  }

  /** Reading back what `repr` wrote gives the original string. */
  lemma {:induction false} UnescapeEscape(s: string, q: char)
    requires q == '\'' || q == '"'
    ensures Unescape(Escape(s, q)) == s
  {
    if s != [] {
      UnescapeChar(s[0], q, Escape(s[1..], q));
      UnescapeEscape(s[1..], q);
      assert s == [s[0]] + s[1..];
    }
  }

  /** The text between the quote marks of `repr(s)` reads back as `s`. */
  lemma QuoteRoundTrip(s: string)
    ensures var r := Quote(s); Unescape(r[1..|r| - 1]) == s
  {
    var q := QuoteMark(s);
    var r := Quote(s);
    assert r[1..|r| - 1] == Escape(s, q);
    UnescapeEscape(s, q);
  }

  /** `repr(v)`, the form a value takes inside a list or dict. */
  function Repr(v: Value): string
    decreases v
  {
    match v
    case Null => "None"
    case Bool(b) => if b then "True" else "False"
    case Num(t) => t
    case Str(s) => Quote(s)
    case Arr(items) =>
      "[" + Join(", ", seq(|items|, i requires 0 <= i < |items| => Repr(items[i]))) + "]"
    case Obj(entries) =>
      "{" + Join(", ", seq(|entries|, i requires 0 <= i < |entries| =>
                              Quote(entries[i].0) + ": " + Repr(entries[i].1))) + "}"
  }

  /** `str(v)`, what an f-string shows: a string as itself, everything else as `repr`. */
  function PyStr(v: Value): string {
    if v.Str? then v.s else Repr(v)
  }
}
