/**
 * Text helpers: `chunk_text` (overlapping windows with a sentence break),
 * `sanitize_user_input`, `clean_text` and `format_search_results`.
 */
module Utils {
  import opened Wrappers
  import opened Text
  import opened Json
  import opened VectorDb

  function Min(a: int, b: int): int {
    if a < b then a else b
  }

  // ---------------------------------------------------------------- chunk_text

  /** `s.rfind(c)`: the last position holding `c`, -1 when there is none. */
  function LastIndex(s: string, c: char): (i: int)
    ensures -1 <= i < |s|
    ensures 0 <= i ==> s[i] == c
  {
    if s == [] then -1
    else if s[|s| - 1] == c then |s| - 1
    else LastIndex(s[..|s| - 1], c)
  }

  /** No `c` follows the position `rfind` reports. */
  lemma {:induction false} LastIndexIsLast(s: string, c: char)
    ensures forall j :: LastIndex(s, c) < j < |s| ==> s[j] != c
  {
    if s != [] && s[|s| - 1] != c {
      LastIndexIsLast(s[..|s| - 1], c);
    }
  }

  /** `max(chunk.rfind('.'), chunk.rfind('\n'))`: a position in the chunk, not in the text. */
  function BreakPoint(chunk: string): (bp: int)
    ensures -1 <= bp < |chunk|
    ensures 0 <= bp ==> chunk[bp] == '.' || chunk[bp] == '\n'
  {
    var p, n := LastIndex(chunk, '.'), LastIndex(chunk, '\n');
    if p > n then p else n
  }

  /** The break point is the last sentence end or line end of the chunk. */
  lemma BreakPointIsLast(chunk: string)
    ensures forall j :: BreakPoint(chunk) < j < |chunk| ==> chunk[j] != '.' && chunk[j] != '\n'
  {
    LastIndexIsLast(chunk, '.');
    LastIndexIsLast(chunk, '\n');
  }

  /** What `chunk_text` demands to stop: splitting happens only with a positive size and an overlap of at most half of it. */
  predicate Splittable(chunkSize: int, overlap: int) {
    chunkSize >= 1 && overlap <= chunkSize / 2
  }

  /**
   * Where the window starting at `start` ends (`end` in the loop). The break
   * point is found inside the chunk but compared with `start + chunk_size // 2`
   * and used as an end position in the whole text.
   */
  function WindowEnd(text: string, chunkSize: int, start: nat): (end: int)
    requires chunkSize >= 1
    ensures start < end <= start + chunkSize
  {
    var end := start + chunkSize;
    if end < |text| then
      var bp := BreakPoint(text[start..end]);
      if bp > start + chunkSize / 2 then bp + 1 else end
    else end
  }

  /** Each step moves the start forward, so the loop ends. */
  lemma WindowAdvances(text: string, chunkSize: int, overlap: int, start: nat)
    requires Splittable(chunkSize, overlap)
    ensures WindowEnd(text, chunkSize, start) - overlap > start
  {
  }

  /** The windows `text[start:end]` the loop cuts, from `start` on, as (start, clamped end) pairs. */
  function Windows(text: string, chunkSize: int, overlap: int, start: nat): (ws: seq<(nat, nat)>)
    requires Splittable(chunkSize, overlap)
    ensures forall i :: 0 <= i < |ws| ==> start <= ws[i].0 < ws[i].1 <= |text| && ws[i].1 - ws[i].0 <= chunkSize
    decreases |text| - start
  {
    if start >= |text| then []
    else
      var end := WindowEnd(text, chunkSize, start);
      WindowAdvances(text, chunkSize, overlap, start);
      [(start, Min(end, |text|))] + Windows(text, chunkSize, overlap, end - overlap)
  }

  /** Python's `s[i:j]` for non-negative bounds: clamped to the string, empty when `j <= i`. */
  function PySlice(s: string, i: nat, j: nat): (r: string)
    ensures j <= |s| && i <= j ==> r == s[i..j]
  {
    var hi := Min(j, |s|);
    if i < hi then s[i..hi] else ""
  }

  /** The stripped text of every window. */
  function Pieces(text: string, ws: seq<(nat, nat)>): seq<string> {
    if ws == [] then []
    else
      var w := ws[|ws| - 1];
      Pieces(text, ws[..|ws| - 1]) + [Strip(PySlice(text, w.0, w.1))]
  }

  /** The list `chunk_text` returns. */
  function Chunks(text: string, chunkSize: int, overlap: int): seq<string>
    requires |text| <= chunkSize || text == [] || Splittable(chunkSize, overlap)
  {
    if |text| <= chunkSize then [text]
    else if text == [] then []
    else Pieces(text, Windows(text, chunkSize, overlap, 0))
  }

  /** `chunk_text`. */
  method ChunkText(text: string, chunkSize: int, overlap: int) returns (chunks: seq<string>)
    requires |text| <= chunkSize || text == [] || Splittable(chunkSize, overlap)
    ensures chunks == Chunks(text, chunkSize, overlap)
  {
    if |text| <= chunkSize {
      return [text];
    }
    chunks := [];
    if text == [] {
      return;
    }
    var start := 0;
    ghost var ws: seq<(nat, nat)> := [];
    ghost var all := Windows(text, chunkSize, overlap, 0);
    while start < |text|
      invariant 0 <= start
      invariant ws + Windows(text, chunkSize, overlap, start) == all
      invariant chunks == Pieces(text, ws)
      decreases |text| - start
    {
      var chunk, end := CutWindow(text, chunkSize, start);
      var next := end - overlap;
      ghost var w := WindowsStep(text, chunkSize, overlap, ws, all, start, end, next);
      PiecesSnoc(text, ws, w, chunk);
      ws := ws + [w];
      chunks := chunks + [Strip(chunk)];
      start := next;
    }
    assert ws == all;
  }

  /** One step of the loop: the window cut at `start` is the next of all the windows. */
  lemma WindowsStep(text: string, chunkSize: int, overlap: int, ws: seq<(nat, nat)>, all: seq<(nat, nat)>,
                    start: nat, end: int, next: int)
    returns (w: (nat, nat))
    requires Splittable(chunkSize, overlap) && start < |text|
    requires end == WindowEnd(text, chunkSize, start) && next == end - overlap
    requires ws + Windows(text, chunkSize, overlap, start) == all
    ensures next > start
    ensures w == (start, Min(end, |text|))
    ensures (ws + [w]) + Windows(text, chunkSize, overlap, next) == all
  {
    WindowAdvances(text, chunkSize, overlap, start);
    w := (start, Min(end, |text|));
    var rest := Windows(text, chunkSize, overlap, next);
    assert Windows(text, chunkSize, overlap, start) == [w] + rest;
    assert (ws + [w]) + rest == ws + ([w] + rest);
  }

  lemma PiecesSnoc(text: string, ws: seq<(nat, nat)>, w: (nat, nat), chunk: string)
    requires w.0 <= w.1 && chunk == PySlice(text, w.0, w.1)
    ensures Pieces(text, ws + [w]) == Pieces(text, ws) + [Strip(chunk)]
  {
    assert (ws + [w])[..|ws|] == ws;
  }

  /** Element `i` of the pieces is the stripped text of window `i`. */
  lemma {:induction false} PiecesAt(text: string, ws: seq<(nat, nat)>, i: nat)
    requires i < |ws|
    ensures |Pieces(text, ws)| == |ws| && Pieces(text, ws)[i] == Strip(PySlice(text, ws[i].0, ws[i].1))
  {
    PiecesLength(text, ws);
    if i < |ws| - 1 {
      PiecesAt(text, ws[..|ws| - 1], i);
    }
  }

  lemma {:induction false} PiecesLength(text: string, ws: seq<(nat, nat)>)
    ensures |Pieces(text, ws)| == |ws|
  {
    if ws != [] {
      PiecesLength(text, ws[..|ws| - 1]);
    }
  }

  /** One pass of the loop body: the raw window from `start`, shortened at a sentence end when the break rule fires. */
  method CutWindow(text: string, chunkSize: int, start: nat) returns (chunk: string, end: int)
    requires chunkSize >= 1 && start < |text|
    ensures end == WindowEnd(text, chunkSize, start)
    ensures chunk == PySlice(text, start, end) == PySlice(text, start, Min(end, |text|))
  {
    end := start + chunkSize;
    chunk := text[start..Min(end, |text|)];
    if end < |text| {
      var breakPoint := BreakPoint(chunk);
      if breakPoint > start + chunkSize / 2 {
        chunk := text[start..breakPoint + 1];
        end := breakPoint + 1;
      }
    }
  }

  /** A block of a block of `s` is a block of `s`. */
  lemma InfixOfSlice(r: string, s: string, i: nat, j: nat)
    requires i <= j <= |s| && IsInfix(r, s[i..j])
    ensures IsInfix(r, s)
  {
    var k :| OccursAt(r, s[i..j], k);
    var t := s[i..j];
    assert t[k..k + |r|] == r;
    forall m | 0 <= m < |r| ensures r[m] == s[i + k + m] {
      assert r[m] == t[k + m];
    }
    assert s[i + k..i + k + |r|] == r;
    InfixAt(r, s, i + k);
  }

  /** Every chunk is a stripped block of the text at most `chunk_size` long. */
  lemma ChunksAreStrippedBlocks(text: string, chunkSize: int, overlap: int)
    requires |text| <= chunkSize || text == [] || Splittable(chunkSize, overlap)
    ensures |text| > chunkSize ==> forall c :: c in Chunks(text, chunkSize, overlap) ==> IsStripped(c)
    ensures forall c :: c in Chunks(text, chunkSize, overlap) ==> IsInfix(c, text) && |c| <= chunkSize
  {
    var cs := Chunks(text, chunkSize, overlap);
    if |text| <= chunkSize {
      InfixAt(text, text, 0);
    } else if text != [] {
      var ws := Windows(text, chunkSize, overlap, 0);
      PiecesLength(text, ws);
      forall c | c in cs ensures IsStripped(c) && IsInfix(c, text) && |c| <= chunkSize {
        var i :| 0 <= i < |cs| && cs[i] == c;
        PiecesAt(text, ws, i);
        var slice := PySlice(text, ws[i].0, ws[i].1);
        StripIsInfix(slice);
        InfixOfSlice(c, text, ws[i].0, ws[i].1);
      }
    }
  }

  predicate Within(w: (nat, nat), k: int) {
    w.0 <= k < w.1
  }

  /** Position `k` lies in one of the windows. */
  predicate Covered(ws: seq<(nat, nat)>, k: int) {
    exists i :: 0 <= i < |ws| && Within(ws[i], k)
  }

  /**
   * With a non-negative overlap the windows leave no gap: every position of
   * the text lies in some window.
   */
  lemma {:induction false} WindowsCover(text: string, chunkSize: int, overlap: int, start: nat)
    requires Splittable(chunkSize, overlap) && overlap >= 0
    ensures forall k :: start <= k < |text| ==> Covered(Windows(text, chunkSize, overlap, start), k)
    decreases |text| - start
  {
    if start < |text| {
      var end := WindowEnd(text, chunkSize, start);
      WindowAdvances(text, chunkSize, overlap, start);
      var next := end - overlap;
      var ws := Windows(text, chunkSize, overlap, start);
      var rest := Windows(text, chunkSize, overlap, next);
      assert ws == [(start, Min(end, |text|))] + rest;
      WindowsCover(text, chunkSize, overlap, next);
      forall k | start <= k < |text| ensures Covered(ws, k) {
        if k < Min(end, |text|) {
          assert Within(ws[0], k);
        } else {
          assert Covered(rest, k);
          var i :| 0 <= i < |rest| && Within(rest[i], k);
          assert ws[i + 1] == rest[i];
        }
      }
    }
  }

  /** Window starts strictly increase. */
  lemma {:induction false} WindowsAdvance(text: string, chunkSize: int, overlap: int, start: nat)
    requires Splittable(chunkSize, overlap)
    ensures forall i :: 0 <= i < |Windows(text, chunkSize, overlap, start)| - 1 ==>
      Windows(text, chunkSize, overlap, start)[i].0 < Windows(text, chunkSize, overlap, start)[i + 1].0
    decreases |text| - start
  {
    if start < |text| {
      var end := WindowEnd(text, chunkSize, start);
      WindowAdvances(text, chunkSize, overlap, start);
      var next := end - overlap;
      var ws := Windows(text, chunkSize, overlap, start);
      var rest := Windows(text, chunkSize, overlap, next);
      assert ws == [(start, Min(end, |text|))] + rest;
      WindowsAdvance(text, chunkSize, overlap, next);
      forall i | 0 <= i < |ws| - 1 ensures ws[i].0 < ws[i + 1].0 {
        if i > 0 {
          assert ws[i] == rest[i - 1] && ws[i + 1] == rest[i];
        }
      }
    }
  }

  /**
   * Because the break point is a position inside the chunk, the sentence
   * break can only shorten a window that starts before `chunk_size -
   * chunk_size // 2 - 1`, and the shortened window then ends within the
   * first `chunk_size` characters of the whole text.
   */
  lemma SentenceBreakOnlyNearTheStart(text: string, chunkSize: int, start: nat)
    requires chunkSize >= 1
    ensures WindowEnd(text, chunkSize, start) != start + chunkSize ==>
      start + chunkSize / 2 + 1 < chunkSize && WindowEnd(text, chunkSize, start) <= chunkSize
  {
  }

  /** In particular no window after the first is ever cut at a sentence end once it starts past the middle of the first. */
  lemma LaterWindowsAreFullLength(text: string, chunkSize: int, overlap: int, start: nat)
    requires Splittable(chunkSize, overlap) && start >= chunkSize / 2
    ensures WindowEnd(text, chunkSize, start) == start + chunkSize
  {
    SentenceBreakOnlyNearTheStart(text, chunkSize, start);
  }

  // ---------------------------------------------------------------- sanitize_user_input

  /** The characters `sanitize_user_input` removes, in the order it removes them. */
  const Dangerous: seq<char> := ['<', '>', '&', '"', '\'', '\\', '/', '\0']

  const MaxInputLength: nat := 1000

  /** `sanitize_user_input` as one expression. */
  function Sanitized(s: string): string {
    if s == "" then ""
    else
      var kept := Keep(s, Dangerous);
      Strip(if |kept| > MaxInputLength then kept[..MaxInputLength] else kept)
  }

  lemma KeepNothing(s: string)
    ensures Keep(s, []) == s
  {
    if s != [] {
      KeepNothing(s[..|s| - 1]);
    }
  }

  /** A string without any of the dropped characters is kept whole. */
  lemma {:induction false} KeepClean(s: string, drop: seq<char>)
    requires forall k :: 0 <= k < |s| ==> s[k] !in drop
    ensures Keep(s, drop) == s
  {
    if s != [] {
      KeepClean(s[..|s| - 1], drop);
    }
  }

  /** `sanitize_user_input`: remove each dangerous character in turn, cut to 1000, strip. */
  method SanitizeUserInput(userInput: string) returns (r: string)
    ensures r == Sanitized(userInput)
  {
    if userInput == "" {
      return "";
    }
    var sanitized := userInput;
    KeepNothing(userInput);
    var i := 0;
    while i < |Dangerous|
      invariant 0 <= i <= |Dangerous|
      invariant sanitized == Keep(userInput, Dangerous[..i])
    {
      KeepThenDrop(userInput, Dangerous[..i], Dangerous[i]);
      assert Dangerous[..i + 1] == Dangerous[..i] + [Dangerous[i]];
      sanitized := Keep(sanitized, [Dangerous[i]]);
      i := i + 1;
    }
    assert Dangerous[..i] == Dangerous;
    if |sanitized| > MaxInputLength {
      sanitized := sanitized[..MaxInputLength];
    }
    r := Strip(sanitized);
  }

  /** Cutting what `Keep` leaves to a prefix keeps it a subsequence of `s` free of `drop`. */
  lemma KeepCut(s: string, drop: seq<char>, n: nat, kept: string, cut: string)
    requires kept == Keep(s, drop) && cut == (if |kept| > n then kept[..n] else kept)
    ensures |cut| <= n
    ensures forall k :: 0 <= k < |cut| ==> cut[k] !in drop
    ensures IsSubsequence(cut, s)
  {
    KeepIsSubsequence(s, drop);
    assert cut == kept[0..|cut|];
    InfixOfSubsequence(kept, s, 0, |cut|);
  }

  /** Stripping a subsequence of `s` free of `drop` leaves one no longer than it. */
  lemma StripCut(s: string, drop: seq<char>, cut: string)
    requires forall k :: 0 <= k < |cut| ==> cut[k] !in drop
    requires IsSubsequence(cut, s)
    ensures |Strip(cut)| <= |cut|
    ensures forall k :: 0 <= k < |Strip(cut)| ==> Strip(cut)[k] !in drop
    ensures IsSubsequence(Strip(cut), s)
  {
    var i := TextStart(cut);
    var r := Strip(cut);
    assert r == cut[i..i + |r|];
    InfixOfSubsequence(cut, s, i, i + |r|);
    forall k | 0 <= k < |r| ensures r[k] !in drop {
      assert r[k] == cut[i + k];
    }
  }

  /**
   * The sanitised text holds none of the dangerous characters, is at most
   * 1000 long, has no surrounding whitespace and is obtained from the input
   * by deleting characters.
   */
  lemma SanitizedIsSafe(s: string)
    ensures s == "" ==> Sanitized(s) == ""
    ensures forall k :: 0 <= k < |Sanitized(s)| ==> Sanitized(s)[k] !in Dangerous
    ensures |Sanitized(s)| <= MaxInputLength
    ensures IsStripped(Sanitized(s))
    ensures IsSubsequence(Sanitized(s), s)
  {
    if s == "" {
      assert EmbedsAt(Sanitized(s), s, []);
    } else {
      var kept := Keep(s, Dangerous);
      var cut := if |kept| > MaxInputLength then kept[..MaxInputLength] else kept;
      KeepCut(s, Dangerous, MaxInputLength, kept, cut);
      StripCut(s, Dangerous, cut);
    }
  }

  /** Sanitising twice is sanitising once. */
  lemma SanitizedIdempotent(s: string)
    ensures Sanitized(Sanitized(s)) == Sanitized(s)
  {
    var r := Sanitized(s);
    SanitizedIsSafe(s);
    if r != "" {
      KeepClean(r, Dangerous);
    }
  }

  // ---------------------------------------------------------------- clean_text

  predicate NoSpace(w: string) {
    forall k :: 0 <= k < |w| ==> !IsSpace(w[k])
  }

  /** Length of the run of non-whitespace characters that opens `s`. */
  function WordLength(s: string): (n: nat)
    ensures n <= |s|
    ensures forall k :: 0 <= k < n ==> !IsSpace(s[k])
    ensures n < |s| ==> IsSpace(s[n])
  {
    if s == [] || IsSpace(s[0]) then 0 else 1 + WordLength(s[1..])
  }

  /** `s.split()`: the maximal runs of non-whitespace characters. */
  function Words(s: string): (ws: seq<string>)
    ensures forall i :: 0 <= i < |ws| ==> ws[i] != [] && NoSpace(ws[i])
    ensures forall i, k :: 0 <= i < |ws| && 0 <= k < |ws[i]| ==> ws[i][k] in s
    decreases |s|
  {
    if s == [] then []
    else if IsSpace(s[0]) then
      var rest := Words(s[1..]);
      assert forall c :: c in s[1..] ==> c in s;
      rest
    else
      var n := WordLength(s);
      var rest := Words(s[n..]);
      assert forall c :: c in s[n..] ==> c in s;
      assert forall k :: 0 <= k < n ==> s[..n][k] in s;
      [s[..n]] + rest
  }

  predicate AllSpace(g: string) {
    forall k :: 0 <= k < |g| ==> IsSpace(g[k])
  }

  /** `gaps[0] + ws[0] + gaps[1] + ... + ws[|ws| - 1] + gaps[|ws|]`. */
  function Interleave(gaps: seq<string>, ws: seq<string>): (r: string)
    requires |gaps| == |ws| + 1
    ensures |r| >= |gaps[0]| && r[..|gaps[0]|] == gaps[0]
    decreases ws
  {
    if ws == [] then gaps[0] else gaps[0] + ws[0] + Interleave(gaps[1..], ws[1..])
  }

  /** Putting `c` in front of the first gap puts it in front of the whole text. */
  lemma InterleavePrepend(c: string, gaps: seq<string>, ws: seq<string>)
    requires |gaps| == |ws| + 1
    ensures Interleave([c + gaps[0]] + gaps[1..], ws) == c + Interleave(gaps, ws)
  {
    var g := [c + gaps[0]] + gaps[1..];
    assert g[1..] == gaps[1..];
    if ws != [] {
      assert Interleave(g, ws) == c + gaps[0] + ws[0] + Interleave(gaps[1..], ws[1..]);
    }
  }

  /**
   * The words are the maximal non-whitespace runs of the text, in order: the
   * text is the words with whitespace gaps between them, every inner gap
   * non-empty, and possibly whitespace before the first and after the last.
   */
  lemma {:induction false} WordsAreRuns(s: string) returns (gaps: seq<string>)
    ensures |gaps| == |Words(s)| + 1
    ensures forall i :: 0 <= i < |gaps| ==> AllSpace(gaps[i])
    ensures forall i :: 0 < i < |gaps| - 1 ==> gaps[i] != []
    ensures s == Interleave(gaps, Words(s))
    decreases |s|
  {
    if s == [] {
      gaps := [""];
    } else if IsSpace(s[0]) {
      var g := WordsAreRuns(s[1..]);
      gaps := [[s[0]] + g[0]] + g[1..];
      InterleavePrepend([s[0]], g, Words(s[1..]));
      assert s == [s[0]] + s[1..];
      forall i | 0 <= i < |gaps| ensures AllSpace(gaps[i]) {
        if i > 0 {
          assert gaps[i] == g[i];
        }
      }
      forall i | 0 < i < |gaps| - 1 ensures gaps[i] != [] {
        assert gaps[i] == g[i];
      }
    } else {
      var n := WordLength(s);
      var rest := s[n..];
      var g := WordsAreRuns(rest);
      var ws := Words(rest);
      gaps := [""] + g;
      assert Words(s) == [s[..n]] + ws;
      assert gaps[1..] == g && ([s[..n]] + ws)[1..] == ws;
      assert s == s[..n] + rest;
      forall i | 0 < i < |gaps| - 1 ensures gaps[i] != [] {
        assert gaps[i] == g[i - 1];
      }
    }
  }

  /** No two whitespace characters are adjacent. */
  predicate SingleSpaced(s: string) {
    forall i :: 0 <= i < |s| - 1 ==> !(IsSpace(s[i]) && IsSpace(s[i + 1]))
  }

  /** `" ".join(words)` of non-empty words without whitespace is single-spaced and stripped. */
  lemma {:induction false} JoinWords(parts: seq<string>)
    requires forall i :: 0 <= i < |parts| ==> parts[i] != [] && NoSpace(parts[i])
    ensures SingleSpaced(Join(" ", parts))
    ensures parts != [] ==>
      |Join(" ", parts)| > 0 && !IsSpace(Join(" ", parts)[0]) && !IsSpace(Join(" ", parts)[|Join(" ", parts)| - 1])
  {
    if |parts| > 1 {
      var init := parts[..|parts| - 1];
      var last := parts[|parts| - 1];
      JoinWords(init);
      var j := Join(" ", init);
      var r := Join(" ", parts);
      assert r == j + " " + last;
      forall i | 0 <= i < |r| - 1 ensures !(IsSpace(r[i]) && IsSpace(r[i + 1])) {
        if i < |j| - 1 {
          assert r[i] == j[i] && r[i + 1] == j[i + 1];
        } else if i == |j| - 1 {
          assert r[i] == j[|j| - 1];
        } else if i == |j| {
          assert r[i + 1] == last[0];
        } else {
          assert r[i] == last[i - |j| - 1] && r[i + 1] == last[i - |j|];
        }
      }
      assert r[0] == j[0];
      assert r[|r| - 1] == last[|last| - 1];
    }
  }

  /** A character found in neither the separator nor any part is not in the joined text. */
  lemma {:induction false} JoinAvoids(sep: string, parts: seq<string>, c: char)
    requires c !in sep
    requires forall i :: 0 <= i < |parts| ==> c !in parts[i]
    ensures c !in Join(sep, parts)
  {
    if |parts| > 1 {
      JoinAvoids(sep, parts[..|parts| - 1], c);
    }
  }

  /** `clean_text`: collapse whitespace runs to one space, drop NUL characters, strip. */
  function CleanText(text: string): (r: string)
    ensures text == "" ==> r == ""
    ensures '\0' !in r && IsStripped(r)
  {
    if text == "" then ""
    else
      var kept := Keep(Join(" ", Words(text)), ['\0']);
      assert forall k :: 0 <= k < |kept| ==> kept[k] != '\0';
      Strip(kept)
  }

  /**
   * Without NUL characters in the input, cleaning just joins the words with
   * single spaces: the result has no two adjacent whitespace characters.
   */
  lemma CleanTextSingleSpaced(text: string)
    requires '\0' !in text
    ensures CleanText(text) == Join(" ", Words(text))
    ensures SingleSpaced(CleanText(text))
  {
    if text != "" {
      var ws := Words(text);
      var joined := Join(" ", ws);
      JoinWords(ws);
      forall i | 0 <= i < |ws| ensures '\0' !in ws[i] {
        assert forall k :: 0 <= k < |ws[i]| ==> ws[i][k] != '\0';
      }
      JoinAvoids(" ", ws, '\0');
      KeepClean(joined, ['\0']);
    }
  }

  // ---------------------------------------------------------------- format_search_results

  /** The content shown for a result: up to 200 characters, with "..." when cut. */
  function Shown(content: string): (r: string)
    ensures |content| <= 200 ==> r == content
    ensures |content| > 200 ==> |r| == 203 && r[..200] == content[..200] && r[200..] == "..."
  {
    if |content| > 200 then content[..200] + "..." else content
  }

  /** The topic shown for a result: its metadata's "topic" as `str`, "Unknown" when missing. */
  function Topic(metadata: Dict): (t: string)
    ensures !HasKey(metadata, "topic") ==> t == "Unknown"
    ensures HasKey(metadata, "topic") ==> t == PyStr(Get(metadata, "topic").value)
  {
    PyStr(GetOr(metadata, "topic", Str("Unknown")))
  }

  /** Line `n` of the listing; `fmt` renders the score as `{score:.3f}` does. */
  function ResultLine(n: nat, result: SearchResult, fmt: real -> string): string {
    NatToString(n) + ". [" + Topic(result.metadata) + "] " + Shown(result.content)
    + " (Score: " + fmt(result.similarityScore) + ")"
  }

  /** One line per result, numbered from 1. */
  function ResultLines(results: seq<SearchResult>, fmt: real -> string): (lines: seq<string>)
    ensures |lines| == |results|
  {
    seq(|results|, i requires 0 <= i < |results| => ResultLine(i + 1, results[i], fmt))
  }

  /** `format_search_results`. */
  method FormatSearchResults(results: seq<SearchResult>, fmt: real -> string) returns (text: string)
    ensures results == [] ==> text == "No results found."
    ensures results != [] ==> text == Join("\n", ResultLines(results, fmt))
  {
    if results == [] {
      return "No results found.";
    }
    var formatted: seq<string> := [];
    var i := 0;
    while i < |results|
      invariant 0 <= i <= |results|
      invariant formatted == ResultLines(results[..i], fmt)
    {
      var result := results[i];
      var content := if |result.content| > 200 then result.content[..200] + "..." else result.content;
      var topic := PyStr(GetOr(result.metadata, "topic", Str("Unknown")));
      formatted := formatted + [NatToString(i + 1) + ". [" + topic + "] " + content
                                + " (Score: " + fmt(result.similarityScore) + ")"];
      i := i + 1;
    }
    assert results[..i] == results;
    text := Join("\n", formatted);
  }

  /**
   * Every result appears in the listing as its own line, which opens with its
   * 1-based number and shows its topic and (possibly cut) content.
   */
  lemma ResultLinesListed(results: seq<SearchResult>, fmt: real -> string, k: nat)
    requires k < |results|
    ensures IsInfix(ResultLine(k + 1, results[k], fmt), Join("\n", ResultLines(results, fmt)))
    ensures StartsWith(ResultLine(k + 1, results[k], fmt), NatToString(k + 1) + ". [" + Topic(results[k].metadata) + "] ")
    ensures IsInfix(Shown(results[k].content), ResultLine(k + 1, results[k], fmt))
  {
    JoinContainsPart("\n", ResultLines(results, fmt), k);
    var head := NatToString(k + 1) + ". [" + Topic(results[k].metadata) + "] ";
    var shown := Shown(results[k].content);
    var tail := " (Score: " + fmt(results[k].similarityScore) + ")";
    assert ResultLine(k + 1, results[k], fmt) == head + shown + tail;
    ConcatParts(head, shown, tail);
  }
}
