/**
 * Per-user memory: a short-term conversation list capped at 20 messages, a
 * preference dict per user merged from facts a language model extracts from
 * the user's messages, and a vector store as long-term archive.
 */
module Memory {
  import opened Wrappers
  import opened Text
  import opened Json
  import opened VectorDb

  /** Short-term messages kept per user; hard-coded, the configured capacity is not read. */
  const ShortTermCapacity: nat := 20

  /** `retrieve_context`'s answer: `{"recent_context", "long_term_context"}`. */
  datatype Context = Context(recent: seq<Dict>, longTerm: seq<SearchResult>)

  /** `get_memory_stats`. */
  datatype MemoryStats = MemoryStats(
    activeUsers: nat,
    totalShortTermMessages: nat,
    longTermDocuments: nat,
    usersWithPreferences: nat)

  // ---------------------------------------------------------------- short-term list

  /** `{**message, "timestamp": now}`: the store time replaces any timestamp the message had. */
  function Stamped(message: Dict, now: string): (m: Dict)
    ensures Get(m, "timestamp") == Some(Str(now))
    ensures forall k :: k != "timestamp" ==> Get(m, k) == Get(message, k)
  {
    Set(message, "timestamp", Str(now))
  }

  /** Append a message and keep only the newest `ShortTermCapacity`. */
  function Remember(history: seq<Dict>, m: Dict): (r: seq<Dict>)
    ensures |r| == if |history| < ShortTermCapacity then |history| + 1 else ShortTermCapacity
    ensures r == (history + [m])[|history| + 1 - |r|..]
  {
    var h := history + [m];
    if |h| > ShortTermCapacity then h[|h| - ShortTermCapacity..] else h
  }

  /** The list left by storing `ms` one after another. */
  function RememberAll(history: seq<Dict>, ms: seq<Dict>): seq<Dict> {
    if ms == [] then history else Remember(RememberAll(history, ms[..|ms| - 1]), ms[|ms| - 1])
  }

  /** Starting from nothing, the list always holds the newest twenty messages, in order. */
  lemma {:induction false} RememberAllKeepsNewest(ms: seq<Dict>)
    ensures RememberAll([], ms) == Suffix(ms, ShortTermCapacity)
  {
    if ms != [] {
      var init := ms[..|ms| - 1];
      RememberAllKeepsNewest(init);
      var h := Suffix(init, ShortTermCapacity);
      assert init + [ms[|ms| - 1]] == ms;
      assert h + [ms[|ms| - 1]] == ms[|ms| - 1 - |h|..];
    }
  }

  /** After 25 stores the list runs from the sixth message (index 5) to the last. */
  lemma TwentyFiveStoresKeepLastTwenty(ms: seq<Dict>)
    requires |ms| == 25
    ensures RememberAll([], ms) == ms[5..]
  {
    RememberAllKeepsNewest(ms);
  }

  // ---------------------------------------------------------------- fact extraction

  /** The instructions that open every extraction request. */
  const FactInstructions: string :=
    "Extract all facts, preferences, or personal information about the user from the following message. "
    + "Return a JSON object where each key is a descriptive label for the fact or preference, "
    + "and each value is the corresponding value(s) as stated or implied by the user. "
    + "If nothing is found, return an empty JSON object.\n"
    + "User message: "

  /** The extraction request sent to the language model. */
  function FactPrompt(text: string): string {
    FactInstructions + text
  }

  /** `t.split('```')[0]`: the text before the first fence, all of `t` when there is none. */
  function UpToFence(t: string): (r: string)
    ensures |r| <= |t| && r == t[..|r|]
    ensures forall i :: 0 <= i < |r| ==> !OccursAt("```", t, i)
    ensures |r| < |t| ==> OccursAt("```", t, |r|)
  {
    if |t| < 3 then t
    else if t[..3] == "```" then ""
    else
      var r := [t[0]] + UpToFence(t[1..]);
      assert forall i :: 1 <= i < |r| ==> (OccursAt("```", t, i) <==> OccursAt("```", t[1..], i - 1)) by {
        forall i | 1 <= i < |r| ensures OccursAt("```", t, i) <==> OccursAt("```", t[1..], i - 1) {
          if i + 3 <= |t| {
            assert t[i..i + 3] == t[1..][i - 1..i + 2];
          }
        }
      }
      r
  }

  /**
   * The cleaning before `json.loads`: a reply opening with a fence keeps the
   * text up to the next fence, without a leading "json".
   */
  function StripFence(s: string): (r: string)
    ensures !StartsWith(s, "```") ==> r == s
    ensures StartsWith(s, "```") ==> !IsInfix("```", r)
  {
    if StartsWith(s, "```") then
      var a := UpToFence(s[3..]);
      var r := if StartsWith(a, "json") then a[4..] else a;
      assert !IsInfix("```", r) by {
        if IsInfix("```", r) {
          var i :| OccursAt("```", r, i);
          var off := if StartsWith(a, "json") then 4 else 0;
          assert r == a[off..];
          assert a[off + i..off + i + 3] == r[i..i + 3];
          assert s[3..][off + i..off + i + 3] == a[off + i..off + i + 3];
          assert OccursAt("```", s[3..], off + i);
        }
      }
      r
    else s
  }

  /** The cleaned text is always a block of the reply: cleaning never fails. */
  lemma StripFenceIsInfix(s: string)
    ensures IsInfix(StripFence(s), s)
  {
    if StartsWith(s, "```") {
      var a := UpToFence(s[3..]);
      var off := if StartsWith(a, "json") then 4 else 0;
      assert StripFence(s) == s[3 + off..3 + |a|];
      InfixAt(StripFence(s), s, 3 + off);
    } else {
      InfixAt(s, s, 0);
    }
  }

  /** A fenced JSON block loses its fences and its language tag, and text after the closing fence is ignored. */
  lemma FencedJsonUnwrapped(body: string, rest: string)
    requires forall i :: 0 <= i < |body| ==> !OccursAt("```", body + "```", i)
    ensures StripFence("```json" + body + "```" + rest) == body
  {
    var s := "```json" + body + "```" + rest;
    var t := "json" + body + "```" + rest;
    assert s[3..] == t;
    FirstFenceAfterBody(body, rest, t);
    var a := UpToFence(t);
    assert |a| == 4 + |body|;
    assert a == "json" + body;
  }

  /** In `json<body>```<rest>` the first fence is the one right after the body. */
  lemma FirstFenceAfterBody(body: string, rest: string, t: string)
    requires forall i :: 0 <= i < |body| ==> !OccursAt("```", body + "```", i)
    requires t == "json" + body + "```" + rest
    ensures OccursAt("```", t, 4 + |body|)
    ensures forall i :: 0 <= i < 4 + |body| ==> !OccursAt("```", t, i)
  {
    var n := 4 + |body|;
    assert t[n..n + 3] == "```";
    forall i | 0 <= i < n ensures !OccursAt("```", t, i) {
      if i >= 4 {
        var j := i - 4;
        assert !OccursAt("```", body + "```", j);
        assert t[i..i + 3] == (body + "```")[j..j + 3];
      } else {
        assert t[i] == "json"[i] && "json"[i] != '`';
        assert t[i..i + 3][0] == t[i];
      }
    }
  }

  // ---------------------------------------------------------------- preference normalisation

  /** `dict.fromkeys(xs)`: each string once, at its first occurrence. */
  function Dedup(xs: seq<string>): (r: seq<string>)
    ensures NoDuplicates(r)
    ensures forall x :: x in r <==> x in xs
    ensures NoDuplicates(xs) ==> r == xs
  {
    if xs == [] then []
    else
      var init := xs[..|xs| - 1];
      var last := xs[|xs| - 1];
      var p := Dedup(init);
      assert forall x :: x in xs <==> x in init || x == last;
      assert NoDuplicates(xs) ==> NoDuplicates(init) && last !in init;
      if last in p then p else p + [last]
  }

  /** `str(d).strip().lower()`. */
  function NormalItem(d: Value): string {
    Lower(Strip(PyStr(d)))
  }

  /** `str(d).strip()` for every item. */
  function Texts(items: seq<Value>): (ts: seq<string>)
    ensures |ts| == |items|
  {
    seq(|items|, i requires 0 <= i < |items| => Strip(PyStr(items[i])))
  }

  /** The lower-cased non-blank texts, in order. */
  function LowerNonBlank(ts: seq<string>): seq<string> {
    if ts == [] then []
    else
      var p := LowerNonBlank(ts[..|ts| - 1]);
      var t := ts[|ts| - 1];
      if t != "" then p + [Lower(t)] else p
  }

  /** Exactly the non-blank texts, lower-cased, make it into the cleaned list. */
  lemma {:induction false} LowerNonBlankMembers(ts: seq<string>)
    ensures forall x :: x in LowerNonBlank(ts) ==> exists t :: t in ts && t != "" && x == Lower(t)
    ensures forall t :: t in ts && t != "" ==> Lower(t) in LowerNonBlank(ts)
  {
    if ts != [] {
      var init := ts[..|ts| - 1];
      var t := ts[|ts| - 1];
      LowerNonBlankMembers(init);
      assert forall u :: u in ts <==> u in init || u == t;
    }
  }

  /** `[str(d).strip().lower() for d in v if str(d).strip()]`. */
  function CleanedItems(items: seq<Value>): seq<string> {
    LowerNonBlank(Texts(items))
  }

  /** Every cleaned item is a non-empty, stripped, lower-case string. */
  lemma CleanedItemsShape(items: seq<Value>)
    ensures forall x :: x in CleanedItems(items) ==> x != "" && IsStripped(x) && IsLower(x)
  {
    var ts := Texts(items);
    LowerNonBlankMembers(ts);
    forall x | x in CleanedItems(items) ensures x != "" && IsStripped(x) && IsLower(x) {
      var t :| t in ts && t != "" && x == Lower(t);
      var i :| 0 <= i < |ts| && ts[i] == t;
      LowerKeepsStripped(t);
    }
  }

  /** The cleaned list holds the normal form of each non-blank item and nothing else. */
  lemma CleanedItemsMembers(items: seq<Value>)
    ensures forall i :: 0 <= i < |items| && Strip(PyStr(items[i])) != "" ==> NormalItem(items[i]) in CleanedItems(items)
    ensures forall x :: x in CleanedItems(items) ==> exists i :: 0 <= i < |items| && Strip(PyStr(items[i])) != "" && x == NormalItem(items[i])
  {
    var ts := Texts(items);
    LowerNonBlankMembers(ts);
    forall i | 0 <= i < |items| && Strip(PyStr(items[i])) != "" ensures NormalItem(items[i]) in CleanedItems(items) {
      assert ts[i] in ts;
    }
    forall x | x in CleanedItems(items)
      ensures exists i :: 0 <= i < |items| && Strip(PyStr(items[i])) != "" && x == NormalItem(items[i])
    {
      var t :| t in ts && t != "" && x == Lower(t);
      var i :| 0 <= i < |ts| && ts[i] == t;
      assert x == NormalItem(items[i]);
    }
  }

  /** A list value as `get_user_preferences` rewrites it. */
  function NormalizeList(items: seq<Value>): (r: seq<Value>)
    ensures forall v :: v in r ==> v.Str? && v.s != "" && IsStripped(v.s) && IsLower(v.s)
  {
    var xs := Dedup(CleanedItems(items));
    CleanedItemsShape(items);
    var r := seq(|xs|, i requires 0 <= i < |xs| => Str(xs[i]));
    assert forall i :: 0 <= i < |xs| ==> xs[i] in CleanedItems(items);
    r
  }

  /**
   * The rewritten list holds every non-blank item in normal form, nothing
   * else, and nothing twice.
   */
  lemma NormalizeListContents(items: seq<Value>)
    ensures forall i, j :: 0 <= i < j < |NormalizeList(items)| ==> NormalizeList(items)[i] != NormalizeList(items)[j]
    ensures forall i :: 0 <= i < |items| && Strip(PyStr(items[i])) != "" ==> Str(NormalItem(items[i])) in NormalizeList(items)
    ensures forall v :: v in NormalizeList(items) ==>
      exists i :: 0 <= i < |items| && Strip(PyStr(items[i])) != "" && v == Str(NormalItem(items[i]))
  {
    var cleaned := CleanedItems(items);
    var xs := Dedup(cleaned);
    var r := NormalizeList(items);
    CleanedItemsMembers(items);
    assert |r| == |xs| && forall i :: 0 <= i < |xs| ==> r[i] == Str(xs[i]);
    forall i, j | 0 <= i < j < |r| ensures r[i] != r[j] {
      assert xs[i] != xs[j];
    }
    forall i | 0 <= i < |items| && Strip(PyStr(items[i])) != "" ensures Str(NormalItem(items[i])) in r {
      assert NormalItem(items[i]) in cleaned;
      var k :| 0 <= k < |xs| && xs[k] == NormalItem(items[i]);
      assert r[k] == Str(NormalItem(items[i]));
    }
    forall v | v in r
      ensures exists i :: 0 <= i < |items| && Strip(PyStr(items[i])) != "" && v == Str(NormalItem(items[i]))
    {
      var k :| 0 <= k < |r| && r[k] == v;
      assert xs[k] in cleaned;
    }
  }

  /** Lower-case non-blank texts pass through the cleaning unchanged. */
  lemma {:induction false} LowerNonBlankOfLower(ts: seq<string>)
    requires forall i :: 0 <= i < |ts| ==> ts[i] != "" && Lower(ts[i]) == ts[i]
    ensures LowerNonBlank(ts) == ts
  {
    if ts != [] {
      var n := |ts| - 1;
      var init := ts[..n];
      assert forall i :: 0 <= i < n ==> init[i] == ts[i];
      LowerNonBlankOfLower(init);
      assert ts == init + [ts[n]];
    }
  }

  /** Normalising a normalised list changes nothing. */
  lemma NormalizeListIdempotent(items: seq<Value>)
    ensures NormalizeList(NormalizeList(items)) == NormalizeList(items)
  {
    var r := NormalizeList(items);
    var xs := Dedup(CleanedItems(items));
    assert |r| == |xs| && forall i :: 0 <= i < |xs| ==> r[i] == Str(xs[i]);
    forall i | 0 <= i < |xs| ensures Texts(r)[i] == xs[i] && xs[i] != "" && Lower(xs[i]) == xs[i] {
      assert r[i] in r;
      LowerOfLower(xs[i]);
    }
    assert Texts(r) == xs;
    LowerNonBlankOfLower(xs);
  }

  /** A preference value as the read rewrites it: lists are normalised, other values kept. */
  function NormalizeValue(v: Value): Value {
    if v.Arr? then Arr(NormalizeList(v.items)) else v
  }

  /** The preference dict `get_user_preferences` returns and stores back. */
  function Normalized(d: Dict): (r: Dict)
    ensures |r| == |d|
    ensures forall i :: 0 <= i < |d| ==> r[i] == (d[i].0, NormalizeValue(d[i].1))
  {
    var r := seq(|d|, i requires 0 <= i < |d| => (d[i].0, NormalizeValue(d[i].1)));
    assert UniqueKeys(r);
    r
  }

  /** The loop of `get_user_preferences`: every list value is rewritten, in order, the rest kept. */
  method NormalizeEntries(d: Dict) returns (r: Dict)
    ensures r == Normalized(d)
  {
    r := d;
    var i := 0;
    while i < |r|
      invariant 0 <= i <= |r| == |d|
      invariant forall j :: 0 <= j < i ==> r[j] == (d[j].0, NormalizeValue(d[j].1))
      invariant forall j :: i <= j < |r| ==> r[j] == d[j]
    {
      var (k, v) := r[i];
      if v.Arr? {
        var p := r[i := (k, Arr(NormalizeList(v.items)))];
        assert forall j :: 0 <= j < |p| ==> p[j].0 == r[j].0;
        r := p;
      }
      i := i + 1;
    }
  }

  /** A second read returns what the first one did. */
  lemma NormalizedIdempotent(d: Dict)
    ensures Normalized(Normalized(d)) == Normalized(d)
  {
    var r := Normalized(d);
    forall i | 0 <= i < |d| ensures NormalizeValue(r[i].1) == r[i].1 {
      if d[i].1.Arr? {
        NormalizeListIdempotent(d[i].1.items);
      }
    }
  }

  // ---------------------------------------------------------------- statistics

  /** `sum(len(msgs) for msgs in short_term_memory.values())`. */
  ghost function TotalMessages(m: map<string, seq<Dict>>): nat
    decreases |m|
  {
    if m == map[] then 0
    else
      var u :| u in m;
      assert |m - {u}| < |m| by {
        assert (m - {u}).Keys == m.Keys - {u};
      }
      |m[u]| + TotalMessages(m - {u})
  }

  /** The sum does not depend on the order the users are visited in. */
  lemma {:induction false} TotalMessagesPick(m: map<string, seq<Dict>>, u: string)
    requires u in m
    ensures TotalMessages(m) == |m[u]| + TotalMessages(m - {u})
    decreases |m|
  {
    var w :| w in m && TotalMessages(m) == |m[w]| + TotalMessages(m - {w});
    if w != u {
      assert (m - {w}).Keys == m.Keys - {w};
      assert (m - {u}).Keys == m.Keys - {u};
      TotalMessagesPick(m - {w}, u);
      TotalMessagesPick(m - {u}, w);
      assert m - {w} - {u} == m - {u} - {w};
    }
  }

  /** With every list capped, the total is at most twenty messages per active user. */
  lemma {:induction false} TotalMessagesBound(m: map<string, seq<Dict>>)
    requires forall u :: u in m ==> |m[u]| <= ShortTermCapacity
    ensures TotalMessages(m) <= ShortTermCapacity * |m|
    decreases |m|
  {
    if m != map[] {
      var u :| u in m;
      TotalMessagesPick(m, u);
      assert (m - {u}).Keys == m.Keys - {u};
      TotalMessagesBound(m - {u});
    }
  }

  /** Deleting a key that is not there leaves the map as it was. */
  lemma RemoveAbsent<V>(m: map<string, V>, k: string)
    requires k !in m
    ensures m - {k} == m
  {
    assert (m - {k}).Keys == m.Keys;
  }

  class MemoryManager {
    var shortTerm: map<string, seq<Dict>>
    var preferences: map<string, Dict>
    const longTerm: VectorDatabase
    const apiKey: Option<string>
    /** The language model: prompt to reply text, or the error it raises. */
    const generate: string -> Result<string>
    /** `json.loads`: `None` when the text is not JSON. */
    const parse: string -> Option<Value>

    ghost predicate Valid()
      reads this, longTerm
    {
      && longTerm.Valid()
      && forall u :: u in shortTerm ==> |shortTerm[u]| <= ShortTermCapacity
    }

    constructor(apiKey: Option<string>, generate: string -> Result<string>, parse: string -> Option<Value>,
                embed: Embedder, knn: Knn, modelDimension: nat)
      requires FixedWidth(embed, modelDimension) && KnnSound(knn)
      ensures Valid() && fresh(longTerm)
      ensures shortTerm == map[] && preferences == map[] && longTerm.documents == map[]
      ensures this.apiKey == apiKey && this.generate == generate && this.parse == parse
    {
      shortTerm := map[];
      preferences := map[];
      longTerm := new VectorDatabase(embed, knn, modelDimension);
      this.apiKey := apiKey;
      this.generate := generate;
      this.parse := parse;
    }

    /** The user's short-term list, `[]` for an unknown user. */
    function History(userId: string): seq<Dict>
      reads this
    {
      if userId in shortTerm then shortTerm[userId] else []
    }

    /** The user's stored preferences, `{}` for an unknown user. */
    function PreferencesOf(userId: string): Dict
      reads this
    {
      if userId in preferences then preferences[userId] else []
    }

    /**
     * The facts a model reply yields: when the cleaned reply parses as a JSON
     * object, exactly its keys; `{}` for anything else.
     */
    function FactsOf(reply: string): (facts: Dict)
      ensures facts != [] ==> parse(StripFence(Strip(reply))).Some? && parse(StripFence(Strip(reply))).value.Obj?
      ensures var v := parse(StripFence(Strip(reply)));
        v.Some? && v.value.Obj? ==> forall k :: HasKey(facts, k) <==> HasKey(v.value.entries, k)
    {
      match parse(StripFence(Strip(reply)))
      case Some(Obj(entries)) => FromPairs(entries)
      case _ => []
    }

    /** Each key of a parsed reply object carries the value of its last occurrence. */
    lemma FactsOfLastWins(reply: string)
      ensures var v := parse(StripFence(Strip(reply)));
        v.Some? && v.value.Obj? ==>
        forall i :: 0 <= i < |v.value.entries| && LastWithKey(v.value.entries, i) ==>
          Get(FactsOf(reply), v.value.entries[i].0) == Some(v.value.entries[i].1)
    {
      var v := parse(StripFence(Strip(reply)));
      if v.Some? && v.value.Obj? {
        var entries := v.value.entries;
        forall i | 0 <= i < |entries| && LastWithKey(entries, i)
          ensures Get(FactsOf(reply), entries[i].0) == Some(entries[i].1)
        {
          FromPairsLastWins(entries, i);
        }
      }
    }

    /** `extract_user_facts`: no API key, a model error or a non-object reply all give `{}`. */
    function ExtractUserFacts(text: string): (facts: Dict)
      ensures apiKey.None? || apiKey.value == "" ==> facts == []
      ensures apiKey.Some? && apiKey.value != "" ==>
        facts == match generate(FactPrompt(text)) case Success(reply) => FactsOf(reply) case Failure(_) => []
      ensures facts != [] ==> generate(FactPrompt(text)).Success? && facts == FactsOf(generate(FactPrompt(text)).value)
    {
      if apiKey.None? || apiKey.value == "" then []
      else
        match generate(FactPrompt(text))
        case Failure(_) => []
        case Success(reply) => FactsOf(reply)
    }

    /**
     * `store_conversation`: append the stamped message to the user's list,
     * keep the newest twenty, and merge the facts found in a user message.
     */
    method StoreConversation(userId: string, message: Dict, now: string)
      requires Valid()
      modifies this
      ensures Valid()
      ensures shortTerm == old(shortTerm)[userId := Remember(old(History(userId)), Stamped(message, now))]
      ensures var facts := ExtractUserFacts(PyStr(GetOr(message, "content", Str(""))));
        if Get(message, "role") == Some(Str("user")) && facts != [] then
          preferences == old(preferences)[userId := Update(old(PreferencesOf(userId)), facts)]
        else preferences == old(preferences)
    {
      var history := if userId in shortTerm then shortTerm[userId] else [];
      var list := history + [Stamped(message, now)];
      if |list| > ShortTermCapacity {
        list := list[|list| - ShortTermCapacity..];
      }
      assert list == Remember(history, Stamped(message, now));
      shortTerm := shortTerm[userId := list];
      assert Valid();
      if Get(message, "role") == Some(Str("user")) {
        var content := GetOr(message, "content", Str(""));
        var extracted := ExtractUserFacts(PyStr(content));
        if extracted != [] {
          UpdateUserPreferences(userId, extracted);
        }
      }
    }

    /** `update_user_preferences`: a shallow merge into the user's dict, created when missing. */
    method UpdateUserPreferences(userId: string, prefs: Dict)
      requires Valid()
      modifies this
      ensures Valid()
      ensures shortTerm == old(shortTerm)
      ensures preferences == old(preferences)[userId := Update(old(PreferencesOf(userId)), prefs)]
    {
      var current: Dict := if userId in preferences then preferences[userId] else [];
      preferences := preferences[userId := Update(current, prefs)];
    }

    /**
     * `get_user_preferences`: rewrite every list value of the user's dict in
     * place, so the stored dict is the normalised one afterwards. An unknown
     * user gets a fresh `{}` that is not stored.
     */
    method GetUserPreferences(userId: string) returns (prefs: Dict)
      requires Valid()
      modifies this
      ensures Valid()
      ensures prefs == Normalized(old(PreferencesOf(userId)))
      ensures shortTerm == old(shortTerm)
      ensures preferences == if userId in old(preferences) then old(preferences)[userId := prefs] else old(preferences)
    {
      if userId !in preferences {
        return [];
      }
      prefs := NormalizeEntries(preferences[userId]);
      preferences := preferences[userId := prefs];
    }

    /** `clear_user_memory`: only this user's list and preferences go; the archive stays. */
    method ClearUserMemory(userId: string)
      requires Valid()
      modifies this
      ensures Valid()
      ensures shortTerm == old(shortTerm) - {userId}
      ensures preferences == old(preferences) - {userId}
      ensures unchanged(longTerm)
    {
      if userId in shortTerm {
        shortTerm := shortTerm - {userId};
      } else {
        RemoveAbsent(shortTerm, userId);
      }
      if userId in preferences {
        preferences := preferences - {userId};
      } else {
        RemoveAbsent(preferences, userId);
      }
    }

    /** The metadata a long-term entry is stored with. */
    static function QaMetadata(userId: string, topic: string, now: string): Dict {
      [("user_id", Str(userId)), ("type", Str("Q&A")), ("topic", Str(topic)), ("timestamp", Str(now))]
    }

    /**
     * `store_long_term_memory`: archive a Q&A text under a fresh id (the hash
     * of user, text and time is the parameter `memoryId`); errors are swallowed.
     */
    method StoreLongTermMemory(userId: string, qaPair: string, topic: string, memoryId: string, now: string)
      requires Valid()
      modifies longTerm
      ensures Valid()
      ensures longTerm.embed(qaPair).Failure? ==> unchanged(longTerm)
      ensures longTerm.embed(qaPair).Success? ==>
        longTerm.Added(memoryId, qaPair, QaMetadata(userId, topic, now), longTerm.embed(qaPair).value)
      ensures old(longTerm.Consistent()) ==> longTerm.Consistent()
    {
      var _ := longTerm.AddDocument(memoryId, qaPair, Some(QaMetadata(userId, topic, now)));
    }

    /**
     * `retrieve_context`: the user's last `limit` messages (Python's
     * `[-limit:]`) and the top three archive hits for the query. A missing
     * query cannot be embedded, so its archive part is empty.
     */
    method RetrieveContext(userId: string, query: Option<string>, limit: int) returns (c: Context)
      requires Valid()
      ensures c.recent == Suffix(History(userId), limit)
      ensures c.longTerm == if query.Some? then longTerm.SearchOutcome(query.value, 3) else []
      ensures |c.longTerm| <= 3
      ensures forall r :: r in c.longTerm ==> r.id in longTerm.documents
    {
      var recent := Suffix(if userId in shortTerm then shortTerm[userId] else [], limit);
      var found: seq<SearchResult> := [];
      if query.Some? {
        found := longTerm.Search(query.value, 3);
      }
      return Context(recent, found);
    }

    /** `get_memory_stats`: map sizes and the number of short-term messages. */
    method GetMemoryStats() returns (s: MemoryStats)
      requires Valid()
      ensures s == MemoryStats(|shortTerm|, TotalMessages(shortTerm), |longTerm.documents|, |preferences|)
      ensures s.totalShortTermMessages <= ShortTermCapacity * s.activeUsers
    {
      var rest := shortTerm;
      var total := 0;
      while rest != map[]
        invariant total + TotalMessages(rest) == TotalMessages(shortTerm)
        decreases |rest|
      {
        var u :| u in rest;
        TotalMessagesPick(rest, u);
        total := total + |rest[u]|;
        assert (rest - {u}).Keys == rest.Keys - {u};
        rest := rest - {u};
      }
      TotalMessagesBound(shortTerm);
      s := MemoryStats(|shortTerm|, total, |longTerm.documents|, |preferences|);
    }
  }
}
