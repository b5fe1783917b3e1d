/**
 * The agentic RAG loop: `process_query` stores the user's message, gathers
 * knowledge, memory and preferences from the MCP server through a client,
 * asks the language model for a reply built from them and stores the reply.
 * The client and the language model are parameters: the client answers each
 * call from the calls made before it, the model maps a prompt to its text or
 * to the exception it raises.
 */
module AgenticRag {
  import opened Wrappers
  import opened Text
  import opened Json

  // ---------------------------------------------------------------- client

  /** The client calls `process_query` makes, with the arguments it passes. */
  datatype Call =
    | StoreMemory(userId: string, data: Dict)
    | SearchKnowledge(query: string, topK: int)
    | SearchMemory(userId: string, query: string, limit: int)
    | GetUserPreferences(userId: string)

  /**
   * The MCP client as `process_query` sees it: every call is recorded in
   * `calls`, and its answer (the `result` dict, or the exception it raises)
   * is what `respond` makes of the calls made before it and the call itself.
   */
  class Client {
    var calls: seq<Call>
    const respond: (seq<Call>, Call) -> Result<Dict>

    constructor(respond: (seq<Call>, Call) -> Result<Dict>)
      ensures calls == [] && this.respond == respond
    {
      calls := [];
      this.respond := respond;
    }

    method Request(call: Call) returns (answer: Result<Dict>)
      modifies this
      ensures calls == old(calls) + [call]
      ensures answer == respond(old(calls), call)
    {
      answer := respond(calls, call);
      calls := calls + [call];
    }
  }

  /** The language model: the text it generates for a prompt, or the exception it raises. */
  type Model = string -> Result<string>

  // ---------------------------------------------------------------- fixed texts

  const NoModelApology := "I apologize, but the language model is not available right now."
  const TroubleApology := "I apologize, but I'm having trouble generating a response right now. Please try again."

  /** The answer of `process_query` when a step raises `e`. */
  function ErrorApology(e: string): string {
    "I apologize, but I encountered an error processing your request: " + e
  }

  const KnowledgeHeader := "\U{1F4DA} **Relevant Knowledge:**"
  const RecentHeader := "\n\U{1F4AD} **Recent Conversation:**"
  const PreferencesHeader := "\n\U{1F464} **User Preferences:**"
  const NoContext := "No specific context available."

  const SystemPrompt :=
    "You are an intelligent AI assistant with access to a knowledge base and user memory. \n" +
    "\n" +
    "CRITICAL INSTRUCTIONS:\n" +
    "1. ALWAYS prioritize user preferences and conversation history over general knowledge\n" +
    "2. If the user has mentioned preferences (food, activities, etc.), use those in your responses\n" +
    "3. Reference previous conversation context when relevant\n" +
    "4. Be conversational and remember what the user has told you\n" +
    "5. Only use knowledge base information when it's directly relevant to the current question\n" +
    "\n" +
    "Remember: You're having a conversation with someone who has shared personal preferences with you. Use that information!\n" +
    "\n" +
    "Use the provided context to give helpful, accurate, and personalized responses.\n" +
    "\n" +
    "Guidelines:\n" +
    "- Use the knowledge base information when relevant\n" +
    "- Consider the user's conversation history and preferences\n" +
    "- Be conversational and helpful\n" +
    "- If you don't know something, say so clearly\n" +
    "- Provide specific, actionable information when possible\n"

  // ---------------------------------------------------------------- context

  /** Python's `xs[:n]`. */
  function Take<T>(xs: seq<T>, n: nat): (r: seq<T>)
    ensures |r| == if |xs| < n then |xs| else n
    ensures r == xs[..|r|]
  {
    if |xs| <= n then xs else xs[..n]
  }

  /**
   * The lines a `for` loop appends when `line(n, x)` renders its `n`-th item
   * (counting from 1): one per item, in order, or `None` when rendering an
   * item raises.
   */
  function MapAll<T>(line: (nat, T) -> Option<string>, xs: seq<T>): (lines: Option<seq<string>>)
    ensures lines.Some? <==> forall j :: 0 <= j < |xs| ==> line(j + 1, xs[j]).Some?
    ensures lines.Some? ==> |lines.value| == |xs|
    ensures lines.Some? ==> forall j :: 0 <= j < |xs| ==> lines.value[j] == line(j + 1, xs[j]).value
    decreases |xs|
  {
    if xs == [] then Some([])
    else
      var init := xs[..|xs| - 1];
      var last := line(|xs|, xs[|xs| - 1]);
      assert forall j :: 0 <= j < |init| ==> init[j] == xs[j];
      match MapAll(line, init)
      case None => None
      case Some(lines) => if last.None? then None else Some(lines + [last.value])
  }

  /** The lines of a loop are those of its first `i` items and then the `i+1`-th item's. */
  lemma {:induction false} MapAllStep<T>(line: (nat, T) -> Option<string>, xs: seq<T>, i: nat)
    requires i < |xs| && MapAll(line, xs[..i]).Some? && line(i + 1, xs[i]).Some?
    ensures MapAll(line, xs[..i + 1]) == Some(MapAll(line, xs[..i]).value + [line(i + 1, xs[i]).value])
  {
    assert xs[..i + 1][..i] == xs[..i];
  }

  /** A loop that raises on item `i` raises as a whole. */
  lemma MapAllNone<T>(line: (nat, T) -> Option<string>, xs: seq<T>, i: nat)
    requires i < |xs| && line(i + 1, xs[i]).None?
    ensures MapAll(line, xs).None?
  {
  }

  /**
   * `doc['content'][:500]` as the f-string shows it: the first 500 characters
   * of a string, or the first 500 items of a list shown as a list. A document
   * that is not a dict, has no "content", or whose content cannot be sliced
   * raises (`None`).
   */
  function Snippet(doc: Value): (r: Option<string>)
    ensures r.Some? <==> doc.Obj? && HasKey(doc.entries, "content")
                         && (Get(doc.entries, "content").value.Str? || Get(doc.entries, "content").value.Arr?)
    ensures r.Some? && Get(doc.entries, "content").value.Str? ==>
      var s := Get(doc.entries, "content").value.s;
      |r.value| == (if |s| < 500 then |s| else 500) && StartsWith(s, r.value)
    ensures r.Some? && Get(doc.entries, "content").value.Arr? ==>
      var items := Get(doc.entries, "content").value.items;
      r.value == Repr(Arr(items[..if |items| < 500 then |items| else 500]))
  {
    if !doc.Obj? then None
    else match Get(doc.entries, "content")
      case Some(Str(s)) => Some(Take(s, 500))
      case Some(Arr(items)) => Some(Repr(Arr(Take(items, 500))))
      case _ => None
  }

  /** The knowledge line for the `n`-th document. */
  function DocLine(n: nat, snippet: string): string {
    NatToString(n) + ". " + snippet + "..."
  }

  function KnowledgeItem(n: nat, doc: Value): Option<string> {
    if Snippet(doc).None? then None else Some(DocLine(n, Snippet(doc).value))
  }

  /**
   * The knowledge part of the context: nothing for a falsy argument; else a
   * header and one numbered line for each of (at most) the first three
   * documents. A truthy argument that is not a list raises.
   */
  function KnowledgeSection(knowledge: Value): (s: Option<seq<string>>)
  {
    if !Truthy(knowledge) then Some([])
    else if !knowledge.Arr? then None
    else match MapAll(KnowledgeItem, Take(knowledge.items, 3))
      case None => None
      case Some(lines) => Some([KnowledgeHeader] + lines)
  }

  /** The knowledge part: empty for a falsy argument, else a header and one numbered line for each of the first three documents. */
  lemma KnowledgeSectionShape(knowledge: Value)
    ensures var s := KnowledgeSection(knowledge);
      !Truthy(knowledge) ==> s == Some([])
    ensures var s := KnowledgeSection(knowledge);
      Truthy(knowledge) && s.Some? ==> knowledge.Arr? && |s.value| >= 1 && s.value[0] == KnowledgeHeader
    ensures var s := KnowledgeSection(knowledge);
      Truthy(knowledge) && knowledge.Arr? ==>
      var docs := knowledge.items;
      && (s.Some? <==> forall j :: 0 <= j < |docs| && j < 3 ==> Snippet(docs[j]).Some?)
      && (s.Some? ==> |s.value| == 1 + |Take(docs, 3)| <= 4)
      && (s.Some? ==> forall j :: 0 <= j < |docs| && j < 3 ==> s.value[j + 1] == DocLine(j + 1, Snippet(docs[j]).value))
  {
    if Truthy(knowledge) && knowledge.Arr? {
      KnowledgeRaises(knowledge);
      if KnowledgeSection(knowledge).Some? {
        KnowledgeLines(knowledge);
      }
    }
  }

  /** The knowledge part raises exactly when one of the first three documents cannot be shown. */
  lemma KnowledgeRaises(knowledge: Value)
    requires Truthy(knowledge) && knowledge.Arr?
    ensures KnowledgeSection(knowledge).Some? <==>
      forall j :: 0 <= j < |knowledge.items| && j < 3 ==> Snippet(knowledge.items[j]).Some?
  {
    var docs := knowledge.items;
    var first := Take(docs, 3);
    assert forall j :: 0 <= j < |first| ==>
      first[j] == docs[j] && KnowledgeItem(j + 1, first[j]).Some? == Snippet(docs[j]).Some?;
    assert forall j :: 0 <= j < |docs| && j < 3 ==> docs[j] == first[j];
  }

  /** A knowledge part that builds is a header and one numbered line for each of the first three documents. */
  lemma KnowledgeLines(knowledge: Value)
    requires Truthy(knowledge) && knowledge.Arr? && KnowledgeSection(knowledge).Some?
    ensures var s := KnowledgeSection(knowledge).value; var docs := knowledge.items;
      && |s| == 1 + |Take(docs, 3)| <= 4
      && forall j :: 0 <= j < |docs| && j < 3 ==> s[j + 1] == DocLine(j + 1, Snippet(docs[j]).value)
  {
    var docs := knowledge.items;
    KnowledgeLength(knowledge);
    forall j | 0 <= j < |docs| && j < 3
      ensures KnowledgeSection(knowledge).value[j + 1] == DocLine(j + 1, Snippet(docs[j]).value)
    {
      KnowledgeLineAt(knowledge, j);
    }
  }

  /** A knowledge part that builds has one line per shown document after its header. */
  lemma KnowledgeLength(knowledge: Value)
    requires Truthy(knowledge) && knowledge.Arr? && KnowledgeSection(knowledge).Some?
    ensures |KnowledgeSection(knowledge).value| == 1 + |Take(knowledge.items, 3)|
  {
    var m := MapAll(KnowledgeItem, Take(knowledge.items, 3));
    assert KnowledgeSection(knowledge).value == [KnowledgeHeader] + m.value;
  }

  /** Line `j + 1` of a knowledge part that builds shows document `j`. */
  lemma KnowledgeLineAt(knowledge: Value, j: nat)
    requires Truthy(knowledge) && knowledge.Arr? && KnowledgeSection(knowledge).Some?
    requires j < |knowledge.items| && j < 3
    ensures j + 1 < |KnowledgeSection(knowledge).value|
    ensures KnowledgeSection(knowledge).value[j + 1] == DocLine(j + 1, Snippet(knowledge.items[j]).value)
  {
    var first := Take(knowledge.items, 3);
    var m := MapAll(KnowledgeItem, first);
    assert KnowledgeSection(knowledge).value == [KnowledgeHeader] + m.value;
    assert first[j] == knowledge.items[j];
    assert m.value[j] == KnowledgeItem(j + 1, first[j]).value;
  }

  /**
   * The conversation line for a message: `- Role: content`, with role
   * "unknown" and content "" when missing. A message that is not a dict, or
   * whose role is not a string, raises.
   */
  function MessageLine(msg: Value): (r: Option<string>)
    ensures r.Some? <==> msg.Obj? && GetOr(msg.entries, "role", Str("unknown")).Str?
  {
    if !msg.Obj? then None
    else
      var role := GetOr(msg.entries, "role", Str("unknown"));
      var content := GetOr(msg.entries, "content", Str(""));
      if !role.Str? then None else Some("- " + Title(role.s) + ": " + PyStr(content))
  }

  function RecentItem(n: nat, msg: Value): Option<string> {
    MessageLine(msg)
  }

  /** `memory_context.get('recent_context')`, for a memory context that is a dict. */
  function Recent(memory: Value): Value {
    if memory.Obj? then GetOr(memory.entries, "recent_context", Null) else Null
  }

  /**
   * The conversation part of the context: nothing when there is no truthy
   * "recent_context"; else a header and one line for each of (at most) the
   * last three messages, oldest first. A context that is not a dict, or a
   * truthy "recent_context" that is not a list, raises.
   */
  function RecentSection(memory: Value): (s: Option<seq<string>>)
  {
    if !memory.Obj? then None
    else
      var recent := Recent(memory);
      if !Truthy(recent) then Some([])
      else if !recent.Arr? then None
      else match MapAll(RecentItem, Suffix(recent.items, 3))
        case None => None
        case Some(lines) => Some([RecentHeader] + lines)
  }

  /** The conversation part: empty without a truthy "recent_context", else a header and one line for each of the last three messages. */
  lemma RecentSectionShape(memory: Value)
    ensures var s := RecentSection(memory);
      !memory.Obj? ==> s.None?
    ensures var s := RecentSection(memory);
      memory.Obj? && !Truthy(Recent(memory)) ==> s == Some([])
    ensures var s := RecentSection(memory);
      Truthy(Recent(memory)) && s.Some? ==> Recent(memory).Arr? && |s.value| >= 1 && s.value[0] == RecentHeader
    ensures var s := RecentSection(memory);
      memory.Obj? && Truthy(Recent(memory)) && Recent(memory).Arr? ==>
      var last := Suffix(Recent(memory).items, 3);
      && (s.Some? <==> forall j :: 0 <= j < |last| ==> MessageLine(last[j]).Some?)
      && (s.Some? ==> |s.value| == 1 + |last| <= 4)
      && (s.Some? ==> forall j :: 0 <= j < |last| ==> s.value[j + 1] == MessageLine(last[j]).value)
  {
    if memory.Obj? && Truthy(Recent(memory)) && Recent(memory).Arr? {
      var last := Suffix(Recent(memory).items, 3);
      assert forall j :: 0 <= j < |last| ==> RecentItem(j + 1, last[j]) == MessageLine(last[j]);
    }
  }

  /** The preference line for an entry. */
  function PreferenceLine(entry: (string, Value)): string {
    "- " + entry.0 + ": " + PyStr(entry.1)
  }

  function PreferenceLines(entries: seq<(string, Value)>): seq<string> {
    seq(|entries|, j requires 0 <= j < |entries| => PreferenceLine(entries[j]))
  }

  /**
   * The preference part of the context: nothing for falsy preferences; else
   * a header and one `- key: value` line per entry, in order. Truthy
   * preferences that are not a dict raise.
   */
  function PreferenceSection(preferences: Value): (s: Option<seq<string>>)
  {
    if !Truthy(preferences) then Some([])
    else if !preferences.Obj? then None
    else Some([PreferencesHeader] + PreferenceLines(preferences.entries))
  }

  /** The preference part: empty for falsy preferences, else a header and one line per entry, in order. */
  lemma PreferenceSectionShape(preferences: Value)
    ensures var s := PreferenceSection(preferences);
      !Truthy(preferences) ==> s == Some([])
    ensures var s := PreferenceSection(preferences);
      Truthy(preferences) ==> (s.Some? <==> preferences.Obj?)
    ensures var s := PreferenceSection(preferences);
      Truthy(preferences) && s.Some? ==>
      && |s.value| == 1 + |preferences.entries| && s.value[0] == PreferencesHeader
      && forall j :: 0 <= j < |preferences.entries| ==> s.value[j + 1] == PreferenceLine(preferences.entries[j])
  {
  }

  /**
   * `context_parts`: knowledge, then conversation, then preferences; `None`
   * when building any of them raises. It is empty exactly when none of the
   * three contributes.
   */
  function ContextParts(knowledge: Value, memory: Value, preferences: Value): (parts: Option<seq<string>>)
  {
    match KnowledgeSection(knowledge)
    case None => None
    case Some(k) =>
      match RecentSection(memory)
      case None => None
      case Some(m) =>
        match PreferenceSection(preferences)
        case None => None
        case Some(p) => Some(k + m + p)
  }

  /**
   * The context is empty exactly when none of the three parts contributes,
   * and the context text is then the fixed one.
   */
  lemma ContextEmpty(knowledge: Value, memory: Value, preferences: Value)
    ensures var s := ContextParts(knowledge, memory, preferences);
      s == Some([]) <==>
      !Truthy(knowledge) && memory.Obj? && !Truthy(Recent(memory)) && !Truthy(preferences)
    ensures ContextParts(knowledge, memory, preferences) == Some([]) ==> ContextText([]) == NoContext
  {
    KnowledgeSectionShape(knowledge);
    RecentSectionShape(memory);
    PreferenceSectionShape(preferences);
  }

  /** `context_text`: the parts joined by newlines, or the fixed text when there are none. */
  function ContextText(parts: seq<string>): string {
    if parts == [] then NoContext else Join("\n", parts)
  }

  /** `full_prompt`, for the system prompt `system`. */
  function Prompt(system: string, contextText: string, query: string): string {
    var head := "\n            " + system + "\n\n            **Context:**\n            ";
    var tail := "\n\n            **User Query:** " + query + "\n\n            **Response:**\n            ";
    head + contextText + tail
  }

  /**
   * What `generate_response` returns: the fixed apology without a model;
   * another fixed apology when building the context or generating raises;
   * otherwise the model's text for the prompt, stripped.
   */
  function Reply(model: Option<Model>, system: string, query: string,
                 knowledge: Value, memory: Value, preferences: Value): (r: string)
    ensures model.None? ==> r == NoModelApology
  {
    if model.None? then NoModelApology
    else match ContextParts(knowledge, memory, preferences)
      case None => TroubleApology
      case Some(parts) =>
        match model.value(Prompt(system, ContextText(parts), query))
        case Failure(_) => TroubleApology
        case Success(text) => Strip(text)
  }

  /** With a model, the reply is its stripped text for the prompt, or the apology when anything raises. */
  lemma ReplyWithModel(model: Model, system: string, query: string, knowledge: Value, memory: Value, preferences: Value)
    ensures var r := Reply(Some(model), system, query, knowledge, memory, preferences);
      && (ContextParts(knowledge, memory, preferences).None? ==> r == TroubleApology)
      && (ContextParts(knowledge, memory, preferences).Some? ==>
            var generated := model(Prompt(system, ContextText(ContextParts(knowledge, memory, preferences).value), query));
            r == if generated.Success? then Strip(generated.value) else TroubleApology)
      && (r == TroubleApology || IsStripped(r))
  {
  }

  // ---------------------------------------------------------------- prompt contents

  /** The prompt holds the system prompt, the query and the context text. */
  lemma PromptShows(system: string, contextText: string, query: string)
    ensures IsInfix(system, Prompt(system, contextText, query))
    ensures IsInfix(contextText, Prompt(system, contextText, query))
    ensures IsInfix(query, Prompt(system, contextText, query))
  {
    var lead, after := "\n            ", "\n\n            **Context:**\n            ";
    var middle, end := "\n\n            **User Query:** ", "\n\n            **Response:**\n            ";
    var head := lead + system + after;
    var tail := middle + query + end;
    InfixSelf(system);
    InfixSuffix(system, lead, system);
    InfixPrefix(system, lead + system, after);
    InfixPrefix(system, head, contextText);
    InfixPrefix(system, head + contextText, tail);
    InfixSelf(contextText);
    InfixSuffix(contextText, head, contextText);
    InfixPrefix(contextText, head + contextText, tail);
    InfixSelf(query);
    InfixSuffix(query, middle, query);
    InfixPrefix(query, middle + query, end);
    InfixSuffix(query, head + contextText, tail);
  }

  /** Every context part appears in the prompt, and so does the fixed text when there are none. */
  lemma PartInPrompt(system: string, parts: seq<string>, query: string, k: nat)
    requires k < |parts|
    ensures IsInfix(parts[k], Prompt(system, ContextText(parts), query))
  {
    JoinContainsPart("\n", parts, k);
    PromptShows(system, ContextText(parts), query);
    InfixTrans(parts[k], ContextText(parts), Prompt(system, ContextText(parts), query));
  }

  /** Whatever occurs in a context part occurs in the prompt. */
  lemma LineInPrompt(system: string, parts: seq<string>, query: string, k: nat, t: string)
    requires k < |parts| && IsInfix(t, parts[k])
    ensures IsInfix(t, Prompt(system, ContextText(parts), query))
  {
    PartInPrompt(system, parts, query, k);
    InfixTrans(t, parts[k], Prompt(system, ContextText(parts), query));
  }

  /** A context that builds shows the snippet of each of the first three documents in the prompt. */
  lemma KnowledgeInPrompt(system: string, query: string, knowledge: Value, memory: Value, preferences: Value, j: nat)
    requires ContextParts(knowledge, memory, preferences).Some?
    requires knowledge.Arr? && j < |knowledge.items| && j < 3
    ensures Snippet(knowledge.items[j]).Some?
    ensures IsInfix(Snippet(knowledge.items[j]).value,
                    Prompt(system, ContextText(ContextParts(knowledge, memory, preferences).value), query))
  {
    var parts := ContextParts(knowledge, memory, preferences).value;
    var k := KnowledgeSection(knowledge).value;
    KnowledgeSectionShape(knowledge);
    var snippet := Snippet(knowledge.items[j]).value;
    assert parts[j + 1] == k[j + 1];
    ConcatParts(NatToString(j + 1) + ". ", snippet, "...");
    LineInPrompt(system, parts, query, j + 1, snippet);
  }

  /** Positions in a context made of three parts. */
  lemma SecondPart<T>(a: seq<T>, b: seq<T>, c: seq<T>, j: nat)
    requires j < |b|
    ensures |a| + j < |a + b + c| && (a + b + c)[|a| + j] == b[j]
  {
  }

  lemma ThirdPart<T>(a: seq<T>, b: seq<T>, c: seq<T>, j: nat)
    requires j < |c|
    ensures |a| + |b| + j < |a + b + c| && (a + b + c)[|a| + |b| + j] == c[j]
  {
  }

  /** Where the line for message `j` of the last three sits in the context. */
  lemma RecentLineAt(knowledge: Value, memory: Value, preferences: Value, j: nat) returns (i: nat)
    requires ContextParts(knowledge, memory, preferences).Some?
    requires Recent(memory).Arr? && j < |Suffix(Recent(memory).items, 3)|
    ensures MessageLine(Suffix(Recent(memory).items, 3)[j]).Some?
    ensures i < |ContextParts(knowledge, memory, preferences).value|
    ensures ContextParts(knowledge, memory, preferences).value[i] == MessageLine(Suffix(Recent(memory).items, 3)[j]).value
  {
    var k, m, p := ContextSplit(knowledge, memory, preferences);
    RecentSectionAt(memory, j);
    i := |k| + j + 1;
    SecondPart(k, m, p, j + 1);
  }

  /** Line `j + 1` of a conversation section that builds is the line for message `j` of the last three. */
  lemma RecentSectionAt(memory: Value, j: nat)
    requires RecentSection(memory).Some?
    requires Recent(memory).Arr? && j < |Suffix(Recent(memory).items, 3)|
    ensures MessageLine(Suffix(Recent(memory).items, 3)[j]).Some?
    ensures j + 1 < |RecentSection(memory).value|
    ensures RecentSection(memory).value[j + 1] == MessageLine(Suffix(Recent(memory).items, 3)[j]).value
  {
    var last := Suffix(Recent(memory).items, 3);
    assert Truthy(Recent(memory));
    var lines := MapAll(RecentItem, last);
    assert RecentSection(memory) == Some([RecentHeader] + lines.value);
    assert RecentItem(j + 1, last[j]) == MessageLine(last[j]);
  }

  /** A context that builds shows the role and content of each of the last three messages in the prompt. */
  lemma RecentInPrompt(system: string, query: string, knowledge: Value, memory: Value, preferences: Value, j: nat)
    requires ContextParts(knowledge, memory, preferences).Some?
    requires Recent(memory).Arr? && j < |Suffix(Recent(memory).items, 3)|
    ensures var msg := Suffix(Recent(memory).items, 3)[j];
      && MessageLine(msg).Some?
      && var prompt := Prompt(system, ContextText(ContextParts(knowledge, memory, preferences).value), query);
      && IsInfix(Title(GetOr(msg.entries, "role", Str("unknown")).s), prompt)
      && IsInfix(PyStr(GetOr(msg.entries, "content", Str(""))), prompt)
  {
    var parts := ContextParts(knowledge, memory, preferences).value;
    var i := RecentLineAt(knowledge, memory, preferences, j);
    var msg := Suffix(Recent(memory).items, 3)[j];
    var role := Title(GetOr(msg.entries, "role", Str("unknown")).s);
    var content := PyStr(GetOr(msg.entries, "content", Str("")));
    assert parts[i] == "- " + role + ": " + content;
    FieldsInfix("- ", role, ": ", content);
    LineInPrompt(system, parts, query, i, role);
    LineInPrompt(system, parts, query, i, content);
  }

  /** Where the line for preference `j` sits in the context. */
  lemma PreferenceLineAt(knowledge: Value, memory: Value, preferences: Value, j: nat) returns (i: nat)
    requires ContextParts(knowledge, memory, preferences).Some?
    requires preferences.Obj? && j < |preferences.entries|
    ensures i < |ContextParts(knowledge, memory, preferences).value|
    ensures ContextParts(knowledge, memory, preferences).value[i] == PreferenceLine(preferences.entries[j])
  {
    var k, m, p := ContextSplit(knowledge, memory, preferences);
    PreferenceSectionAt(preferences, j);
    i := |k| + |m| + j + 1;
    ThirdPart(k, m, p, j + 1);
  }

  /** Line `j + 1` of a dict's preference section is the line for its entry `j`. */
  lemma PreferenceSectionAt(preferences: Value, j: nat)
    requires preferences.Obj? && j < |preferences.entries|
    ensures PreferenceSection(preferences).Some?
    ensures j + 1 < |PreferenceSection(preferences).value|
    ensures PreferenceSection(preferences).value[j + 1] == PreferenceLine(preferences.entries[j])
  {
    var entries := preferences.entries;
    assert Truthy(preferences);
    var p := [PreferencesHeader] + PreferenceLines(entries);
    assert p[j + 1] == PreferenceLines(entries)[j];
  }

  /** A context that builds is its three sections, in order. */
  lemma ContextSplit(knowledge: Value, memory: Value, preferences: Value) returns (k: seq<string>, m: seq<string>, p: seq<string>)
    requires ContextParts(knowledge, memory, preferences).Some?
    ensures KnowledgeSection(knowledge) == Some(k) && RecentSection(memory) == Some(m)
    ensures PreferenceSection(preferences) == Some(p)
    ensures ContextParts(knowledge, memory, preferences).value == k + m + p
  {
    k, m, p := KnowledgeSection(knowledge).value, RecentSection(memory).value, PreferenceSection(preferences).value;
  }

  /** A context that builds shows every preference's key and value in the prompt. */
  lemma PreferenceInPrompt(system: string, query: string, knowledge: Value, memory: Value, preferences: Value, j: nat)
    requires ContextParts(knowledge, memory, preferences).Some?
    requires preferences.Obj? && j < |preferences.entries|
    ensures var prompt := Prompt(system, ContextText(ContextParts(knowledge, memory, preferences).value), query);
      && IsInfix(preferences.entries[j].0, prompt)
      && IsInfix(PyStr(preferences.entries[j].1), prompt)
  {
    var parts := ContextParts(knowledge, memory, preferences).value;
    var i := PreferenceLineAt(knowledge, memory, preferences, j);
    var key, value := preferences.entries[j].0, PyStr(preferences.entries[j].1);
    assert parts[i] == "- " + key + ": " + value;
    FieldsInfix("- ", key, ": ", value);
    LineInPrompt(system, parts, query, i, key);
    LineInPrompt(system, parts, query, i, value);
  }

  // ---------------------------------------------------------------- context loops

  /** The knowledge loop of `generate_response`. */
  method BuildKnowledge(knowledge: Value) returns (section: Option<seq<string>>)
    ensures section == KnowledgeSection(knowledge)
  {
    if !Truthy(knowledge) {
      return Some([]);
    }
    if !knowledge.Arr? {
      return None;
    }
    var docs := Take(knowledge.items, 3);
    var parts := [KnowledgeHeader];
    var i := 0;
    while i < |docs|
      invariant 0 <= i <= |docs|
      invariant MapAll(KnowledgeItem, docs[..i]).Some?
      invariant parts == [KnowledgeHeader] + MapAll(KnowledgeItem, docs[..i]).value
    {
      var line := KnowledgeItem(i + 1, docs[i]);
      if line.None? {
        return None;
      }
      MapAllStep(KnowledgeItem, docs, i);
      parts := parts + [line.value];
      i := i + 1;
    }
    assert docs[..i] == docs;
    section := Some(parts);
  }

  /** The conversation loop of `generate_response`. */
  method BuildRecent(memory: Value) returns (section: Option<seq<string>>)
    ensures section == RecentSection(memory)
  {
    if !memory.Obj? {
      return None;
    }
    var recent := GetOr(memory.entries, "recent_context", Null);
    assert recent == Recent(memory);
    if !Truthy(recent) {
      return Some([]);
    }
    if !recent.Arr? {
      return None;
    }
    var msgs := Suffix(recent.items, 3);
    var lines := RecentLines(msgs);
    if lines.None? {
      return None;
    }
    section := Some([RecentHeader] + lines.value);
  }

  /** The loop over the last three messages: one line per message, or `None` when one raises. */
  method RecentLines(msgs: seq<Value>) returns (lines: Option<seq<string>>)
    ensures lines == MapAll(RecentItem, msgs)
  {
    var parts := [];
    var i := 0;
    while i < |msgs|
      invariant 0 <= i <= |msgs|
      invariant MapAll(RecentItem, msgs[..i]) == Some(parts)
    {
      var line := RecentItem(i + 1, msgs[i]);
      if line.None? {
        MapAllNone(RecentItem, msgs, i);
        return None;
      }
      MapAllStep(RecentItem, msgs, i);
      parts := parts + [line.value];
      i := i + 1;
    }
    assert msgs[..i] == msgs;
    lines := Some(parts);
  }

  /** The preference loop of `generate_response`. */
  method BuildPreferences(preferences: Value) returns (section: Option<seq<string>>)
    ensures section == PreferenceSection(preferences)
  {
    if !Truthy(preferences) {
      return Some([]);
    }
    if !preferences.Obj? {
      return None;
    }
    var entries := preferences.entries;
    var parts := [PreferencesHeader];
    var i := 0;
    while i < |entries|
      invariant 0 <= i <= |entries|
      invariant parts == [PreferencesHeader] + PreferenceLines(entries[..i])
    {
      parts := parts + ["- " + entries[i].0 + ": " + PyStr(entries[i].1)];
      i := i + 1;
    }
    assert entries[..i] == entries;
    section := Some(parts);
  }

  /** The three loops of `generate_response`, in order: `context_parts`, or `None` when one raises. */
  method BuildContext(knowledge: Value, memory: Value, preferences: Value) returns (parts: Option<seq<string>>)
    ensures parts == ContextParts(knowledge, memory, preferences)
  {
    var k := BuildKnowledge(knowledge);
    var m := BuildRecent(memory);
    var p := BuildPreferences(preferences);
    parts := if k.None? || m.None? || p.None? then None else Some(k.value + m.value + p.value);
  }

  // ---------------------------------------------------------------- process_query

  /** The message dicts `process_query` stores. */
  function Message(role: string, content: string, timestamp: string): Dict {
    [("role", Str(role)), ("content", Str(content)), ("timestamp", Str(timestamp))]
  }

  /** `knowledge_results.get('results', [])`, `memory_results.get('data', {})`, `user_preferences.get('preferences', {})`. */
  function KnowledgeOf(answer: Dict): Value { GetOr(answer, "results", Arr([])) }
  function MemoryOf(answer: Dict): Value { GetOr(answer, "data", Obj([])) }
  function PreferencesOf(answer: Dict): Value { GetOr(answer, "preferences", Obj([])) }

  /** The values Python's `len` accepts. */
  predicate HasLen(v: Value) {
    v.Str? || v.Arr? || v.Obj?
  }

  /** The name of a value's type, as a `TypeError` message shows it. */
  function TypeName(v: Value): string {
    match v
    case Null => "NoneType"
    case Bool(_) => "bool"
    case Num(t) => if forall k :: 0 <= k < |t| ==> t[k] == '-' || '0' <= t[k] <= '9' then "int" else "float"
    case Str(_) => "str"
    case Arr(_) => "list"
    case Obj(_) => "dict"
  }

  /** `str(e)` for `len(v)` on a value without a length (the knowledge count that is logged). */
  function LenError(v: Value): string {
    "object of type '" + TypeName(v) + "' has no len()"
  }

  /** The client's answers to a run of calls, each given the calls made before it. */
  function Answers(respond: (seq<Call>, Call) -> Result<Dict>, history: seq<Call>, calls: seq<Call>): (rs: seq<Result<Dict>>)
    ensures |rs| == |calls|
  {
    seq(|calls|, i requires 0 <= i < |calls| => respond(history + calls[..i], calls[i]))
  }

  /** The answers to the first calls of a run do not depend on the calls that follow. */
  lemma AnswersPrefix(respond: (seq<Call>, Call) -> Result<Dict>, history: seq<Call>, calls: seq<Call>, n: nat)
    requires n <= |calls|
    ensures Answers(respond, history, calls[..n]) == Answers(respond, history, calls)[..n]
  {
    forall i | 0 <= i < n
      ensures Answers(respond, history, calls[..n])[i] == Answers(respond, history, calls)[i]
    {
      assert calls[..n][..i] == calls[..i];
    }
  }

  /** One more call adds the answer it gets after all the calls before it. */
  lemma AnswersSnoc(respond: (seq<Call>, Call) -> Result<Dict>, history: seq<Call>, calls: seq<Call>, c: Call)
    ensures Answers(respond, history, calls + [c]) == Answers(respond, history, calls) + [respond(history + calls, c)]
  {
    var whole := calls + [c];
    assert whole[..|calls|] == calls;
    AnswersPrefix(respond, history, whole, |calls|);
  }

  /** The position of the first exception among some answers, or their number when none raised. */
  function FirstFailure<T>(rs: seq<Result<T>>): (n: nat)
    ensures n <= |rs|
    ensures forall i :: 0 <= i < n ==> rs[i].Success?
    ensures n < |rs| ==> rs[n].Failure?
  {
    if rs == [] || rs[0].Failure? then 0 else 1 + FirstFailure(rs[1..])
  }

  /** The four retrieval-phase calls of `process_query`, in order. */
  function QueryCalls(userId: string, query: string, askedAt: string): (calls: seq<Call>)
    ensures |calls| == 4
  {
    [StoreMemory(userId, Message("user", query, askedAt)),
     SearchKnowledge(query, 5),
     SearchMemory(userId, query, 5),
     GetUserPreferences(userId)]
  }

  /** The call storing the assistant's reply. */
  function ReplyCall(userId: string, reply: string, answeredAt: string): Call {
    StoreMemory(userId, Message("assistant", reply, answeredAt))
  }

  /** What `process_query` answers and which client calls it makes. */
  datatype Outcome = Outcome(response: string, calls: seq<Call>)

  /**
   * `process_query` against a client that has already seen `history`: it
   * stores the user message, searches the knowledge base and the memory and
   * reads the preferences, stopping at the first call that raises; then it
   * generates the reply (`generate`, from the three answers) and stores it.
   * Every answer depends only on the calls made before it, so the answers up
   * to the first exception are those the four retrieval calls get in turn.
   */
  function Run(respond: (seq<Call>, Call) -> Result<Dict>, generate: (Dict, Dict, Dict) -> string,
               history: seq<Call>, query: string, userId: string, askedAt: string, answeredAt: string): (o: Outcome)
  {
    var calls := QueryCalls(userId, query, askedAt);
    var rs := Answers(respond, history, calls);
    var n := FirstFailure(rs);
    if n < 4 then Outcome(ErrorApology(rs[n].error), calls[..n + 1])
    else
      var knowledge := KnowledgeOf(rs[1].value);
      if !HasLen(knowledge) then Outcome(ErrorApology(LenError(knowledge)), calls)
      else
        var reply := generate(rs[1].value, rs[2].value, rs[3].value);
        var stored := respond(history + calls, ReplyCall(userId, reply, answeredAt));
        Outcome(if stored.Failure? then ErrorApology(stored.error) else reply,
                calls + [ReplyCall(userId, reply, answeredAt)])
  }

  /** A run whose retrieval call `n` is the first to raise ends there with the apology for its error. */
  lemma RunFailsAt(respond: (seq<Call>, Call) -> Result<Dict>, generate: (Dict, Dict, Dict) -> string,
                   history: seq<Call>, query: string, userId: string, askedAt: string, answeredAt: string, n: nat)
    requires var rs := Answers(respond, history, QueryCalls(userId, query, askedAt));
      n < 4 && (forall i :: 0 <= i < n ==> rs[i].Success?) && rs[n].Failure?
    ensures var calls := QueryCalls(userId, query, askedAt);
      Run(respond, generate, history, query, userId, askedAt, answeredAt) ==
      Outcome(ErrorApology(Answers(respond, history, calls)[n].error), calls[..n + 1])
  {
    var rs := Answers(respond, history, QueryCalls(userId, query, askedAt));
    assert FirstFailure(rs) == n;
  }

  /** A run whose four retrieval calls succeed ends on the `len` error, or stores the generated reply. */
  lemma RunRetrieved(respond: (seq<Call>, Call) -> Result<Dict>, generate: (Dict, Dict, Dict) -> string,
                     history: seq<Call>, query: string, userId: string, askedAt: string, answeredAt: string)
    requires var rs := Answers(respond, history, QueryCalls(userId, query, askedAt));
      forall i :: 0 <= i < 4 ==> rs[i].Success?
    ensures var calls := QueryCalls(userId, query, askedAt);
      var rs := Answers(respond, history, calls);
      var knowledge := KnowledgeOf(rs[1].value);
      var reply := generate(rs[1].value, rs[2].value, rs[3].value);
      var stored := respond(history + calls, ReplyCall(userId, reply, answeredAt));
      Run(respond, generate, history, query, userId, askedAt, answeredAt) ==
      if !HasLen(knowledge) then Outcome(ErrorApology(LenError(knowledge)), calls)
      else Outcome(if stored.Failure? then ErrorApology(stored.error) else reply,
                   calls + [ReplyCall(userId, reply, answeredAt)])
  {
    var rs := Answers(respond, history, QueryCalls(userId, query, askedAt));
    assert FirstFailure(rs) == 4;
  }

  /**
   * The calls come in the order of `process_query` with its arguments: the
   * user message (with its timestamp) is stored first, then knowledge is
   * searched with top 5, memory with limit 5, and the preferences are read;
   * a fifth call stores the assistant's message for the user.
   */
  lemma RunCallOrder(respond: (seq<Call>, Call) -> Result<Dict>, generate: (Dict, Dict, Dict) -> string,
                     history: seq<Call>, query: string, userId: string, askedAt: string, answeredAt: string)
    ensures var o := Run(respond, generate, history, query, userId, askedAt, answeredAt);
      && 1 <= |o.calls| <= 5
      && o.calls[..if |o.calls| < 4 then |o.calls| else 4] ==
         QueryCalls(userId, query, askedAt)[..if |o.calls| < 4 then |o.calls| else 4]
      && (|o.calls| == 5 ==> o.calls[4].StoreMemory? && o.calls[4].userId == userId
                             && Get(o.calls[4].data, "role") == Some(Str("assistant")))
  {
    var calls := QueryCalls(userId, query, askedAt);
    var o := Run(respond, generate, history, query, userId, askedAt, answeredAt);
    if |o.calls| == 5 {
      assert o.calls[..4] == calls;
    }
  }

  /**
   * A run stops only at an exception: every call but the last one made
   * succeeded, a last call that raised makes the answer the apology carrying
   * its error, and fewer than four calls means the last one raised.
   */
  lemma RunStopsAtFailure(respond: (seq<Call>, Call) -> Result<Dict>, generate: (Dict, Dict, Dict) -> string,
                          history: seq<Call>, query: string, userId: string, askedAt: string, answeredAt: string)
    ensures var o := Run(respond, generate, history, query, userId, askedAt, answeredAt);
      var rs := Answers(respond, history, o.calls);
      && |rs| >= 1
      && (forall i :: 0 <= i < |rs| - 1 ==> rs[i].Success?)
      && (rs[|rs| - 1].Failure? ==> o.response == ErrorApology(rs[|rs| - 1].error))
      && (|rs| < 4 ==> rs[|rs| - 1].Failure?)
  {
    var calls := QueryCalls(userId, query, askedAt);
    var all := Answers(respond, history, calls);
    var n := FirstFailure(all);
    var o := Run(respond, generate, history, query, userId, askedAt, answeredAt);
    if n < 4 {
      AnswersPrefix(respond, history, calls, n + 1);
    } else if !HasLen(KnowledgeOf(all[1].value)) {
    } else {
      var reply := generate(all[1].value, all[2].value, all[3].value);
      AnswersSnoc(respond, history, calls, ReplyCall(userId, reply, answeredAt));
    }
  }

  /**
   * When the client answers the first four calls, the run either ends on a
   * knowledge result without a length (answering with the `len` error) or
   * stores the generated reply and, unless that store raises, answers with it.
   */
  lemma RunCompletes(respond: (seq<Call>, Call) -> Result<Dict>, generate: (Dict, Dict, Dict) -> string,
                     history: seq<Call>, query: string, userId: string, askedAt: string, answeredAt: string)
    ensures var o := Run(respond, generate, history, query, userId, askedAt, answeredAt);
      var rs := Answers(respond, history, o.calls);
      && (|rs| == 4 && rs[3].Success? ==>
            && rs[1].Success? && !HasLen(KnowledgeOf(rs[1].value))
            && o.response == ErrorApology(LenError(KnowledgeOf(rs[1].value))))
      && (|rs| == 5 ==>
            && rs[1].Success? && rs[2].Success? && rs[3].Success?
            && var reply := generate(rs[1].value, rs[2].value, rs[3].value);
            && HasLen(KnowledgeOf(rs[1].value))
            && o.calls[4] == ReplyCall(userId, reply, answeredAt)
            && (rs[4].Success? ==> o.response == reply))
  {
    var calls := QueryCalls(userId, query, askedAt);
    var all := Answers(respond, history, calls);
    var n := FirstFailure(all);
    if n < 4 {
      AnswersPrefix(respond, history, calls, n + 1);
    } else if !HasLen(KnowledgeOf(all[1].value)) {
    } else {
      var reply := generate(all[1].value, all[2].value, all[3].value);
      AnswersSnoc(respond, history, calls, ReplyCall(userId, reply, answeredAt));
    }
  }

  // ---------------------------------------------------------------- the agent

  /**
   * `AgenticRAG`: a client, the language model when `setup_llm` succeeded,
   * and the system prompt `generate_response` puts at the head of each prompt.
   */
  class Agent {
    const client: Client
    const model: Option<Model>
    const systemPrompt: string

    constructor(client: Client, model: Option<Model>)
      ensures this.client == client && this.model == model && systemPrompt == SystemPrompt
    {
      this.client := client;
      this.model := model;
      systemPrompt := SystemPrompt;
    }

    /** `generate_response`: the reply for the query and the retrieved context. */
    method GenerateResponse(query: string, knowledge: Value, memory: Value, preferences: Value)
      returns (response: string)
      ensures response == Reply(model, systemPrompt, query, knowledge, memory, preferences)
    {
      if model.None? {
        return NoModelApology;
      }
      var parts := BuildContext(knowledge, memory, preferences);
      if parts.None? {
        return TroubleApology;
      }
      var contextText := if parts.value == [] then NoContext else Join("\n", parts.value);
      var generated := model.value(Prompt(systemPrompt, contextText, query));
      response := if generated.Failure? then TroubleApology else Strip(generated.value);
    }

    /** The reply `process_query` generates for `query` from the three answers it retrieved. */
    function Generator(query: string): (Dict, Dict, Dict) -> string {
      (knowledge: Dict, memory: Dict, preferences: Dict) =>
        Reply(model, systemPrompt, query, KnowledgeOf(knowledge), MemoryOf(memory), PreferencesOf(preferences))
    }

    /** `process_query`: the calls and the answer `Run` describes. */
    method ProcessQuery(query: string, userId: string, askedAt: string, answeredAt: string)
      returns (response: string)
      modifies client
      ensures var o := Run(client.respond, Generator(query), old(client.calls), query, userId, askedAt, answeredAt);
        response == o.response && client.calls == old(client.calls) + o.calls
    {
      ghost var history := client.calls;
      ghost var respond, generate := client.respond, Generator(query);
      var calls := QueryCalls(userId, query, askedAt);
      ghost var rs := Answers(respond, history, calls);
      var answers := Retrieve(calls);
      var last := answers[|answers| - 1];
      if last.Failure? {
        RunFailsAt(respond, generate, history, query, userId, askedAt, answeredAt, |answers| - 1);
        return ErrorApology(last.error);
      }
      assert |answers| == 4 && answers == rs && client.calls == history + calls;
      RunRetrieved(respond, generate, history, query, userId, askedAt, answeredAt);
      var knowledge := KnowledgeOf(answers[1].value);
      if !HasLen(knowledge) {
        return ErrorApology(LenError(knowledge));
      }
      response := GenerateResponse(query, knowledge, MemoryOf(answers[2].value), PreferencesOf(answers[3].value));
      assert response == generate(answers[1].value, answers[2].value, answers[3].value);
      var stored := client.Request(ReplyCall(userId, response, answeredAt));
      assert stored == respond(history + calls, ReplyCall(userId, response, answeredAt));
      if stored.Failure? {
        return ErrorApology(stored.error);
      }
    }

    /**
     * The retrieval phase of `process_query`: the four calls in order, each
     * made only when the ones before it succeeded.
     */
    method Retrieve(calls: seq<Call>) returns (answers: seq<Result<Dict>>)
      requires |calls| == 4
      modifies client
      ensures var rs := Answers(client.respond, old(client.calls), calls);
        var n := FirstFailure(rs);
        answers == rs[..if n < 4 then n + 1 else 4]
      ensures client.calls == old(client.calls) + calls[..|answers|]
    {
      ghost var history := client.calls;
      ghost var rs := Answers(client.respond, history, calls);
      var asked := client.Request(calls[0]);
      assert history + calls[..0] == history;
      assert client.calls == history + calls[..1] && asked == rs[0];
      if asked.Failure? {
        return [asked];
      }
      var knowledgeResults := client.Request(calls[1]);
      assert client.calls == history + calls[..2] && knowledgeResults == rs[1];
      if knowledgeResults.Failure? {
        return [asked, knowledgeResults];
      }
      var memoryResults := client.Request(calls[2]);
      assert client.calls == history + calls[..3] && memoryResults == rs[2];
      if memoryResults.Failure? {
        return [asked, knowledgeResults, memoryResults];
      }
      var userPreferences := client.Request(calls[3]);
      assert client.calls == history + calls[..4] && userPreferences == rs[3];
      answers := [asked, knowledgeResults, memoryResults, userPreferences];
    }
  }
}
