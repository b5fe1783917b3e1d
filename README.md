# Virelia Context Engine — a verified model of its core

Virelia Context Engine is a retrieval-augmented assistant. A query goes through
four steps:

1. It is stored in a per-user short-term memory.
2. The system searches a vector knowledge base and the user's memory, and reads
   the preferences that were learned about the user.
3. It builds a prompt from what it found and asks a language model for the answer.
4. It stores that answer as the assistant's turn.

The pieces talk through a small request/response server that uses the Model
Context Protocol (MCP), for example `search`, `memory_store` and
`get_preferences`.

This project models that core in Dafny and proves what each part promises.

- `wrappers.dfy`: `Option` and `Result`.
- `text.dfy`: the Python string primitives the code relies on. These are
  `strip`, `lower`, `title`, `str.join`, `replace(c, '')`, `xs[-n:]` and
  `str(n)`, plus the "occurs in" and "is a subsequence of" relations used to
  state properties.
- `json.dfy`: the dynamically typed values that travel through the system.
  - A `dict` keeps insertion order and unique keys.
  - It models `get`, `d[k] = v` and `update`.
  - It models truthiness, and `str`/`repr` as an f-string shows a value.
- `vector_db.dfy`: the `VectorDatabase` class itself.
  - Its fields are the document map, the ordered id list, the index (a list of
    vectors, or none) and the dimension.
  - It models `add_document`, `_rebuild_index`, `search`, `get_document`,
    `list_documents`, `delete_document` and `get_stats`.
  - The embedding model and the nearest-neighbour search are parameters. They
    are constrained only as far as the code relies on them: every embedding has
    the model's width, and a k-nearest answer has k entries with positions below
    the number of vectors, or -1.
- `memory.dfy`: the `MemoryManager` class.
  - Short-term memory holds the newest twenty messages per user.
  - Facts are extracted by a language model whose reply is cleaned of a markdown
    fence and parsed as JSON.
  - Preference lists are normalised (stripped, lower-cased, non-blank,
    duplicates dropped, first occurrence kept).
  - The long-term archive is a second `VectorDatabase`.
  - It also models the statistics.
- `mcp_server.dfy`: `process_request` and its eight handlers, and the capability
  list. Every response carries the request's id and exactly one of a result and
  an error.
- `utils.dfy`:
  - `chunk_text`: overlapping windows, each cut at the last sentence break when
    that break lies far enough into the window, then stripped. The code measures
    the break point inside the window but compares it with, and uses it as, a
    position in the whole text. The model keeps this behaviour, so only windows
    near the start of the text can end at a sentence break
    (`SentenceBreakOnlyNearTheStart`, `LaterWindowsAreFullLength`).
  - `sanitize_user_input`: dangerous characters removed, cut to 1000 characters,
    then stripped.
  - `clean_text`: whitespace collapsed and NUL characters removed.
  - `format_search_results`.
- `agentic_rag.dfy`: the `AgenticRAG` agent.
  - `generate_response` builds the context sections and the prompt and falls
    back to fixed apologies.
  - `process_query` runs the client calls: store the query, search the
    knowledge base, search memory, read the preferences, generate, then store
    the reply. It stops at the first call that raises.

The MCP client is a `Client` object whose answers come from a function `respond`
of the calls made so far and the new call. On that basis the model proves:

- which calls `process_query` makes, in order;
- that it stops at the first failure;
- what it answers in every case.

One defect of the original is modelled as written and shown by concrete
executions. They run on a one-number embedding (a text's length) and on
`FlatL2`, an exact squared-distance index like `faiss.IndexFlatL2`, proved to
rank nearest first. `_rebuild_index` returns without touching the index when
no documents are left. So deleting the last document leaves its vector in the
index (`DeletingLastLeavesVector`). The next document added is appended after
that stale vector, so the index holds the stale vector at position 0 and the
new document's own vector at position 1, while the id list holds only the new
id (`StaleVectorAfterDeletingLast`). Position 0 therefore resolves to the new
document, and position 1, past the end of the id list, resolves to nothing:

- searching for the new document's own text finds its vector first, at
  position 1, and drops it, so the search returns nothing
  (`StaleVectorHidesDocument`);
- searching for a text like the deleted document's finds the stale vector at
  distance 0 and reports the new document with a perfect score of 1, although
  that document's own vector is at squared distance 1
  (`StaleVectorScoresWrongDocument`).

## Model

| member | source | states |
|---|---|---|
| Json.Get | src/memory_manager.py:118 | `d.get(k)` is `None` exactly when the key is absent, and otherwise a value stored under it |
| Json.Set | src/memory_manager.py:122 | `d[k] = v`: an existing key keeps its place, a new key is appended, `k` now maps to `v` and every other key keeps its value |
| Json.UpdateGet | src/memory_manager.py:133 | after `d.update(e)` a key maps to `e`'s value when `e` has it and keeps `d`'s value otherwise |
| Json.UpdateKeepsKeys | src/memory_manager.py:133 | `update` never drops or reorders a key `d` already had |
| Json.FromPairs | src/memory_manager.py:72 | a parsed JSON object has exactly the keys the text lists (the value each key keeps is stated by `FromPairsLastWins`) |
| Json.FromPairsLastWins | src/memory_manager.py:72 | a key listed several times keeps the value of its last occurrence, as a Python dict does |
| Json.Quote | src/agentic_rag.py:102 | `repr` of a string starts and ends with the quote mark `repr` picks (`'`, unless the string holds `'` and no `"`) and is at least as long as the string. Inside, backslashes are doubled, the chosen mark is escaped, tab, newline and carriage return become `\t`, `\n`, `\r`, and the Latin-1 control characters, no-break space and soft hyphen become `\xhh`; `QuoteRoundTrip` shows these escapes lose nothing |
| Json.QuotePlain | src/agentic_rag.py:102 | a string with no backslash, no escaped character and not both quote marks is shown as itself between the marks |
| Json.EscapePlain | src/agentic_rag.py:102 | escaping leaves a string of plain characters unchanged |
| Json.UnescapeEscape | src/agentic_rag.py:102 | reading the escapes back gives the original text, for either quote mark, so escaping is one-to-one |
| Json.QuoteRoundTrip | src/agentic_rag.py:102 | the text between the quote marks of `repr(s)` reads back as `s`, so no two strings share a `repr` |
| Text.Strip | src/utils.py:144 | `str.strip()` gives a block of the string with no whitespace at either end, and everything outside the block is whitespace |
| Text.Lower | src/memory_manager.py:122 | `str.lower()` keeps the length and lowers each letter in place |
| Text.Title | src/agentic_rag.py:96 | `str.title()` upper-cases each letter that starts a run of letters and lower-cases the others |
| Text.JoinContainsPart | src/agentic_rag.py:126 | every part can be found inside `sep.join(parts)` |
| Text.KeepThenDrop | src/utils.py:189-190 | removing characters one at a time in a loop equals removing them all at once |
| Text.Suffix | src/memory_manager.py:102 | `xs[-n:]` is a suffix of `xs` of the length Python gives for positive, zero and negative `n` |
| Text.NatToString | src/utils.py:104 | `str(n)` is a non-empty string of decimal digits that spell `n`, with no leading zero |
| VectorDb.Score | src/vector_db.py:102 | the similarity `1 / (1 + d)` lies in (0, 1] and equals 1 exactly at distance 0 |
| VectorDb.ScoreDecreasing | src/vector_db.py:102 | a larger distance gives a strictly smaller similarity |
| VectorDb.RemoveFirst | src/vector_db.py:124 | `list.remove(x)` leaves a list without `x` as it is, otherwise drops one occurrence of `x` and keeps all other ids, and keeps a duplicate-free list free of `x` (the order of the rest is stated by `RemoveFirstAt`) |
| VectorDb.RemoveFirstAt | src/vector_db.py:124 | the ids left are the list with its first `x` cut out, the others in their order |
| VectorDb.EmbeddingsOfStored | src/vector_db.py:76-78 | when every id is stored, the rebuilt vector list has one embedding per id, in id order |
| VectorDb.AppendKeepsInvariant | src/vector_db.py:57-60 | appending a new document's id and vector keeps the store's invariant |
| VectorDb.RemoveKeepsInvariant | src/vector_db.py:122-125 | removing a document and then rebuilding keeps the store's invariant |
| VectorDb.CollectFromStored | src/vector_db.py:94-103 | every search result names a stored document with its content and metadata and a score in (0, 1] |
| VectorDb.CollectAligned | src/vector_db.py:94-103 | when all hit positions are in range, result `i` is exactly the id, content and metadata of the document at hit `i`'s position (-1 counting from the end), with hit `i`'s score |
| VectorDb.CollectHits | src/vector_db.py:93-105 | the results loop keeps exactly the hits whose position is below the number of ids |
| VectorDb.VectorDatabase.ConsistentAligned | src/vector_db.py:57-60 | in a consistent store, vector `i` of the index is the embedding of document `i` of the id list |
| VectorDb.VectorDatabase.RebuildIndex | src/vector_db.py:68-82 | an empty store keeps its old index; otherwise the index becomes the stored embeddings in id order |
| VectorDb.VectorDatabase.AddDocument | src/vector_db.py:32-66 | an embedding failure is raised and changes nothing; otherwise the document is stored with metadata `{}` by default, a new id is appended with its vector, a known id is replaced and the index rebuilt, and a consistent store stays consistent |
| VectorDb.VectorDatabase.ReplaceDocument | src/vector_db.py:50-55 | replacing a stored document keeps the id order and rebuilds the index from all stored embeddings |
| VectorDb.VectorDatabase.AppendDocument | src/vector_db.py:56-60 | a new document's id and vector are appended at the end |
| VectorDb.VectorDatabase.DeleteDocument | src/vector_db.py:119-131 | returns true exactly when the id was stored; then the document and its id are removed and the index is rebuilt, except that deleting the last document leaves the index as it was |
| VectorDb.VectorDatabase.Search | src/vector_db.py:84-109 | no index or no documents gives no results; otherwise at most `top_k` results, each a stored document with its content, metadata and a score in (0, 1] |
| VectorDb.VectorDatabase.ConsistentSearchIsFull | src/vector_db.py:91 | on a consistent store a search returns `min(top_k, number of documents)` results |
| VectorDb.VectorDatabase.GetDocument | src/vector_db.py:111-113 | `documents.get(id)`: the stored document, or none when the id is not stored |
| VectorDb.VectorDatabase.ListDocuments | src/vector_db.py:115-117 | the ids in `doc_ids` order, that is insertion order: exactly the stored ids, each once |
| VectorDb.VectorDatabase.GetStats | src/vector_db.py:133-139 | the number of documents, the store's dimension (which when set equals the model's width) and the model's width |
| VectorDb.InsertByDistance | src/vector_db.py:91 | inserting a position into a ranking adds exactly that position |
| VectorDb.InsertKeepsOrder | src/vector_db.py:91 | inserting keeps a ranking nearest first |
| VectorDb.Ranked | src/vector_db.py:91 | the ranking of the first `n` vectors holds each position below `n` and no other |
| VectorDb.RankedInOrder | src/vector_db.py:91 | the ranking is nearest first |
| VectorDb.RankedDistinct | src/vector_db.py:91 | no position is ranked twice |
| VectorDb.FlatL2Sound | src/vector_db.py:39 | the exact index meets the index assumption the store relies on: non-negative distances and positions that are -1 or a vector's |
| VectorDb.FlatL2Nearest | src/vector_db.py:91 | the `k` hits report their own vectors' distances, come nearest first, name no position twice, and no vector left out is nearer than one reported |
| VectorDb.LengthEmbeddingFixed | src/vector_db.py:28-30 | the one-number embedding used in the examples always gives one component |
| VectorDb.DeletingLastLeavesVector | src/vector_db.py:68-71 | adding one document and deleting it leaves an empty store whose index still holds the document's vector |
| VectorDb.StaleVectorAfterDeletingLast | src/vector_db.py:56-60 | a document added after that is stored behind the stale vector: the index holds the deleted vector at position 0 and the new one at position 1, for one id |
| VectorDb.NearestOfTwo | src/vector_db.py:91 | on those two vectors the exact index answers the one nearer the query |
| VectorDb.StaleHits | src/vector_db.py:93-103 | on that store a query like the deleted text yields the new document with score 1, and a query like the new text yields nothing |
| VectorDb.StaleVectorHidesDocument | src/vector_db.py:94-97 | searching for the stored document's own text finds nothing, because its vector's position is past the id list, although one document is stored |
| VectorDb.StaleVectorScoresWrongDocument | src/vector_db.py:94-102 | searching for a text like the deleted document's returns the stored document with score 1, although its own vector is at squared distance 1 |
| Memory.Stamped | src/memory_manager.py:27-30 | `{**message, "timestamp": now}`: the timestamp is replaced and every other key kept |
| Memory.Remember | src/memory_manager.py:27-34 | one store appends the message and keeps the newest twenty |
| Memory.RememberAllKeepsNewest | src/memory_manager.py:33-34 | after any run of stores the list is the last twenty messages, in order |
| Memory.TwentyFiveStoresKeepLastTwenty | src/memory_manager.py:33-34 | after 25 stores the five oldest messages are gone |
| Memory.UpToFence | src/memory_manager.py:68 | `t.split('```')[0]` is the text up to the first fence, or all of `t` |
| Memory.StripFence | src/memory_manager.py:67-70 | unfenced text is left alone, and the cleaned text of fenced text contains no fence |
| Memory.StripFenceIsInfix | src/memory_manager.py:67-70 | the cleaned text is a block of the model's reply |
| Memory.FencedJsonUnwrapped | src/memory_manager.py:67-70 | a reply of the form ```` ```json<body>```… ```` is cleaned to exactly `<body>` |
| Memory.FirstFenceAfterBody | src/memory_manager.py:68 | in such a reply the first fence after the opening one follows the body |
| Memory.Dedup | src/memory_manager.py:122 | `list(dict.fromkeys(xs))` has no duplicates and the same members, and a list that has no duplicates is unchanged |
| Memory.LowerNonBlankMembers | src/memory_manager.py:122 | exactly the non-blank texts, lower-cased, are kept |
| Memory.CleanedItemsShape | src/memory_manager.py:122 | every kept item is non-empty, stripped and lower-case |
| Memory.CleanedItemsMembers | src/memory_manager.py:122 | an item is kept exactly when its stripped text is non-blank |
| Memory.NormalizeList | src/memory_manager.py:122 | a normalised preference list holds only non-empty, stripped, lower-case strings |
| Memory.NormalizeListContents | src/memory_manager.py:122 | a normalised list has no duplicates, and holds the normalised text of exactly the non-blank items |
| Memory.NormalizeListIdempotent | src/memory_manager.py:120-122 | normalising again changes nothing |
| Memory.Normalized | src/memory_manager.py:120-122 | the keys and their order are kept; list values are normalised and other values kept |
| Memory.NormalizeEntries | src/memory_manager.py:120-122 | the rewrite loop over the items produces the normalised dict |
| Memory.NormalizedIdempotent | src/memory_manager.py:120-122 | reading the preferences twice gives what the first read gave |
| Memory.TotalMessagesPick | src/memory_manager.py:152 | the message total is one user's count plus the others' |
| Memory.TotalMessagesBound | src/memory_manager.py:152 | with at most twenty messages per user, the total is at most twenty times the number of users |
| Memory.MemoryManager.FactsOf | src/memory_manager.py:64-75 | facts are only returned when the cleaned reply parses as a JSON object; then they have exactly that object's keys |
| Memory.MemoryManager.FactsOfLastWins | src/memory_manager.py:72-73 | each key of the parsed object carries the value of its last occurrence |
| Memory.MemoryManager.ExtractUserFacts | src/memory_manager.py:46-79 | no API key gives no facts; with a key, the facts are those of the reply to the fact prompt when generation succeeds, and none when it fails |
| Memory.MemoryManager.StoreConversation | src/memory_manager.py:21-44 | the stamped message joins the user's newest twenty; a user message with extracted facts merges them into the preferences, and nothing else changes |
| Memory.MemoryManager.UpdateUserPreferences | src/memory_manager.py:128-135 | the user's preferences become the old ones updated with the new ones |
| Memory.MemoryManager.GetUserPreferences | src/memory_manager.py:115-126 | returns the normalised preferences, and stores them back for a known user |
| Memory.MemoryManager.ClearUserMemory | src/memory_manager.py:137-146 | the user's messages and preferences are removed and the archive is untouched |
| Memory.MemoryManager.StoreLongTermMemory | src/memory_manager.py:81-96 | an embedding failure changes nothing; otherwise the archive's new state is exactly the Q&A text added under the given id with user, type, topic and time (a new id appended with its vector, a known id replaced and the index rebuilt), and a consistent archive stays consistent |
| Memory.MemoryManager.RetrieveContext | src/memory_manager.py:98-113 | the user's last `limit` messages and at most three archived results, each stored in the archive |
| Memory.MemoryManager.GetMemoryStats | src/memory_manager.py:148-155 | the four counts, and at most twenty messages per active user |
| McpServer.Route | src/mcp_server.py:71-87 | a method name selects the handler of that name |
| McpServer.RouteFindsEveryHandler | src/mcp_server.py:71-86 | every handler is reached by its own name |
| McpServer.CapabilitiesMatchRoutes | src/mcp_server.py:188-228 | every listed method is served, and the only served method that is not listed is `list_capabilities` |
| McpServer.McpServer.constructor | src/mcp_server.py:31-33 | the server keeps the knowledge base and memory manager it is given, and starts with its invariant holding |
| McpServer.McpServer.ProcessRequest | src/mcp_server.py:68-96 | every response carries the request's id and exactly one of result and error; an unknown method is an error that changes nothing; only a failing `add_document` yields an error; for each method name, the response and the new state of the knowledge base and the memory manager are those of its handler, and the read-only methods change neither |
| McpServer.McpServer.HandleSearch | src/mcp_server.py:98-108 | the knowledge base's results for the query (default `""`) and `top_k` (default 5) |
| McpServer.McpServer.HandleMemoryStore | src/mcp_server.py:110-120 | the status is "stored"; the stamped data joins the user's newest twenty messages, the facts of a user message are merged into the preferences, and nothing else changes |
| McpServer.McpServer.HandleMemorySearch | src/mcp_server.py:122-133 | the user's last `limit` (default 10) messages and the archive's top three for the query |
| McpServer.McpServer.HandleGetPreferences | src/mcp_server.py:135-143 | the user's normalised preferences; a known user's are stored back normalised, and nothing else changes |
| McpServer.McpServer.HandleListCapabilities | src/mcp_server.py:181-186 | the capability list |
| McpServer.McpServer.HandleAddDocument | src/mcp_server.py:145-156 | the embedding error with nothing changed; otherwise status "added" with the id, and the knowledge base's new state is exactly the document added (a new id appended with its vector, a known id replaced and the index rebuilt); a consistent knowledge base stays consistent |
| McpServer.McpServer.HandleDeleteDocument | src/mcp_server.py:158-166 | "deleted" exactly when the id was stored, otherwise "not_found" and nothing changed; a deleted id's document is removed, its first occurrence cut from the id list and the index rebuilt, except that deleting the last document leaves the index as it was |
| McpServer.McpServer.HandleGetStats | src/mcp_server.py:168-179 | the knowledge base's and the memory manager's statistics |
| Utils.LastIndex | src/utils.py:160 | `rfind` gives -1 or a position holding the character |
| Utils.LastIndexIsLast | src/utils.py:160 | no later position holds the character |
| Utils.BreakPoint | src/utils.py:160 | the later of the last `.` and the last newline, or -1 |
| Utils.BreakPointIsLast | src/utils.py:160 | there is no `.` or newline after the break point |
| Utils.WindowEnd | src/utils.py:156-166 | a window ends after its start and at most `chunk_size` past it |
| Utils.WindowAdvances | src/utils.py:169 | with `overlap <= chunk_size / 2` the next start is after the current one |
| Utils.Windows | src/utils.py:155-169 | every window lies inside the text and is at most `chunk_size` long |
| Utils.ChunkText | src/utils.py:146-171 | the loop produces the list of stripped window slices, or the text itself when it fits in one chunk |
| Utils.ChunksAreStrippedBlocks | src/utils.py:146-171 | every chunk is a block of the text at most `chunk_size` long, stripped when the text was split |
| Utils.WindowsCover | src/utils.py:155-169 | every character of the text lies in some window |
| Utils.WindowsAdvance | src/utils.py:169 | window starts strictly increase |
| Utils.SentenceBreakOnlyNearTheStart | src/utils.py:163-166 | a window can be cut at a sentence break only while `start + chunk_size / 2 + 1 < chunk_size` |
| Utils.LaterWindowsAreFullLength | src/utils.py:163-166 | once `start >= chunk_size / 2` every window is `chunk_size` long |
| Utils.SanitizeUserInput | src/utils.py:180-197 | the removal loop, the cut and the strip give the sanitised text |
| Utils.SanitizedIsSafe | src/utils.py:180-197 | the result has no dangerous character, at most 1000 characters, no surrounding whitespace, and is a subsequence of the input |
| Utils.SanitizedIdempotent | src/utils.py:180-197 | sanitising twice gives what sanitising once gave |
| Utils.Words | src/utils.py:139 | `split()` gives non-empty pieces without whitespace, made of the text's characters (that they are exactly the text's runs, in order, is stated by `WordsAreRuns`) |
| Utils.WordsAreRuns | src/utils.py:139 | the pieces are the text's maximal non-whitespace runs in order: the text is the pieces with non-empty whitespace gaps between them and optional whitespace at either end |
| Utils.CleanText | src/utils.py:133-144 | empty text gives `""`; otherwise the result has no NUL and no surrounding whitespace |
| Utils.CleanTextSingleSpaced | src/utils.py:139-144 | a text without NUL becomes its words separated by single spaces |
| Utils.Shown | src/utils.py:100 | content up to 200 characters is shown whole; longer content becomes its first 200 characters plus `...` |
| Utils.Topic | src/utils.py:102 | the metadata's topic, or "Unknown" |
| Utils.FormatSearchResults | src/utils.py:93-106 | "No results found." for no results; otherwise the numbered lines joined by newlines |
| Utils.ResultLinesListed | src/utils.py:98-106 | result `k` appears as line `k+1` with its number, topic and shown content |
| AgenticRag.Client.Request | src/agentic_rag.py:37-46 | a request is recorded after the earlier ones and answered from them |
| AgenticRag.Take | src/agentic_rag.py:87 | `xs[:n]` is the first `min(n, len(xs))` elements |
| AgenticRag.Snippet | src/agentic_rag.py:88 | a document gives a line exactly when it is a dict whose content is a string or list; a string content gives exactly its first `min(500, len)` characters, and a list content gives the `repr` of its first 500 items |
| AgenticRag.KnowledgeSectionShape | src/agentic_rag.py:85-88 | no knowledge gives no lines; otherwise a header and one numbered line per each of the first three documents, or an error |
| AgenticRag.MessageLine | src/agentic_rag.py:94-96 | a message gives a line exactly when it is a dict whose role (default "unknown") is a string |
| AgenticRag.RecentSectionShape | src/agentic_rag.py:91-96 | a memory context that is not a dict raises; no recent messages gives no lines; otherwise a header and one line per each of the last three messages |
| AgenticRag.PreferenceSectionShape | src/agentic_rag.py:99-102 | no preferences give no lines; a dict gives a header and one `- key: value` line per entry; anything else raises |
| AgenticRag.ContextEmpty | src/agentic_rag.py:82-126 | the context is empty exactly when there is no knowledge, no recent messages and no preferences, and then the text is the fixed "no context" line |
| AgenticRag.Reply | src/agentic_rag.py:78-79 | without a model the answer is the fixed apology |
| AgenticRag.ReplyWithModel | src/agentic_rag.py:81-145 | a context that raises, or a failed generation, gives the fixed apology; otherwise the answer is the model's text for the prompt, stripped |
| AgenticRag.PromptShows | src/agentic_rag.py:128-137 | the system prompt, the context text and the query all appear in the full prompt |
| AgenticRag.PartInPrompt | src/agentic_rag.py:126-137 | every context line appears in the full prompt |
| AgenticRag.KnowledgeInPrompt | src/agentic_rag.py:84-137 | each of the first three documents' snippets appears in the prompt |
| AgenticRag.RecentInPrompt | src/agentic_rag.py:90-137 | each of the last three messages' title-cased role and content appear in the prompt |
| AgenticRag.PreferenceInPrompt | src/agentic_rag.py:98-137 | every preference key and its value appear in the prompt |
| AgenticRag.BuildKnowledge | src/agentic_rag.py:85-88 | the loop builds the knowledge section |
| AgenticRag.BuildRecent | src/agentic_rag.py:91-96 | the loop builds the conversation section |
| AgenticRag.BuildPreferences | src/agentic_rag.py:99-102 | the loop builds the preference section |
| AgenticRag.BuildContext | src/agentic_rag.py:82-102 | the three sections in order, or the error of the first that raises |
| AgenticRag.AnswersPrefix | src/agentic_rag.py:37-46 | the answers to the first `n` calls do not depend on later calls |
| AgenticRag.FirstFailure | src/agentic_rag.py:35-72 | the position of the first call that raises: all calls before it succeed |
| AgenticRag.RunFailsAt | src/agentic_rag.py:35-72 | when retrieval call `n` is the first to raise, the calls stop there and the answer is the apology with its error |
| AgenticRag.RunRetrieved | src/agentic_rag.py:44-68 | when all four retrieval calls succeed, a knowledge value without a length raises, and otherwise the reply is generated, stored, and returned unless the store raises |
| AgenticRag.RunCallOrder | src/agentic_rag.py:37-66 | the calls are a prefix of store, search, memory search, preferences, followed by at most the store of the assistant's message |
| AgenticRag.RunStopsAtFailure | src/agentic_rag.py:35-72 | every call but the last succeeds, a failed last call gives the apology with its error, and fewer than four calls means a call failed |
| AgenticRag.RunCompletes | src/agentic_rag.py:51-68 | four calls that all succeed mean the knowledge had no length; five calls mean the generated reply was stored and is returned when the store succeeds |
| AgenticRag.Agent.GenerateResponse | src/agentic_rag.py:74-145 | the answer `generate_response` gives for its arguments |
| AgenticRag.Agent.ProcessQuery | src/agentic_rag.py:33-72 | the client receives exactly the calls of the run, and the answer is the run's answer |
| AgenticRag.Agent.Retrieve | src/agentic_rag.py:37-46 | the four retrieval calls are made in order up to and including the first that raises, with their answers |

## Left out

- Input and output are left out: the Flask routes and `setup_routes` (`src/mcp_server.py:37-66`), `start_server` and its thread (230-238), and all logging. They move data but compute nothing.
- The embedding model (SentenceTransformer) and the FAISS index are parameters `embed` and `knn` of `VectorDatabase`. The store's operations are proved for any index that meets `KnnSound`, not only for FAISS.
- VectorDb.FlatL2: this exact index stands in for `faiss.IndexFlatL2` in the concrete executions. Distances are real numbers rather than 32-bit floats, ties keep the lower position first, and slots beyond the number of vectors carry distance 0 where FAISS reports the largest float.
- Clocks and hashing are values passed in. `datetime.now().isoformat()` is passed as `now`, `askedAt` or `answeredAt`. The md5 memory id is passed as `memoryId`.
- The Gemini model is the function `generate` (memory) or `model` (agent), and `json.loads` is the function `parse`. `setup_llm` is the `Option<Model>` given to the agent's constructor: `None` when setup failed.
- AgenticRag.Agent.Generator: the system prompt is a field set from one constant by the constructor, not a local string rebuilt on each call.
- `analyze_query_intent` and `get_system_status` (`src/agentic_rag.py:147-203`) are not modelled. The first is a keyword classifier nothing in the core calls. The second reads configuration.
- In `src/utils.py`, `setup_knowledge_base`, `validate_environment`, `get_system_info` and `safe_json_loads` are not modelled. They fill sample data, read the environment, or wrap `json.loads`, which is a parameter here.
- `src/mcp_client.py` is not part of this model. The client is the abstract `Client`, whose answer to each call is a function of the calls made before it.
- AgenticRag.Run: the answers of calls after the first failure are defined from the same `respond` function but are never used. They stand for calls that are not made.
- Json.Quote: a non-printable character outside Latin-1 (for example U+2028, or a lone surrogate) is kept as it is, where Python writes a `\x`, `\u` or `\U` escape. Python's printability table for the whole of Unicode is not modelled.
- Json.Repr: a number is carried as the text Python prints for it. Number formatting is not modelled.
- Text.Lower and Text.Title work on ASCII letters only. Unicode case mapping is not modelled.
- Utils.ChunkText requires `chunk_size >= 1` and `overlap <= chunk_size / 2` whenever the text is longer than one chunk. For other arguments the original loop need not advance and so need not terminate.
- Utils.FormatSearchResults: the `:.3f` rendering of the score is the parameter `fmt`, because floating-point formatting is not modelled.
- McpServer.McpServer.constructor: requires the knowledge base to be a different object from the memory manager's long-term store. The memory manager builds that store itself (`src/memory_manager.py:17`), so a server sharing the two is not modelled.
- McpServer.McpServer.ProcessRequest: a request's parameters are typed. A missing `user_id`, `doc_id` or `data`, or a value of the wrong type, is not modelled. In Python these pass `None` through, or raise inside a store method that swallows the error.
- Memory.MemoryManager.GetUserPreferences: the Python code rewrites the stored dict in place while iterating over it. The model returns the normalised dict and stores it back, which is the same end state because no key is added or removed.
- Memory.MemoryManager.StoreConversation: the `except` branch (43-44) is not modelled. No modelled step can raise: the fact extraction swallows its own errors.
- The repository's tests expect a preference such as "AI" to keep its case. The code lower-cases every item (`src/memory_manager.py:122`), and the model follows the code.
