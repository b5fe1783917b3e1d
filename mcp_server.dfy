/**
 * The MCP server: requests name a method and carry parameters; the server
 * dispatches them to the knowledge base or the memory manager and answers
 * with a response carrying the request's id and either a result or an error.
 */
module McpServer {
  import opened Wrappers
  import opened Text
  import opened Json
  import opened VectorDb
  import opened Memory

  /**
   * The parameters a request may carry. Those the handlers read with a
   * default are optional (`None` when the key is absent); the others are
   * taken as given.
   */
  datatype Params = Params(
    query: Option<string>,
    topK: Option<int>,
    userId: string,
    data: Dict,
    limit: Option<int>,
    docId: string,
    content: string,
    metadata: Option<Dict>)

  datatype Request = Request(id: string, methodName: string, params: Params)

  /** The `result` dicts the handlers build. */
  datatype Reply =
    | Results(results: seq<SearchResult>)
    | Status(status: string)
    | DocStatus(status: string, docId: string)
    | ContextData(data: Context)
    | Preferences(preferences: Dict)
    | Capabilities(methods: seq<MethodInfo>)
    | SystemStats(database: Stats, memory: MemoryStats)

  /** Exactly one of `result` and `error` is set by every path of the server. */
  datatype Response = Response(id: string, result: Option<Reply>, error: Option<string>)

  /** One entry of the capability list: a method name, what it does, and its parameter types. */
  datatype MethodInfo = MethodInfo(name: string, description: string, params: seq<(string, string)>)

  /** The handlers `process_request` can pick. */
  datatype Handler =
    | SearchHandler
    | MemoryStoreHandler
    | MemorySearchHandler
    | GetPreferencesHandler
    | ListCapabilitiesHandler
    | AddDocumentHandler
    | DeleteDocumentHandler
    | GetStatsHandler

  /** The method name that selects each handler. */
  function MethodName(h: Handler): string {
    match h
    case SearchHandler => "search"
    case MemoryStoreHandler => "memory_store"
    case MemorySearchHandler => "memory_search"
    case GetPreferencesHandler => "get_preferences"
    case ListCapabilitiesHandler => "list_capabilities"
    case AddDocumentHandler => "add_document"
    case DeleteDocumentHandler => "delete_document"
    case GetStatsHandler => "get_stats"
  }

  /** The dispatch of `process_request`: the handler for a method name, `None` for an unknown one. */
  function Route(name: string): (h: Option<Handler>)
    ensures h.Some? ==> MethodName(h.value) == name
  {
    if name == "search" then Some(SearchHandler)
    else if name == "memory_store" then Some(MemoryStoreHandler)
    else if name == "memory_search" then Some(MemorySearchHandler)
    else if name == "get_preferences" then Some(GetPreferencesHandler)
    else if name == "list_capabilities" then Some(ListCapabilitiesHandler)
    else if name == "add_document" then Some(AddDocumentHandler)
    else if name == "delete_document" then Some(DeleteDocumentHandler)
    else if name == "get_stats" then Some(GetStatsHandler)
    else None
  }

  /** Every handler is reached by its own name, so no handler is shadowed by another. */
  lemma RouteFindsEveryHandler(h: Handler)
    ensures Route(MethodName(h)) == Some(h)
  {
    match h
    case SearchHandler =>
    case MemoryStoreHandler =>
    case MemorySearchHandler =>
    case GetPreferencesHandler =>
    case ListCapabilitiesHandler =>
    case AddDocumentHandler =>
    case DeleteDocumentHandler =>
    case GetStatsHandler =>
  }

  /** The message an unknown method is answered with. */
  function UnknownMethod(name: string): string {
    "Unknown method: " + name
  }

  /** The capability list served by `list_capabilities` and `/capabilities`. */
  const CapabilityList: seq<MethodInfo> := [
    MethodInfo("search", "Search the knowledge base", [("query", "string"), ("top_k", "number")]),
    MethodInfo("memory_store", "Store data in memory", [("user_id", "string"), ("data", "object")]),
    MethodInfo("memory_search", "Search memory",
               [("user_id", "string"), ("query", "string"), ("limit", "number")]),
    MethodInfo("get_preferences", "Get user preferences", [("user_id", "string")]),
    MethodInfo("add_document", "Add document to knowledge base",
               [("doc_id", "string"), ("content", "string"), ("metadata", "object")]),
    MethodInfo("delete_document", "Delete document from knowledge base", [("doc_id", "string")]),
    MethodInfo("get_stats", "Get system statistics", [])
  ]

  predicate Listed(name: string) {
    exists i :: 0 <= i < |CapabilityList| && CapabilityList[i].name == name
  }

  /**
   * The list and the dispatch agree on every method but one: each listed
   * method is served, and the only served method missing from the list is
   * `list_capabilities` itself.
   */
  lemma CapabilitiesMatchRoutes(name: string)
    ensures Listed(name) ==> Route(name).Some?
    ensures Route(name).Some? ==> Listed(name) || name == "list_capabilities"
    ensures !Listed("list_capabilities")
  {
    assert CapabilityList[0].name == "search";
    assert CapabilityList[1].name == "memory_store";
    assert CapabilityList[2].name == "memory_search";
    assert CapabilityList[3].name == "get_preferences";
    assert CapabilityList[4].name == "add_document";
    assert CapabilityList[5].name == "delete_document";
    assert CapabilityList[6].name == "get_stats";
  }

  class McpServer {
    const db: VectorDatabase
    const memory: MemoryManager

    /** The knowledge base and the memory manager's own archive are separate stores. */
    ghost predicate Valid()
      reads this, db, memory, memory.longTerm
    {
      db.Valid() && memory.Valid() && db != memory.longTerm
    }

    constructor(db: VectorDatabase, memory: MemoryManager)
      requires db.Valid() && memory.Valid() && db != memory.longTerm
      ensures this.db == db && this.memory == memory
      ensures Valid()
    {
      this.db := db;
      this.memory := memory;
    }

    /**
     * What `memory_store` leaves in the memory manager: the stamped message
     * joins the user's recent messages, and the facts found in a user message
     * are merged into the user's preferences.
     */
    twostate predicate MessageStored(p: Params, now: string)
      reads this, memory
    {
      var facts := memory.ExtractUserFacts(PyStr(GetOr(p.data, "content", Str(""))));
      && memory.shortTerm == old(memory.shortTerm)[p.userId := Remember(old(memory.History(p.userId)), Stamped(p.data, now))]
      && memory.preferences ==
           if Get(p.data, "role") == Some(Str("user")) && facts != []
           then old(memory.preferences)[p.userId := Update(old(memory.PreferencesOf(p.userId)), facts)]
           else old(memory.preferences)
    }

    /**
     * What `get_preferences` leaves in the memory manager: a known user's
     * preferences are stored back normalised; nothing else changes.
     */
    twostate predicate PreferencesWrittenBack(p: Params)
      reads this, memory
    {
      && memory.shortTerm == old(memory.shortTerm)
      && memory.preferences ==
           if p.userId in old(memory.preferences)
           then old(memory.preferences)[p.userId := Normalized(old(memory.PreferencesOf(p.userId)))]
           else old(memory.preferences)
    }

    /**
     * `process_request`: dispatch on the method name; every response carries
     * the request's id and exactly one of a result and an error. An unknown
     * method is answered with an error and changes nothing; of the handlers
     * only `add_document` can raise, and its error becomes the response's.
     */
    method ProcessRequest(request: Request, now: string) returns (response: Response)
      requires Valid()
      modifies db, memory
      ensures Valid()
      ensures response.id == request.id
      ensures response.result.Some? <==> response.error.None?
      ensures Route(request.methodName).None? ==>
        response.error == Some(UnknownMethod(request.methodName)) && unchanged(db) && unchanged(memory)
      ensures response.error.Some? && Route(request.methodName).Some? ==>
        request.methodName == "add_document" && old(db.embed(request.params.content)).Failure?
      ensures Route(request.methodName) == Some(SearchHandler) ==>
        && response == Response(request.id, Some(Results(
             db.SearchOutcome(request.params.query.GetOr(""), request.params.topK.GetOr(5)))), None)
        && unchanged(db) && unchanged(memory)
      ensures Route(request.methodName) == Some(MemoryStoreHandler) ==>
        response == Response(request.id, Some(Status("stored")), None) && unchanged(db) && MessageStored(request.params, now)
      ensures Route(request.methodName) == Some(MemorySearchHandler) ==>
        var p := request.params;
        && response == Response(request.id, Some(ContextData(Context(
             Suffix(memory.History(p.userId), p.limit.GetOr(10)),
             if p.query.Some? then memory.longTerm.SearchOutcome(p.query.value, 3) else []))), None)
        && unchanged(db) && unchanged(memory)
      ensures Route(request.methodName) == Some(GetPreferencesHandler) ==>
        var p := request.params;
        && response == Response(request.id, Some(Preferences(Normalized(old(memory.PreferencesOf(p.userId))))), None)
        && unchanged(db)
        && PreferencesWrittenBack(p)
      ensures Route(request.methodName) == Some(ListCapabilitiesHandler) ==>
        response == Response(request.id, Some(Capabilities(CapabilityList)), None) && unchanged(db) && unchanged(memory)
      ensures Route(request.methodName) == Some(AddDocumentHandler) ==>
        var p := request.params;
        && unchanged(memory)
        && (db.embed(p.content).Failure? ==>
              response == Response(request.id, None, Some(db.embed(p.content).error)) && unchanged(db))
        && (db.embed(p.content).Success? ==>
              && response == Response(request.id, Some(DocStatus("added", p.docId)), None)
              && db.Added(p.docId, p.content, p.metadata.GetOr([]), db.embed(p.content).value))
      ensures Route(request.methodName) == Some(DeleteDocumentHandler) ==>
        var p := request.params;
        && response == Response(request.id, Some(DocStatus(
             if p.docId in old(db.documents) then "deleted" else "not_found", p.docId)), None)
        && unchanged(memory)
        && (p.docId !in old(db.documents) ==> unchanged(db))
        && (p.docId in old(db.documents) ==> db.Removed(p.docId))
      ensures Route(request.methodName) == Some(GetStatsHandler) ==>
        && response == Response(request.id, Some(SystemStats(db.GetStats(),
             MemoryStats(|memory.shortTerm|, TotalMessages(memory.shortTerm),
                         |memory.longTerm.documents|, |memory.preferences|))), None)
        && unchanged(db) && unchanged(memory)
    {
      var route := Route(request.methodName);
      if route.None? {
        return Response(request.id, None, Some(UnknownMethod(request.methodName)));
      }
      var h := route.value;
      if h.SearchHandler? || h.AddDocumentHandler? || h.DeleteDocumentHandler? {
        response := KnowledgeRequest(h, request);
      } else if h.MemoryStoreHandler? || h.MemorySearchHandler? || h.GetPreferencesHandler? {
        response := MemoryRequest(h, request, now);
      } else if h.ListCapabilitiesHandler? {
        response := HandleListCapabilities(request.id);
      } else {
        response := HandleGetStats(request.id);
      }
    }

    /** The routes served by the knowledge base; the memory manager is not touched. */
    method KnowledgeRequest(h: Handler, request: Request) returns (response: Response)
      requires Valid() && Route(request.methodName) == Some(h)
      requires h.SearchHandler? || h.AddDocumentHandler? || h.DeleteDocumentHandler?
      modifies db
      ensures Valid()
      ensures response.id == request.id
      ensures response.result.Some? <==> response.error.None?
      ensures response.error.Some? ==> h.AddDocumentHandler? && old(db.embed(request.params.content)).Failure?
      ensures h == SearchHandler ==>
        && response == Response(request.id, Some(Results(
             db.SearchOutcome(request.params.query.GetOr(""), request.params.topK.GetOr(5)))), None)
        && unchanged(db) && unchanged(memory)
      ensures h == AddDocumentHandler ==>
        var p := request.params;
        && unchanged(memory)
        && (db.embed(p.content).Failure? ==>
              response == Response(request.id, None, Some(db.embed(p.content).error)) && unchanged(db))
        && (db.embed(p.content).Success? ==>
              && response == Response(request.id, Some(DocStatus("added", p.docId)), None)
              && db.Added(p.docId, p.content, p.metadata.GetOr([]), db.embed(p.content).value))
      ensures h == DeleteDocumentHandler ==>
        var p := request.params;
        && response == Response(request.id, Some(DocStatus(
             if p.docId in old(db.documents) then "deleted" else "not_found", p.docId)), None)
        && unchanged(memory)
        && (p.docId !in old(db.documents) ==> unchanged(db))
        && (p.docId in old(db.documents) ==> db.Removed(p.docId))
    {
      var id, p := request.id, request.params;
      match h
      case SearchHandler => response := HandleSearch(id, p);
      case AddDocumentHandler => response := HandleAddDocument(id, p);
      case DeleteDocumentHandler => response := HandleDeleteDocument(id, p);
    }

    /** The routes served by the memory manager; the knowledge base is not touched. */
    method MemoryRequest(h: Handler, request: Request, now: string) returns (response: Response)
      requires Valid() && Route(request.methodName) == Some(h)
      requires h.MemoryStoreHandler? || h.MemorySearchHandler? || h.GetPreferencesHandler?
      modifies memory
      ensures Valid()
      ensures response.id == request.id
      ensures response.result.Some? && response.error.None?
      ensures h == MemoryStoreHandler ==>
        response == Response(request.id, Some(Status("stored")), None) && unchanged(db) && MessageStored(request.params, now)
      ensures h == MemorySearchHandler ==>
        var p := request.params;
        && response == Response(request.id, Some(ContextData(Context(
             Suffix(memory.History(p.userId), p.limit.GetOr(10)),
             if p.query.Some? then memory.longTerm.SearchOutcome(p.query.value, 3) else []))), None)
        && unchanged(db) && unchanged(memory)
      ensures h == GetPreferencesHandler ==>
        var p := request.params;
        && response == Response(request.id, Some(Preferences(Normalized(old(memory.PreferencesOf(p.userId))))), None)
        && unchanged(db)
        && PreferencesWrittenBack(p)
    {
      var id, p := request.id, request.params;
      match h
      case MemoryStoreHandler => response := HandleMemoryStore(id, p, now);
      case MemorySearchHandler => response := HandleMemorySearch(id, p);
      case GetPreferencesHandler => response := HandleGetPreferences(id, p);
    }


    /** `search`: the knowledge base's answer for the query (default `""`) and `top_k` (default 5). */
    method HandleSearch(id: string, p: Params) returns (response: Response)
      requires Valid()
      ensures response == Response(id, Some(Results(db.SearchOutcome(p.query.GetOr(""), p.topK.GetOr(5)))), None)
      ensures forall r :: r in response.result.value.results ==> r.id in db.documents
    {
      var results := db.Search(p.query.GetOr(""), p.topK.GetOr(5));
      response := Response(id, Some(Results(results)), None);
    }

    /** `memory_store`: the data is stored as a conversation message; the answer is always "stored". */
    method HandleMemoryStore(id: string, p: Params, now: string) returns (response: Response)
      requires Valid()
      modifies memory
      ensures Valid()
      ensures response == Response(id, Some(Status("stored")), None)
      ensures MessageStored(p, now)
    {
      memory.StoreConversation(p.userId, p.data, now);
      assert db.Valid();
      response := Response(id, Some(Status("stored")), None);
    }

    /**
     * `memory_search`: the user's last `limit` messages (default 10) and the
     * archive's top three for the query.
     */
    method HandleMemorySearch(id: string, p: Params) returns (response: Response)
      requires Valid()
      ensures response.id == id && response.error.None?
      ensures response.result.Some? && response.result.value.ContextData?
      ensures response.result.value.data.recent == Suffix(memory.History(p.userId), p.limit.GetOr(10))
      ensures response.result.value.data.longTerm ==
        (if p.query.Some? then memory.longTerm.SearchOutcome(p.query.value, 3) else [])
    {
      var context := memory.RetrieveContext(p.userId, p.query, p.limit.GetOr(10));
      response := Response(id, Some(ContextData(context)), None);
    }

    /** `get_preferences`: the user's normalised preferences. */
    method HandleGetPreferences(id: string, p: Params) returns (response: Response)
      requires Valid()
      modifies memory
      ensures Valid()
      ensures response == Response(id, Some(Preferences(Normalized(old(memory.PreferencesOf(p.userId))))), None)
      ensures PreferencesWrittenBack(p)
    {
      var prefs := memory.GetUserPreferences(p.userId);
      assert db.Valid();
      response := Response(id, Some(Preferences(prefs)), None);
    }

    /** `list_capabilities`: the capability list. */
    method HandleListCapabilities(id: string) returns (response: Response)
      ensures response == Response(id, Some(Capabilities(CapabilityList)), None)
    {
      response := Response(id, Some(Capabilities(CapabilityList)), None);
    }

    /**
     * `add_document`: store the document (metadata defaults to `{}`) and
     * answer "added"; an embedding failure propagates as the error.
     */
    method HandleAddDocument(id: string, p: Params) returns (response: Response)
      requires Valid()
      modifies db
      ensures Valid()
      ensures response.id == id && (response.result.Some? <==> response.error.None?)
      ensures db.embed(p.content).Failure? ==>
        response.error == Some(db.embed(p.content).error) && unchanged(db)
      ensures db.embed(p.content).Success? ==>
        && response.result == Some(DocStatus("added", p.docId))
        && db.Added(p.docId, p.content, p.metadata.GetOr([]), db.embed(p.content).value)
      ensures old(db.Consistent()) ==> db.Consistent()
    {
      ghost var e := db.embed(p.content);
      var err := db.AddDocument(p.docId, p.content, p.metadata);
      assert memory.Valid();
      if err.Some? {
        response := Response(id, None, err);
      } else {
        assert e.Success?;
        response := Response(id, Some(DocStatus("added", p.docId)), None);
      }
    }

    /** `delete_document`: "deleted" when the id was stored, "not_found" otherwise. */
    method HandleDeleteDocument(id: string, p: Params) returns (response: Response)
      requires Valid()
      modifies db
      ensures Valid()
      ensures response == Response(id, Some(DocStatus(
        if p.docId in old(db.documents) then "deleted" else "not_found", p.docId)), None)
      ensures db.documents == old(db.documents) - {p.docId}
      ensures p.docId !in old(db.documents) ==> unchanged(db)
      ensures p.docId in old(db.documents) ==> db.Removed(p.docId)
      ensures p.docId in old(db.documents) && db.documents != map[] ==> db.Consistent()
      ensures p.docId in old(db.documents) && db.documents == map[] ==> db.index == old(db.index)
    {
      var deleted := db.DeleteDocument(p.docId);
      assert memory.Valid();
      response := Response(id, Some(DocStatus(if deleted then "deleted" else "not_found", p.docId)), None);
    }

    /** `get_stats`: the knowledge base's and the memory manager's statistics. */
    method HandleGetStats(id: string) returns (response: Response)
      requires Valid()
      ensures response.id == id && response.error.None?
      ensures response.result.Some? && response.result.value.SystemStats?
      ensures response.result.value.database == db.GetStats()
      ensures response.result.value.memory ==
        MemoryStats(|memory.shortTerm|, TotalMessages(memory.shortTerm), |memory.longTerm.documents|, |memory.preferences|)
    {
      var dbStats := db.GetStats();
      var memoryStats := memory.GetMemoryStats();
      response := Response(id, Some(SystemStats(dbStats, memoryStats)), None);
    }
  }
}
