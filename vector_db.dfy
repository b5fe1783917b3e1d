/**
 * The knowledge store: documents by id, the order in which ids were first
 * added, and an exact nearest-neighbour index that holds vectors in that order.
 * The embedding model and the index's distance computation are parameters.
 */
module VectorDb {
  import opened Wrappers
  import opened Text
  import opened Json

  type Embedding = seq<real>

  /** A stored document with the embedding of its content. */
  datatype Document = Document(id: string, content: string, metadata: Dict, embedding: Embedding)

  /** One row of an index answer: a distance and a vector position (-1 pads a short answer). */
  datatype Hit = Hit(distance: real, position: int)

  /** One entry of a search answer, as the dict `{"id", "content", "metadata", "similarity_score"}`. */
  datatype SearchResult = SearchResult(id: string, content: string, metadata: Dict, similarityScore: real)

  /** `get_stats()`: `{"total_documents", "dimension", "model"}`. */
  datatype Stats = Stats(totalDocuments: nat, dimension: Option<nat>, model: nat)

  /** The sentence-embedding model: text to vector, or the error it raises. */
  type Embedder = string -> Result<Embedding>

  /** The index's k-nearest-neighbour search over the vectors it holds. */
  type Knn = (Embedding, seq<Embedding>, nat) -> seq<Hit>

  /** Every vector the model produces has `width` components. */
  ghost predicate FixedWidth(embed: Embedder, width: nat) {
    forall t :: embed(t).Success? ==> |embed(t).value| == width
  }

  /** What the index promises for a search of `k` neighbours among `n` vectors. */
  predicate HitsSound(hits: seq<Hit>, n: nat, k: nat) {
    && |hits| == k
    && forall h :: h in hits ==> h.distance >= 0.0 && -1 <= h.position < n
  }

  ghost predicate KnnSound(knn: Knn) {
    forall q, vs, k :: k > 0 ==> HitsSound(knn(q, vs, k), |vs|, k)
  }

  /** `similarity_score = 1 / (1 + distance)`. */
  function Score(distance: real): (s: real)
    requires distance >= 0.0
    ensures 0.0 < s <= 1.0
    ensures distance == 0.0 <==> s == 1.0
  {
    1.0 / (1.0 + distance)
  }

  /** A nearer vector scores strictly higher. */
  lemma ScoreDecreasing(d1: real, d2: real)
    requires 0.0 <= d1 < d2
    ensures Score(d2) < Score(d1)
  {
    assert (1.0 + d1) * Score(d1) == 1.0;
    assert (1.0 + d2) * Score(d2) == 1.0;
  }

  /** `list.remove(x)`: drop the first occurrence of `x`, keeping the order of the rest. */
  function RemoveFirst(s: seq<string>, x: string): (r: seq<string>)
    ensures x !in s ==> r == s
    ensures x in s ==> |r| == |s| - 1
    ensures forall y :: y in r ==> y in s
    ensures forall y :: y in s && y != x ==> y in r
    ensures NoDuplicates(s) ==> NoDuplicates(r) && x !in r
  {
    if s == [] then []
    else if s[0] == x then
      s[1..]
    else
      var t := RemoveFirst(s[1..], x);
      assert forall y :: y in s <==> y == s[0] || y in s[1..];
      assert NoDuplicates(s) ==> NoDuplicates(s[1..]) && s[0] !in s[1..] by {
        if NoDuplicates(s) {
          forall i, j | 0 <= i < j < |s[1..]| ensures s[1..][i] != s[1..][j] {
            assert s[1..][i] == s[i + 1] && s[1..][j] == s[j + 1];
          }
          forall j | 0 <= j < |s[1..]| ensures s[1..][j] != s[0] {
            assert s[1..][j] == s[j + 1];
          }
        }
      }
      var r := [s[0]] + t;
      assert forall i :: 1 <= i < |r| ==> r[i] == t[i - 1];
      r
  }

  /**
   * The ids `list.remove(x)` leaves are the list without its first `x`, the
   * rest in their order: `i` is the position of that first `x`.
   */
  lemma {:induction false} RemoveFirstAt(s: seq<string>, x: string) returns (i: nat)
    requires x in s
    ensures i < |s| && s[i] == x && x !in s[..i]
    ensures RemoveFirst(s, x) == s[..i] + s[i + 1..]
  {
    if s[0] == x {
      i := 0;
      assert s[..0] + s[1..] == s[1..];
    } else {
      assert s == [s[0]] + s[1..];
      var j := RemoveFirstAt(s[1..], x);
      i := j + 1;
      CutAfterHead(s, j, x);
    }
  }

  /**
   * Cutting position `j` out of the tail of `s` cuts position `j + 1` out of
   * `s`; a value missing from the tail's prefix and unequal to the head is
   * missing from the longer prefix.
   */
  lemma CutAfterHead<T>(s: seq<T>, j: nat, x: T)
    requires j + 1 < |s| && s[0] != x && x !in s[1..][..j]
    ensures [s[0]] + (s[1..][..j] + s[1..][j + 1..]) == s[..j + 1] + s[j + 2..]
    ensures x !in s[..j + 1]
  {
    assert s[..j + 1] == [s[0]] + s[1..][..j];
    assert s[j + 2..] == s[1..][j + 1..];
  }

  /** The vectors of the stored ones among `ids`, in the order of `ids`. */
  function Embeddings(ids: seq<string>, docs: map<string, Document>): (vs: seq<Embedding>)
    ensures |vs| <= |ids|
  {
    if ids == [] then []
    else
      var init := Embeddings(ids[..|ids| - 1], docs);
      var id := ids[|ids| - 1];
      if id in docs then init + [docs[id].embedding] else init
  }

  /** When every id is stored, the vectors line up with the ids one for one. */
  lemma {:induction false} EmbeddingsOfStored(ids: seq<string>, docs: map<string, Document>)
    requires forall id :: id in ids ==> id in docs
    ensures |Embeddings(ids, docs)| == |ids|
    ensures forall i :: 0 <= i < |ids| ==> Embeddings(ids, docs)[i] == docs[ids[i]].embedding
  {
    if ids != [] {
      var init := ids[..|ids| - 1];
      assert forall id :: id in init ==> id in ids;
      EmbeddingsOfStored(init, docs);
    }
  }

  /** The vectors depend only on what the ids name. */
  lemma {:induction false} EmbeddingsFrame(ids: seq<string>, d1: map<string, Document>, d2: map<string, Document>)
    requires forall id :: id in ids ==> (id in d1 <==> id in d2)
    requires forall id :: id in ids && id in d1 ==> d1[id].embedding == d2[id].embedding
    ensures Embeddings(ids, d1) == Embeddings(ids, d2)
  {
    if ids != [] {
      var init := ids[..|ids| - 1];
      assert forall id :: id in init ==> id in ids;
      EmbeddingsFrame(init, d1, d2);
    }
  }

  /** Every stored document is listed once, under its own id, and nothing else is listed. */
  ghost predicate Bookkeeping(ids: seq<string>, docs: map<string, Document>) {
    && NoDuplicates(ids)
    && (forall id :: id in docs <==> id in ids)
    && |docs| == |ids|
    && (forall id :: id in docs ==> docs[id].id == id)
  }

  /**
   * What the store keeps true of its state: the model and the index behave
   * as promised, the bookkeeping holds, the dimension is the model's and is
   * fixed exactly when an index exists, and the index has a vector for
   * every listed id.
   */
  ghost predicate StoreInvariant(embed: Embedder, knn: Knn, width: nat, docs: map<string, Document>,
                                 ids: seq<string>, index: Option<seq<Embedding>>, dimension: Option<nat>) {
    && FixedWidth(embed, width)
    && KnnSound(knn)
    && Bookkeeping(ids, docs)
    && (index.Some? <==> dimension.Some?)
    && (dimension.Some? ==> dimension.value == width)
    && (ids != [] ==> index.Some?)
    && (index.Some? ==> |ids| <= |index.value|)
  }

  /** Appending a new document with its vector keeps the invariant. */
  lemma AppendKeepsInvariant(embed: Embedder, knn: Knn, width: nat, docs: map<string, Document>,
                             ids: seq<string>, index: seq<Embedding>, dimension: Option<nat>, doc: Document)
    requires StoreInvariant(embed, knn, width, docs, ids, Some(index), dimension) && doc.id !in docs
    ensures StoreInvariant(embed, knn, width, docs[doc.id := doc], ids + [doc.id], Some(index + [doc.embedding]), dimension)
  {
    AppendNoDuplicates(ids, doc.id);
  }

  /** Removing a stored document and its id, then rebuilding the index, keeps the invariant. */
  lemma RemoveKeepsInvariant(embed: Embedder, knn: Knn, width: nat, docs: map<string, Document>,
                             ids: seq<string>, index: Option<seq<Embedding>>, dimension: Option<nat>, docId: string)
    requires StoreInvariant(embed, knn, width, docs, ids, index, dimension) && docId in docs
    ensures var ids', docs' := RemoveFirst(ids, docId), docs - {docId};
      StoreInvariant(embed, knn, width, docs', ids', Rebuilt(index, ids', docs'), dimension)
  {
    var ids', docs' := RemoveFirst(ids, docId), docs - {docId};
    assert docs'.Keys == docs.Keys - {docId};
    if |docs'| != 0 {
      EmbeddingsOfStored(ids', docs');
    }
  }

  /** Storing a new document and appending its id appends its vector. */
  lemma AppendEmbeddings(ids: seq<string>, docs: map<string, Document>, doc: Document)
    requires doc.id !in ids
    ensures Embeddings(ids + [doc.id], docs[doc.id := doc]) == Embeddings(ids, docs) + [doc.embedding]
  {
    var ids' := ids + [doc.id];
    assert ids'[..|ids'| - 1] == ids;
    EmbeddingsFrame(ids, docs, docs[doc.id := doc]);
  }

  lemma AppendNoDuplicates(ids: seq<string>, x: string)
    requires NoDuplicates(ids) && x !in ids
    ensures NoDuplicates(ids + [x])
  {
    var ids' := ids + [x];
    forall i, j | 0 <= i < j < |ids'| ensures ids'[i] != ids'[j] {
      if j == |ids| {
        assert ids'[i] == ids[i];
      }
    }
  }

  /**
   * The index `_rebuild_index` leaves behind: the stored vectors in id order,
   * except that with no documents it returns early and keeps `current`.
   */
  function Rebuilt(current: Option<seq<Embedding>>, ids: seq<string>, docs: map<string, Document>): Option<seq<Embedding>> {
    if |docs| == 0 then current else Some(Embeddings(ids, docs))
  }

  /** Python's `ids[p]` for `-1 <= p`: -1 counts from the end. */
  function Resolve(p: int, n: nat): int {
    if p < 0 then n + p else p
  }

  /**
   * The results kept from an index answer: a hit whose position is below the
   * number of ids names the document at that position (-1 counting from the
   * end, as Python indexes), a hit beyond the ids is dropped.
   */
  function Collect(hits: seq<Hit>, ids: seq<string>, docs: map<string, Document>): (rs: seq<SearchResult>)
    requires ids != [] && forall id :: id in ids ==> id in docs
    requires forall h :: h in hits ==> h.distance >= 0.0 && h.position >= -1
    ensures |rs| <= |hits|
  {
    if hits == [] then []
    else
      var init := Collect(hits[..|hits| - 1], ids, docs);
      var h := hits[|hits| - 1];
      if h.position < |ids| then
        var doc := docs[ids[Resolve(h.position, |ids|)]];
        init + [SearchResult(doc.id, doc.content, doc.metadata, Score(h.distance))]
      else init
  }

  /** Every result is a stored document, shown with its own content and metadata and a score in (0, 1]. */
  lemma {:induction false} CollectFromStored(hits: seq<Hit>, ids: seq<string>, docs: map<string, Document>)
    requires ids != [] && forall id :: id in ids ==> id in docs
    requires forall id :: id in docs ==> docs[id].id == id
    requires forall h :: h in hits ==> h.distance >= 0.0 && h.position >= -1
    ensures forall r :: r in Collect(hits, ids, docs) ==>
      && r.id in ids
      && r.content == docs[r.id].content
      && r.metadata == docs[r.id].metadata
      && 0.0 < r.similarityScore <= 1.0
  {
    if hits != [] {
      var init := hits[..|hits| - 1];
      assert forall h :: h in init ==> h in hits;
      CollectFromStored(init, ids, docs);
    }
  }

  /**
   * When every position names an id, nothing is dropped: the i-th result is
   * the document the i-th hit's position names, scored by that hit's distance.
   */
  lemma {:induction false} CollectAligned(hits: seq<Hit>, ids: seq<string>, docs: map<string, Document>)
    requires ids != [] && forall id :: id in ids ==> id in docs
    requires forall h :: h in hits ==> h.distance >= 0.0 && -1 <= h.position < |ids|
    ensures |Collect(hits, ids, docs)| == |hits|
    ensures forall i :: 0 <= i < |hits| ==>
      var d := docs[ids[Resolve(hits[i].position, |ids|)]];
      Collect(hits, ids, docs)[i] == SearchResult(d.id, d.content, d.metadata, Score(hits[i].distance))
  {
    if hits != [] {
      var init := hits[..|hits| - 1];
      assert forall h :: h in init ==> h in hits;
      CollectAligned(init, ids, docs);
    }
  }

  /** The loop of `search` that turns the index's hits into results, skipping positions past the ids. */
  method CollectHits(hits: seq<Hit>, ids: seq<string>, docs: map<string, Document>) returns (results: seq<SearchResult>)
    requires ids != [] && forall id :: id in ids ==> id in docs
    requires forall h :: h in hits ==> h.distance >= 0.0 && h.position >= -1
    ensures results == Collect(hits, ids, docs)
  {
    results := [];
    var i := 0;
    while i < |hits|
      invariant 0 <= i <= |hits|
      invariant results == Collect(hits[..i], ids, docs)
    {
      var h := hits[i];
      assert hits[..i + 1][..i] == hits[..i];
      if h.position < |ids| {
        var doc := docs[ids[Resolve(h.position, |ids|)]];
        results := results + [SearchResult(doc.id, doc.content, doc.metadata, Score(h.distance))];
      }
      i := i + 1;
    }
    assert hits[..i] == hits;
  }

  class VectorDatabase {
    const embed: Embedder
    const knn: Knn
    /** `get_sentence_embedding_dimension()` of the model. */
    const modelDimension: nat

    var documents: map<string, Document>
    /** Ids in the order they were first added: position i of the index belongs to `docIds[i]`. */
    var docIds: seq<string>
    /** The index's vectors; `None` until the first document arrives. */
    var index: Option<seq<Embedding>>
    var dimension: Option<nat>

    /** The bookkeeping every operation keeps, whatever the index holds. */
    ghost predicate Valid()
      reads this
    {
      StoreInvariant(embed, knn, modelDimension, documents, docIds, index, dimension)
    }

    /** The index holds exactly the stored vectors, in `docIds` order. */
    ghost predicate Consistent()
      reads this
    {
      index.Some? ==> index.value == Embeddings(docIds, documents)
    }

    constructor(embed: Embedder, knn: Knn, modelDimension: nat)
      requires FixedWidth(embed, modelDimension) && KnnSound(knn)
      ensures Valid() && Consistent()
      ensures this.embed == embed && this.knn == knn && this.modelDimension == modelDimension
      ensures documents == map[] && docIds == [] && index == None && dimension == None
    {
      this.embed := embed;
      this.knn := knn;
      this.modelDimension := modelDimension;
      documents := map[];
      docIds := [];
      index := None;
      dimension := None;
    }

    /** With the bookkeeping in place, a consistent index has one vector per id, in order. */
    lemma ConsistentAligned()
      requires Valid() && Consistent() && index.Some?
      ensures |index.value| == |docIds| == |documents|
      ensures forall i :: 0 <= i < |docIds| ==> index.value[i] == documents[docIds[i]].embedding
    {
      EmbeddingsOfStored(docIds, documents);
    }

    /** `_rebuild_index`: collect the vectors of the stored ids, in `docIds` order, into a fresh index. */
    method RebuildIndex()
      modifies this
      ensures documents == old(documents) && docIds == old(docIds) && dimension == old(dimension)
      ensures index == Rebuilt(old(index), docIds, documents)
    {
      if |documents| == 0 {
        return;
      }
      var embeddings: seq<Embedding> := [];
      var i := 0;
      while i < |docIds|
        invariant 0 <= i <= |docIds|
        invariant embeddings == Embeddings(docIds[..i], documents)
      {
        var id := docIds[i];
        assert docIds[..i + 1][..i] == docIds[..i];
        if id in documents {
          embeddings := embeddings + [documents[id].embedding];
        }
        i := i + 1;
      }
      assert docIds[..i] == docIds;
      index := Some(embeddings);
    }

    /**
     * The state `add_document` leaves once the content embeds as `e`: the
     * document is stored (replacing one with the same id) and the dimension is
     * the model's; a replaced document keeps its place in the id list and the
     * index is rebuilt, a new one is appended with its vector.
     */
    twostate predicate Added(docId: string, content: string, new metadata: Dict, new e: Embedding)
      reads this
    {
      && documents == old(documents)[docId := Document(docId, content, metadata, e)]
      && dimension == Some(modelDimension)
      && (docId in old(documents) ==> docIds == old(docIds) && index == Some(Embeddings(docIds, documents)))
      && (docId !in old(documents) ==> docIds == old(docIds) + [docId] && index == Some(old(index).GetOr([]) + [e]))
    }

    /**
     * `add_document`: embed the content (an embedding error propagates and
     * nothing changes), fix the dimension on the first document, then either
     * replace an existing document and rebuild, or append a new id together
     * with its vector.
     */
    method AddDocument(docId: string, content: string, metadata: Option<Dict>) returns (err: Option<string>)
      requires Valid()
      modifies this
      ensures Valid()
      ensures embed(content).Failure? ==> err == Some(embed(content).error) && unchanged(this)
      ensures embed(content).Success? ==> err == None && Added(docId, content, metadata.GetOr([]), embed(content).value)
      ensures old(Consistent()) ==> Consistent()
    {
      var r := embed(content);
      if r.Failure? {
        return Some(r.error);
      }
      var e := r.value;
      if index.None? {
        dimension := Some(|e|);
        index := Some([]);
      }
      var doc := Document(docId, content, metadata.GetOr([]), e);
      if docId in documents {
        ReplaceDocument(doc);
      } else {
        AppendDocument(doc);
      }
      return None;
    }

    /** The branch of `add_document` for a known id: replace the document and rebuild the index. */
    method ReplaceDocument(doc: Document)
      requires Valid() && doc.id in documents && index.Some?
      modifies this
      ensures Valid() && Consistent()
      ensures documents == old(documents)[doc.id := doc] && docIds == old(docIds) && dimension == old(dimension)
      ensures index == Some(Embeddings(docIds, documents))
    {
      documents := documents[doc.id := doc];
      RebuildIndex();
      EmbeddingsOfStored(docIds, documents);
    }

    /** The branch of `add_document` for a new id: store the document and append its id and vector. */
    method AppendDocument(doc: Document)
      requires Valid() && doc.id !in documents && index.Some?
      modifies this
      ensures Valid()
      ensures documents == old(documents)[doc.id := doc] && dimension == old(dimension)
      ensures docIds == old(docIds) + [doc.id] && index == Some(old(index).value + [doc.embedding])
      ensures old(Consistent()) ==> Consistent()
    {
      AppendEmbeddings(docIds, documents, doc);
      AppendKeepsInvariant(embed, knn, modelDimension, documents, docIds, index.value, dimension, doc);
      documents := documents[doc.id := doc];
      docIds := docIds + [doc.id];
      index := Some(index.value + [doc.embedding]);
    }

    /**
     * The state `delete_document` leaves once a stored id is removed: the
     * document and the first occurrence of the id are gone and the index is
     * rebuilt from what is left (kept as it was when nothing is left).
     */
    twostate predicate Removed(docId: string)
      reads this
    {
      && documents == old(documents) - {docId}
      && docIds == RemoveFirst(old(docIds), docId)
      && dimension == old(dimension)
      && index == Rebuilt(old(index), docIds, documents)
    }

    /**
     * `delete_document`: a stored id leaves the documents and `docIds` and the
     * index is rebuilt; an unknown id changes nothing.
     */
    method DeleteDocument(docId: string) returns (deleted: bool)
      requires Valid()
      modifies this
      ensures Valid()
      ensures deleted <==> docId in old(documents)
      ensures !deleted ==> unchanged(this)
      ensures deleted ==> Removed(docId)
      ensures deleted && documents != map[] ==> Consistent()
      ensures deleted && documents == map[] ==> index == old(index)
    {
      if docId !in documents {
        return false;
      }
      RemoveKeepsInvariant(embed, knn, modelDimension, documents, docIds, index, dimension, docId);
      documents := documents - {docId};
      docIds := RemoveFirst(docIds, docId);
      RebuildIndex();
      if |documents| != 0 {
        EmbeddingsOfStored(docIds, documents);
      }
      return true;
    }

    /** The answer `search` gives, step by step as the code takes them. */
    ghost function SearchOutcome(query: string, topK: int): seq<SearchResult>
      requires Valid()
      reads this
    {
      if index.None? || |documents| == 0 then []
      else if embed(query).Failure? then []
      else
        var k := if topK < |docIds| then topK else |docIds|;
        if k <= 0 then []
        else Collect(knn(embed(query).value, index.value, k), docIds, documents)
    }

    /**
     * `search`: no index or no documents gives `[]`; otherwise ask the index
     * for `min(top_k, len(doc_ids))` neighbours and turn the hits into results.
     * An error anywhere (the embedding, or a non-positive neighbour count the
     * index rejects) gives `[]`.
     */
    method Search(query: string, topK: int) returns (results: seq<SearchResult>)
      requires Valid()
      ensures results == SearchOutcome(query, topK)
      ensures results != [] ==> |results| <= topK && |results| <= |docIds|
      ensures index.None? || documents == map[] ==> results == []
      ensures forall r :: r in results ==>
        && r.id in documents
        && r.content == documents[r.id].content
        && r.metadata == documents[r.id].metadata
        && 0.0 < r.similarityScore <= 1.0
    {
      if index.None? || |documents| == 0 {
        return [];
      }
      var q := embed(query);
      if q.Failure? {
        return [];
      }
      var k := if topK < |docIds| then topK else |docIds|;
      if k <= 0 {
        return [];
      }
      var hits := knn(q.value, index.value, k);
      assert HitsSound(hits, |index.value|, k);
      results := CollectHits(hits, docIds, documents);
      CollectFromStored(hits, docIds, documents);
    }

    /**
     * On a consistent index a search drops nothing: it returns exactly
     * `min(top_k, len(doc_ids))` results whenever that number is positive and
     * the query embeds.
     */
    lemma ConsistentSearchIsFull(query: string, topK: int)
      requires Valid() && Consistent() && documents != map[] && embed(query).Success?
      requires topK > 0
      ensures |SearchOutcome(query, topK)| == if topK < |docIds| then topK else |docIds|
    {
      ConsistentAligned();
      var k := if topK < |docIds| then topK else |docIds|;
      var hits := knn(embed(query).value, index.value, k);
      assert HitsSound(hits, |index.value|, k);
      CollectAligned(hits, docIds, documents);
    }

    /** `get_document`: the stored document, if any. */
    function GetDocument(docId: string): (d: Option<Document>)
      requires Valid()
      reads this
      ensures d.Some? <==> docId in docIds
      ensures d.Some? ==> d.value.id == docId && d.value == documents[docId]
    {
      if docId in documents then Some(documents[docId]) else None
    }

    /** `list_documents`: the stored ids, in the order they were first added. */
    function ListDocuments(): (ids: seq<string>)
      requires Valid()
      reads this
      ensures ids == docIds
      ensures NoDuplicates(ids) && |ids| == |documents|
      ensures forall id :: id in ids <==> id in documents
    {
      docIds
    }

    /** `get_stats`. */
    function GetStats(): (s: Stats)
      requires Valid()
      reads this
      ensures s.totalDocuments == |docIds| && s.dimension == dimension && s.model == modelDimension
      ensures s.dimension.Some? ==> s.dimension.value == s.model
    {
      Stats(|documents|, dimension, modelDimension)
    }
  }

  // ---------------------------------------------------------------- an exact L2 index

  /** Squared Euclidean distance over the common components, as `IndexFlatL2` reports it. */
  function SqDist(a: Embedding, b: Embedding): (d: real)
    ensures d >= 0.0
    decreases |a|
  {
    if a == [] || b == [] then 0.0
    else (a[0] - b[0]) * (a[0] - b[0]) + SqDist(a[1..], b[1..])
  }

  predicate InRange(ps: seq<nat>, n: nat) {
    forall i :: 0 <= i < |ps| ==> ps[i] < n
  }

  /** Positions in order of their vector's distance to `q`, nearest first. */
  predicate ByDistance(q: Embedding, vs: seq<Embedding>, ps: seq<nat>)
    requires InRange(ps, |vs|)
  {
    forall i, j :: 0 <= i < j < |ps| ==> SqDist(q, vs[ps[i]]) <= SqDist(q, vs[ps[j]])
  }

  /** Put `p` into a ranking, after every position whose vector is at most as far from `q`. */
  function InsertByDistance(q: Embedding, vs: seq<Embedding>, p: nat, ps: seq<nat>): (r: seq<nat>)
    requires p < |vs| && InRange(ps, |vs|)
    ensures |r| == |ps| + 1 && InRange(r, |vs|)
    ensures forall x :: x in r <==> x == p || x in ps
  {
    if ps == [] then [p]
    else if SqDist(q, vs[p]) < SqDist(q, vs[ps[0]]) then [p] + ps
    else
      var t := InsertByDistance(q, vs, p, ps[1..]);
      assert forall x :: x in ps <==> x == ps[0] || x in ps[1..];
      [ps[0]] + t
  }

  lemma {:induction false} InsertKeepsOrder(q: Embedding, vs: seq<Embedding>, p: nat, ps: seq<nat>)
    requires p < |vs| && InRange(ps, |vs|) && ByDistance(q, vs, ps)
    ensures ByDistance(q, vs, InsertByDistance(q, vs, p, ps))
  {
    if ps != [] && SqDist(q, vs[p]) >= SqDist(q, vs[ps[0]]) {
      var tail := ps[1..];
      assert ByDistance(q, vs, tail) by {
        forall i, j | 0 <= i < j < |tail| ensures SqDist(q, vs[tail[i]]) <= SqDist(q, vs[tail[j]]) {
          assert tail[i] == ps[i + 1] && tail[j] == ps[j + 1];
        }
      }
      InsertKeepsOrder(q, vs, p, tail);
      var t := InsertByDistance(q, vs, p, tail);
      HeadNoFarther(q, vs, p, ps);
      ConsInOrder(q, vs, ps[0], t);
    }
  }

  /** The head of a ranking is no farther than anything inserted behind it. */
  lemma HeadNoFarther(q: Embedding, vs: seq<Embedding>, p: nat, ps: seq<nat>)
    requires p < |vs| && InRange(ps, |vs|) && ByDistance(q, vs, ps)
    requires ps != [] && SqDist(q, vs[p]) >= SqDist(q, vs[ps[0]])
    ensures forall j :: 0 <= j < |InsertByDistance(q, vs, p, ps[1..])| ==>
      SqDist(q, vs[ps[0]]) <= SqDist(q, vs[InsertByDistance(q, vs, p, ps[1..])[j]])
  {
    var tail := ps[1..];
    var t := InsertByDistance(q, vs, p, tail);
    forall j | 0 <= j < |t| ensures SqDist(q, vs[ps[0]]) <= SqDist(q, vs[t[j]]) {
      if t[j] != p {
        assert t[j] in t && t[j] in tail;
        var m :| 0 <= m < |tail| && tail[m] == t[j];
        assert tail[m] == ps[m + 1];
      }
    }
  }

  /** A ranking stays in order behind a head no farther than any of its positions. */
  lemma ConsInOrder(q: Embedding, vs: seq<Embedding>, h: nat, t: seq<nat>)
    requires h < |vs| && InRange(t, |vs|) && ByDistance(q, vs, t)
    requires forall j :: 0 <= j < |t| ==> SqDist(q, vs[h]) <= SqDist(q, vs[t[j]])
    ensures InRange([h] + t, |vs|) && ByDistance(q, vs, [h] + t)
  {
    var r := [h] + t;
    forall i, j | 0 <= i < j < |r| ensures SqDist(q, vs[r[i]]) <= SqDist(q, vs[r[j]]) {
      assert r[j] == t[j - 1];
      if i > 0 {
        assert r[i] == t[i - 1];
      }
    }
  }

  /** The first `n` positions ranked nearest first; ties keep the lower position first. */
  function Ranked(q: Embedding, vs: seq<Embedding>, n: nat): (r: seq<nat>)
    requires n <= |vs|
    ensures |r| == n && InRange(r, n) && InRange(r, |vs|)
    ensures forall x: nat :: x in r <==> x < n
  {
    if n == 0 then []
    else
      var r := InsertByDistance(q, vs, n - 1, Ranked(q, vs, n - 1));
      assert InRange(r, n) by {
        forall i | 0 <= i < |r| ensures r[i] < n {
          assert r[i] in r;
        }
      }
      r
  }

  lemma {:induction false} RankedInOrder(q: Embedding, vs: seq<Embedding>, n: nat)
    requires n <= |vs|
    ensures ByDistance(q, vs, Ranked(q, vs, n))
  {
    if n > 0 {
      RankedInOrder(q, vs, n - 1);
      InsertKeepsOrder(q, vs, n - 1, Ranked(q, vs, n - 1));
    }
  }

  /**
   * `faiss.IndexFlatL2` searched for `k` neighbours: every vector ranked by its
   * squared distance to `q`, the first `k` reported with their distance, and
   * slots beyond the number of vectors padded with position -1.
   */
  function FlatL2(q: Embedding, vs: seq<Embedding>, k: nat): (hits: seq<Hit>) {
    var r := Ranked(q, vs, |vs|);
    seq(k, i requires 0 <= i < k =>
      if i < |r| then Hit(SqDist(q, vs[r[i]]), r[i]) else Hit(0.0, -1))
  }

  /** The exact index keeps the promise the store relies on. */
  lemma FlatL2Sound()
    ensures KnnSound(FlatL2)
  {
    forall q, vs, k | k > 0 ensures HitsSound(FlatL2(q, vs, k), |vs|, k) {
      var hits := FlatL2(q, vs, k);
      forall h | h in hits ensures h.distance >= 0.0 && -1 <= h.position < |vs| {
        var i :| 0 <= i < k && hits[i] == h;
      }
    }
  }

  /**
   * The hits are nearest neighbours: each reports its own vector's distance,
   * they come nearest first, no position twice, and no vector left out is
   * nearer than any reported one.
   */
  lemma FlatL2Nearest(q: Embedding, vs: seq<Embedding>, k: nat)
    requires k <= |vs|
    ensures var hits := FlatL2(q, vs, k);
      && (forall i :: 0 <= i < k ==>
            0 <= hits[i].position < |vs| && hits[i].distance == SqDist(q, vs[hits[i].position]))
      && (forall i, j :: 0 <= i < j < k ==> hits[i].distance <= hits[j].distance)
      && (forall i, j :: 0 <= i < j < k ==> hits[i].position != hits[j].position)
      && (forall p, i :: 0 <= p < |vs| && 0 <= i < k && (forall j :: 0 <= j < k ==> hits[j].position != p) ==>
            hits[i].distance <= SqDist(q, vs[p]))
  {
    var r := Ranked(q, vs, |vs|);
    var hits := FlatL2(q, vs, k);
    RankedInOrder(q, vs, |vs|);
    RankedDistinct(q, vs, |vs|);
    PrefixNearest(q, vs, r, k);
    assert forall i :: 0 <= i < k ==> hits[i] == Hit(SqDist(q, vs[r[i]]), r[i]);
  }

  /** In a ranking of every position, a position outside the first `k` is no nearer than any inside. */
  lemma PrefixNearest(q: Embedding, vs: seq<Embedding>, r: seq<nat>, k: nat)
    requires InRange(r, |vs|) && ByDistance(q, vs, r) && k <= |r|
    requires forall x: nat :: x in r <==> x < |vs|
    ensures forall p, i :: 0 <= p < |vs| && 0 <= i < k && (forall j :: 0 <= j < k ==> r[j] != p) ==>
      SqDist(q, vs[r[i]]) <= SqDist(q, vs[p])
  {
    forall p, i | 0 <= p < |vs| && 0 <= i < k && (forall j :: 0 <= j < k ==> r[j] != p)
      ensures SqDist(q, vs[r[i]]) <= SqDist(q, vs[p])
    {
      assert p in r;
      var m :| 0 <= m < |r| && r[m] == p;
    }
  }

  predicate Distinct(ps: seq<nat>) {
    forall i, j :: 0 <= i < j < |ps| ==> ps[i] != ps[j]
  }

  lemma {:induction false} InsertKeepsDistinct(q: Embedding, vs: seq<Embedding>, p: nat, ps: seq<nat>)
    requires p < |vs| && InRange(ps, |vs|) && Distinct(ps) && p !in ps
    ensures Distinct(InsertByDistance(q, vs, p, ps))
  {
    if ps != [] && SqDist(q, vs[p]) >= SqDist(q, vs[ps[0]]) {
      var tail := ps[1..];
      assert Distinct(tail) by {
        forall i, j | 0 <= i < j < |tail| ensures tail[i] != tail[j] {
          assert tail[i] == ps[i + 1] && tail[j] == ps[j + 1];
        }
      }
      assert ps[0] !in tail by {
        forall m | 0 <= m < |tail| ensures tail[m] != ps[0] {
          assert tail[m] == ps[m + 1];
        }
      }
      InsertKeepsDistinct(q, vs, p, tail);
      var t := InsertByDistance(q, vs, p, tail);
      var r := [ps[0]] + t;
      forall i, j | 0 <= i < j < |r| ensures r[i] != r[j] {
        assert r[j] == t[j - 1] && r[j] in t;
        if i > 0 {
          assert r[i] == t[i - 1];
        }
      }
    } else if ps != [] {
      var r := [p] + ps;
      forall i, j | 0 <= i < j < |r| ensures r[i] != r[j] {
        assert r[j] == ps[j - 1];
        if i > 0 {
          assert r[i] == ps[i - 1];
        }
      }
    }
  }

  /** No position is ranked twice. */
  lemma {:induction false} RankedDistinct(q: Embedding, vs: seq<Embedding>, n: nat)
    requires n <= |vs|
    ensures Distinct(Ranked(q, vs, n))
  {
    if n > 0 {
      RankedDistinct(q, vs, n - 1);
      InsertKeepsDistinct(q, vs, n - 1, Ranked(q, vs, n - 1));
    }
  }

  // ---------------------------------------------------------------- the stale vector

  /** A one-component model: a text embeds as its length. */
  function LengthEmbedding(t: string): Result<Embedding> {
    Success([|t| as real])
  }

  lemma LengthEmbeddingFixed()
    ensures FixedWidth(LengthEmbedding, 1)
  {
  }

  /**
   * Deleting the only document leaves its vector in the index: the early
   * return of `_rebuild_index` skips the rebuild of an empty store.
   */
  method DeletingLastLeavesVector() returns (db: VectorDatabase)
    ensures fresh(db) && db.Valid()
    ensures db.embed == LengthEmbedding && db.knn == FlatL2
    ensures db.documents == map[] && db.docIds == []
    ensures db.index == Some([[5.0]])
    ensures !db.Consistent()
  {
    LengthEmbeddingFixed();
    FlatL2Sound();
    db := new VectorDatabase(LengthEmbedding, FlatL2, 1);
    assert LengthEmbedding("first") == Success([5.0]);
    var _ := db.AddDocument("a", "first", None);
    assert db.docIds == ["a"];
    assert [] + [[5.0]] == [[5.0]];
    assert db.index == Some([[5.0]]);
    var _ := db.DeleteDocument("a");
    assert db.docIds == [];
  }

  /**
   * After a new document arrives the index holds two vectors for one id: the
   * deleted document's at position 0, which now resolves to the new id, and
   * the new document's own at position 1, which resolves to none.
   */
  method StaleVectorAfterDeletingLast() returns (db: VectorDatabase)
    ensures fresh(db) && db.Valid()
    ensures db.embed == LengthEmbedding && db.knn == FlatL2
    ensures |db.documents| == 1 && db.docIds == ["b"] && "b" in db.documents
    ensures db.documents["b"] == Document("b", "second", [], [6.0])
    ensures db.index == Some([[5.0], [6.0]])
    ensures !db.Consistent()
  {
    db := DeletingLastLeavesVector();
    assert "b" !in db.documents;
    assert LengthEmbedding("second") == Success([6.0]);
    var _ := db.AddDocument("b", "second", None);
    assert [] + ["b"] == ["b"];
    assert db.docIds == ["b"];
    assert [[5.0]] + [[6.0]] == [[5.0], [6.0]];
    assert db.index == Some([[5.0], [6.0]]);
    assert |Embeddings(db.docIds, db.documents)| <= 1;
  }

  /** The exact index on the two vectors, for a query vector `[x]`, asked for one neighbour. */
  lemma NearestOfTwo(x: real)
    ensures x < 5.5 ==> FlatL2([x], [[5.0], [6.0]], 1) == [Hit((x - 5.0) * (x - 5.0), 0)]
    ensures x > 5.5 ==> FlatL2([x], [[5.0], [6.0]], 1) == [Hit((x - 6.0) * (x - 6.0), 1)]
  {
    var vs: seq<Embedding> := [[5.0], [6.0]];
    assert SqDist([x], vs[0]) == (x - 5.0) * (x - 5.0) + SqDist([], []);
    assert SqDist([x], vs[1]) == (x - 6.0) * (x - 6.0) + SqDist([], []);
    assert Ranked([x], vs, 1) == [0];
    var d0, d1 := (x - 5.0) * (x - 5.0), (x - 6.0) * (x - 6.0);
    assert d1 - d0 == 11.0 - 2.0 * x;
    assert InsertByDistance([x], vs, 1, []) == [1];
    if x < 5.5 {
      assert Ranked([x], vs, 2) == [0, 1];
    } else if x > 5.5 {
      assert Ranked([x], vs, 2) == [1, 0];
    }
  }

  /** What the store's two vectors give for the two queries, before and after the ids are applied. */
  lemma StaleHits(docs: map<string, Document>)
    requires "b" in docs && docs["b"] == Document("b", "second", [], [6.0])
    ensures Collect(FlatL2([5.0], [[5.0], [6.0]], 1), ["b"], docs) == [SearchResult("b", "second", [], 1.0)]
    ensures Collect(FlatL2([6.0], [[5.0], [6.0]], 1), ["b"], docs) == []
  {
    NearestOfTwo(5.0);
    NearestOfTwo(6.0);
    var near := [Hit(0.0, 0)];
    assert Collect(near, ["b"], docs) == Collect([], ["b"], docs) + [SearchResult("b", "second", [], Score(0.0))];
    var far := [Hit(0.0, 1)];
    assert Collect(far, ["b"], docs) == Collect([], ["b"], docs);
  }

  /**
   * On that store, searching for the stored document's own text finds
   * nothing: its vector, the nearest, sits at a position past the ids and is
   * dropped.
   */
  method StaleVectorHidesDocument() returns (stored: nat, found: seq<SearchResult>)
    ensures stored == 1 && found == []
  {
    var db := StaleVectorAfterDeletingLast();
    StaleHits(db.documents);
    assert LengthEmbedding("second") == Success([6.0]);
    found := db.Search("second", 5);
    stored := |db.documents|;
  }

  /**
   * On that store, a query embedding like the deleted document's returns the
   * stored one with a perfect score: the deleted document's vector resolves
   * to position 0, the new id, and its distance is reported as the new
   * document's, although that document's own vector `[6.0]` is one unit away.
   */
  method StaleVectorScoresWrongDocument() returns (found: seq<SearchResult>)
    ensures found == [SearchResult("b", "second", [], 1.0)]
    ensures SqDist(LengthEmbedding("query").value, [6.0]) == 1.0
  {
    var db := StaleVectorAfterDeletingLast();
    StaleHits(db.documents);
    assert SqDist([5.0], [6.0]) == 1.0 + SqDist([], []);
    assert LengthEmbedding("query") == Success([5.0]);
    found := db.Search("query", 5);
  }
}
