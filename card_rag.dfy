/**
 * The retrieval side: `get_or_create_vectorstore` decides between reusing the
 * persisted Chroma collection and rebuilding it from the card catalog, and
 * `search_card` returns the text of the documents the retriever finds.
 * The vector store, the embedder, the splitter, `str` on a catalog record and
 * the retriever are given as functions: only the decisions and the data flow
 * between them are modelled.
 */
module CardRag {

  import opened Common

  const DefaultPersistDirectory: string := "./Chroma"
  const DefaultCollectionName: string := "card_info"

  /** A retrieved or split document; only its text is read here. */
  datatype Document = Document(pageContent: string)

  /**
   * Opening a persisted collection: `Chroma(...)` followed by the first
   * `_collection.count()`, either of which may raise. When the count is
   * positive the function counts a second time, for its message, and that
   * call may raise too (`recountRaises`).
   */
  datatype Opened<S> = OpenFailed(message: string) | Opened(store: S, count: nat, recountRaises: bool)

  /**
   * The collaborators of the lifecycle, `S` being the store and `Rec` a
   * catalog record.
   */
  datatype Backend<-Rec, S> = Backend(
    embedderError: Option<string>,                        // what OpenAIEmbeddings(...) raises, if it does
    isDirectory: string -> bool,                          // os.path.exists(p) and os.path.isdir(p)
    open: (string, string) -> Opened<S>,                  // load a persisted collection
    str: Rec -> string,                                   // Python's str(dict)
    split: seq<string> -> seq<Document>,                  // splitter.create_documents
    fromDocuments: (seq<Document>, string, string) -> Result<S>)  // embed, index and persist

  /**
   * What one call did: the store it returned (or the exception it let
   * through), whether it tried to open the persisted collection, whether it
   * rebuilt, and the texts it handed to the splitter.
   */
  datatype Outcome<S> = Outcome(store: Result<S>, loadTried: bool, rebuilt: bool, splitterInput: seq<string>)

  /** `[str(dict_) for dict_ in docs]`: one text per catalog record. */
  function Serialize<Rec, S>(b: Backend<Rec, S>, catalog: seq<Rec>): (texts: seq<string>)
    ensures |texts| == |catalog|
    ensures forall i | 0 <= i < |catalog| :: texts[i] == b.str(catalog[i])
  {
    seq(|catalog|, i requires 0 <= i < |catalog| => b.str(catalog[i]))
  }

  /**
   * The rebuild path: serialise the catalog, split, build and persist the
   * collection, and return it without checking its count.
   */
  function Rebuild<Rec, S>(b: Backend<Rec, S>, catalog: seq<Rec>, dir: string, collection: string, loadTried: bool): (r: Outcome<S>)
    ensures r.rebuilt && r.loadTried == loadTried
    ensures r.splitterInput == Serialize(b, catalog)
    ensures r.store == b.fromDocuments(b.split(r.splitterInput), dir, collection)
  {
    var texts := Serialize(b, catalog);
    Outcome(b.fromDocuments(b.split(texts), dir, collection), loadTried, true, texts)
  }

  /**
   * A persisted collection exists at `dir`, opens, holds documents and can be
   * counted again.
   */
  ghost predicate Reusable<Rec, S>(b: Backend<Rec, S>, dir: string, collection: string) {
    && b.isDirectory(dir)
    && b.open(dir, collection).Opened?
    && b.open(dir, collection).count > 0
    && !b.open(dir, collection).recountRaises
  }

  /** `get_or_create_vectorstore(persist_directory, collection_name)`. */
  function GetOrCreateVectorstore<Rec, S>(b: Backend<Rec, S>, catalog: seq<Rec>, dir: string, collection: string): (r: Outcome<S>)
    ensures r.loadTried <==> b.embedderError.None? && b.isDirectory(dir)
  {
    if b.embedderError.Some? then Outcome(Err(b.embedderError.value), false, false, [])
    else if b.isDirectory(dir) then
      match b.open(dir, collection)
      case Opened(store, count, recountRaises) =>
        if count > 0 && !recountRaises then Outcome(Ok(store), true, false, [])
        else Rebuild(b, catalog, dir, collection, true)
      case OpenFailed(_) => Rebuild(b, catalog, dir, collection, true)
    else Rebuild(b, catalog, dir, collection, false)
  }

  /** An exception of the embedder's construction reaches the caller; nothing is opened or built. */
  lemma EmbedderFailurePropagates<Rec, S>(b: Backend<Rec, S>, catalog: seq<Rec>, dir: string, collection: string)
    requires b.embedderError.Some?
    ensures GetOrCreateVectorstore(b, catalog, dir, collection) == Outcome(Err(b.embedderError.value), false, false, [])
  {
  }

  /** A persisted, non-empty collection is returned as it is, and nothing is rebuilt. */
  lemma ReusesNonEmptyStore<Rec, S>(b: Backend<Rec, S>, catalog: seq<Rec>, dir: string, collection: string, store: S, count: nat)
    requires b.embedderError.None? && b.isDirectory(dir)
    requires b.open(dir, collection) == Opened(store, count, false) && count > 0
    ensures GetOrCreateVectorstore(b, catalog, dir, collection) == Outcome(Ok(store), true, false, [])
  {
  }

  /** A collection that opens but is empty is never returned: the store is rebuilt. */
  lemma RebuildsEmptyStore<Rec, S>(b: Backend<Rec, S>, catalog: seq<Rec>, dir: string, collection: string, store: S, recountRaises: bool)
    requires b.embedderError.None? && b.isDirectory(dir)
    requires b.open(dir, collection) == Opened(store, 0, recountRaises)
    ensures var r := GetOrCreateVectorstore(b, catalog, dir, collection);
      r.rebuilt && r.store == b.fromDocuments(b.split(Serialize(b, catalog)), dir, collection)
  {
  }

  /**
   * A failure while opening or counting, the second count included, is
   * swallowed and the store is rebuilt.
   */
  lemma RebuildsAfterOpenFailure<Rec, S>(b: Backend<Rec, S>, catalog: seq<Rec>, dir: string, collection: string)
    requires b.embedderError.None? && b.isDirectory(dir)
    requires b.open(dir, collection).OpenFailed? || b.open(dir, collection).recountRaises
    ensures var r := GetOrCreateVectorstore(b, catalog, dir, collection);
      r.loadTried && r.rebuilt && r.store == b.fromDocuments(b.split(Serialize(b, catalog)), dir, collection)
  {
  }

  /** Without a directory at the path, nothing is opened and the store is rebuilt. */
  lemma RebuildsWithoutOpeningWhenNoDirectory<Rec, S>(b: Backend<Rec, S>, catalog: seq<Rec>, dir: string, collection: string)
    requires b.embedderError.None? && !b.isDirectory(dir)
    ensures var r := GetOrCreateVectorstore(b, catalog, dir, collection);
      !r.loadTried && r.rebuilt
  {
  }

  /**
   * The decision: once the embedder exists, the function rebuilds exactly
   * when the persisted collection is not reusable, and otherwise returns the
   * opened store.
   */
  lemma RebuildIffNotReusable<Rec, S>(b: Backend<Rec, S>, catalog: seq<Rec>, dir: string, collection: string)
    ensures var r := GetOrCreateVectorstore(b, catalog, dir, collection);
      && (r.rebuilt <==> b.embedderError.None? && !Reusable(b, dir, collection))
      && (b.embedderError.None? && !r.rebuilt ==> r.store == Ok(b.open(dir, collection).store))
  {
  }

  /**
   * A rebuild hands the splitter one text per catalog record, in catalog
   * order, and returns what the fresh build returns.
   */
  lemma RebuildUsesWholeCatalog<Rec, S>(b: Backend<Rec, S>, catalog: seq<Rec>, dir: string, collection: string)
    ensures var r := GetOrCreateVectorstore(b, catalog, dir, collection);
      r.rebuilt ==>
        && |r.splitterInput| == |catalog|
        && (forall i | 0 <= i < |catalog| :: r.splitterInput[i] == b.str(catalog[i]))
        && r.store == b.fromDocuments(b.split(r.splitterInput), dir, collection)
  {
  }

  /**
   * `search_card(question, persist_directory, collection_name)`: get the store
   * for the same directory and collection, ask the retriever, and collect the
   * text of each document in order. An exception of the embedder, of the
   * build or of the retriever is passed on.
   */
  method SearchCard<Rec, S>(b: Backend<Rec, S>, catalog: seq<Rec>, retrieve: (S, string) -> Result<seq<Document>>,
                            question: string, dir: string, collection: string)
    returns (r: Result<seq<string>>)
    ensures var store := GetOrCreateVectorstore(b, catalog, dir, collection).store;
      match store
      case Err(e) => r == Err(e)
      case Ok(s) =>
        match retrieve(s, question)
        case Err(e) => r == Err(e)
        case Ok(docs) =>
          && r.Ok?
          && |r.value| == |docs|
          && forall i | 0 <= i < |docs| :: r.value[i] == docs[i].pageContent
  {
    var outcome := GetOrCreateVectorstore(b, catalog, dir, collection);
    if outcome.store.Err? {
      return Err(outcome.store.error);
    }
    var retrieved := retrieve(outcome.store.value, question);
    if retrieved.Err? {
      return Err(retrieved.error);
    }
    var result := retrieved.value;
    var cardContext: seq<string> := [];
    for i := 0 to |result|
      invariant |cardContext| == i
      invariant forall k | 0 <= k < i :: cardContext[k] == result[k].pageContent
    {
      cardContext := cardContext + [result[i].pageContent];
    }
    r := Ok(cardContext);
  }

  /**
   * `search_card(question)` as the chat flow calls it: the default directory
   * and collection.
   */
  method SearchCardWithDefaults<Rec, S>(b: Backend<Rec, S>, catalog: seq<Rec>,
                                        retrieve: (S, string) -> Result<seq<Document>>, question: string)
    returns (r: Result<seq<string>>)
    ensures var store := GetOrCreateVectorstore(b, catalog, DefaultPersistDirectory, DefaultCollectionName).store;
      match store
      case Err(e) => r == Err(e)
      case Ok(s) =>
        match retrieve(s, question)
        case Err(e) => r == Err(e)
        case Ok(docs) =>
          && r.Ok?
          && |r.value| == |docs|
          && forall i | 0 <= i < |docs| :: r.value[i] == docs[i].pageContent
  {
    r := SearchCard(b, catalog, retrieve, question, DefaultPersistDirectory, DefaultCollectionName);
  }
}
