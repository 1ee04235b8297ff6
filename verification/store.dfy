/**
 * The Chroma collection store of functions.py: the module-level `_client`, the shared
 * `db` directory behind it, `_reset_db`, `_get_client` and
 * `create_vectorstore_from_texts`.
 *
 * The directory is modelled as a map from collection name to the chunks it holds.
 * Whether opening a collection or embedding the documents fails is decided outside
 * this code (by Chroma and by the OpenAI API), so each call receives those outcomes
 * as an `Oracle`. Embedding vectors are not modelled; a ghost trace records which
 * store operations ran, and how many documents each `add_documents` call carried.
 */
module Store {
  import opened Wrappers
  import Identity
  import Credentials

  /** `_DB_ROOT` */
  const DbRoot: string := "db"

  /** A chunk of a PDF page, as `get_pdf_text` produces it: text plus its page number. */
  datatype Chunk = Chunk(text: string, page: nat)

  /** Every collection under `db/`, by name. */
  type Collections = map<string, seq<Chunk>>

  /** One store operation: an attempt to open a collection, a wipe of `db/`,
      or an `add_documents` call with the number of documents it embeds. */
  datatype Event = Open(collection: string, ok: bool) | Reset | Add(collection: string, count: nat, ok: bool)

  /** The exceptions `create_vectorstore_from_texts` lets escape: the retried open failed,
      or embedding the documents failed. */
  datatype StoreError = StoreFatal | EmbeddingFailure

  /** The outcomes decided outside this code for one call. */
  datatype Oracle = Oracle(firstOpenFails: bool, retryOpenFails: bool, embedFails: bool)

  /** What one call of `create_vectorstore_from_texts` does to the store. */
  datatype Ingestion = Ingestion(store: Collections, events: seq<Event>, error: Option<StoreError>)

  /** A successful `Chroma(client=..., collection_name=name)`: get-or-create, so the
      named collection exists afterwards, empty if it was new, and nothing else changes. */
  function GetOrCreate(store: Collections, name: string): (s: Collections)
    ensures s.Keys == store.Keys + {name}
    ensures s[name] == (if name in store then store[name] else [])
    ensures forall n :: n in store ==> s[n] == store[n]
  {
    if name in store then store else store[name := []]
  }

  /** functions.py:87-89: add the documents only when the base collection is empty. */
  function Populate(base: Collections, name: string, docs: seq<Chunk>, embedFails: bool,
                    events: seq<Event>): (r: Ingestion)
    requires name in base
    // only the named collection can change, and only by gaining the documents when empty
    ensures r.store.Keys == base.Keys
    ensures forall n :: n in base && n != name ==> r.store[n] == base[n]
    ensures r.store[name] == base[name] || (base[name] == [] && r.store[name] == docs)
    // at most one add is appended, and only to an empty collection
    ensures |events| <= |r.events| <= |events| + 1 && r.events[..|events|] == events
    ensures |r.events| == |events| + 1 <==> base[name] == []
    // the only error is a failed embedding, which leaves the store as it was
    ensures r.error.Some? ==> r.error == Some(EmbeddingFailure) && r.store == base
  {
    if base[name] != [] then Ingestion(base, events, None)
    else if embedFails then Ingestion(base, events + [Add(name, |docs|, false)], Some(EmbeddingFailure))
    else Ingestion(base[name := base[name] + docs], events + [Add(name, |docs|, true)], None)
  }

  /** functions.py:78-89: open; on failure wipe everything and retry exactly once; then populate. */
  function Ingest(store: Collections, name: string, docs: seq<Chunk>, o: Oracle): (r: Ingestion)
    // the first event is always the first open
    ensures |r.events| >= 1 && r.events[0] == Open(name, !o.firstOpenFails)
    // a reset happens exactly when the first open fails, and then it is the second event,
    // followed by the one retry; no further reset or open follows
    ensures Reset in r.events <==> o.firstOpenFails
    ensures o.firstOpenFails ==>
      |r.events| >= 3 && r.events[1] == Reset && r.events[2] == Open(name, !o.retryOpenFails)
    ensures forall i :: (if o.firstOpenFails then 3 else 1) <= i < |r.events| ==> r.events[i].Add?
    ensures |r.events| <= (if o.firstOpenFails then 4 else 2)
    // a failed retry propagates, leaving the wiped store
    ensures r.error == Some(StoreFatal) <==> o.firstOpenFails && o.retryOpenFails
    ensures r.error == Some(StoreFatal) ==> r.store == map[]
    // after a reset only the named collection can hold anything
    ensures o.firstOpenFails ==> r.store.Keys <= {name}
    // without a reset no collection loses anything
    ensures !o.firstOpenFails ==> forall n :: n in store ==> n in r.store && store[n] <= r.store[n]
  {
    match AfterOpen(store, name, o)
    case None => Ingestion(map[], OpenEvents(name, o), Some(StoreFatal))
    case Some(base) => Populate(base, name, docs, o.embedFails, OpenEvents(name, o))
  }

  /** functions.py:78-85: the store after the open phase, None when the retry fails too. */
  function AfterOpen(store: Collections, name: string, o: Oracle): (r: Option<Collections>)
    ensures r.None? <==> o.firstOpenFails && o.retryOpenFails
    ensures r.Some? ==> name in r.value
    ensures r.Some? && !o.firstOpenFails ==> forall n :: n in store ==> n in r.value && r.value[n] == store[n]
    ensures r.Some? && o.firstOpenFails ==> r.value == map[name := []]
  {
    if !o.firstOpenFails then Some(GetOrCreate(store, name))
    else if !o.retryOpenFails then Some(GetOrCreate(map[], name))
    else None
  }

  /** The events of the open phase: one open, or a failed open, the reset and the retry. */
  function OpenEvents(name: string, o: Oracle): seq<Event>
  {
    if !o.firstOpenFails then [Open(name, true)]
    else [Open(name, false), Reset, Open(name, !o.retryOpenFails)]
  }

  /** The events of `Populate` are those it appends to the ones it is given. */
  lemma PopulateEvents(base: Collections, name: string, docs: seq<Chunk>, embedFails: bool, events: seq<Event>)
    requires name in base
    ensures var r := Populate(base, name, docs, embedFails, events);
      var r0 := Populate(base, name, docs, embedFails, []);
      r.store == r0.store && r.events == events + r0.events && r.error == r0.error
  {
  }

  /** `Ingest` as its two phases: the open phase, then `Populate` on what it left. */
  lemma IngestByPhases(store: Collections, name: string, docs: seq<Chunk>, o: Oracle)
    ensures AfterOpen(store, name, o).None? ==>
      Ingest(store, name, docs, o) == Ingestion(map[], OpenEvents(name, o), Some(StoreFatal))
    ensures AfterOpen(store, name, o).Some? ==>
      var r := Ingest(store, name, docs, o);
      var r0 := Populate(AfterOpen(store, name, o).value, name, docs, o.embedFails, []);
      r.store == r0.store && r.events == OpenEvents(name, o) + r0.events && r.error == r0.error
  {
    if AfterOpen(store, name, o).Some? {
      PopulateEvents(AfterOpen(store, name, o).value, name, docs, o.embedFails, OpenEvents(name, o));
    }
  }

  /** functions.py:88-89, the non-empty case: nothing is added and no collection changes. */
  lemma NonEmptyCollectionIsKept(store: Collections, name: string, docs: seq<Chunk>, o: Oracle)
    requires AfterOpen(store, name, o).Some?
    requires AfterOpen(store, name, o).value[name] != []
    ensures var r := Ingest(store, name, docs, o);
      r.store == store && r.error == None && r.events == [Open(name, true)]
  {
  }

  /** functions.py:88-89, the empty case: the collection then holds exactly the documents and
      every other collection is as the open left it, unless embedding failed. */
  lemma EmptyCollectionIsFilled(store: Collections, name: string, docs: seq<Chunk>, o: Oracle)
    requires AfterOpen(store, name, o).Some?
    requires AfterOpen(store, name, o).value[name] == []
    ensures var r := Ingest(store, name, docs, o);
      var base := AfterOpen(store, name, o).value;
      && r.store.Keys == base.Keys
      && (forall n :: n in base && n != name ==> r.store[n] == base[n])
      && (o.embedFails ==> r.store == base && r.error == Some(EmbeddingFailure))
      && (!o.embedFails ==> r.store[name] == docs && r.error == None)
      && r.events[|r.events| - 1] == Add(name, |docs|, !o.embedFails)
  {
  }

  /** The number of documents embedded by a trace. */
  function Embedded(events: seq<Event>): nat
  {
    if events == [] then 0
    else Embedded(events[..|events| - 1]) + (match events[|events| - 1] case Add(_, n, _) => n case _ => 0)
  }

  /** Re-uploading a document whose collection was filled embeds nothing more: after a
      successful first call with non-empty documents, a second call under the same name
      whose first open succeeds leaves the store as it was and adds nothing. */
  lemma {:induction false} ReuploadDoesNotReembed(store: Collections, name: string,
                                                  docs: seq<Chunk>, docs': seq<Chunk>, o: Oracle, o': Oracle)
    requires docs != []
    requires Ingest(store, name, docs, o).error == None
    requires !o'.firstOpenFails
    ensures var r := Ingest(store, name, docs, o);
      var r' := Ingest(r.store, name, docs', o');
      && r'.store == r.store
      && r'.events == [Open(name, true)]
      && Embedded(r.events + r'.events) == Embedded(r.events)
  {
    var r := Ingest(store, name, docs, o);
    var base := AfterOpen(store, name, o).value;
    assert name in r.store && r.store[name] != [] by {
      if base[name] == [] {
        EmptyCollectionIsFilled(store, name, docs, o);
      } else {
        NonEmptyCollectionIsKept(store, name, docs, o);
      }
    }
    NonEmptyCollectionIsKept(r.store, name, docs', o');
    var all := r.events + [Open(name, true)];
    assert all[..|all| - 1] == r.events;
  }

  /** Two different uploads whose names clean to the same key share one collection:
      once "dir/My File.pdf" was indexed, "my_file.PDF" is never embedded. */
  lemma SameKeySharesCollection(store: Collections, docs: seq<Chunk>, docs': seq<Chunk>, o: Oracle, o': Oracle)
    requires docs != []
    requires Ingest(store, Identity.CleanFilename("dir/My File.pdf"), docs, o).error == None
    requires !o'.firstOpenFails
    ensures var r := Ingest(store, Identity.CleanFilename("dir/My File.pdf"), docs, o);
      Ingest(r.store, Identity.CleanFilename("my_file.PDF"), docs', o').store == r.store
  {
    Identity.SameKeyExample();
    ReuploadDoesNotReembed(store, "my_file", docs, docs', o, o');
  }

  /** `chromadb.PersistentClient(path=...)`: an object whose identity matters. */
  class PersistentClient {
    const path: string

    constructor (path: string)
      ensures this.path == path
    {
      this.path := path;
    }
  }

  /** The LangChain `Chroma` vector store returned to the caller: the client it was opened
      with, its collection name and the embedding function it is bound to. */
  datatype Vectorstore = Vectorstore(client: PersistentClient, collection: string,
                                     embeddings: Credentials.EmbeddingConfig)

  /** The module-level state of functions.py: `_client` and the contents of `db/`. */
  class ChromaDb {
    var client: PersistentClient?
    var collections: Collections
    ghost var trace: seq<Event>

    /** A fresh process: `_client` is None and `db/` holds what earlier runs left there. */
    constructor (onDisk: Collections)
      ensures client == null && collections == onDisk && trace == []
    {
      client := null;
      collections := onDisk;
      trace := [];
    }

    /** `_reset_db`: `db/` is removed and recreated empty. `_client` is left as it is. */
    method ResetDb()
      modifies this`collections, this`trace
      ensures collections == map[]
      ensures trace == old(trace) + [Reset]
      ensures client == old(client)
    {
      collections := map[];
      trace := trace + [Reset];
    }

    /** `_get_client`: the client is created only when none is cached; afterwards the
        cached one is returned, the same object every time. */
    method GetClient() returns (c: PersistentClient)
      modifies this`client
      ensures old(client) == null ==> fresh(c) && c.path == DbRoot
      ensures old(client) != null ==> c == old(client)
      ensures client == c
    {
      if client == null {
        client := new PersistentClient(DbRoot);
      }
      c := client;
    }

    /** `Chroma(client=c, collection_name=name, ...)`, which raises when `fails`. */
    method OpenCollection(c: PersistentClient, name: string, fails: bool) returns (ok: bool)
      modifies this`collections, this`trace
      ensures ok == !fails
      ensures collections == if ok then GetOrCreate(old(collections), name) else old(collections)
      ensures trace == old(trace) + [Open(name, ok)]
    {
      ok := !fails;
      if ok {
        collections := GetOrCreate(collections, name);
      }
      trace := trace + [Open(name, ok)];
    }

    /** `vectorstore._collection.count()` */
    method Count(name: string) returns (n: nat)
      requires name in collections
      ensures n == |collections[name]|
    {
      n := |collections[name]|;
    }

    /** `vectorstore.add_documents(docs)`, which raises when embedding `fails`. */
    method AddDocuments(name: string, docs: seq<Chunk>, fails: bool) returns (ok: bool)
      requires name in collections
      modifies this`collections, this`trace
      ensures ok == !fails
      ensures collections == if ok then old(collections)[name := old(collections)[name] + docs]
                             else old(collections)
      ensures trace == old(trace) + [Add(name, |docs|, ok)]
    {
      ok := !fails;
      if ok {
        collections := collections[name := collections[name] + docs];
      }
      trace := trace + [Add(name, |docs|, ok)];
    }

    /** functions.py:78-85: open the collection; if that raises, wipe `db/`, fetch the client
        again (the cached one, since `_reset_db` left it) and open once more. */
    method OpenWithRetry(c: PersistentClient, name: string, o: Oracle) returns (c': PersistentClient, ok: bool)
      requires client == c
      modifies this`collections, this`trace, this`client
      ensures c' == c && client == c
      ensures ok <==> AfterOpen(old(collections), name, o).Some?
      ensures ok ==> collections == AfterOpen(old(collections), name, o).value
      ensures !ok ==> collections == map[]
      ensures trace == old(trace) + OpenEvents(name, o)
    {
      c' := c;
      ok := OpenCollection(c', name, o.firstOpenFails);
      if !ok {
        ResetDb();
        c' := GetClient();
        ok := OpenCollection(c', name, o.retryOpenFails);
      }
    }

    /** functions.py:87-89: embed and add the documents only when the collection is empty. */
    method PopulateIfEmpty(name: string, docs: seq<Chunk>, embedFails: bool) returns (ok: bool)
      requires name in collections
      modifies this`collections, this`trace
      ensures var spec := Populate(old(collections), name, docs, embedFails, []);
        && collections == spec.store
        && trace == old(trace) + spec.events
        && (ok <==> spec.error == None)
    {
      var n := Count(name);
      ok := true;
      if n == 0 {
        ok := AddDocuments(name, docs, embedFails);
      }
    }

    /** functions.py:76-89 for an already cleaned name: fetch the client, open with the
        one retry, then populate. The new store and trace are those of `Ingest`. */
    method IngestNamed(name: string, docs: seq<Chunk>, o: Oracle)
      returns (c: PersistentClient, error: Option<StoreError>)
      modifies this
      ensures var spec := Ingest(old(collections), name, docs, o);
        collections == spec.store && trace == old(trace) + spec.events && error == spec.error
      ensures client == c
      ensures old(client) != null ==> c == old(client)
      ensures old(client) == null ==> fresh(c) && c.path == DbRoot
    {
      ghost var store0 := collections;
      IngestByPhases(store0, name, docs, o);
      c := GetClient();
      var ok;
      c, ok := OpenWithRetry(c, name, o);
      if !ok {
        return c, Some(StoreFatal);
      }
      ok := PopulateIfEmpty(name, docs, o.embedFails);
      error := if ok then None else Some(EmbeddingFailure);
    }

    /** `create_vectorstore_from_texts`. The new store and trace are those of `Ingest`;
        the returned store is bound to the cached client, which the retry reuses. */
    method CreateVectorstore(docs: seq<Chunk>, apiKey: string, fileName: string,
                             projectId: Option<string>, o: Oracle)
      returns (r: Result<Vectorstore, StoreError>)
      modifies this
      ensures var spec := Ingest(old(collections), Identity.CleanFilename(fileName), docs, o);
        && collections == spec.store
        && trace == old(trace) + spec.events
        && (r.Err? <==> spec.error.Some?)
        && (r.Err? ==> r.error == spec.error.value)
      ensures client != null
      ensures old(client) != null ==> client == old(client)
      ensures old(client) == null ==> fresh(client) && client.path == DbRoot
      ensures r.Ok? ==> r.value == Vectorstore(client, Identity.CleanFilename(fileName),
                                                Credentials.MakeEmbeddings(apiKey, projectId))
    {
      var embeddings := Credentials.MakeEmbeddings(apiKey, projectId);
      var name := Identity.CleanFilename(fileName);
      var c, error := IngestNamed(name, docs, o);
      if error.Some? {
        return Err(error.value);
      }
      r := Ok(Vectorstore(c, name, embeddings));
    }
  }
}
