# llm-pdf-explorer: a verified model of `functions.py`

llm-pdf-explorer lets a user upload a PDF, index its text chunks into a per-document
Chroma collection, and ask questions that are answered by an OpenAI chat model from the
chunks most similar to the question. The logic of its own lives in `functions.py`. This
project models that logic in Dafny and proves what it promises:

- `identity.dfy` (module `Identity`): `clean_filename`, which turns an upload name into a
  collection key. It follows pathlib's POSIX rules. The name is the last path component
  that is neither empty nor `"."`. The stem then cuts the name at its last `.`, unless
  that dot is the name's first or last character. Spaces become `_` and ASCII letters are
  lower-cased.
- `credentials.dfy` (module `Credentials`): `requires_project_id`, and the choice of
  OpenAI client that `make_embeddings` and `query_document` share. The project is passed
  only when `project_id` is truthy.
- `store.dfy` (module `Store`): the module-level `_client`, the `db` directory, `_reset_db`,
  `_get_client` and `create_vectorstore_from_texts`. The class `ChromaDb` holds the cached
  client, the collections (a map from name to chunks) and a ghost trace of store
  operations. Its methods are proved against the specification function `Ingest`. Whether
  an open or an embedding call raises is an input (`Oracle`), because Chroma and the OpenAI
  API decide it. The comment at functions.py:82 speaks of recreating the client, but
  `_reset_db` leaves `_client` set, so the retry reuses the cached client. The model
  follows the code here.
- `query.dfy` (module `Query`): retrieval and prompt assembly in `query_document`. The
  search keeps the first four chunks of Chroma's ranking. Their texts are joined with a
  blank line, and the result is wrapped into the fixed prompt that is sent to
  `gpt-4o-mini`.
- `wrappers.dfy` (module `Wrappers`): `Option` and `Result`.

Inputs that come from outside the code become parameters:
- the ranking Chroma computes for a query (`ranked`);
- whether opening a collection or embedding documents fails (`Oracle`);
- what `db/` holds when the process starts (the `ChromaDb` constructor's `onDisk`).

## Model

| member | source | states |
|---|---|---|
| Identity.NameBoundsValid | functions.py:20 | the bounds `NameBounds` finds are those of `Path(p).name`: a slice free of `/` and never `"."`, delimited by `/` or the ends of the path, followed only by empty and `"."` components; empty only when the whole path consists of such components |
| Identity.Name | functions.py:20 | `Path(p).name` contains no `/` and is never `"."` |
| Identity.NameEmptyIff | functions.py:20 | the name is empty exactly when the path has only `/` and `"."` components |
| Identity.NameIgnoresDirectory | functions.py:20 | prefixing a directory does not change a non-empty name |
| Identity.Stem | functions.py:20 | the stem is a prefix of the name; it is the whole name, or it ends just before the last `.`, which is neither the first nor the last character; a name ending in `.` keeps its dot |
| Identity.LowerChar | functions.py:20 | ASCII upper-case letters map to lower case (code point + 32); every other character is kept |
| Identity.Lower | functions.py:20 | `lower()` keeps the length and lower-cases each character in place |
| Identity.ReplaceSpaces | functions.py:20 | `replace(" ", "_")` keeps the length and turns every space, and only spaces, into `_` |
| Identity.CleanFilename | functions.py:19-20 | the key contains no space, no `/` and no upper-case ASCII letter, and is no longer than the upload name |
| Identity.CleanFilenameIgnoresCaseAndSpaces | functions.py:19-20 | names that differ only in ASCII case or space versus underscore get the same key |
| Identity.CleanFilenameIgnoresDirectory | functions.py:19-20 | directory components never reach the key |
| Identity.CleanFilenameDropsExtension | functions.py:19-20 | exactly one final extension is dropped: the key of `s + "." + ext` is the last segment of `s`, lower-cased with underscores, for every extension |
| Identity.SameKeyExample | functions.py:19-20 | `"dir/My File.pdf"` and `"my_file.PDF"` both map to `"my_file"` |
| Credentials.RequiresProjectId | functions.py:23-24 | true exactly when the key starts with `sk-proj-` |
| Credentials.ProjectKeysRequireProjectId | functions.py:23-24 | every key made of the prefix and any rest is project-scoped |
| Credentials.RequiresProjectIdExamples | functions.py:23-24 | `"sk-proj-abc123"` gives true; `"sk-abc123"` and `""` give false |
| Credentials.MakeClient | functions.py:43 | the client carries the key, and carries the project exactly when `project_id` is present and non-empty |
| Credentials.EmptyProjectIsNoProject | functions.py:43 | an empty project and a missing one give the same unscoped client |
| Credentials.MakeEmbeddings | functions.py:42-44 | the embedding function uses the scoped client and `text-embedding-3-small` |
| Store.GetOrCreate | functions.py:80 | opening creates the collection empty when it is absent; no other collection changes |
| Store.AfterOpen | functions.py:78-85 | the open phase fails exactly when the first open and the retry both fail; otherwise the named collection exists; without a reset every collection is kept; after a reset the store is the named collection alone, empty; `Ingest` builds on it, and NonEmptyCollectionIsKept and EmptyCollectionIsFilled follow |
| Store.Populate | functions.py:87-89 | only the named collection can change, and only from empty to exactly the documents; one add is appended exactly when the collection is empty; the only error is a failed embedding, which leaves the store as it was; through `Ingest`, NonEmptyCollectionIsKept and EmptyCollectionIsFilled state both cases |
| Store.IngestByPhases | functions.py:78-89 | `Ingest` is the open phase followed by `Populate` on the store it leaves, with the open events first |
| Store.Ingest | functions.py:78-89 | the first open always runs; a reset happens exactly when it fails, and it is followed by exactly one retry; at most one add follows; a failed retry propagates and leaves the store wiped; after a reset only the named collection can hold anything; without a reset no collection loses content |
| Store.NonEmptyCollectionIsKept | functions.py:88-89 | when the opened collection is non-empty, nothing is added, no collection changes and no error arises |
| Store.EmptyCollectionIsFilled | functions.py:88-89 | when the opened collection is empty, it then holds exactly the documents (unless embedding fails, which leaves it empty and raises); no other collection changes; the last operation is the add of all documents |
| Store.ReuploadDoesNotReembed | functions.py:87-89 | after a successful upload of non-empty documents, a second upload under the same key changes nothing and embeds nothing |
| Store.SameKeySharesCollection | functions.py:75-89 | once `"dir/My File.pdf"` has been indexed, uploading `"my_file.PDF"` leaves the store unchanged |
| Store.PersistentClient.constructor | functions.py:63 | the client is bound to the path it was given |
| Store.ChromaDb.constructor | functions.py:50-51 | a fresh process has no cached client, holds what `db/` held, and has run no store operation |
| Store.ChromaDb.ResetDb | functions.py:54-56 | every collection is gone and the cached client is untouched |
| Store.ChromaDb.GetClient | functions.py:59-64 | a client on `db` is created only when none is cached; afterwards the cached one is returned and kept |
| Store.ChromaDb.OpenCollection | functions.py:80 | a successful open is a get-or-create; a failed one changes no collection |
| Store.ChromaDb.Count | functions.py:88 | the number of chunks in the collection |
| Store.ChromaDb.AddDocuments | functions.py:89 | a successful add appends the documents to the collection; a failed one changes nothing |
| Store.ChromaDb.OpenWithRetry | functions.py:78-85 | the collections after the open phase are those of `AfterOpen`, or empty when the retry fails; the client is the cached one before and after |
| Store.ChromaDb.PopulateIfEmpty | functions.py:87-89 | the new collections, trace and outcome are those of `Populate` |
| Store.ChromaDb.IngestNamed | functions.py:76-89 | the new collections, trace and error are those of `Ingest` for the given name; the client is the cached one, created on `db` only when none was cached |
| Store.ChromaDb.CreateVectorstore | functions.py:67-91 | the new collections and trace are those of `Ingest` under the cleaned name; the call fails exactly when `Ingest` reports an error; the returned store is bound to the cached client, the cleaned name and the scoped embedding function |
| Query.SimilaritySearch | functions.py:98 | the result is a prefix of the ranking, of length four, or the whole ranking when it is shorter |
| Query.Texts | functions.py:99 | the texts of the chunks, in order |
| Query.Join | functions.py:99 | `sep.join(parts)`: empty for no parts, and it starts with the first part, followed by the separator when there are more; JoinLayout fixes every character and JoinEmptyIff says when it is empty |
| Query.JoinLayout | functions.py:99 | every part stands at its offset in the join; a separator follows each part but the last; the last part ends the string |
| Query.JoinEmptyIff | functions.py:99 | with a non-empty separator, a join is empty exactly when there is no part, or one empty part |
| Query.BuildContext | functions.py:99 | the context is empty when nothing was retrieved and starts with the first retrieved text, followed by a blank line when there are more; ContextEmptyIff and PromptHoldsRetrievedChunks give the rest |
| Query.ContextEmptyIff | functions.py:98-99 | the context is empty exactly when nothing was retrieved or the single retrieved chunk has no text |
| Query.RetrievedFromCollection | functions.py:98 | every retrieved chunk comes from the collection; a collection of at most four chunks is retrieved whole |
| Query.BuildPrompt | functions.py:101-105 | the prompt starts with the instruction and `Context:\n`; the context follows at a fixed position; then comes `\n\nQuestion: `; the query ends it verbatim |
| Query.PromptHoldsRetrievedChunks | functions.py:98-105 | each retrieved text appears in the prompt in ranking order; a blank line separates each one from the next |
| Query.PromptEndsWithQuestion | functions.py:101-105 | the request's prompt ends with `\n\nQuestion: ` and then the query |
| Query.QueryDocument | functions.py:97-111 | the request uses the scoped client, `gpt-4o-mini`, 512 tokens and one user message |
| Query.QueryIgnoresLowerRanked | functions.py:98 | chunks ranked below the top four do not change the request |
| Query.QueryUsesEmbeddingScope | functions.py:107 | the chat client is scoped exactly as the embedding client is |
| Query.QueryExample | functions.py:97-105 | for the chunks "Hello world." and "Goodbye world.", the prompt is the instruction, then the two texts joined by a blank line, then the question |

## Left out

- `get_pdf_text` (functions.py:30-36): text extraction with pypdf and chunking with LangChain's `RecursiveCharacterTextSplitter` are foreign code. Chunks are opaque records of text and page number.
- The OpenAI calls (functions.py:44, functions.py:108-113): embedding vectors and the chat answer are remote. The model stops at the request that is sent, and `response.choices[0].message.content` is not modelled.
- Chroma internals: the similarity metric and ranking behind `similarity_search` are a parameter, and the on-disk format is a map from name to chunks.
- Filesystem effects of `shutil.rmtree` and `mkdir` (functions.py:55-56): modelled only as "every collection is gone". An error while wiping is ignored by the source and is not modelled either.
- The `mkdir` in `_get_client` (functions.py:62) only creates `db/` when it is missing; it has no modelled effect, and `ChromaDb.GetClient` leaves the collections alone.
- Exceptions other than a failed open or a failed embedding are not modelled.
- Concurrency between processes on the shared `db` directory is not modelled.
- `streamlit_app.py` is not part of this model: it is UI and session handling, and its credential check only calls `requires_project_id`.
- Identity.LowerChar: lower-cases ASCII letters only; `str.lower` also maps non-ASCII letters, which this model keeps unchanged.
- Identity.Name: models POSIX paths only, with `/` as the only separator; Windows drive letters and `\` are not handled.
- Identity.Stem: follows the rule above for where a suffix starts; how other Python versions treat a name that ends in a dot is not covered.
- Store.ChromaDb.ResetDb: the model assumes that the cached client, which is kept across the wipe (functions.py:61-64, functions.py:84), sees the wiped, empty `db/`. The collections are one map that the wipe empties and the client then reads; whether Chroma's client really sees the new directory is up to Chroma and is not modelled.
- Store.ChromaDb.AddDocuments: an add either appends every document or fails as a whole; partial batches are not modelled.
