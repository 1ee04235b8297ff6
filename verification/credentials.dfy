/**
 * Credentials and client scoping in functions.py: `requires_project_id`, and the choice,
 * made the same way in `make_embeddings` and in `query_document`, between an OpenAI
 * client scoped to a project and an unscoped one.
 */
module Credentials {
  import opened Wrappers

  /** The prefix that marks a project-scoped API key. */
  const ProjectKeyPrefix: string := "sk-proj-"

  /** The embedding model `make_embeddings` asks for. */
  const EmbeddingModel: string := "text-embedding-3-small"

  /** `requires_project_id`: whether the key is a project-scoped key (`str.startswith`). */
  function RequiresProjectId(apiKey: string): (r: bool)
    ensures r <==> (|apiKey| >= |ProjectKeyPrefix| &&
                    forall i :: 0 <= i < |ProjectKeyPrefix| ==> apiKey[i] == ProjectKeyPrefix[i])
  {
    ProjectKeyPrefix <= apiKey
  }

  /** Every key that starts with the prefix is project-scoped, whatever follows it. */
  lemma ProjectKeysRequireProjectId(rest: string)
    ensures RequiresProjectId(ProjectKeyPrefix + rest)
  {
    assert (ProjectKeyPrefix + rest)[..8] == ProjectKeyPrefix;
  }

  /** A project key, a plain key and the empty key. */
  lemma RequiresProjectIdExamples()
    ensures RequiresProjectId("sk-proj-abc123")
    ensures !RequiresProjectId("sk-abc123")
    ensures !RequiresProjectId("")
  {
    assert "sk-proj-abc123" == ProjectKeyPrefix + "abc123";
    ProjectKeysRequireProjectId("abc123");
    assert "sk-abc123"[3] != ProjectKeyPrefix[3];
  }

  /** The arguments the OpenAI client is constructed with. `project` is None for
      `OpenAI(api_key=api_key)` and Some(p) for `OpenAI(api_key=api_key, project=p)`. */
  datatype ClientConfig = ClientConfig(apiKey: string, project: Option<string>)

  /** `OpenAI(api_key=api_key, project=project_id) if project_id else OpenAI(api_key=api_key)`:
      the project is passed exactly when `project_id` is truthy, i.e. present and non-empty. */
  function MakeClient(apiKey: string, projectId: Option<string>): (c: ClientConfig)
    ensures c.apiKey == apiKey
    ensures c.project.Some? <==> projectId.Some? && projectId.value != ""
    ensures c.project.Some? ==> c.project == projectId
  {
    if projectId.Some? && projectId.value != "" then ClientConfig(apiKey, projectId)
    else ClientConfig(apiKey, None)
  }

  /** The embedding function a vector store is bound to. */
  datatype EmbeddingConfig = EmbeddingConfig(client: ClientConfig, model: string)

  /** `make_embeddings` */
  function MakeEmbeddings(apiKey: string, projectId: Option<string>): (e: EmbeddingConfig)
    ensures e.client == MakeClient(apiKey, projectId)
    ensures e.model == EmbeddingModel
  {
    EmbeddingConfig(MakeClient(apiKey, projectId), EmbeddingModel)
  }

  /** A missing project and an empty one both give the unscoped client. */
  lemma EmptyProjectIsNoProject(apiKey: string)
    ensures MakeClient(apiKey, Some("")) == MakeClient(apiKey, None) == ClientConfig(apiKey, None)
  {
  }
}
