/** The proposal creation endpoint: for a POST with a bearer token of a
    known user naming a project and a template, join the project's
    documents into an extraction prompt, put the AI's extract (or a sample
    text) in place of the template's `{{key_info}}` placeholder, have the AI
    polish the result (keeping it as it is when that fails), store it in
    `proposal_documents` and answer with the proposal's URL. */
module ProposalCreation {
  import opened Wrappers
  import opened Strings
  import opened Http
  import opened Query

  type Id = string

  datatype Project = Project(name: string)

  datatype Template = Template(content: string)

  /** The `content` of a `documents` row: text, an object (what the
      document generator stores) or `null`. */
  datatype Content = TextContent(text: string) | ObjectContent | NullContent

  datatype DocRow = DocRow(projectId: Id, content: Content)

  /** A row of `proposal_documents`. */
  datatype ProposalRow = ProposalRow(projectId: Id, userId: Id, content: string)

  /** What the insert hands back: the row is not stored (an error), or it is
      stored under `id` and the returned `data` is `null`, an empty array or
      the stored row. */
  datatype Returned = NullData | EmptyData | RowData
  datatype Insert = InsertError | Stored(id: Id, returned: Returned)

  datatype Request = Request(verb: Method, authorization: Option<string>, projectId: Option<string>, templateId: Option<string>)

  /** The collaborators' answers: the token's user, whether the documents
      query succeeded, the two AI answers (`None` when the call throws) and
      the insert. */
  datatype Env = Env(user: Option<Id>, documentsOk: bool, extraction: Option<string>, optimisation: Option<string>, insert: Insert)

  datatype Body = Failure(error: string) | Created(proposalUrl: string)

  /** The rows after the request, the response, and the prompts sent to the
      AI, in order. */
  datatype Outcome = Outcome(proposals: map<Id, ProposalRow>, reply: Reply<Body>, prompts: seq<string>)

  const NotAllowed := "許可されていないメソッドです。"
  const NoCredentials := "認証情報がありません。"
  const UserFailed := "ユーザー情報の取得に失敗しました。"
  const MissingIds := "プロジェクトIDとテンプレートIDが必要です。"
  const ProjectFailed := "プロジェクト情報の取得に失敗しました。"
  const DocumentsFailed := "関連ドキュメントの取得に失敗しました。"
  const TemplateFailed := "テンプレートの取得に失敗しました。"
  const SaveFailed := "提案資料の保存に失敗しました。"
  /** The message of the `TypeError` raised by reading `id` of the missing
      first element of an empty array, as V8 words it. */
  const NoFirstRow := "Cannot read properties of undefined (reading 'id')"
  const SampleExtract := "サンプルの重要情報です。"
  const Placeholder := "{{key_info}}"
  const UrlPrefix := "/api/proposal/"

  /** How `Array.prototype.join` renders a content value. */
  function JoinText(c: Content): string {
    match c
    case TextContent(s) => s
    case ObjectContent => "[object Object]"
    case NullContent => ""
  }

  /** Every document holds text of a single line. */
  predicate SingleLineTexts(docs: seq<DocRow>) {
    forall k :: 0 <= k < |docs| ==> docs[k].content.TextContent? && '\n' !in docs[k].content.text
  }

  /** `documents.map(doc => doc.content).join('\n')`. */
  function JoinedContents(docs: seq<DocRow>): string {
    Join(seq(|docs|, k requires 0 <= k < |docs| => JoinText(docs[k].content)), "\n")
  }

  /** When the contents are single lines of text, splitting the joined
      text at newlines gives them back, in order. */
  lemma JoinedContentsSplit(docs: seq<DocRow>)
    requires |docs| >= 1 && SingleLineTexts(docs)
    ensures Split(JoinedContents(docs), "\n") == seq(|docs|, k requires 0 <= k < |docs| => docs[k].content.text)
  {
    var texts := seq(|docs|, k requires 0 <= k < |docs| => JoinText(docs[k].content));
    SplitJoin(texts, '\n');
  }

  function ExtractionPrompt(p: Project, contents: string): string {
    "プロジェクト名: " + p.name + "\n\nドキュメント内容:\n" + contents + "\n\n抽出された重要情報:"
  }

  function OptimisationPrompt(proposal: string): string {
    "提案書:\n" + proposal + "\n\n最適化された提案書:"
  }

  /** The proposal before polishing: the template with its first
      placeholder replaced, literally, by the extract. */
  function Draft(t: Template, extract: string): (d: string)
    ensures IndexOf(t.content, Placeholder, 0).None? ==> d == t.content
    ensures IndexOf(t.content, Placeholder, 0).Some? ==>
      var i := IndexOf(t.content, Placeholder, 0).value;
      && |d| == |t.content| - |Placeholder| + |extract|
      && d[..i] == t.content[..i]
      && d[i..i + |extract|] == extract
      && d[i + |extract|..] == t.content[i + |Placeholder|..]
  {
    ReplaceFirst(t.content, Placeholder, extract)
  }

  /** The URL of a stored proposal. */
  function ProposalUrl(id: Id): (url: string)
    ensures |url| == |UrlPrefix| + |id| && url[..|UrlPrefix|] == UrlPrefix && url[|UrlPrefix|..] == id
  {
    UrlPrefix + id
  }

  /** Different proposals get different URLs. */
  lemma ProposalUrlInjective(a: Id, b: Id)
    requires ProposalUrl(a) == ProposalUrl(b)
    ensures a == b
  {
    assert a == ProposalUrl(a)[|UrlPrefix|..];
  }

  /** `.eq('project_id', projectId)`: the project's documents in table order. */
  function DocumentsOf(documents: seq<DocRow>, projectId: Id): seq<DocRow> {
    Where(documents, (d: DocRow) => d.projectId == projectId)
  }

  function Fail(proposals: map<Id, ProposalRow>, status: int, error: string, prompts: seq<string>): Outcome {
    Outcome(proposals, Reply(status, Failure(error)), prompts)
  }

  /** The request passed the method, token, user and body checks. */
  predicate Accepted(req: Request, env: Env) {
    && req.verb == Post && Token(req.authorization, " ").Some? && env.user.Some?
    && Truthy(req.projectId) && Truthy(req.templateId)
  }

  /** The project, its documents and the template were also read. */
  predicate Ready(projects: map<Id, Project>, templates: map<Id, Template>, req: Request, env: Env) {
    && Accepted(req, env)
    && req.projectId.value in projects && env.documentsOk && req.templateId.value in templates
  }

  /** The handler, over `projects`, `documents`, `templates` and
      `proposal_documents`. */
  function Handle(projects: map<Id, Project>, documents: seq<DocRow>, templates: map<Id, Template>,
                  proposals: map<Id, ProposalRow>, req: Request, env: Env): (o: Outcome)
    ensures req.verb != Post ==> o == Fail(proposals, MethodNotAllowed, NotAllowed, [])
    ensures req.verb == Post && Token(req.authorization, " ").None? ==> o == Fail(proposals, Unauthorized, NoCredentials, [])
    ensures req.verb == Post && Token(req.authorization, " ").Some? && env.user.None? ==> o == Fail(proposals, Unauthorized, UserFailed, [])
    ensures req.verb == Post && Token(req.authorization, " ").Some? && env.user.Some? && !(Truthy(req.projectId) && Truthy(req.templateId)) ==>
      o == Fail(proposals, BadRequest, MissingIds, [])
    ensures Accepted(req, env) && req.projectId.value !in projects ==> o == Fail(proposals, ServerError, ProjectFailed, [])
    ensures Accepted(req, env) && req.projectId.value in projects && !env.documentsOk ==> o == Fail(proposals, ServerError, DocumentsFailed, [])
    ensures Accepted(req, env) && req.projectId.value in projects && env.documentsOk && req.templateId.value !in templates ==>
      o == Fail(proposals, ServerError, TemplateFailed, [])
    ensures Ready(projects, templates, req, env) && env.insert.InsertError? ==> o.reply == Reply(ServerError, Failure(SaveFailed))
    ensures Ready(projects, templates, req, env) && env.insert.Stored? && env.insert.returned == NullData ==>
      o.reply == Reply(ServerError, Failure(SaveFailed))
    ensures Ready(projects, templates, req, env) && env.insert.Stored? && env.insert.returned == EmptyData ==>
      o.reply == Reply(ServerError, Failure(NoFirstRow))
    ensures o.reply.status in {OK, BadRequest, Unauthorized, MethodNotAllowed, ServerError}
    ensures o.reply.status == ServerError ==> o.reply.body.Failure? && o.reply.body.error != ""
    ensures |o.prompts| == 2 <==> Ready(projects, templates, req, env)
    ensures |o.prompts| != 2 ==> o.prompts == [] && o.proposals == proposals
    ensures Ready(projects, templates, req, env) ==>
      var contents := JoinedContents(DocumentsOf(documents, req.projectId.value));
      var draft := Draft(templates[req.templateId.value], env.extraction.GetOr(SampleExtract));
      && o.prompts == [ExtractionPrompt(projects[req.projectId.value], contents), OptimisationPrompt(draft)]
      && o.proposals == (if env.insert.InsertError? then proposals
                         else proposals[env.insert.id := ProposalRow(req.projectId.value, env.user.value, env.optimisation.GetOr(draft))])
    ensures o.reply.status == OK <==> Ready(projects, templates, req, env) && env.insert.Stored? && env.insert.returned == RowData
    ensures o.reply.status == OK ==> o.reply.body == Created(ProposalUrl(env.insert.id))
  {
    if req.verb != Post then Fail(proposals, MethodNotAllowed, NotAllowed, [])
    else if Token(req.authorization, " ").None? then Fail(proposals, Unauthorized, NoCredentials, [])
    else if env.user.None? then Fail(proposals, Unauthorized, UserFailed, [])
    else if !Truthy(req.projectId) || !Truthy(req.templateId) then Fail(proposals, BadRequest, MissingIds, [])
    else if req.projectId.value !in projects then Fail(proposals, ServerError, ProjectFailed, [])
    else if !env.documentsOk then Fail(proposals, ServerError, DocumentsFailed, [])
    else if req.templateId.value !in templates then Fail(proposals, ServerError, TemplateFailed, [])
    else
      var contents := JoinedContents(DocumentsOf(documents, req.projectId.value));
      var askExtract := ExtractionPrompt(projects[req.projectId.value], contents);
      var draft := Draft(templates[req.templateId.value], env.extraction.GetOr(SampleExtract));
      var prompts := [askExtract, OptimisationPrompt(draft)];
      var content := env.optimisation.GetOr(draft);
      match env.insert
      case InsertError => Fail(proposals, ServerError, SaveFailed, prompts)
      case Stored(id, returned) =>
        var stored := proposals[id := ProposalRow(req.projectId.value, env.user.value, content)];
        match returned
        case NullData => Fail(stored, ServerError, SaveFailed, prompts)
        case EmptyData => Fail(stored, ServerError, NoFirstRow, prompts)
        case RowData => Outcome(stored, Reply(OK, Created(ProposalUrl(id))), prompts)
  }

  /** With both AI calls failing, the stored proposal is the template with
      the sample extract in place of its placeholder; without a placeholder
      it is the template itself. */
  lemma BothAiCallsFail(projects: map<Id, Project>, documents: seq<DocRow>, templates: map<Id, Template>,
                        proposals: map<Id, ProposalRow>, req: Request, env: Env)
    requires Ready(projects, templates, req, env) && env.insert.Stored?
    requires env.extraction.None? && env.optimisation.None?
    ensures var t := templates[req.templateId.value];
      var row := Handle(projects, documents, templates, proposals, req, env).proposals[env.insert.id];
      && row.content == ReplaceFirst(t.content, Placeholder, SampleExtract)
      && (IndexOf(t.content, Placeholder, 0).None? ==> row.content == t.content)
  {
  }

  /** On extracts without `$` the literal replacement is what the handler's
      `String.prototype.replace` computes. */
  lemma DraftAsWritten(t: Template, extract: string)
    requires '$' !in extract
    ensures Draft(t, extract) == JsReplaceFirst(t.content, Placeholder, extract)
  {
    JsReplaceAgreesWithoutDollar(t.content, Placeholder, extract);
  }
}
