/** The document generation endpoint: check the session, then for a POST
    with a document type and a project, read the project's newest uploaded
    file of the user, have the AI write a document from it (a fixed sample
    text when the AI call fails), wrap it with `formatDocument` and insert
    it into `documents`. */
module DocumentGeneration {
  import opened Wrappers
  import opened Http

  type Id = string

  /** A row of `files`. */
  datatype FileRow = FileRow(projectId: Id, userId: Id, path: string, createdAt: int)

  datatype Section = Section(heading: string, content: string)

  /** The object `formatDocument` builds. */
  datatype FormattedDocument = FormattedDocument(title: string, sections: seq<Section>)

  /** A row of `documents`. */
  datatype DocumentRow = DocumentRow(projectId: Id, docType: string, content: FormattedDocument)

  const Title := "自動生成ドキュメント"
  const OverviewHeading := "概要"
  const SampleContent := "これはサンプルのドキュメント内容です。AIによる生成が失敗したため、サンプルデータを表示しています。"

  /** The content of the first section headed `概要`, if there is one. */
  function Overview(sections: seq<Section>): Option<string>
    decreases |sections|
  {
    if |sections| == 0 then None
    else if sections[0].heading == OverviewHeading then Some(sections[0].content)
    else Overview(sections[1..])
  }

  /** `formatDocument`: the AI output becomes, unchanged, the single
      overview section of a document with the fixed title. */
  function FormatDocument(aiOutput: string): (d: FormattedDocument)
    ensures d.title == Title && |d.sections| == 1
    ensures Overview(d.sections) == Some(aiOutput)
  {
    FormattedDocument(Title, [Section(OverviewHeading, aiOutput)])
  }

  /** Different AI outputs give different documents. */
  lemma FormatDocumentInjective(a: string, b: string)
    requires FormatDocument(a) == FormatDocument(b)
    ensures a == b
  {
    assert Overview(FormatDocument(a).sections) == Some(a);
  }

  predicate Owned(f: FileRow, projectId: Id, userId: Id) {
    f.projectId == projectId && f.userId == userId
  }

  /** The `files` query: the rows of the project and the user, newest
      first, at most one (of rows created at the same instant, the first). */
  function Newest(files: seq<FileRow>, projectId: Id, userId: Id): (r: Option<FileRow>)
    ensures r.None? <==> forall k :: 0 <= k < |files| ==> !Owned(files[k], projectId, userId)
    ensures r.Some? ==> r.value in files && Owned(r.value, projectId, userId)
    ensures r.Some? ==> forall k :: 0 <= k < |files| && Owned(files[k], projectId, userId) ==> files[k].createdAt <= r.value.createdAt
    decreases |files|
  {
    if |files| == 0 then None
    else
      var rest := Newest(files[1..], projectId, userId);
      if Owned(files[0], projectId, userId) && (rest.None? || rest.value.createdAt <= files[0].createdAt) then Some(files[0])
      else rest
  }

  datatype Request = Request(verb: Method, documentType: Option<string>, projectId: Option<string>)

  /** How the download of the file from storage ends: a storage error, a
      failure to read the downloaded blob as text, or its text. */
  datatype Download = DownloadError | UnreadableText | Text(text: string)

  /** What the collaborators answer: the session's user, whether the
      `files` query succeeded, the download, the AI output (`None` when the
      call throws), the uuid drawn and whether the insert succeeded. */
  datatype Env = Env(session: Option<Id>, filesOk: bool, download: Download, ai: Option<string>, newId: Id, insertOk: bool)

  datatype Body = Failure(error: string) | Generated(generationId: Id)

  const NeedsAuth := "認証が必要です。"
  const MissingFields := "documentTypeとprojectIdは必須です。"
  const FileMissing := "対象のファイルが見つかりません。"
  const ReadFailed := "ファイルの読み込みに失敗しました。"
  const SaveFailed := "ドキュメントの保存に失敗しました。"
  const GenerationFailed := "ドキュメント生成に失敗しました。"
  const NotAllowed := "許可されていないメソッドです。"

  /** The text the document is made from: the AI output, or the sample. */
  function DocumentText(ai: Option<string>): string {
    ai.GetOr(SampleContent)
  }

  /** The request passed the session, method and field checks, and the
      `files` query found the user's newest file of the project. */
  predicate FileFound(files: seq<FileRow>, req: Request, env: Env) {
    && env.session.Some? && req.verb == Post && Truthy(req.documentType) && Truthy(req.projectId)
    && env.filesOk && Newest(files, req.projectId.value, env.session.value).Some?
  }

  /** The handler, over the `documents` table and the `files` rows. */
  function Handle(documents: map<Id, DocumentRow>, files: seq<FileRow>, req: Request, env: Env): (r: (map<Id, DocumentRow>, Reply<Body>))
    ensures env.session.None? ==> r == (documents, Reply(Unauthorized, Failure(NeedsAuth)))
    ensures env.session.Some? && req.verb != Post ==> r == (documents, Reply(MethodNotAllowed, Failure(NotAllowed)))
    ensures env.session.Some? && req.verb == Post && !(Truthy(req.documentType) && Truthy(req.projectId)) ==>
      r == (documents, Reply(BadRequest, Failure(MissingFields)))
    ensures r.1.status == NotFound <==>
      env.session.Some? && req.verb == Post && Truthy(req.documentType) && Truthy(req.projectId) &&
      (!env.filesOk || Newest(files, req.projectId.value, env.session.value).None?)
    ensures r.1.status == NotFound ==> r.1.body == Failure(FileMissing)
    ensures FileFound(files, req, env) && env.download.DownloadError? ==> r == (documents, Reply(ServerError, Failure(ReadFailed)))
    ensures FileFound(files, req, env) && env.download.UnreadableText? ==> r == (documents, Reply(ServerError, Failure(GenerationFailed)))
    ensures FileFound(files, req, env) && env.download.Text? && !env.insertOk ==> r == (documents, Reply(ServerError, Failure(SaveFailed)))
    ensures r.1.status != OK ==> r.0 == documents
    ensures r.1.status == OK <==>
      env.session.Some? && req.verb == Post && Truthy(req.documentType) && Truthy(req.projectId) &&
      env.filesOk && Newest(files, req.projectId.value, env.session.value).Some? && env.download.Text? && env.insertOk
    ensures r.1.status == OK ==>
      && r.1.body == Generated(env.newId)
      && r.0 == documents[env.newId := DocumentRow(req.projectId.value, req.documentType.value, FormatDocument(DocumentText(env.ai)))]
  {
    if env.session.None? then (documents, Reply(Unauthorized, Failure(NeedsAuth)))
    else if req.verb != Post then (documents, Reply(MethodNotAllowed, Failure(NotAllowed)))
    else if !Truthy(req.documentType) || !Truthy(req.projectId) then (documents, Reply(BadRequest, Failure(MissingFields)))
    else
      var target := Newest(files, req.projectId.value, env.session.value);
      if !env.filesOk || target.None? then (documents, Reply(NotFound, Failure(FileMissing)))
      else if env.download.DownloadError? then (documents, Reply(ServerError, Failure(ReadFailed)))
      else if env.download.UnreadableText? then (documents, Reply(ServerError, Failure(GenerationFailed)))
      else
        var row := DocumentRow(req.projectId.value, req.documentType.value, FormatDocument(DocumentText(env.ai)));
        if !env.insertOk then (documents, Reply(ServerError, Failure(SaveFailed)))
        else (documents[env.newId := row], Reply(OK, Generated(env.newId)))
  }

  /** A failing AI call is never an error: it has exactly the effect of the
      AI answering with the sample text. */
  lemma AiFailureIsSample(documents: map<Id, DocumentRow>, files: seq<FileRow>, req: Request, env: Env)
    requires env.ai.None?
    ensures Handle(documents, files, req, env) == Handle(documents, files, req, env.(ai := Some(SampleContent)))
    ensures Handle(documents, files, req, env).1.status == Handle(documents, files, req, env.(ai := Some("x"))).1.status
  {
  }
}
