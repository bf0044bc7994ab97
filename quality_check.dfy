/** The quality check endpoint: for a POST with a bearer token of a known
    user, fetch the selected documents and source codes, build one check per
    item (the issue list of the local generator stub and a random score),
    insert all checks into `quality_checks`, document checks first, and
    answer with a summary of them. */
module QualityCheck {
  import opened Wrappers
  import opened Http
  import opened Query

  type Id = string

  /** A row of `documents` or of `source_codes`, as far as the check reads it. */
  datatype Item = Item(id: Id, projectId: Id, content: string)

  datatype Issue = Issue(kind: string, description: string, severity: string)

  datatype CheckResult = CheckResult(score: int, issues: seq<Issue>)

  /** A row of `quality_checks`. */
  datatype CheckRow = CheckRow(projectId: Id, kind: string, result: CheckResult)

  /** An element of the response's `results`. */
  datatype SummaryEntry = SummaryEntry(projectId: Id, kind: string, score: int)

  datatype Request = Request(
    verb: Method, authorization: Option<string>,
    selectedDocumentIds: Option<seq<Id>>, selectedSourceCodeIds: Option<seq<Id>>)

  /** The collaborators' answers: the user of the token, whether each fetch
      succeeded, the values `Math.floor(Math.random() * 100)` takes for the
      document checks and for the source checks, in order, and whether the
      insert succeeded. */
  datatype Env = Env(
    user: Option<Id>, documentsOk: bool, sourceCodesOk: bool,
    documentScores: seq<int>, sourceScores: seq<int>, insertOk: bool)

  datatype Body = Failure(error: string) | Completed(message: string, results: seq<SummaryEntry>)

  const NotAllowed := "許可されていないメソッドです。"
  const NoCredentials := "認証情報がありません。"
  const AuthFailed := "認証に失敗しました。"
  const DocumentsFailed := "ドキュメントの取得に失敗しました。"
  const SourceCodesFailed := "ソースコードの取得に失敗しました。"
  const SaveFailed := "チェック結果の保存に失敗しました。"
  const Done := "品質チェックが完了しました。"
  const DocumentKind := "ドキュメント"
  const SourceKind := "ソースコード"

  const StubIssues := [Issue("構文エラー", "サンプルのエラーメッセージです。", "高")]

  /** The file's own `getLlmModelAndGenerateContent`: it ignores its
      arguments and its `try` block cannot throw, so it always answers with
      the same one-element issue list. */
  function GenerateContent(apiName: string, systemPrompt: string, userPrompt: string): (issues: seq<Issue>)
    ensures |issues| == 1 && issues[0].kind == "構文エラー" && issues[0].severity == "高"
  {
    StubIssues
  }

  predicate IsScore(s: int) {
    0 <= s <= 99
  }

  /** `items.map(...)`: one check per item, in order, of the given kind,
      carrying the item's project and the score drawn for it. */
  function Checks(items: seq<Item>, kind: string, scores: seq<int>): (cs: seq<CheckRow>)
    requires |scores| == |items|
    ensures |cs| == |items|
    ensures forall k :: 0 <= k < |cs| ==> cs[k].projectId == items[k].projectId && cs[k].kind == kind
    ensures forall k :: 0 <= k < |cs| ==> cs[k].result == CheckResult(scores[k], StubIssues)
    decreases |items|
  {
    if |items| == 0 then []
    else
      var check := CheckRow(items[0].projectId, kind, CheckResult(scores[0], GenerateContent("ChatGPT", "", items[0].content)));
      [check] + Checks(items[1..], kind, scores[1..])
  }

  /** The `results` of the response: each check's project, kind and score. */
  function Summary(checks: seq<CheckRow>): (s: seq<SummaryEntry>)
    ensures |s| == |checks|
    ensures forall k :: 0 <= k < |s| ==> s[k] == SummaryEntry(checks[k].projectId, checks[k].kind, checks[k].result.score)
    decreases |checks|
  {
    if |checks| == 0 then [] else [SummaryEntry(checks[0].projectId, checks[0].kind, checks[0].result.score)] + Summary(checks[1..])
  }

  /** The summary of a concatenation is the concatenation of the summaries. */
  lemma {:induction false} SummaryAppend(a: seq<CheckRow>, b: seq<CheckRow>)
    ensures Summary(a + b) == Summary(a) + Summary(b)
    decreases |a|
  {
    if |a| == 0 {
      assert a + b == b;
    } else {
      assert (a + b)[1..] == a[1..] + b;
      SummaryAppend(a[1..], b);
    }
  }

  /** `[...documentChecks, ...sourceCodeChecks]`. */
  function AllChecks(docs: seq<Item>, codes: seq<Item>, docScores: seq<int>, codeScores: seq<int>): (all: seq<CheckRow>)
    requires |docScores| == |docs| && |codeScores| == |codes|
    ensures |all| == |docs| + |codes|
    ensures forall k :: 0 <= k < |docs| ==> all[k].kind == DocumentKind && all[k].projectId == docs[k].projectId
    ensures forall k :: 0 <= k < |codes| ==> all[|docs| + k].kind == SourceKind && all[|docs| + k].projectId == codes[k].projectId
    ensures (forall k :: 0 <= k < |docScores| ==> IsScore(docScores[k])) && (forall k :: 0 <= k < |codeScores| ==> IsScore(codeScores[k])) ==>
      forall k :: 0 <= k < |all| ==> IsScore(all[k].result.score)
  {
    Checks(docs, DocumentKind, docScores) + Checks(codes, SourceKind, codeScores)
  }

  function ItemId(i: Item): Id { i.id }

  /** The documents and the source codes a request selects; an absent id
      list selects nothing. */
  function SelectedDocuments(documents: seq<Item>, req: Request): seq<Item> {
    In(documents, ItemId, req.selectedDocumentIds.GetOr([]))
  }

  function SelectedSources(sourceCodes: seq<Item>, req: Request): seq<Item> {
    In(sourceCodes, ItemId, req.selectedSourceCodeIds.GetOr([]))
  }

  /** The environment draws one score per selected item, each a value of
      `Math.floor(Math.random() * 100)`. */
  predicate ScoresFit(documents: seq<Item>, sourceCodes: seq<Item>, req: Request, env: Env) {
    && |env.documentScores| == |SelectedDocuments(documents, req)|
    && |env.sourceScores| == |SelectedSources(sourceCodes, req)|
    && (forall k :: 0 <= k < |env.documentScores| ==> IsScore(env.documentScores[k]))
    && (forall k :: 0 <= k < |env.sourceScores| ==> IsScore(env.sourceScores[k]))
  }

  predicate Authorised(req: Request, env: Env) {
    req.verb == Post && Token(req.authorization, " ").Some? && env.user.Some?
  }

  /** The handler, over `documents`, `source_codes` and `quality_checks`. */
  function Handle(documents: seq<Item>, sourceCodes: seq<Item>, checks: seq<CheckRow>, req: Request, env: Env): (r: (seq<CheckRow>, Reply<Body>))
    requires ScoresFit(documents, sourceCodes, req, env)
    ensures req.verb != Post ==> r == (checks, Reply(MethodNotAllowed, Failure(NotAllowed)))
    ensures req.verb == Post && Token(req.authorization, " ").None? ==> r == (checks, Reply(Unauthorized, Failure(NoCredentials)))
    ensures req.verb == Post && Token(req.authorization, " ").Some? && env.user.None? ==> r == (checks, Reply(Unauthorized, Failure(AuthFailed)))
    ensures Authorised(req, env) && !env.documentsOk ==> r == (checks, Reply(ServerError, Failure(DocumentsFailed)))
    ensures Authorised(req, env) && env.documentsOk && !env.sourceCodesOk ==> r == (checks, Reply(ServerError, Failure(SourceCodesFailed)))
    ensures Authorised(req, env) && env.documentsOk && env.sourceCodesOk && !env.insertOk ==> r == (checks, Reply(ServerError, Failure(SaveFailed)))
    ensures r.1.status != OK ==> r.0 == checks
    ensures r.1.status == OK <==> Authorised(req, env) && env.documentsOk && env.sourceCodesOk && env.insertOk
    ensures r.1.status == OK ==>
      var all := AllChecks(SelectedDocuments(documents, req), SelectedSources(sourceCodes, req), env.documentScores, env.sourceScores);
      && r.0 == checks + all
      && r.1.body == Completed(Done, Summary(all))
  {
    if req.verb != Post then (checks, Reply(MethodNotAllowed, Failure(NotAllowed)))
    else if Token(req.authorization, " ").None? then (checks, Reply(Unauthorized, Failure(NoCredentials)))
    else if env.user.None? then (checks, Reply(Unauthorized, Failure(AuthFailed)))
    else if !env.documentsOk then (checks, Reply(ServerError, Failure(DocumentsFailed)))
    else if !env.sourceCodesOk then (checks, Reply(ServerError, Failure(SourceCodesFailed)))
    else
      var all := AllChecks(SelectedDocuments(documents, req), SelectedSources(sourceCodes, req), env.documentScores, env.sourceScores);
      if !env.insertOk then (checks, Reply(ServerError, Failure(SaveFailed)))
      else (checks + all, Reply(OK, Completed(Done, Summary(all))))
  }

  /** A successful check stores one row per selected item, and the summary
      lists the document checks first, then the source checks, each with a
      score in [0, 99]. */
  lemma SuccessSummary(documents: seq<Item>, sourceCodes: seq<Item>, checks: seq<CheckRow>, req: Request, env: Env)
    requires ScoresFit(documents, sourceCodes, req, env)
    requires Handle(documents, sourceCodes, checks, req, env).1.status == OK
    ensures var r := Handle(documents, sourceCodes, checks, req, env);
      var docs := SelectedDocuments(documents, req);
      var codes := SelectedSources(sourceCodes, req);
      && |r.0| == |checks| + |docs| + |codes|
      && r.1.body.Completed?
      && r.1.body.results == Summary(Checks(docs, DocumentKind, env.documentScores)) + Summary(Checks(codes, SourceKind, env.sourceScores))
      && (forall k :: 0 <= k < |r.1.body.results| ==> IsScore(r.1.body.results[k].score))
  {
    var docs := SelectedDocuments(documents, req);
    var codes := SelectedSources(sourceCodes, req);
    SummaryAppend(Checks(docs, DocumentKind, env.documentScores), Checks(codes, SourceKind, env.sourceScores));
  }

  /** With no ids given, nothing is selected and the check stores nothing. */
  lemma NoIdsNoChecks(documents: seq<Item>, sourceCodes: seq<Item>, checks: seq<CheckRow>, req: Request, env: Env)
    requires req.selectedDocumentIds.None? && req.selectedSourceCodeIds.None?
    requires ScoresFit(documents, sourceCodes, req, env)
    ensures Handle(documents, sourceCodes, checks, req, env).0 == checks
  {
    InNothing(documents, ItemId);
    InNothing(sourceCodes, ItemId);
  }
}
