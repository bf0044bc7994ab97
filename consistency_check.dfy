/** The consistency check endpoint: for a POST with a bearer token of a
    known user and a list of document ids, fetch those documents, ask the AI
    to compare them (one prompt section per document), fall back to a fixed
    sample analysis when the AI call or the parse of its answer fails, store
    the analysis in `quality_checks` and echo it. */
module ConsistencyCheck {
  import opened Wrappers
  import opened Strings
  import opened Http
  import opened Query

  type Id = string

  /** A row of `documents`; `contentJson` is `JSON.stringify(content)`. */
  datatype DocRow = DocRow(id: Id, projectId: Id, docType: string, contentJson: string)

  datatype Inconsistency = Inconsistency(description: string, severity: string)

  /** The fields of the parsed analysis the handler reads; a field the AI
      left out is `None`. */
  datatype Analysis = Analysis(inconsistencies: Option<seq<Inconsistency>>, score: Option<int>, suggestions: Option<string>)

  /** A value `JSON.parse` returns, as far as the handler reads it: `null`,
      an object, or any other value (a number, string, boolean or array,
      kept as its JSON text), whose analysis fields all read as `undefined`. */
  datatype Json = JsonNull | JsonObject(analysis: Analysis) | JsonOther(text: string)

  /** The AI call threw, its answer is not JSON, or it parsed to a value. */
  datatype AiOutcome = AiFailed | NotJson | AiJson(value: Json)

  /** A row of `quality_checks`, with the parsed value as its `result`. */
  datatype CheckRow = CheckRow(projectId: Id, kind: string, result: Json)

  /** The request body's `document_ids`: missing or falsy, some value that
      is not an array, or an array of ids. */
  datatype IdsField = Absent | NotArray | IdList(ids: seq<Id>)

  datatype Request = Request(verb: Method, authorization: Option<string>, documentIds: IdsField)

  /** The collaborators' answers: the user `getUser` returns for the token,
      whether the documents query succeeded, the AI outcome and whether the
      insert succeeded. */
  datatype Env = Env(user: Option<Id>, fetchOk: bool, ai: AiOutcome, insertOk: bool)

  datatype Body =
    | Failure(error: string)
    | Summary(message: string, score: Option<int>, inconsistencies: Option<seq<Inconsistency>>, suggestions: Option<string>)

  /** The new `quality_checks` rows, the reply, and the user prompt the AI
      was asked with, if it was asked. */
  datatype Outcome = Outcome(checks: seq<CheckRow>, reply: Reply<Body>, prompt: Option<string>)

  const NotAllowed := "メソッドが許可されていません。"
  const NoCredentials := "認証情報が不足しています。"
  const AuthFailed := "認証に失敗しました。"
  const BadBody := "無効なリクエストボディです。"
  const FetchFailed := "ドキュメントの取得に失敗しました。"
  const DocumentsMissing := "指定されたドキュメントが見つかりません。"
  const SaveFailed := "チェック結果の保存に失敗しました。"
  const ServerFailure := "サーバーエラーが発生しました。"
  const Completed := "整合性チェックが完了しました。"
  const CheckKind := "整合性"

  /** The analysis used when the AI call or the parse fails. */
  const Sample := Analysis(
    Some([Inconsistency("ドキュメント1では機能Aと記載されていますが、ドキュメント2では機能Bと記載されています。", "高")]),
    Some(75),
    Some("ドキュメント間で用語と機能の定義を統一してください。"))

  const Preamble := "以下のドキュメントの内容をもとに、整合性チェックを実施してください。\n"

  /** The prompt section of the document fetched at position `n - 1`. */
  function SectionText(d: DocRow, n: nat): string {
    "\n【ドキュメント" + DecimalString(n) + "：" + d.docType + "】\n" + d.contentJson + "\n"
  }

  /** The sections of `docs`, numbered from `start`. */
  function Sections(docs: seq<DocRow>, start: nat): string
    decreases |docs|
  {
    if |docs| == 0 then "" else SectionText(docs[0], start) + Sections(docs[1..], start + 1)
  }

  /** The sections of a concatenation are the sections of each part, the
      second part numbered on from the first. */
  lemma {:induction false} SectionsAppend(a: seq<DocRow>, b: seq<DocRow>, start: nat)
    ensures Sections(a + b, start) == Sections(a, start) + Sections(b, start + |a|)
    decreases |a|
  {
    if |a| > 0 {
      assert (a + b)[1..] == a[1..] + b;
      SectionsAppend(a[1..], b, start + 1);
    } else {
      assert a + b == b;
    }
  }

  /** Document `k` contributes the section numbered `k + 1`, placed after
      the sections of the documents before it. */
  lemma SectionAt(docs: seq<DocRow>, k: nat)
    requires k < |docs|
    ensures Sections(docs, 1) == Sections(docs[..k], 1) + SectionText(docs[k], k + 1) + Sections(docs[k + 1..], k + 2)
  {
    var before, rest := docs[..k], [docs[k]] + docs[k + 1..];
    assert docs == before + rest;
    SectionsAppend(before, rest, 1);
    assert rest[0] == docs[k] && rest[1..] == docs[k + 1..];
    assert Sections(rest, k + 1) == SectionText(docs[k], k + 1) + Sections(docs[k + 1..], k + 2);
  }

  /** Section numbers are distinct: the numbers render to different text. */
  lemma SectionNumbersDistinct(m: nat, n: nat)
    requires m != n
    ensures DecimalString(m) != DecimalString(n)
  {
    DecimalRoundTrip(m);
    DecimalRoundTrip(n);
  }

  /** The `forEach` that appends one section per fetched document. */
  method BuildUserPrompt(docs: seq<DocRow>) returns (prompt: string)
    ensures prompt == Preamble + Sections(docs, 1)
  {
    prompt := Preamble;
    var i := 0;
    while i < |docs|
      invariant 0 <= i <= |docs|
      invariant prompt == Preamble + Sections(docs[..i], 1)
    {
      assert docs[..i + 1] == docs[..i] + [docs[i]];
      SectionsAppend(docs[..i], [docs[i]], 1);
      prompt := prompt + SectionText(docs[i], i + 1);
      i := i + 1;
    }
    assert docs[..|docs|] == docs;
  }

  function DocId(d: DocRow): Id { d.id }

  /** `.in('id', ids)` on `documents`. */
  function Fetch(table: seq<DocRow>, ids: seq<Id>): seq<DocRow> {
    In(table, DocId, ids)
  }

  /** The stored analysis: the sample object when the AI call failed or its
      answer is not JSON, otherwise the parsed value, `null` included. */
  function AnalysisOf(ai: AiOutcome): (v: Json)
    ensures v == JsonNull <==> ai == AiJson(JsonNull)
    ensures ai.AiJson? ==> v == ai.value
    ensures !ai.AiJson? ==> v == JsonObject(Sample)
  {
    match ai
    case AiFailed => JsonObject(Sample)
    case NotJson => JsonObject(Sample)
    case AiJson(x) => x
  }

  /** The analysis fields read off a non-null value: those of an object,
      `undefined` for every other value. */
  function Fields(v: Json): Analysis
    requires v != JsonNull
  {
    if v.JsonObject? then v.analysis else Analysis(None, None, None)
  }

  /** Both fallbacks give the same sample, with score 75 and one
      inconsistency of severity `高`. */
  lemma FallbacksAgree()
    ensures AnalysisOf(AiFailed) == AnalysisOf(NotJson) == JsonObject(Sample)
    ensures Sample.score == Some(75)
    ensures Sample.inconsistencies.Some? && |Sample.inconsistencies.value| == 1
    ensures Sample.inconsistencies.value[0].severity == "高"
  {
  }

  /** The request passed the method, token, user and body checks. */
  predicate Accepted(req: Request, env: Env) {
    req.verb == Post && Token(req.authorization, " ").Some? && env.user.Some? && req.documentIds.IdList?
  }

  function Fail(checks: seq<CheckRow>, status: int, error: string, prompt: Option<string>): Outcome {
    Outcome(checks, Reply(status, Failure(error)), prompt)
  }

  /** The handler, over the `documents` rows and the `quality_checks` rows. */
  function Handle(documents: seq<DocRow>, checks: seq<CheckRow>, req: Request, env: Env): (o: Outcome)
    ensures req.verb != Post ==> o == Fail(checks, MethodNotAllowed, NotAllowed, None)
    ensures req.verb == Post && Token(req.authorization, " ").None? ==> o == Fail(checks, Unauthorized, NoCredentials, None)
    ensures req.verb == Post && Token(req.authorization, " ").Some? && env.user.None? ==>
      o == Fail(checks, Unauthorized, AuthFailed, None)
    ensures req.verb == Post && Token(req.authorization, " ").Some? && env.user.Some? && !req.documentIds.IdList? ==>
      o == Fail(checks, BadRequest, BadBody, None)
    ensures Accepted(req, env) && !env.fetchOk ==> o == Fail(checks, ServerError, FetchFailed, None)
    ensures o.reply.status == NotFound <==>
      Accepted(req, env) && env.fetchOk && forall k :: 0 <= k < |documents| ==> documents[k].id !in req.documentIds.ids
    ensures o.reply.status == NotFound ==> o == Fail(checks, NotFound, DocumentsMissing, None)
    ensures o.prompt.Some? <==> Accepted(req, env) && env.fetchOk && |Fetch(documents, req.documentIds.ids)| > 0
    ensures o.prompt.Some? ==> o.prompt.value == Preamble + Sections(Fetch(documents, req.documentIds.ids), 1)
    ensures o.prompt.Some? && !env.insertOk ==> o == Fail(checks, ServerError, SaveFailed, o.prompt)
    ensures o.checks != checks && AnalysisOf(env.ai) == JsonNull ==> o.reply == Reply(ServerError, Failure(ServerFailure))
    ensures o.checks != checks <==> o.prompt.Some? && env.insertOk
    ensures o.checks != checks ==>
      var fetched := Fetch(documents, req.documentIds.ids);
      o.checks == checks + [CheckRow(fetched[0].projectId, CheckKind, AnalysisOf(env.ai))]
    ensures o.reply.status == OK <==> o.checks != checks && AnalysisOf(env.ai) != JsonNull
    ensures o.reply.status == OK ==>
      var a := Fields(o.checks[|checks|].result);
      o.reply.body == Summary(Completed, a.score, a.inconsistencies, a.suggestions)
  {
    if req.verb != Post then Fail(checks, MethodNotAllowed, NotAllowed, None)
    else if Token(req.authorization, " ").None? then Fail(checks, Unauthorized, NoCredentials, None)
    else if env.user.None? then Fail(checks, Unauthorized, AuthFailed, None)
    else if !req.documentIds.IdList? then Fail(checks, BadRequest, BadBody, None)
    else if !env.fetchOk then Fail(checks, ServerError, FetchFailed, None)
    else
      var fetched := Fetch(documents, req.documentIds.ids);
      if |fetched| == 0 then Fail(checks, NotFound, DocumentsMissing, None)
      else
        var prompt := Some(Preamble + Sections(fetched, 1));
        var analysis := AnalysisOf(env.ai);
        if !env.insertOk then Fail(checks, ServerError, SaveFailed, prompt)
        else
          var stored := checks + [CheckRow(fetched[0].projectId, CheckKind, analysis)];
          if analysis == JsonNull then
            // reading a field of `null` throws after the row is stored
            Fail(stored, ServerError, ServerFailure, prompt)
          else
            var a := Fields(analysis);
            Outcome(stored, Reply(OK, Summary(Completed, a.score, a.inconsistencies, a.suggestions)), prompt)
  }

  /** When the AI call fails the check still succeeds (if the documents are
      found and the insert works) and reports the sample's score of 75. */
  lemma AiFailureReportsSample(documents: seq<DocRow>, checks: seq<CheckRow>, req: Request, env: Env)
    requires req.verb == Post && Token(req.authorization, " ").Some? && env.user.Some? && env.insertOk && env.fetchOk
    requires req.documentIds.IdList? && |Fetch(documents, req.documentIds.ids)| > 0
    requires env.ai == AiFailed || env.ai == NotJson
    ensures Handle(documents, checks, req, env).reply == Reply(OK, Summary(Completed, Some(75), Sample.inconsistencies, Sample.suggestions))
  {
  }

  /** An answer that parses to a value other than an object or `null` is
      stored as it is and answered with 200 and no analysis fields. */
  lemma NonObjectAnswerStored(documents: seq<DocRow>, checks: seq<CheckRow>, req: Request, env: Env, text: string)
    requires Accepted(req, env) && env.fetchOk && env.insertOk && |Fetch(documents, req.documentIds.ids)| > 0
    requires env.ai == AiJson(JsonOther(text))
    ensures Handle(documents, checks, req, env).checks[|checks|].result == JsonOther(text)
    ensures Handle(documents, checks, req, env).reply == Reply(OK, Summary(Completed, None, None, None))
  {
  }
}
