/** The progress report endpoint: for a POST naming a project and a period,
    check the project exists, collect the documents and source codes
    created in the period, draw a progress figure for each of the five
    phases, average them, write an activity log, ask the AI for the major
    issues (a fixed "no issues" text when it fails) and store the report in
    `progress_reports`. */
module ProgressReport {
  import opened Wrappers
  import opened Strings
  import opened Http
  import opened Query

  type Id = string

  /** A timestamp as the store compares it (`at`) and as it renders it
      into text (`text`). */
  datatype Instant = Instant(at: int, text: string)

  /** A row of `documents`, as far as the report reads it. */
  datatype DocRow = DocRow(projectId: Id, docType: string, createdAt: Instant)

  /** A row of `source_codes`, as far as the report reads it. */
  datatype CodeRow = CodeRow(projectId: Id, fileName: string, createdAt: Instant, updatedAt: Instant)

  datatype PhaseProgress = PhaseProgress(name: string, progress: int, status: string)

  /** The stored `report` object. */
  datatype Report = Report(overallProgress: int, phases: seq<PhaseProgress>, majorIssues: string)

  /** A row of `progress_reports`. */
  datatype ReportRow = ReportRow(projectId: Id, report: Report)

  /** A date field of the body: missing, or its text and the instant the
      store reads it as. */
  datatype DateField = Missing | Given(text: string, at: int)

  datatype Request = Request(verb: Method, projectId: Option<string>, startDate: DateField, endDate: DateField)

  /** The insert's outcome: an error, or the stored row's generated id. */
  datatype Insert = InsertError | Inserted(id: Id)

  /** The collaborators' answers: whether the two fetches succeeded, the
      five values of `Math.floor(Math.random() * 100)`, the AI answer
      (`None` when it throws) and the insert. */
  datatype Env = Env(documentsOk: bool, sourceCodesOk: bool, draws: seq<int>, ai: Option<string>, insert: Insert)

  datatype Body = Failure(error: string) | Created(reportId: Id)

  /** The rows after the request, the response, and the prompt sent to the
      AI if the handler got as far as calling it. */
  datatype Outcome = Outcome(reports: map<Id, ReportRow>, reply: Reply<Body>, prompt: Option<string>)

  const MissingFields := "プロジェクトID、開始日、終了日を指定してください。"
  const UnknownProject := "無効なプロジェクトIDです。"
  const DocumentsFailed := "ドキュメントの取得中にエラーが発生しました。"
  const SourceCodesFailed := "ソースコードの取得中にエラーが発生しました。"
  const SaveFailed := "レポートの保存中にエラーが発生しました。"
  const NotSupported := "このメソッドはサポートされていません。"
  const NoIssues := "現在のところ、特筆すべき課題や遅延要因はありません。"
  const InProgress := "進行中"
  const PromptHead := "以下のプロジェクトの活動ログに基づいて、主要な課題や遅延要因を特定してください。\n\n活動ログ:\n"

  const PhaseNames := ["要件定義", "設計", "開発", "テスト", "リリース"]

  predicate IsDraw(v: int) {
    0 <= v <= 99
  }

  /** `phases.map(...)`: the phases in their fixed order, each in progress
      with the value drawn for it. */
  function Phases(draws: seq<int>): (ps: seq<PhaseProgress>)
    requires |draws| == |PhaseNames|
    ensures |ps| == 5
    ensures forall k :: 0 <= k < 5 ==> ps[k] == PhaseProgress(PhaseNames[k], draws[k], InProgress)
  {
    seq(5, k requires 0 <= k < 5 => PhaseProgress(PhaseNames[k], draws[k], InProgress))
  }

  /** The `reduce` summing the phases' progress. */
  function ProgressSum(ps: seq<PhaseProgress>): int
    decreases |ps|
  {
    if |ps| == 0 then 0 else ps[0].progress + ProgressSum(ps[1..])
  }

  /** A sum of values within `[lo, hi]` lies within `[n * lo, n * hi]`. */
  lemma {:induction false} SumBounds(ps: seq<PhaseProgress>, lo: int, hi: int)
    requires forall k :: 0 <= k < |ps| ==> lo <= ps[k].progress <= hi
    ensures |ps| * lo <= ProgressSum(ps) <= |ps| * hi
    decreases |ps|
  {
    if |ps| > 0 {
      SumBounds(ps[1..], lo, hi);
    }
  }

  /** `Math.floor(sum / phases.length)` for five phases. */
  function OverallProgress(ps: seq<PhaseProgress>): (overall: int)
    ensures overall * 5 <= ProgressSum(ps) < overall * 5 + 5
  {
    ProgressSum(ps) / 5
  }

  /** The overall figure lies between the smallest and the largest phase
      value; with draws in `[0, 99]` it lies in `[0, 99]`. */
  lemma OverallWithinPhases(ps: seq<PhaseProgress>, lo: int, hi: int)
    requires |ps| == 5
    requires forall k :: 0 <= k < 5 ==> lo <= ps[k].progress <= hi
    ensures lo <= OverallProgress(ps) <= hi
  {
    SumBounds(ps, lo, hi);
  }

  function DocumentActivity(d: DocRow): string {
    d.docType + "ドキュメントが作成されました (" + d.createdAt.text + ")"
  }

  function CodeActivity(c: CodeRow): string {
    "ソースコードファイル" + c.fileName + "が更新されました (" + c.updatedAt.text + ")"
  }

  /** The activity log: one line per document, then, pushed after them,
      one line per source code, each list in fetch order. */
  function Activities(docs: seq<DocRow>, codes: seq<CodeRow>): (log: seq<string>)
    ensures |log| == |docs| + |codes|
    ensures forall k :: 0 <= k < |docs| ==> log[k] == DocumentActivity(docs[k])
    ensures forall k :: 0 <= k < |codes| ==> log[|docs| + k] == CodeActivity(codes[k])
  {
    seq(|docs|, k requires 0 <= k < |docs| => DocumentActivity(docs[k]))
      + seq(|codes|, k requires 0 <= k < |codes| => CodeActivity(codes[k]))
  }

  function Prompt(log: seq<string>): string {
    PromptHead + Join(log, "\n")
  }

  /** The log can be read back from the prompt, line by line, when no
      entry spans several lines. */
  lemma PromptCarriesLog(log: seq<string>)
    requires |log| >= 1
    requires forall k :: 0 <= k < |log| ==> '\n' !in log[k]
    ensures Prompt(log)[|PromptHead|..] == Join(log, "\n")
    ensures Split(Prompt(log)[|PromptHead|..], "\n") == log
  {
    SplitJoin(log, '\n');
  }

  predicate InPeriod(at: int, startAt: int, endAt: int) {
    startAt <= at <= endAt
  }

  /** The `.eq`, `.gte` and `.lte` filters: the project's rows created in
      the period, both ends included. */
  function DocumentsIn(documents: seq<DocRow>, projectId: Id, startAt: int, endAt: int): (r: seq<DocRow>)
    ensures forall k :: 0 <= k < |r| ==> r[k] in documents && r[k].projectId == projectId && startAt <= r[k].createdAt.at <= endAt
    ensures forall k :: 0 <= k < |documents| && documents[k].projectId == projectId && startAt <= documents[k].createdAt.at <= endAt ==>
      documents[k] in r
  {
    Where(documents, (d: DocRow) => d.projectId == projectId && InPeriod(d.createdAt.at, startAt, endAt))
  }

  /** The same filters on `source_codes`, by `created_at`. */
  function CodesIn(sourceCodes: seq<CodeRow>, projectId: Id, startAt: int, endAt: int): (r: seq<CodeRow>)
    ensures forall k :: 0 <= k < |r| ==> r[k] in sourceCodes && r[k].projectId == projectId && startAt <= r[k].createdAt.at <= endAt
    ensures forall k :: 0 <= k < |sourceCodes| && sourceCodes[k].projectId == projectId && startAt <= sourceCodes[k].createdAt.at <= endAt ==>
      sourceCodes[k] in r
  {
    Where(sourceCodes, (c: CodeRow) => c.projectId == projectId && InPeriod(c.createdAt.at, startAt, endAt))
  }

  predicate Filled(date: DateField) {
    date.Given? && date.text != ""
  }

  function Fail(reports: map<Id, ReportRow>, status: int, error: string, prompt: Option<string>): Outcome {
    Outcome(reports, Reply(status, Failure(error)), prompt)
  }

  /** The body names a known project and both dates. */
  predicate Valid(projects: set<Id>, req: Request) {
    req.verb == Post && Truthy(req.projectId) && Filled(req.startDate) && Filled(req.endDate) && req.projectId.value in projects
  }

  /** The handler, over the project ids, `documents`, `source_codes` and
      `progress_reports`. */
  function Handle(projects: set<Id>, documents: seq<DocRow>, sourceCodes: seq<CodeRow>, reports: map<Id, ReportRow>, req: Request, env: Env): (o: Outcome)
    requires |env.draws| == 5
    ensures req.verb != Post ==> o == Fail(reports, MethodNotAllowed, NotSupported, None)
    ensures req.verb == Post && !(Truthy(req.projectId) && Filled(req.startDate) && Filled(req.endDate)) ==>
      o == Fail(reports, BadRequest, MissingFields, None)
    ensures o.reply.status == BadRequest <==>
      req.verb == Post && !(Truthy(req.projectId) && Filled(req.startDate) && Filled(req.endDate) && req.projectId.value in projects)
    ensures req.verb == Post && Truthy(req.projectId) && Filled(req.startDate) && Filled(req.endDate) && req.projectId.value !in projects ==>
      o == Fail(reports, BadRequest, UnknownProject, None)
    ensures Valid(projects, req) && !env.documentsOk ==> o == Fail(reports, ServerError, DocumentsFailed, None)
    ensures Valid(projects, req) && env.documentsOk && !env.sourceCodesOk ==> o == Fail(reports, ServerError, SourceCodesFailed, None)
    ensures o.reply.status != OK ==> o.reports == reports
    ensures o.prompt.Some? <==> Valid(projects, req) && env.documentsOk && env.sourceCodesOk
    ensures o.prompt.Some? && env.insert.InsertError? ==> o.reply == Reply(ServerError, Failure(SaveFailed))
    ensures o.prompt.Some? ==>
      var p := req.projectId.value;
      var s := req.startDate.at;
      var e := req.endDate.at;
      o.prompt.value == Prompt(Activities(DocumentsIn(documents, p, s, e), CodesIn(sourceCodes, p, s, e)))
    ensures o.reply.status == OK <==> o.prompt.Some? && env.insert.Inserted?
    ensures o.reply.status == OK ==>
      var ps := Phases(env.draws);
      && o.reply.body == Created(env.insert.id)
      && o.reports == reports[env.insert.id := ReportRow(req.projectId.value, Report(OverallProgress(ps), ps, env.ai.GetOr(NoIssues)))]
  {
    if req.verb != Post then Fail(reports, MethodNotAllowed, NotSupported, None)
    else if !Truthy(req.projectId) || !Filled(req.startDate) || !Filled(req.endDate) then Fail(reports, BadRequest, MissingFields, None)
    else if req.projectId.value !in projects then Fail(reports, BadRequest, UnknownProject, None)
    else if !env.documentsOk then Fail(reports, ServerError, DocumentsFailed, None)
    else if !env.sourceCodesOk then Fail(reports, ServerError, SourceCodesFailed, None)
    else
      var p := req.projectId.value;
      var ps := Phases(env.draws);
      var log := Activities(DocumentsIn(documents, p, req.startDate.at, req.endDate.at), CodesIn(sourceCodes, p, req.startDate.at, req.endDate.at));
      var report := Report(OverallProgress(ps), ps, env.ai.GetOr(NoIssues));
      match env.insert
      case InsertError => Fail(reports, ServerError, SaveFailed, Some(Prompt(log)))
      case Inserted(id) => Outcome(reports[id := ReportRow(p, report)], Reply(OK, Created(id)), Some(Prompt(log)))
  }

  /** A stored report always has the five phases in order, all in
      progress, and an overall figure in `[0, 99]` no larger than the
      largest phase figure; a failed AI call stores the "no issues" text. */
  lemma StoredReportShape(projects: set<Id>, documents: seq<DocRow>, sourceCodes: seq<CodeRow>, reports: map<Id, ReportRow>, req: Request, env: Env, top: int)
    requires |env.draws| == 5 && forall k :: 0 <= k < 5 ==> IsDraw(env.draws[k]) && env.draws[k] <= top
    requires Handle(projects, documents, sourceCodes, reports, req, env).reply.status == OK
    ensures var o := Handle(projects, documents, sourceCodes, reports, req, env);
      var r := o.reports[env.insert.id].report;
      && |r.phases| == 5
      && (forall k :: 0 <= k < 5 ==> r.phases[k].name == PhaseNames[k] && r.phases[k].status == InProgress)
      && 0 <= r.overallProgress <= 99
      && r.overallProgress <= top
      && (env.ai.None? ==> r.majorIssues == NoIssues)
  {
    var ps := Phases(env.draws);
    OverallWithinPhases(ps, 0, 99);
    OverallWithinPhases(ps, 0, top);
  }

  /** A row dated on either end of the period is kept. */
  lemma PeriodInclusive(documents: seq<DocRow>, projectId: Id, startAt: int, endAt: int, k: nat)
    requires k < |documents| && documents[k].projectId == projectId
    requires documents[k].createdAt.at == startAt || documents[k].createdAt.at == endAt
    requires startAt <= endAt
    ensures documents[k] in DocumentsIn(documents, projectId, startAt, endAt)
  {
  }
}
