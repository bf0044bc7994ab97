/** The work estimation endpoint: for an authenticated POST naming a
    project, measure the project's documents (length of their serialised
    content) and source codes (line count), average the totals of all past
    estimates, ask the AI for an estimate, pick one of two fixed estimates
    depending on whether the AI answered, store it in `work_estimates` and
    return it. */
module WorkEstimation {
  import opened Wrappers
  import opened Strings
  import opened Http
  import opened Query

  type Id = string

  /** A row of `documents`; `contentJson` is `JSON.stringify(content)`. */
  datatype DocRow = DocRow(projectId: Id, contentJson: string)

  /** A row of `source_codes`. */
  datatype CodeRow = CodeRow(projectId: Id, content: string)

  datatype Phase = Phase(phase: string, hours: int)

  /** The `estimate` object: a total and its breakdown by phase. */
  datatype Estimate = Estimate(totalHours: int, breakdown: seq<Phase>)

  /** A row of `work_estimates`. */
  datatype EstimateRow = EstimateRow(projectId: Id, estimate: Estimate)

  datatype Request = Request(verb: Method, projectId: Option<string>)

  /** The collaborators' answers: the cookie's user, whether each of the
      three queries succeeded, the AI answer (`None` when it throws) and
      whether the insert succeeded. */
  datatype Env = Env(user: Option<Id>, documentsOk: bool, sourceCodesOk: bool, pastOk: bool, ai: Option<string>, insertOk: bool)

  /** The figures the AI prompt reports. */
  datatype Figures = Figures(documentComplexity: nat, totalLinesOfCode: nat, averagePastHours: real)

  datatype Body = Failure(error: string) | Estimated(message: string, estimate: Estimate)

  /** The rows after the request, the response, and the figures the AI
      was asked about if the handler got as far as calling it. */
  datatype Outcome = Outcome(estimates: seq<EstimateRow>, reply: Reply<Body>, asked: Option<Figures>)

  const NeedsAuth := "認証が必要です。"
  const PostOnly := "このエンドポイントはPOSTリクエストのみを受け付けます。"
  const MissingProject := "プロジェクトIDが必要です。"
  const ServerFailure := "サーバーエラーが発生しました。"
  const Done := "工数見積が完了しました。"

  const WithAnswer := Estimate(120, [Phase("要件定義", 20), Phase("設計", 30), Phase("実装", 50), Phase("テスト", 20)])
  const WithoutAnswer := Estimate(100, [Phase("要件定義", 15), Phase("設計", 25), Phase("実装", 40), Phase("テスト", 20)])

  /** The sum of the hours of a breakdown. */
  function BreakdownHours(b: seq<Phase>): int
    decreases |b|
  {
    if |b| == 0 then 0 else b[0].hours + BreakdownHours(b[1..])
  }

  /** The estimate stored: the larger one when the AI answer is truthy. */
  function SelectEstimate(ai: Option<string>): (e: Estimate)
    ensures e.totalHours == BreakdownHours(e.breakdown)
    ensures Truthy(ai) ==> e.totalHours == 120
    ensures !Truthy(ai) ==> e.totalHours == 100
    ensures |e.breakdown| == 4
    ensures forall k :: 0 <= k < 4 ==> e.breakdown[k].phase == WithAnswer.breakdown[k].phase
  {
    if Truthy(ai) then WithAnswer else WithoutAnswer
  }

  /** The total length of the serialised contents. */
  function Complexity(docs: seq<DocRow>): nat
    decreases |docs|
  {
    if |docs| == 0 then 0 else Complexity(docs[..|docs| - 1]) + |docs[|docs| - 1].contentJson|
  }

  /** The total of `content.split('\n').length` over the files. */
  function LinesOfCode(codes: seq<CodeRow>): nat
    decreases |codes|
  {
    if |codes| == 0 then 0 else LinesOfCode(codes[..|codes| - 1]) + |Split(codes[|codes| - 1].content, "\n")|
  }

  /** The total number of newline characters in the files. */
  function Newlines(codes: seq<CodeRow>): nat
    decreases |codes|
  {
    if |codes| == 0 then 0 else Newlines(codes[..|codes| - 1]) + Count(codes[|codes| - 1].content, '\n')
  }

  /** Each file counts its newlines plus one. */
  lemma {:induction false} LinesAreNewlinesPlusOne(codes: seq<CodeRow>)
    ensures LinesOfCode(codes) == Newlines(codes) + |codes|
    decreases |codes|
  {
    if |codes| > 0 {
      LinesAreNewlinesPlusOne(codes[..|codes| - 1]);
      SplitCharLength(codes[|codes| - 1].content, '\n');
    }
  }

  /** The sum of the past estimates' totals. */
  function HoursTotal(past: seq<EstimateRow>): int
    decreases |past|
  {
    if |past| == 0 then 0 else HoursTotal(past[..|past| - 1]) + past[|past| - 1].estimate.totalHours
  }

  /** The `forEach` accumulating `documentComplexity`. */
  method DocumentComplexity(docs: seq<DocRow>) returns (c: nat)
    ensures c == Complexity(docs)
  {
    c := 0;
    var i := 0;
    while i < |docs|
      invariant 0 <= i <= |docs|
      invariant c == Complexity(docs[..i])
    {
      assert docs[..i + 1][..i] == docs[..i];
      c := c + |docs[i].contentJson|;
      i := i + 1;
    }
    assert docs[..|docs|] == docs;
  }

  /** The `forEach` accumulating `totalLinesOfCode`. */
  method TotalLinesOfCode(codes: seq<CodeRow>) returns (n: nat)
    ensures n == LinesOfCode(codes)
    ensures n == Newlines(codes) + |codes|
  {
    n := 0;
    var i := 0;
    while i < |codes|
      invariant 0 <= i <= |codes|
      invariant n == LinesOfCode(codes[..i])
    {
      assert codes[..i + 1][..i] == codes[..i];
      n := n + |Split(codes[i].content, "\n")|;
      i := i + 1;
    }
    assert codes[..|codes|] == codes;
    LinesAreNewlinesPlusOne(codes);
  }

  /** The mean of the past totals, with exact division. */
  function Average(past: seq<EstimateRow>): (avg: real)
    ensures |past| == 0 ==> avg == 100.0
    ensures |past| > 0 ==> avg * (|past| as real) == HoursTotal(past) as real
  {
    if |past| == 0 then 100.0 else HoursTotal(past) as real / |past| as real
  }

  /** `averagePastHours`: 100 without past estimates, else the mean. */
  method AveragePastHours(past: seq<EstimateRow>) returns (avg: real)
    ensures avg == Average(past)
  {
    avg := 100.0;
    if |past| > 0 {
      var total := 0;
      var i := 0;
      while i < |past|
        invariant 0 <= i <= |past|
        invariant total == HoursTotal(past[..i])
      {
        assert past[..i + 1][..i] == past[..i];
        total := total + past[i].estimate.totalHours;
        i := i + 1;
      }
      assert past[..|past|] == past;
      avg := total as real / |past| as real;
    }
  }

  /** Past estimates that all total `h` average to `h`. */
  lemma {:induction false} UniformTotal(past: seq<EstimateRow>, h: int)
    requires forall k :: 0 <= k < |past| ==> past[k].estimate.totalHours == h
    ensures HoursTotal(past) == |past| * h
    decreases |past|
  {
    if |past| > 0 {
      UniformTotal(past[..|past| - 1], h);
    }
  }

  lemma UniformAverage(past: seq<EstimateRow>, h: int)
    requires |past| > 0
    requires forall k :: 0 <= k < |past| ==> past[k].estimate.totalHours == h
    ensures Average(past) == h as real
  {
    UniformTotal(past, h);
  }

  /** `.eq('project_id', projectId)` on the two tables. */
  function DocumentsOf(documents: seq<DocRow>, projectId: Id): seq<DocRow> {
    Where(documents, (d: DocRow) => d.projectId == projectId)
  }

  function CodesOf(sourceCodes: seq<CodeRow>, projectId: Id): seq<CodeRow> {
    Where(sourceCodes, (c: CodeRow) => c.projectId == projectId)
  }

  function Fail(estimates: seq<EstimateRow>, status: int, error: string, asked: Option<Figures>): Outcome {
    Outcome(estimates, Reply(status, Failure(error)), asked)
  }

  /** The handler, over `documents`, `source_codes` and `work_estimates`;
      the past average is taken over every stored estimate, whatever its
      project. */
  function Handle(documents: seq<DocRow>, sourceCodes: seq<CodeRow>, estimates: seq<EstimateRow>, req: Request, env: Env): (o: Outcome)
    ensures env.user.None? ==> o == Fail(estimates, Unauthorized, NeedsAuth, None)
    ensures env.user.Some? && req.verb != Post ==> o == Fail(estimates, MethodNotAllowed, PostOnly, None)
    ensures env.user.Some? && req.verb == Post && !Truthy(req.projectId) ==> o == Fail(estimates, BadRequest, MissingProject, None)
    ensures env.user.Some? && req.verb == Post && Truthy(req.projectId) && !(env.documentsOk && env.sourceCodesOk && env.pastOk) ==>
      o == Fail(estimates, ServerError, ServerFailure, None)
    ensures o.asked.Some? && !env.insertOk ==> o == Fail(estimates, ServerError, ServerFailure, o.asked)
    ensures o.reply.status in {OK, BadRequest, Unauthorized, MethodNotAllowed, ServerError}
    ensures o.reply.status != OK ==> o.estimates == estimates
    ensures o.asked.Some? <==> env.user.Some? && req.verb == Post && Truthy(req.projectId) && env.documentsOk && env.sourceCodesOk && env.pastOk
    ensures o.asked.Some? ==>
      var p := req.projectId.value;
      o.asked.value == Figures(Complexity(DocumentsOf(documents, p)), Newlines(CodesOf(sourceCodes, p)) + |CodesOf(sourceCodes, p)|, Average(estimates))
    ensures o.reply.status == OK <==> o.asked.Some? && env.insertOk
    ensures o.reply.status == OK ==>
      && o.reply.body == Estimated(Done, SelectEstimate(env.ai))
      && o.estimates == estimates + [EstimateRow(req.projectId.value, SelectEstimate(env.ai))]
  {
    if env.user.None? then Fail(estimates, Unauthorized, NeedsAuth, None)
    else if req.verb != Post then Fail(estimates, MethodNotAllowed, PostOnly, None)
    else if !Truthy(req.projectId) then Fail(estimates, BadRequest, MissingProject, None)
    else if !env.documentsOk || !env.sourceCodesOk || !env.pastOk then Fail(estimates, ServerError, ServerFailure, None)
    else
      var p := req.projectId.value;
      var codes := CodesOf(sourceCodes, p);
      LinesAreNewlinesPlusOne(codes);
      var asked := Some(Figures(Complexity(DocumentsOf(documents, p)), LinesOfCode(codes), Average(estimates)));
      var e := SelectEstimate(env.ai);
      if !env.insertOk then Fail(estimates, ServerError, ServerFailure, asked)
      else Outcome(estimates + [EstimateRow(p, e)], Reply(OK, Estimated(Done, e)), asked)
  }

  /** The handler as it runs: the guard ladder, then the three
      accumulating loops, then the estimate choice and the insert. */
  method Serve(documents: seq<DocRow>, sourceCodes: seq<CodeRow>, estimates: seq<EstimateRow>, req: Request, env: Env) returns (o: Outcome)
    ensures o == Handle(documents, sourceCodes, estimates, req, env)
  {
    if env.user.None? {
      return Fail(estimates, Unauthorized, NeedsAuth, None);
    }
    if req.verb != Post {
      return Fail(estimates, MethodNotAllowed, PostOnly, None);
    }
    if !Truthy(req.projectId) {
      return Fail(estimates, BadRequest, MissingProject, None);
    }
    if !env.documentsOk || !env.sourceCodesOk || !env.pastOk {
      return Fail(estimates, ServerError, ServerFailure, None);
    }
    var p := req.projectId.value;
    var complexity := DocumentComplexity(DocumentsOf(documents, p));
    var lines := TotalLinesOfCode(CodesOf(sourceCodes, p));
    var average := AveragePastHours(estimates);
    var asked := Some(Figures(complexity, lines, average));
    var e := SelectEstimate(env.ai);
    if !env.insertOk {
      return Fail(estimates, ServerError, ServerFailure, asked);
    }
    o := Outcome(estimates + [EstimateRow(p, e)], Reply(OK, Estimated(Done, e)), asked);
  }

  /** An AI failure is never an error: the request succeeds or fails as if
      the AI had answered, only the smaller estimate is stored. */
  lemma AiFailureSwallowed(documents: seq<DocRow>, sourceCodes: seq<CodeRow>, estimates: seq<EstimateRow>, req: Request, env: Env, answer: string)
    requires env.ai.None? && answer != ""
    ensures var o := Handle(documents, sourceCodes, estimates, req, env);
      var o' := Handle(documents, sourceCodes, estimates, req, env.(ai := Some(answer)));
      && o.reply.status == o'.reply.status
      && (o.reply.status == OK ==> o.reply.body.estimate.totalHours == 100 && o'.reply.body.estimate.totalHours == 120)
  {
  }
}
