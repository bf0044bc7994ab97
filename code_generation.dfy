/** The source-code generation endpoint: POST creates a `code_generations`
    row at progress 0 and starts a background block that writes progress 50,
    calls the AI, inserts a `source_codes` row and finishes the task as
    completed or failed; GET reads a task's progress and status back.

    The tables are maps from id to row. The background block of each task is
    a fixed sequence of stages; the store and the AI deliver their results as
    `Event`s, one per awaited call, so the blocks of different tasks and the
    requests of pollers may interleave in any order. */
module CodeGeneration {
  import opened Wrappers
  import opened Http

  type Id = string

  /** A row of `documents`, as far as code generation reads it. */
  datatype Document = Document(projectId: Id, content: string)

  datatype TaskStatus = InProgress | Completed | Failed

  /** A row of `code_generations`. */
  datatype Task = Task(documentId: Id, language: string, progress: int, status: TaskStatus, sourceCodeId: Option<Id>)

  /** A row of `source_codes`. */
  datatype SourceCode = SourceCode(projectId: Id, fileName: string, content: string)

  /** The payloads of the three `update` calls the background block makes. */
  datatype Update = SetProgress(progress: int) | MarkFailed | MarkCompleted(sourceCodeId: Id)

  /** An update the block issued, and whether the store applied it: the
      block never looks at the `error` an update returns. */
  datatype Write = Write(update: Update, landed: bool)

  /** What the background block of a task awaits next. */
  datatype Stage =
    | WriteHalf                          // the progress-50 update
    | CallAi                             // the AI call
    | InsertCode(code: string)           // the `source_codes` insert
    | WriteCompleted(sourceCodeId: Id)   // the completed update
    | WriteFailed                        // the failed update, from either failure path
    | Done

  /** The background block of one task: what it captured when the POST
      started it, where it is, and the updates it has issued so far. */
  datatype Job = Job(projectId: Id, language: string, stage: Stage, issued: seq<Write>)

  datatype Store = Store(
    documents: map<Id, Document>,
    tasks: map<Id, Task>,
    sourceCodes: map<Id, SourceCode>,
    jobs: map<Id, Job>)

  // ---------------------------------------------------------------------
  // File names

  /** `getFileExtension`: the extension for the four known languages,
      `txt` for every other. */
  function FileExtension(language: string): (ext: string)
    ensures ext in {"py", "js", "ts", "java", "txt"}
    ensures ext == "txt" <==> language !in {"Python", "JavaScript", "TypeScript", "Java"}
    ensures language == "Python" ==> ext == "py"
    ensures language == "JavaScript" ==> ext == "js"
    ensures language == "TypeScript" ==> ext == "ts"
    ensures language == "Java" ==> ext == "java"
  {
    if language == "Python" then "py"
    else if language == "JavaScript" then "js"
    else if language == "TypeScript" then "ts"
    else if language == "Java" then "java"
    else "txt"
  }

  /** The name under which generated code is stored. */
  function FileName(language: string): (name: string)
    ensures |name| > 15 && name[..15] == "generated_code." && name[15..] == FileExtension(language)
  {
    "generated_code." + FileExtension(language)
  }

  /** Two known languages never share an extension. */
  lemma KnownExtensionsDistinct(a: string, b: string)
    requires FileExtension(a) != "txt" && FileExtension(a) == FileExtension(b)
    ensures a == b
  {
  }

  // ---------------------------------------------------------------------
  // Rows and updates

  /** The row a successful POST inserts. */
  function Created(documentId: Id, language: string): Task {
    Task(documentId, language, 0, InProgress, None)
  }

  /** The row after the store applies an update. */
  function Apply(t: Task, u: Update): Task {
    match u
    case SetProgress(p) => t.(progress := p)
    case MarkFailed => t.(progress := 100, status := Failed)
    case MarkCompleted(sid) => t.(progress := 100, status := Completed, sourceCodeId := Some(sid))
  }

  /** The row after the landed writes of `w`, in order. */
  function Replay(t: Task, w: seq<Write>): Task
    decreases |w|
  {
    if w == [] then t
    else
      var before := Replay(t, w[..|w| - 1]);
      if w[|w| - 1].landed then Apply(before, w[|w| - 1].update) else before
  }

  /** The updates issued so far, for each stage: none before the progress-50
      update, that one alone while the AI call and the insert are pending,
      and exactly one final update (progress 100) after it once done. */
  predicate IssuedInOrder(stage: Stage, issued: seq<Write>) {
    match stage
    case WriteHalf => issued == []
    case Done =>
      && |issued| == 2
      && issued[0].update == SetProgress(50)
      && !issued[1].update.SetProgress?
    case _ => |issued| == 1 && issued[0].update == SetProgress(50)
  }

  /** Replaying one more write applies it to the row so far, if it landed. */
  lemma ReplayAppend(t: Task, w: seq<Write>, x: Write)
    ensures Replay(t, w + [x]) == if x.landed then Apply(Replay(t, w), x.update) else Replay(t, w)
  {
    assert (w + [x])[..|w|] == w;
  }

  /** `sid` names the source code the block `j` inserted: stored under the
      project and the file name of the block's language. */
  predicate InsertedBy(codes: map<Id, SourceCode>, sid: Id, j: Job) {
    sid in codes && codes[sid].projectId == j.projectId && codes[sid].fileName == FileName(j.language)
  }

  /** The invariant of one task: its row is the replay of the writes its
      block issued, the writes follow the fixed order, the block works in
      the row's language, and a source code id the block holds names the
      source code it inserted. */
  ghost predicate TaskConsistent(t: Task, j: Job, codes: map<Id, SourceCode>) {
    && t == Replay(Created(t.documentId, t.language), j.issued)
    && IssuedInOrder(j.stage, j.issued)
    && j.language == t.language
    && (j.stage.WriteCompleted? ==> InsertedBy(codes, j.stage.sourceCodeId, j))
    && (j.stage.Done? && j.issued[1].update.MarkCompleted? ==> InsertedBy(codes, j.issued[1].update.sourceCodeId, j))
  }

  /** Every task has exactly one background block, every task is
      consistent, and each block captured the project of its task's
      document. */
  ghost predicate Consistent(s: Store) {
    && s.jobs.Keys == s.tasks.Keys
    && (forall id :: id in s.tasks ==> TaskConsistent(s.tasks[id], s.jobs[id], s.sourceCodes))
    && (forall id :: id in s.tasks ==>
          s.tasks[id].documentId in s.documents && s.documents[s.tasks[id].documentId].projectId == s.jobs[id].projectId)
  }

  /** The row of a consistent task, stage by stage. */
  lemma RowOfStage(t: Task, j: Job, codes: map<Id, SourceCode>)
    requires TaskConsistent(t, j, codes)
    ensures var c := Created(t.documentId, t.language);
      && (j.stage == WriteHalf ==> t == c)
      && (j.stage != WriteHalf && j.stage != Done ==> t == c || t == c.(progress := 50))
      && (j.stage == Done ==>
            var u := j.issued[1].update;
            t == c || t == c.(progress := 50) || t == Apply(c.(progress := 50), u) || t == Apply(c, u))
  {
    var c := Created(t.documentId, t.language);
    if j.stage != WriteHalf {
      ReplayAppend(c, [], j.issued[0]);
      assert [] + [j.issued[0]] == j.issued[..1];
      if j.stage == Done {
        ReplayAppend(c, j.issued[..1], j.issued[1]);
        assert j.issued[..1] + [j.issued[1]] == j.issued;
      } else {
        assert j.issued[..1] == j.issued;
      }
    }
  }

  /** What the invariant says about a task's row: completed exactly when a
      source code id is set, that id names the source code its own block
      inserted (under the project of the task's document, named after the
      task's language), progress is one of the checkpoints 0, 50 and 100,
      and a terminal row has progress 100 and a finished block. */
  lemma TaskFacts(s: Store, id: Id)
    requires Consistent(s) && id in s.tasks
    ensures var t := s.tasks[id];
      && (t.status == Completed <==> t.sourceCodeId.Some?)
      && (t.sourceCodeId.Some? ==>
            && t.sourceCodeId.value in s.sourceCodes
            && s.sourceCodes[t.sourceCodeId.value].projectId == s.documents[t.documentId].projectId
            && s.sourceCodes[t.sourceCodeId.value].fileName == FileName(t.language))
      && t.progress in {0, 50, 100}
      && (t.status != InProgress ==> t.progress == 100 && s.jobs[id].stage == Done)
      && (s.jobs[id].stage != Done ==> t.status == InProgress)
  {
    RowOfStage(s.tasks[id], s.jobs[id], s.sourceCodes);
  }

  // ---------------------------------------------------------------------
  // Requests

  /** The `generationId` query parameter: absent, one value, or repeated. */
  datatype Query = NoParam | Param(value: string) | Params(values: seq<string>)

  datatype Request = Request(verb: Method, documentId: Option<string>, language: Option<string>, generationId: Query)

  /** What the collaborators answer during one request: whether the
      `select` succeeded, the uuid drawn, and whether the task insert
      succeeded. */
  datatype Env = Env(readOk: bool, newId: Id, insertOk: bool)

  datatype Body = Failure(error: string) | Started(generationId: Id) | Snapshot(progress: int, status: TaskStatus)

  const MissingFields := "ドキュメントIDとプログラミング言語は必須です。"
  const DocumentMissing := "ドキュメントが見つかりません。"
  const CreateFailed := "生成タスクの作成に失敗しました。"
  const MissingGenerationId := "generationIdは必須です。"
  const TaskMissing := "生成タスクが見つかりません。"
  const NotAllowed := "Method not allowed"

  /** POST: validate, look the document up, insert the task row and start
      its background block, then answer with the new id. */
  function Submit(s: Store, documentId: Option<string>, language: Option<string>, env: Env): (r: (Store, Reply<Body>))
    ensures !(Truthy(documentId) && Truthy(language)) ==> r == (s, Reply(BadRequest, Failure(MissingFields)))
    ensures r.1.status != OK ==> r.0 == s
    ensures r.1.status == NotFound <==>
      Truthy(documentId) && Truthy(language) && !(env.readOk && documentId.value in s.documents)
    ensures r.1.status == NotFound ==> r.1.body == Failure(DocumentMissing)
    ensures r.1.status == ServerError <==>
      Truthy(documentId) && Truthy(language) && env.readOk && documentId.value in s.documents && !env.insertOk
    ensures r.1.status == ServerError ==> r.1.body == Failure(CreateFailed)
    ensures r.1.status == OK <==>
      Truthy(documentId) && Truthy(language) && env.readOk && documentId.value in s.documents && env.insertOk
    ensures r.1.status == OK ==>
      && r.1.body == Started(env.newId)
      && r.0.tasks == s.tasks[env.newId := Created(documentId.value, language.value)]
      && r.0.jobs == s.jobs[env.newId := Job(s.documents[documentId.value].projectId, language.value, WriteHalf, [])]
      && r.0.documents == s.documents && r.0.sourceCodes == s.sourceCodes
  {
    if !Truthy(documentId) || !Truthy(language) then
      (s, Reply(BadRequest, Failure(MissingFields)))
    else if !env.readOk || documentId.value !in s.documents then
      (s, Reply(NotFound, Failure(DocumentMissing)))
    else if !env.insertOk then
      (s, Reply(ServerError, Failure(CreateFailed)))
    else
      var doc := s.documents[documentId.value];
      var s' := s.(
        tasks := s.tasks[env.newId := Created(documentId.value, language.value)],
        jobs := s.jobs[env.newId := Job(doc.projectId, language.value, WriteHalf, [])]);
      (s', Reply(OK, Started(env.newId)))
  }

  /** GET: the stored progress and status of a task, read afresh. */
  function Poll(s: Store, q: Query, readOk: bool): (r: Reply<Body>)
    ensures r.status in {OK, BadRequest, NotFound}
    ensures r.status == BadRequest <==> !(q.Param? && q.value != "")
    ensures r.status == OK <==> q.Param? && q.value != "" && readOk && q.value in s.tasks
    ensures r.status == OK ==> r.body == Snapshot(s.tasks[q.value].progress, s.tasks[q.value].status)
    ensures r.status == BadRequest ==> r.body == Failure(MissingGenerationId)
    ensures r.status == NotFound ==> r.body == Failure(TaskMissing)
  {
    if !q.Param? || q.value == "" then Reply(BadRequest, Failure(MissingGenerationId))
    else if !readOk || q.value !in s.tasks then Reply(NotFound, Failure(TaskMissing))
    else
      var t := s.tasks[q.value];
      Reply(OK, Snapshot(t.progress, t.status))
  }

  /** The handler: POST submits, GET polls, every other method gets 405. */
  function Handle(s: Store, req: Request, env: Env): (r: (Store, Reply<Body>))
    ensures req.verb == Post ==> r == Submit(s, req.documentId, req.language, env)
    ensures req.verb == Get ==> r == (s, Poll(s, req.generationId, env.readOk))
    ensures req.verb != Post ==> r.0 == s
    ensures req.verb !in {Post, Get} ==> r.1 == Reply(MethodNotAllowed, Failure(NotAllowed))
  {
    match req.verb
    case Post => Submit(s, req.documentId, req.language, env)
    case Get => (s, Poll(s, req.generationId, env.readOk))
    case _ => (s, Reply(MethodNotAllowed, Failure(NotAllowed)))
  }

  /** A request keeps the invariant, and leaves every task that already
      existed, and its block, as it was. */
  lemma HandlePreserves(s: Store, req: Request, env: Env)
    requires Consistent(s) && env.newId !in s.tasks
    ensures var s' := Handle(s, req, env).0;
      && Consistent(s')
      && s.tasks.Keys <= s'.tasks.Keys
      && (forall id :: id in s.tasks ==> s'.tasks[id] == s.tasks[id] && s'.jobs[id] == s.jobs[id])
      && s'.sourceCodes == s.sourceCodes
  {
    var s' := Handle(s, req, env).0;
    if s' != s {
      forall id | id in s'.tasks ensures TaskConsistent(s'.tasks[id], s'.jobs[id], s'.sourceCodes) {
        if id != env.newId {
          assert TaskConsistent(s.tasks[id], s.jobs[id], s.sourceCodes);
        }
      }
    }
  }

  // ---------------------------------------------------------------------
  // The background block

  /** The result of the call a block was awaiting. */
  datatype Event =
    | Written(landed: bool)                      // an update returned; did the store apply it?
    | AiReturned(output: Option<string>)         // the AI call returned code, or threw
    | CodeInserted(sourceCodeId: Id, ok: bool)   // the insert with this uuid returned; did it succeed?

  /** The event can answer what the block of task `id` awaits. A finished
      block awaits nothing. */
  predicate Accepts(s: Store, id: Id, e: Event) {
    && id in s.jobs && id in s.tasks
    && match s.jobs[id].stage
       case WriteHalf => e.Written?
       case CallAi => e.AiReturned?
       case InsertCode(_) => e.CodeInserted? && e.sourceCodeId !in s.sourceCodes
       case WriteCompleted(_) => e.Written?
       case WriteFailed => e.Written?
       case Done => false
  }

  /** The block of `id` issues update `u` and moves on to `next`. */
  function Issue(s: Store, id: Id, u: Update, landed: bool, next: Stage): Store
    requires id in s.jobs && id in s.tasks
  {
    var j := s.jobs[id];
    s.(tasks := if landed then s.tasks[id := Apply(s.tasks[id], u)] else s.tasks,
       jobs := s.jobs[id := j.(stage := next, issued := j.issued + [Write(u, landed)])])
  }

  /** The block of `id` moves on to `next` without writing to the task. */
  function MoveTo(s: Store, id: Id, next: Stage): Store
    requires id in s.jobs
  {
    s.(jobs := s.jobs[id := s.jobs[id].(stage := next)])
  }

  /** One step of the background block of task `id`. A thrown AI call goes
      to the catch block, like a failed insert goes to its failure branch:
      both write `{progress: 100, status: 'failed'}`. */
  function Step(s: Store, id: Id, e: Event): Store
    requires Accepts(s, id, e)
  {
    var j := s.jobs[id];
    match j.stage
    case WriteHalf => Issue(s, id, SetProgress(50), e.landed, CallAi)
    case CallAi =>
      if e.output.Some? then MoveTo(s, id, InsertCode(e.output.value)) else MoveTo(s, id, WriteFailed)
    case InsertCode(code) =>
      if e.ok then
        var row := SourceCode(j.projectId, FileName(j.language), code);
        MoveTo(s.(sourceCodes := s.sourceCodes[e.sourceCodeId := row]), id, WriteCompleted(e.sourceCodeId))
      else MoveTo(s, id, WriteFailed)
    case WriteCompleted(sid) => Issue(s, id, MarkCompleted(sid), e.landed, Done)
    case WriteFailed => Issue(s, id, MarkFailed, e.landed, Done)
  }

  /** What one awaited call of the block does. */
  lemma StepEffect(s: Store, id: Id, e: Event)
    requires Accepts(s, id, e)
    ensures var r := Step(s, id, e);
      && id in r.jobs && id in r.tasks
      // every awaited call moves the block on; the log of issued updates only grows
      && r.jobs[id].stage != s.jobs[id].stage
      && |s.jobs[id].issued| <= |r.jobs[id].issued| <= |s.jobs[id].issued| + 1
      && r.jobs[id].issued[..|s.jobs[id].issued|] == s.jobs[id].issued
      // the task row changes only through an update the store applied
      && (r.tasks[id] != s.tasks[id] ==> |r.jobs[id].issued| == |s.jobs[id].issued| + 1 && r.jobs[id].issued[|s.jobs[id].issued|].landed)
      // the block takes the failure path exactly when the AI call throws or the insert fails
      && (r.jobs[id].stage == WriteFailed <==>
           (s.jobs[id].stage == CallAi && e.output.None?) || (s.jobs[id].stage.InsertCode? && !e.ok))
      // the only source code written is the AI's code, under the task's project and file name
      && (r.sourceCodes != s.sourceCodes <==> s.jobs[id].stage.InsertCode? && e.ok)
      && (r.sourceCodes != s.sourceCodes ==>
           r.sourceCodes == s.sourceCodes[e.sourceCodeId := SourceCode(s.jobs[id].projectId, FileName(s.jobs[id].language), s.jobs[id].stage.code)])
  {
  }

  /** A step touches only its own task and block, adds at most one source
      code and drops none. */
  lemma StepFrame(s: Store, id: Id, e: Event)
    requires Accepts(s, id, e)
    ensures var s' := Step(s, id, e);
      && s'.tasks.Keys == s.tasks.Keys && s'.jobs.Keys == s.jobs.Keys
      && s'.documents == s.documents
      && (forall k :: k in s.sourceCodes ==> k in s'.sourceCodes && s'.sourceCodes[k] == s.sourceCodes[k])
      && (forall k :: k in s.tasks && k in s.jobs && k != id ==> s'.tasks[k] == s.tasks[k] && s'.jobs[k] == s.jobs[k])
      && s'.tasks[id].documentId == s.tasks[id].documentId && s'.jobs[id].projectId == s.jobs[id].projectId
  {
  }

  /** The invariant of one task only gets easier to meet as source codes are added. */
  lemma ConsistentWithMoreCodes(t: Task, j: Job, codes: map<Id, SourceCode>, codes': map<Id, SourceCode>)
    requires TaskConsistent(t, j, codes)
    requires forall k :: k in codes ==> k in codes' && codes'[k] == codes[k]
    ensures TaskConsistent(t, j, codes')
  {
  }

  /** Issuing an update keeps the invariant of the task that issues it,
      when the order allows that update next. */
  lemma IssueKeepsOwn(s: Store, id: Id, u: Update, landed: bool, next: Stage)
    requires id in s.tasks && id in s.jobs
    requires TaskConsistent(s.tasks[id], s.jobs[id], s.sourceCodes)
    requires IssuedInOrder(next, s.jobs[id].issued + [Write(u, landed)])
    requires next.WriteCompleted? ==> InsertedBy(s.sourceCodes, next.sourceCodeId, s.jobs[id])
    requires next.Done? && u.MarkCompleted? ==> InsertedBy(s.sourceCodes, u.sourceCodeId, s.jobs[id])
    ensures var s' := Issue(s, id, u, landed, next); TaskConsistent(s'.tasks[id], s'.jobs[id], s'.sourceCodes)
  {
    var t := s.tasks[id];
    var j := s.jobs[id];
    var c := Created(t.documentId, t.language);
    ReplayAppend(c, j.issued, Write(u, landed));
    var s' := Issue(s, id, u, landed, next);
    assert s'.jobs[id].issued == j.issued + [Write(u, landed)];
    assert s'.jobs[id].issued[|j.issued|] == Write(u, landed);
  }

  /** A step keeps the invariant of the task it advances. */
  lemma StepKeepsOwn(s: Store, id: Id, e: Event)
    requires Accepts(s, id, e) && TaskConsistent(s.tasks[id], s.jobs[id], s.sourceCodes)
    ensures var s' := Step(s, id, e); TaskConsistent(s'.tasks[id], s'.jobs[id], s'.sourceCodes)
  {
    var j := s.jobs[id];
    match j.stage {
      case WriteHalf =>
        IssueKeepsOwn(s, id, SetProgress(50), e.landed, CallAi);
      case WriteCompleted(sid) =>
        IssueKeepsOwn(s, id, MarkCompleted(sid), e.landed, Done);
      case WriteFailed =>
        IssueKeepsOwn(s, id, MarkFailed, e.landed, Done);
      case CallAi =>
      case InsertCode(_) =>
    }
  }

  /** A step keeps the invariant of every task: its own by `StepKeepsOwn`,
      the others because their rows and blocks are untouched. */
  lemma StepKeepsTasks(s: Store, id: Id, e: Event)
    requires Consistent(s) && Accepts(s, id, e)
    ensures var s' := Step(s, id, e);
      forall k :: k in s'.tasks ==> TaskConsistent(s'.tasks[k], s'.jobs[k], s'.sourceCodes)
  {
    var s' := Step(s, id, e);
    StepFrame(s, id, e);
    StepKeepsOwn(s, id, e);
    forall k | k in s'.tasks ensures TaskConsistent(s'.tasks[k], s'.jobs[k], s'.sourceCodes) {
      if k != id {
        ConsistentWithMoreCodes(s.tasks[k], s.jobs[k], s.sourceCodes, s'.sourceCodes);
      }
    }
  }

  /** A step keeps every task's link to its document and project. */
  lemma StepKeepsLinks(s: Store, id: Id, e: Event)
    requires Consistent(s) && Accepts(s, id, e)
    ensures var s' := Step(s, id, e);
      forall k :: k in s'.tasks ==>
        s'.tasks[k].documentId in s'.documents && s'.documents[s'.tasks[k].documentId].projectId == s'.jobs[k].projectId
  {
    var s' := Step(s, id, e);
    StepFrame(s, id, e);
    forall k | k in s'.tasks
      ensures s'.tasks[k].documentId in s'.documents && s'.documents[s'.tasks[k].documentId].projectId == s'.jobs[k].projectId
    {
      assert s.tasks[k].documentId in s.documents && s.documents[s.tasks[k].documentId].projectId == s.jobs[k].projectId;
    }
  }

  /** A step keeps the invariant. */
  lemma StepPreserves(s: Store, id: Id, e: Event)
    requires Consistent(s) && Accepts(s, id, e)
    ensures Consistent(Step(s, id, e))
  {
    StepFrame(s, id, e);
    StepKeepsTasks(s, id, e);
    StepKeepsLinks(s, id, e);
  }

  /** A step never lowers the progress of its task, and a task whose block
      is not finished is still in progress; so a task that is completed or
      failed accepts no further step, and terminal rows never change. */
  lemma StepMonotone(s: Store, id: Id, e: Event)
    requires Consistent(s) && Accepts(s, id, e)
    ensures s.tasks[id].status == InProgress
    ensures Step(s, id, e).tasks[id].progress >= s.tasks[id].progress
  {
    TaskFacts(s, id);
  }

  /** A terminal task accepts no event. */
  lemma TerminalIsFinal(s: Store, id: Id, e: Event)
    requires Consistent(s) && id in s.tasks && s.tasks[id].status != InProgress
    ensures !Accepts(s, id, e)
  {
    TaskFacts(s, id);
  }

  // ---------------------------------------------------------------------
  // Interleavings

  /** Something that happens to the store: a request reaches the handler,
      or the block of some task receives the result it awaited. */
  datatype Action = Serve(req: Request, env: Env) | Advance(id: Id, event: Event)

  predicate Enabled(s: Store, a: Action) {
    match a
    case Serve(_, env) => env.newId !in s.tasks
    case Advance(id, e) => Accepts(s, id, e)
  }

  function Perform(s: Store, a: Action): Store
    requires Enabled(s, a)
  {
    match a
    case Serve(req, env) => Handle(s, req, env).0
    case Advance(id, e) => Step(s, id, e)
  }

  /** Each action of `trace` is enabled in the store the previous ones leave. */
  predicate Runs(s: Store, trace: seq<Action>)
    decreases |trace|
  {
    |trace| == 0 || (Enabled(s, trace[0]) && Runs(Perform(s, trace[0]), trace[1..]))
  }

  function Run(s: Store, trace: seq<Action>): Store
    requires Runs(s, trace)
    decreases |trace|
  {
    if |trace| == 0 then s else Run(Perform(s, trace[0]), trace[1..])
  }

  /** What a run promises about the store it starts from and the store it
      leaves: the invariant, no task gone, no progress lost, terminal rows fixed. */
  ghost predicate Monotone(s: Store, s': Store) {
    && Consistent(s')
    && s.tasks.Keys <= s'.tasks.Keys
    && (forall id :: id in s.tasks ==> s'.tasks[id].progress >= s.tasks[id].progress)
    && (forall id :: id in s.tasks && s.tasks[id].status != InProgress ==> s'.tasks[id] == s.tasks[id])
  }

  /** One action keeps the promise. */
  lemma PerformMonotone(s: Store, a: Action)
    requires Consistent(s) && Enabled(s, a)
    ensures Monotone(s, Perform(s, a))
  {
    match a {
      case Serve(req, env) =>
        HandlePreserves(s, req, env);
      case Advance(id, e) =>
        StepPreserves(s, id, e);
        StepFrame(s, id, e);
        StepMonotone(s, id, e);
    }
  }

  /** Over any interleaving of requests and background steps, the invariant
      holds, no task disappears, progress never decreases, and a completed
      or failed row never changes again. */
  lemma {:induction false} RunMonotone(s: Store, trace: seq<Action>)
    requires Consistent(s) && Runs(s, trace)
    ensures var s' := Run(s, trace);
      && Consistent(s')
      && s.tasks.Keys <= s'.tasks.Keys
      && (forall id :: id in s.tasks ==> s'.tasks[id].progress >= s.tasks[id].progress)
      && (forall id :: id in s.tasks && s.tasks[id].status != InProgress ==> s'.tasks[id] == s.tasks[id])
    decreases |trace|
  {
    if |trace| > 0 {
      var s1 := Perform(s, trace[0]);
      PerformMonotone(s, trace[0]);
      RunMonotone(s1, trace[1..]);
      assert Run(s, trace) == Run(s1, trace[1..]);
    }
  }

  /** A poller that reads a task twice, with anything happening in between,
      never sees its progress go down. */
  lemma PollsNonDecreasing(s: Store, trace: seq<Action>, q: Query, ok1: bool, ok2: bool)
    requires Consistent(s) && Runs(s, trace)
    requires Poll(s, q, ok1).status == OK && Poll(Run(s, trace), q, ok2).status == OK
    ensures Poll(s, q, ok1).body.progress <= Poll(Run(s, trace), q, ok2).body.progress
  {
    RunMonotone(s, trace);
  }

  // ---------------------------------------------------------------------
  // Scenarios

  /** The store before any request. */
  function Empty(documents: map<Id, Document>): Store {
    Store(documents, map[], map[], map[])
  }

  lemma EmptyConsistent(documents: map<Id, Document>)
    ensures Consistent(Empty(documents))
  {
  }

  /** Everything succeeds: polls see 0, then 50, then completed at 100 with
      the id of the inserted source code, stored under `generated_code.py`. */
  lemma HappyPath(documents: map<Id, Document>, docId: Id, id: Id, sid: Id, code: string)
    requires docId in documents && docId != "" && id != ""
    ensures
      var req := Request(Post, Some(docId), Some("Python"), NoParam);
      var (s1, reply) := Handle(Empty(documents), req, Env(true, id, true));
      var s2 := Step(s1, id, Written(true));
      var s3 := Step(s2, id, AiReturned(Some(code)));
      var s4 := Step(s3, id, CodeInserted(sid, true));
      var s5 := Step(s4, id, Written(true));
      && reply == Reply(OK, Started(id))
      && Poll(s1, Param(id), true) == Reply(OK, Snapshot(0, InProgress))
      && Poll(s2, Param(id), true) == Reply(OK, Snapshot(50, InProgress))
      && Poll(s5, Param(id), true) == Reply(OK, Snapshot(100, Completed))
      && s5.tasks[id].sourceCodeId == Some(sid)
      && s5.sourceCodes[sid] == SourceCode(documents[docId].projectId, "generated_code.py", code)
  {
  }

  /** The AI call throws: the catch block marks the task failed at 100, with
      no source code; the code has no fallback content for this case. */
  lemma AiFailureFailsTask(s: Store, id: Id, landed: bool)
    requires Consistent(s) && id in s.jobs && s.jobs[id].stage == CallAi
    ensures
      var s1 := Step(s, id, AiReturned(None));
      var s2 := Step(s1, id, Written(true));
      && s1.sourceCodes == s.sourceCodes && s2.sourceCodes == s.sourceCodes
      && s2.tasks[id].progress == 100 && s2.tasks[id].status == Failed && s2.tasks[id].sourceCodeId == None
      && s2.jobs[id].stage == Done
  {
    TaskFacts(s, id);
  }

  /** The insert fails: the failed update is issued, the completed update
      never is, and no `source_codes` row appears. */
  lemma InsertFailureFailsTask(s: Store, id: Id, sid: Id)
    requires Consistent(s) && id in s.jobs && s.jobs[id].stage.InsertCode? && sid !in s.sourceCodes
    ensures
      var s1 := Step(s, id, CodeInserted(sid, false));
      var s2 := Step(s1, id, Written(true));
      && sid !in s2.sourceCodes
      && s2.tasks[id].progress == 100 && s2.tasks[id].status == Failed && s2.tasks[id].sourceCodeId == None
      && s2.jobs[id].issued == [Write(SetProgress(50), s.jobs[id].issued[0].landed), Write(MarkFailed, true)]
  {
    TaskFacts(s, id);
  }

  /** A lost final update, completed or failed, leaves the task in progress
      for good: its block is finished and nothing retries the write. A lost
      completed update leaves it at 0 or 50, without a `source_code_id`,
      while its source code is stored. */
  lemma LostFinalWriteStaysInProgress(s: Store, id: Id)
    requires Consistent(s) && id in s.jobs && (s.jobs[id].stage == WriteFailed || s.jobs[id].stage.WriteCompleted?)
    ensures
      var s1 := Step(s, id, Written(false));
      && s1.tasks[id] == s.tasks[id] && s1.tasks[id].status == InProgress
      && (forall e :: !Accepts(s1, id, e))
      && (s.jobs[id].stage.WriteCompleted? ==>
            (s1.tasks[id].progress == 0 || s1.tasks[id].progress == 50) && s1.tasks[id].sourceCodeId.None? && s.jobs[id].stage.sourceCodeId in s1.sourceCodes)
  {
    TaskFacts(s, id);
    RowOfStage(s.tasks[id], s.jobs[id], s.sourceCodes);
  }

  /** Two submissions for the same document give two tasks with their own
      ids and blocks; no deduplication happens. */
  lemma NoDeduplication(s: Store, req: Request, id1: Id, id2: Id)
    requires Consistent(s) && req.verb == Post && id1 != id2 && id1 !in s.tasks && id2 !in s.tasks
    requires Handle(s, req, Env(true, id1, true)).1.status == OK
    ensures
      var s1 := Handle(s, req, Env(true, id1, true)).0;
      var (s2, reply) := Handle(s1, req, Env(true, id2, true));
      && reply == Reply(OK, Started(id2))
      && id1 in s2.tasks && id2 in s2.tasks
      && s2.tasks[id1] == s2.tasks[id2] == Created(req.documentId.value, req.language.value)
  {
  }

  // ---------------------------------------------------------------------
  // The store as the handler and the background blocks update it in place

  class Engine {
    var documents: map<Id, Document>
    var tasks: map<Id, Task>
    var sourceCodes: map<Id, SourceCode>
    var jobs: map<Id, Job>

    function State(): Store
      reads this
    {
      Store(documents, tasks, sourceCodes, jobs)
    }

    ghost predicate Valid()
      reads this
    {
      Consistent(State())
    }

    constructor (documents: map<Id, Document>)
      ensures Valid() && State() == Empty(documents)
    {
      this.documents := documents;
      tasks := map[];
      sourceCodes := map[];
      jobs := map[];
    }

    /** One request to the handler. */
    method Serve(req: Request, env: Env) returns (reply: Reply<Body>)
      requires Valid() && env.newId !in tasks
      modifies this
      ensures Valid()
      ensures (State(), reply) == Handle(old(State()), req, env)
    {
      HandlePreserves(State(), req, env);
      if req.verb == Post {
        if !Truthy(req.documentId) || !Truthy(req.language) {
          return Reply(BadRequest, Failure(MissingFields));
        }
        var documentId := req.documentId.value;
        if !env.readOk || documentId !in documents {
          return Reply(NotFound, Failure(DocumentMissing));
        }
        if !env.insertOk {
          return Reply(ServerError, Failure(CreateFailed));
        }
        var doc := documents[documentId];
        tasks := tasks[env.newId := Created(documentId, req.language.value)];
        jobs := jobs[env.newId := Job(doc.projectId, req.language.value, WriteHalf, [])];
        reply := Reply(OK, Started(env.newId));
      } else if req.verb == Get {
        var q := req.generationId;
        if !q.Param? || q.value == "" {
          return Reply(BadRequest, Failure(MissingGenerationId));
        }
        if !env.readOk || q.value !in tasks {
          return Reply(NotFound, Failure(TaskMissing));
        }
        reply := Reply(OK, Snapshot(tasks[q.value].progress, tasks[q.value].status));
      } else {
        reply := Reply(MethodNotAllowed, Failure(NotAllowed));
      }
    }

    /** The block of `id` issues update `u`, which the store applies if
        `landed`, and moves on to `next`. */
    method IssueUpdate(id: Id, u: Update, landed: bool, next: Stage)
      requires id in tasks && id in jobs
      modifies this
      ensures State() == Issue(old(State()), id, u, landed, next)
    {
      if landed {
        tasks := tasks[id := Apply(tasks[id], u)];
      }
      jobs := jobs[id := jobs[id].(stage := next, issued := jobs[id].issued + [Write(u, landed)])];
    }

    /** The block of `id` moves on to `next`. */
    method MoveStage(id: Id, next: Stage)
      requires id in jobs
      modifies this
      ensures State() == MoveTo(old(State()), id, next)
    {
      jobs := jobs[id := jobs[id].(stage := next)];
    }

    /** The background block of task `id` receives the result it awaited. */
    method Advance(id: Id, e: Event)
      requires Valid() && Accepts(State(), id, e)
      modifies this
      ensures Valid()
      ensures State() == Step(old(State()), id, e)
    {
      StepPreserves(State(), id, e);
      var j := jobs[id];
      match j.stage {
        case WriteHalf =>
          IssueUpdate(id, SetProgress(50), e.landed, CallAi);
        case CallAi =>
          if e.output.Some? {
            MoveStage(id, InsertCode(e.output.value));
          } else {
            MoveStage(id, WriteFailed);
          }
        case InsertCode(code) =>
          if e.ok {
            sourceCodes := sourceCodes[e.sourceCodeId := SourceCode(j.projectId, FileName(j.language), code)];
            MoveStage(id, WriteCompleted(e.sourceCodeId));
          } else {
            MoveStage(id, WriteFailed);
          }
        case WriteCompleted(sid) =>
          IssueUpdate(id, MarkCompleted(sid), e.landed, Done);
        case WriteFailed =>
          IssueUpdate(id, MarkFailed, e.landed, Done);
      }
    }
  }
}
