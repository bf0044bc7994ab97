/** The file upload endpoint: for a POST with a bearer token of a known
    user, parse the multipart form, accept a single PDF or plain-text file
    of at most 10 MiB, copy it into the server's `tmp` directory, record the
    copy in `uploaded_files` and answer with its path. */
module FileUpload {
  import opened Wrappers
  import opened Http

  type Id = string

  /** The `file` field formidable produced. */
  datatype UploadedFile = UploadedFile(mimetype: string, size: int, filepath: string, newFilename: string, originalFilename: string)

  /** The outcome of `form.parse`: an error, or the file field if any. */
  datatype Form = ParseError | Parsed(file: Option<UploadedFile>)

  /** A row of `uploaded_files`. */
  datatype UploadRow = UploadRow(userId: Id, filePath: string, fileName: string)

  datatype Request = Request(verb: Method, authorization: Option<string>)

  /** The collaborators' answers: the token's user, the form parse, the
      server's working directory, whether the copy succeeded and whether
      the insert succeeded. */
  datatype Env = Env(user: Option<Id>, form: Form, cwd: string, copyOk: bool, insertOk: bool)

  datatype Body = Failure(error: string) | Uploaded(message: string, filePath: string)

  const NotAllowed := "許可されていないメソッドです。"
  const NoCredentials := "認証情報がありません。"
  const AuthFailed := "認証に失敗しました。"
  const ParseFailed := "フォームデータの解析に失敗しました。"
  const NoFile := "ファイルが送信されていません。"
  const WrongType := "テキストまたはPDFファイルを選択してください。"
  const TooLarge := "ファイルサイズが大きすぎます。10MB以下のファイルをアップロードしてください。"
  const CopyFailed := "ファイルの保存に失敗しました。"
  const RecordFailed := "データベースへの保存に失敗しました。"
  const Done := "ファイルのアップロードに成功しました。"

  const AllowedTypes := ["application/pdf", "text/plain"]
  const MaxFileSize := 10 * 1024 * 1024

  /** The type and size checks, in that order: the message of the first
      that fails, if any. */
  function Rejection(f: UploadedFile): (error: Option<string>)
    ensures error.None? <==> (f.mimetype == "application/pdf" || f.mimetype == "text/plain") && f.size <= 10485760
    ensures f.mimetype !in AllowedTypes ==> error == Some(WrongType)
    ensures f.mimetype in AllowedTypes && f.size > MaxFileSize ==> error == Some(TooLarge)
  {
    if f.mimetype !in AllowedTypes then Some(WrongType)
    else if f.size > MaxFileSize then Some(TooLarge)
    else None
  }

  /** A file of exactly 10 MiB of an allowed type is accepted, one byte
      more is not. */
  lemma SizeLimitInclusive(f: UploadedFile)
    requires f.mimetype == "text/plain"
    ensures f.size == 10485760 ==> Rejection(f).None?
    ensures f.size == 10485761 ==> Rejection(f) == Some(TooLarge)
  {
  }

  /** `path.join(path.join(cwd, 'tmp'), newFilename)` for a working
      directory without a trailing separator and a plain file name. */
  function TempFilePath(cwd: string, newFilename: string): (p: string)
    ensures |p| == |cwd| + 5 + |newFilename|
    ensures p[..|cwd|] == cwd && p[|cwd|..|cwd| + 5] == "/tmp/" && p[|cwd| + 5..] == newFilename
  {
    cwd + "/tmp/" + newFilename
  }

  /** The request passed the method, token and user checks. */
  predicate Authorised(req: Request, env: Env) {
    req.verb == Post && Token(req.authorization, "Bearer ").Some? && env.user.Some?
  }

  /** The form parsed into a file of an allowed type and size. */
  predicate Acceptable(env: Env) {
    env.form.Parsed? && env.form.file.Some? && Rejection(env.form.file.value).None?
  }

  /** The handler, over the `uploaded_files` rows. */
  function Handle(uploads: seq<UploadRow>, req: Request, env: Env): (r: (seq<UploadRow>, Reply<Body>))
    ensures req.verb != Post ==> r == (uploads, Reply(MethodNotAllowed, Failure(NotAllowed)))
    ensures req.verb == Post && Token(req.authorization, "Bearer ").None? ==> r == (uploads, Reply(Unauthorized, Failure(NoCredentials)))
    ensures req.verb == Post && Token(req.authorization, "Bearer ").Some? && env.user.None? ==>
      r == (uploads, Reply(Unauthorized, Failure(AuthFailed)))
    ensures r.1.status == BadRequest <==>
      req.verb == Post && Token(req.authorization, "Bearer ").Some? && env.user.Some? && env.form.Parsed? &&
      (env.form.file.None? || Rejection(env.form.file.value).Some?)
    ensures r.1.status == BadRequest && env.form.file.Some? ==> r.1.body == Failure(Rejection(env.form.file.value).value)
    ensures Authorised(req, env) && env.form.ParseError? ==> r == (uploads, Reply(ServerError, Failure(ParseFailed)))
    ensures Authorised(req, env) && env.form.Parsed? && env.form.file.None? ==> r == (uploads, Reply(BadRequest, Failure(NoFile)))
    ensures Authorised(req, env) && Acceptable(env) && !env.copyOk ==> r == (uploads, Reply(ServerError, Failure(CopyFailed)))
    ensures Authorised(req, env) && Acceptable(env) && env.copyOk && !env.insertOk ==> r == (uploads, Reply(ServerError, Failure(RecordFailed)))
    ensures r.1.status != OK ==> r.0 == uploads
    ensures r.1.status == OK <==>
      req.verb == Post && Token(req.authorization, "Bearer ").Some? && env.user.Some? && env.form.Parsed? &&
      env.form.file.Some? && Rejection(env.form.file.value).None? && env.copyOk && env.insertOk
    ensures r.1.status == OK ==>
      && |r.0| == |uploads| + 1 && r.0[..|uploads|] == uploads
      && r.1.body == Uploaded(Done, r.0[|uploads|].filePath)
      && r.0[|uploads|] == UploadRow(env.user.value, TempFilePath(env.cwd, env.form.file.value.newFilename), env.form.file.value.originalFilename)
  {
    if req.verb != Post then (uploads, Reply(MethodNotAllowed, Failure(NotAllowed)))
    else if Token(req.authorization, "Bearer ").None? then (uploads, Reply(Unauthorized, Failure(NoCredentials)))
    else if env.user.None? then (uploads, Reply(Unauthorized, Failure(AuthFailed)))
    else if env.form.ParseError? then (uploads, Reply(ServerError, Failure(ParseFailed)))
    else if env.form.file.None? then (uploads, Reply(BadRequest, Failure(NoFile)))
    else
      var file := env.form.file.value;
      match Rejection(file)
      case Some(error) => (uploads, Reply(BadRequest, Failure(error)))
      case None =>
        var target := TempFilePath(env.cwd, file.newFilename);
        if !env.copyOk then (uploads, Reply(ServerError, Failure(CopyFailed)))
        else if !env.insertOk then (uploads, Reply(ServerError, Failure(RecordFailed)))
        else (uploads + [UploadRow(env.user.value, target, file.originalFilename)], Reply(OK, Uploaded(Done, target)))
  }

  /** A file of the wrong type is turned away for its type, whatever its
      size. */
  lemma TypeCheckedFirst(uploads: seq<UploadRow>, req: Request, env: Env)
    requires req.verb == Post && Token(req.authorization, "Bearer ").Some? && env.user.Some?
    requires env.form.Parsed? && env.form.file.Some? && env.form.file.value.mimetype !in AllowedTypes
    ensures Handle(uploads, req, env).1 == Reply(BadRequest, Failure(WrongType))
    ensures forall size: int :: Handle(uploads, req, env.(form := Parsed(Some(env.form.file.value.(size := size))))).1 == Reply(BadRequest, Failure(WrongType))
  {
  }
}
