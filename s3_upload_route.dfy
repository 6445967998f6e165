/** The presign route of app/api/s3/upload/route.ts as it stands: a schema for
    the request body, a guard on the `safeParse` result, and a destructuring of
    the parsed data, all inside a `try` with an empty `catch`. No branch
    returns a response. */
module S3UploadRoute {
  import opened JsValues
  import opened ZodSchema
  import FileUploader

  /** `fileUploadSchema`. `size` is a string field. */
  const FileUploadShape: Shape := [
    ("fileName", Text(1, "Filename is required,", None, "")),
    ("contentType", Text(1, "ContentType is required.", None, "")),
    ("size", Text(1, "Size is required.", None, "")),
    ("isImage", Flag)
  ]

  datatype FileUpload = FileUpload(fileName: string, contentType: string, size: string, isImage: bool)

  /** The body fields the schema demands, each stated directly. */
  predicate WellFormedUpload(v: Json) {
    && v.Obj?
    && Get(v, "fileName").Str? && Get(v, "fileName").s != ""
    && Get(v, "contentType").Str? && Get(v, "contentType").s != ""
    && Get(v, "size").Str? && Get(v, "size").s != ""
    && Get(v, "isImage").Bool?
  }

  /** `fileUploadSchema.safeParse(v)`: accepted exactly when every field has
      its type and the three strings are not empty. */
  function ParseFileUpload(v: Json): (r: Parsed<FileUpload>)
    ensures r.Parsed? <==> WellFormedUpload(v)
    ensures r.Parsed? ==> r.data == FileUpload(Get(v, "fileName").s, Get(v, "contentType").s, Get(v, "size").s, Get(v, "isImage").b)
    ensures r.Rejected? ==> r.issues == ObjectIssues(v, FileUploadShape) && r.issues != []
  {
    if !v.Obj? then Rejected([WrongType("")])
    else
      NoIssuesIffEveryFieldPasses(v, FileUploadShape);
      var issues := ShapeIssues(v, FileUploadShape);
      TextRule(Get(v, "fileName"), "fileName", 1, "Filename is required,", None, "");
      TextRule(Get(v, "contentType"), "contentType", 1, "ContentType is required.", None, "");
      TextRule(Get(v, "size"), "size", 1, "Size is required.", None, "");
      assert FieldPasses(v, FileUploadShape, 0) <==> Get(v, "fileName").Str? && Get(v, "fileName").s != "";
      assert FieldPasses(v, FileUploadShape, 1) <==> Get(v, "contentType").Str? && Get(v, "contentType").s != "";
      assert FieldPasses(v, FileUploadShape, 2) <==> Get(v, "size").Str? && Get(v, "size").s != "";
      assert FieldPasses(v, FileUploadShape, 3) <==> Get(v, "isImage").Bool?;
      if issues != [] then Rejected(issues)
      else
        assert FieldPasses(v, FileUploadShape, 0) && FieldPasses(v, FileUploadShape, 1);
        assert FieldPasses(v, FileUploadShape, 2) && FieldPasses(v, FileUploadShape, 3);
        Parsed(FileUpload(Get(v, "fileName").s, Get(v, "contentType").s, Get(v, "size").s, Get(v, "isImage").b))
  }

  /** The object `safeParse` returns, as the handler sees it: `success` with
      `data`, or `success: false` with the issues and no `data`. */
  function SafeParseResult(v: Json): (result: Json)
    ensures result.Obj?
    ensures Get(result, "success") == Bool(ParseFileUpload(v).Parsed?)
    ensures ParseFileUpload(v).Rejected? <==> Get(result, "data") == Undefined
  {
    match ParseFileUpload(v)
    case Parsed(data) =>
      Obj(map["success" := Bool(true),
              "data" := Obj(map["fileName" := Str(data.fileName), "contentType" := Str(data.contentType),
                                "size" := Str(data.size), "isImage" := Bool(data.isImage)])])
    case Rejected(_) =>
      Obj(map["success" := Bool(false), "error" := Obj(map[])])
  }

  /** How the handler ends: it falls off its end with no response, having
      thrown inside the `try` or not, or it returns a response. */
  datatype Ending = NoResponse(threw: bool) | Respond(status: int, error: string)

  /** `POST(request)` as written. `body` is what `request.json()` yields,
      `None` when it throws. The guard tests the result object itself, which
      is always truthy. */
  function Post(body: Option<Json>): (e: Ending)
    ensures e.NoResponse?
    ensures e.threw <==> body.None? || ParseFileUpload(body.value).Rejected?
  {
    if body.None? then NoResponse(true)
    else
      var validation := SafeParseResult(body.value);
      if !Truthy(validation) then Respond(400, "Invalid Request Body")
      else NoResponse(!Readable(Get(validation, "data")))
  }

  /** The 400 branch can never be taken: for every body the guard sees a
      truthy object. */
  lemma {:induction false} GuardNeverFires(v: Json)
    ensures Truthy(SafeParseResult(v))
    ensures Post(Some(v)) != Respond(400, "Invalid Request Body")
  {
  }

  /** A rejected body is caught only as the exception that destructuring
      `undefined` raises, and the empty `catch` swallows it. */
  lemma {:induction false} InvalidBodyThrowsInDestructuring(v: Json)
    requires !WellFormedUpload(v)
    ensures !Readable(Get(SafeParseResult(v), "data"))
    ensures Post(Some(v)) == NoResponse(true)
  {
  }

  /** The numeric `size` the uploader sends never passes the schema: every
      presign request is rejected, whatever file is chosen. */
  lemma {:induction false} UploaderBodyRejected(f: FileUploader.FileInfo)
    ensures ParseFileUpload(FileUploader.PresignRequestBody(f)).Rejected?
    ensures Message("size", "Size is required.") !in ParseFileUpload(FileUploader.PresignRequestBody(f)).issues
    ensures WrongType("size") in ParseFileUpload(FileUploader.PresignRequestBody(f)).issues
  {
    var v := FileUploader.PresignRequestBody(f);
    var issues := ShapeIssues(v, FileUploadShape);
    assert CheckField(Get(v, "size"), "size", FileUploadShape[2].1) == [WrongType("size")];
    assert issues == CheckField(Get(v, "fileName"), "fileName", FileUploadShape[0].1)
                   + (CheckField(Get(v, "contentType"), "contentType", FileUploadShape[1].1)
                   + ([WrongType("size")] + (CheckField(Get(v, "isImage"), "isImage", FileUploadShape[3].1) + [])));
    assert WrongType("size") in issues;
  }

  // ---------------------------------------------------------------------
  // The guard as evidently intended
  // ---------------------------------------------------------------------

  /** `POST(request)` with the guard testing `!validation.success`: a rejected
      body is answered with 400 before anything is destructured. The rest of
      the handler, which the source does not have, is not modelled. */
  function PostChecked(body: Option<Json>): (e: Ending)
    ensures body.Some? && ParseFileUpload(body.value).Rejected? <==> e == Respond(400, "Invalid Request Body")
    ensures e.NoResponse? ==> !e.threw || body.None?
  {
    if body.None? then NoResponse(true)
    else
      var validation := SafeParseResult(body.value);
      if !Truthy(Get(validation, "success")) then Respond(400, "Invalid Request Body")
      else NoResponse(!Readable(Get(validation, "data")))
  }

  /** With the corrected guard, a body the schema rejects never reaches the
      destructuring, so nothing is thrown for it. */
  lemma {:induction false} CheckedGuardAnswersRejectedBodies(v: Json)
    requires !WellFormedUpload(v)
    ensures PostChecked(Some(v)) == Respond(400, "Invalid Request Body")
    ensures Post(Some(v)) == NoResponse(true)
  {
  }
}
