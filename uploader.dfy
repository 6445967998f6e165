/** The image uploader of components/file-uploader/Uploader.tsx: a `fileState`
    record that each event handler replaces, the view chosen from it, and
    whether the drop zone accepts files. Network calls, timers and object URLs
    are outside the model: every handler receives what its requests ended in,
    and the requests it issues and the `onChange` calls it makes are logged. */
module FileUploader {
  import opened JsValues

  /** The parts of a browser `File` the uploader reads. */
  datatype FileInfo = FileInfo(name: string, mimeType: string, size: nat)

  datatype FileType = Image | Video

  /** `UploaderState`. `progress` is the rounded percentage; the optional
      `key` and `objectUrl` may be absent. */
  datatype UploaderState = UploaderState(
    id: Option<string>,
    file: Option<FileInfo>,
    uploading: bool,
    progress: int,
    key: Option<string>,
    isDeleting: bool,
    error: bool,
    objectUrl: Option<string>,
    fileType: FileType)

  /** A request the component sends: the presign POST with its JSON body, the
      PUT of the file to a presigned URL, and the DELETE with its JSON body. */
  datatype Request =
    | PresignRequest(body: Json)
    | PutRequest(url: string, file: FileInfo)
    | DeleteRequest(body: Json)

  /** How an upload ends: the presign response was not ok, the presign fetch
      or its JSON threw, the PUT finished with an HTTP status, or the PUT hit a
      network error. */
  datatype UploadOutcome =
    | PresignNotOk
    | PresignThrew
    | PutLoaded(url: string, key: string, status: int)
    | PutNetworkError(url: string)

  /** How the delete request ends: ok, answered but not ok, or thrown. */
  datatype DeleteOutcome = DeleteOk | DeleteNotOk | DeleteThrew

  /** What `renderContent()` shows. */
  datatype View =
    | UploadingView(file: Option<FileInfo>, progress: int)
    | ErrorView
    | UploadedView(previewUrl: string, isDeleting: bool)
    | EmptyView

  /** The state after a successful delete: nothing selected, no key. */
  const EmptyState := UploaderState(None, None, false, 0, None, false, false, None, Image)

  /** What every reachable state satisfies: the progress is a percentage, a
      file is known while uploading, and a delete is only in flight for a
      state that shows an object URL. */
  predicate ValidState(s: UploaderState) {
    && 0 <= s.progress <= 100
    && (s.uploading ==> s.file.Some?)
    && (s.isDeleting ==> TruthyText(s.objectUrl))
  }

  /** The body of the presign request: the file's name, type and size (a
      number), and `isImage: true`. */
  function PresignRequestBody(f: FileInfo): (body: Json)
    ensures body.Obj? && Get(body, "size") == Num(f.size as real) && Get(body, "isImage") == Bool(true)
    ensures Get(body, "fileName") == Str(f.name) && Get(body, "contentType") == Str(f.mimeType)
  {
    Obj(map["fileName" := Str(f.name), "contentType" := Str(f.mimeType),
            "size" := Num(f.size as real), "isImage" := Bool(true)])
  }

  /** The body of the delete request: `JSON.stringify` drops an undefined key. */
  function DeleteRequestBody(key: Option<string>): (body: Json)
    ensures key.Some? ==> Get(body, "key") == Str(key.value)
    ensures key.None? ==> Get(body, "key") == Undefined && body == Obj(map[])
  {
    if key.Some? then Obj(map["key" := Str(key.value)]) else Obj(map[])
  }

  /** The PUT finished with 200 or 204. */
  predicate Succeeded(o: UploadOutcome) {
    o.PutLoaded? && (o.status == 200 || o.status == 204)
  }

  // ---------------------------------------------------------------------
  // Views
  // ---------------------------------------------------------------------

  /** `renderContent()`: uploading wins over error, error over a preview,
      and a preview over the empty drop target. */
  function RenderContent(s: UploaderState): (v: View)
    ensures v.UploadingView? <==> s.uploading
    ensures v == ErrorView <==> !s.uploading && s.error
    ensures v.UploadedView? <==> !s.uploading && !s.error && TruthyText(s.objectUrl)
    ensures v == EmptyView <==> !s.uploading && !s.error && !TruthyText(s.objectUrl)
    ensures v.UploadingView? ==> v == UploadingView(s.file, s.progress)
    ensures v.UploadedView? ==> v == UploadedView(s.objectUrl.value, s.isDeleting)
  {
    if s.uploading then UploadingView(s.file, s.progress)
    else if s.error then ErrorView
    else if TruthyText(s.objectUrl) then UploadedView(s.objectUrl.value, s.isDeleting)
    else EmptyView
  }

  /** The drop zone's `disabled` option: no drops while uploading or while an
      object URL is shown. */
  predicate DropzoneDisabled(s: UploaderState) {
    s.uploading || TruthyText(s.objectUrl)
  }

  /** The early return of `handleRemoveFile`. */
  predicate RemoveIgnored(s: UploaderState) {
    s.isDeleting || !TruthyText(s.objectUrl)
  }

  // ---------------------------------------------------------------------
  // Transitions of `fileState`
  // ---------------------------------------------------------------------

  /** The state the component mounts with: the key it was given and the URL
      built from it. */
  function Mounted(value: Option<string>, fileUrl: string): (s: UploaderState)
    ensures ValidState(s) && !s.uploading && !s.error && !s.isDeleting
    ensures s.key == value && s.objectUrl == Some(fileUrl)
  {
    UploaderState(None, None, false, 0, value, false, false, Some(fileUrl), Image)
  }

  /** The first update of `uploadFile`. */
  function UploadStarted(s: UploaderState): (r: UploaderState)
    requires s.file.Some?
    ensures ValidState(s) ==> ValidState(r)
    ensures r.uploading && r.progress == 0
    ensures r.(uploading := s.uploading, progress := s.progress) == s
  {
    s.(uploading := true, progress := 0)
  }

  /** An `onprogress` event with a computable length. */
  function Progressed(s: UploaderState, percent: int): (r: UploaderState)
    requires 0 <= percent <= 100
    ensures ValidState(s) ==> ValidState(r)
    ensures r.progress == percent && r.(progress := s.progress) == s
  {
    s.(progress := percent)
  }

  /** How `uploadFile` leaves the state: on 200 or 204 the upload is complete
      and the returned key is kept; on anything else the error flag is set and
      the progress is back at zero. */
  function UploadEnded(s: UploaderState, o: UploadOutcome): (r: UploaderState)
    ensures ValidState(s) ==> ValidState(r)
    ensures !r.uploading
    ensures Succeeded(o) ==> r == s.(progress := 100, uploading := false, key := Some(o.key))
    ensures !Succeeded(o) ==> r == s.(progress := 0, uploading := false, error := true)
  {
    if Succeeded(o) then s.(progress := 100, uploading := false, key := Some(o.key))
    else s.(progress := 0, uploading := false, error := true)
  }

  /** The state `onDrop` sets for a newly accepted file, before the upload
      starts: a fresh id and object URL, no key, no error. */
  function DropReset(f: FileInfo, freshId: string, freshUrl: string): (r: UploaderState)
    ensures ValidState(r) && r.file == Some(f) && r.key.None? && !r.error && !r.isDeleting
    ensures r.id == Some(freshId) && r.objectUrl == Some(freshUrl) && r.progress == 0
  {
    UploaderState(Some(freshId), Some(f), false, 0, None, false, false, Some(freshUrl), Image)
  }

  /** `onDrop`, including the start of `uploadFile`: a drop zone that is
      disabled, or a drop with no accepted file, changes nothing. */
  function Dropped(s: UploaderState, accepted: seq<FileInfo>, freshId: string, freshUrl: string): (r: UploaderState)
    ensures ValidState(s) ==> ValidState(r)
    ensures DropzoneDisabled(s) || accepted == [] ==> r == s
    ensures !DropzoneDisabled(s) && accepted != [] ==>
      r == DropReset(accepted[0], freshId, freshUrl).(uploading := true) && RenderContent(r) == UploadingView(Some(accepted[0]), 0)
  {
    if DropzoneDisabled(s) || accepted == [] then s
    else UploadStarted(DropReset(accepted[0], freshId, freshUrl))
  }

  /** How `handleRemoveFile` leaves the state. A failed answer keeps
      `isDeleting` set and raises the error flag; success empties the
      component; an exception clears `isDeleting` and raises the error flag. */
  function Removed(s: UploaderState, o: DeleteOutcome): (r: UploaderState)
    ensures ValidState(s) ==> ValidState(r)
    ensures RemoveIgnored(s) ==> r == s
    ensures !RemoveIgnored(s) && o == DeleteNotOk ==> r == s.(isDeleting := true, error := true)
    ensures !RemoveIgnored(s) && o == DeleteOk ==> r == EmptyState
    ensures !RemoveIgnored(s) && o == DeleteThrew ==> r == s.(isDeleting := false, error := true)
  {
    if RemoveIgnored(s) then s
    else
      match o
      case DeleteNotOk => s.(isDeleting := true, error := true)
      case DeleteOk => EmptyState
      case DeleteThrew => s.(isDeleting := false, error := true)
  }

  // ---------------------------------------------------------------------
  // The component
  // ---------------------------------------------------------------------

  /** The mounted component: its state, the values passed to `onChange` and
      the requests sent, in order. */
  class Uploader {
    var fileState: UploaderState
    var changes: seq<string>
    var requests: seq<Request>

    ghost predicate Valid()
      reads this
    {
      ValidState(fileState)
    }

    constructor (value: Option<string>, fileUrl: string)
      ensures Valid() && fileState == Mounted(value, fileUrl)
      ensures changes == [] && requests == []
    {
      fileState := Mounted(value, fileUrl);
      changes := [];
      requests := [];
    }

    /** The synchronous start of `uploadFile(file)`: mark the upload as
        running and send the presign request. */
    method StartUpload(file: FileInfo)
      requires Valid() && fileState.file.Some?
      modifies this
      ensures Valid() && fileState == UploadStarted(old(fileState))
      ensures requests == old(requests) + [PresignRequest(PresignRequestBody(file))]
      ensures changes == old(changes)
    {
      fileState := fileState.(uploading := true, progress := 0);
      requests := requests + [PresignRequest(PresignRequestBody(file))];
    }

    /** `xhr.upload.onprogress` with a computable length; `percent` is the
        rounded percentage. */
    method ReportProgress(percent: int)
      requires Valid() && 0 <= percent <= 100
      modifies this
      ensures Valid() && fileState == Progressed(old(fileState), percent)
      ensures changes == old(changes) && requests == old(requests)
    {
      fileState := fileState.(progress := percent);
    }

    /** The rest of `uploadFile(file)`, once its requests have ended as `o`:
        the PUT is sent only after an ok presign response, and `onChange`
        receives the key only after a 200 or 204. It follows `StartUpload`, so
        the upload is running; `file` is the one `onDrop` stored in the state. */
    method FinishUpload(file: FileInfo, o: UploadOutcome)
      requires Valid() && fileState.uploading && fileState.file == Some(file)
      modifies this
      ensures Valid() && fileState == UploadEnded(old(fileState), o)
      ensures o.PresignNotOk? || o.PresignThrew? ==> requests == old(requests)
      ensures o.PutLoaded? || o.PutNetworkError? ==> requests == old(requests) + [PutRequest(o.url, file)]
      ensures changes == if Succeeded(o) then old(changes) + [o.key] else old(changes)
    {
      if o.PutLoaded? || o.PutNetworkError? {
        requests := requests + [PutRequest(o.url, file)];
      }
      if o.PutLoaded? && (o.status == 200 || o.status == 204) {
        fileState := fileState.(progress := 100, uploading := false, key := Some(o.key));
        changes := changes + [o.key];
      } else {
        fileState := fileState.(progress := 0, uploading := false, error := true);
      }
    }

    /** `onDrop(acceptedFiles)` followed by the start of the upload of the
        first file. `freshId` and `freshUrl` are what `uuidv4()` and
        `URL.createObjectURL` return. */
    method Drop(accepted: seq<FileInfo>, freshId: string, freshUrl: string)
      requires Valid()
      modifies this
      ensures Valid() && fileState == Dropped(old(fileState), accepted, freshId, freshUrl)
      ensures changes == old(changes)
      ensures DropzoneDisabled(old(fileState)) || accepted == [] ==> requests == old(requests)
      ensures !DropzoneDisabled(old(fileState)) && accepted != [] ==>
        requests == old(requests) + [PresignRequest(PresignRequestBody(accepted[0]))]
    {
      if !DropzoneDisabled(fileState) && accepted != [] {
        fileState := DropReset(accepted[0], freshId, freshUrl);
        StartUpload(accepted[0]);
      }
    }

    /** `handleRemoveFile()`, with `o` what the delete request ended in. */
    method RemoveFile(o: DeleteOutcome)
      requires Valid()
      modifies this
      ensures Valid() && fileState == Removed(old(fileState), o)
      ensures RemoveIgnored(old(fileState)) ==> requests == old(requests) && changes == old(changes)
      ensures !RemoveIgnored(old(fileState)) ==>
        requests == old(requests) + [DeleteRequest(DeleteRequestBody(old(fileState).key))]
      ensures !RemoveIgnored(old(fileState)) ==>
        changes == if o == DeleteOk then old(changes) + [""] else old(changes)
    {
      if fileState.isDeleting || !TruthyText(fileState.objectUrl) {
        return;
      }
      fileState := fileState.(isDeleting := true);
      requests := requests + [DeleteRequest(DeleteRequestBody(fileState.key))];
      match o
      case DeleteNotOk =>
        fileState := fileState.(isDeleting := true, error := true);
      case DeleteOk =>
        changes := changes + [""];
        fileState := EmptyState;
      case DeleteThrew =>
        fileState := fileState.(isDeleting := false, error := true);
    }
  }

  // ---------------------------------------------------------------------
  // What the transitions add up to
  // ---------------------------------------------------------------------

  /** A delete that is answered but not ok leaves the component stuck: it
      shows the error view, further removes are ignored and the drop zone
      stays disabled, whatever happens next. */
  lemma {:induction false} FailedDeleteLocks(s: UploaderState, later: DeleteOutcome, accepted: seq<FileInfo>, freshId: string, freshUrl: string)
    requires !RemoveIgnored(s) && !s.uploading
    ensures var t := Removed(s, DeleteNotOk);
      && RenderContent(t) == ErrorView
      && RemoveIgnored(t) && DropzoneDisabled(t)
      && Removed(t, later) == t
      && Dropped(t, accepted, freshId, freshUrl) == t
  {
  }

  /** An upload that fails after a drop shows the error view, and since the
      new object URL is still set, the drop zone stays disabled: the error
      view's "Retry File Selection" button cannot open a new selection. */
  lemma {:induction false} FailedUploadLocksDropzone(s: UploaderState, accepted: seq<FileInfo>, freshId: string, freshUrl: string,
                                                     o: UploadOutcome, next: seq<FileInfo>, nextId: string, nextUrl: string)
    requires !DropzoneDisabled(s) && accepted != [] && freshUrl != ""
    requires !Succeeded(o)
    ensures var t := UploadEnded(Dropped(s, accepted, freshId, freshUrl), o);
      && RenderContent(t) == ErrorView
      && DropzoneDisabled(t)
      && Dropped(t, next, nextId, nextUrl) == t
  {
  }

  /** A drop whose upload succeeds shows the local preview, keeps the returned
      key, and can then be removed. */
  lemma {:induction false} SuccessfulUploadShowsPreview(s: UploaderState, accepted: seq<FileInfo>, freshId: string, freshUrl: string, o: UploadOutcome)
    requires !DropzoneDisabled(s) && accepted != [] && freshUrl != ""
    requires Succeeded(o)
    ensures var t := UploadEnded(Dropped(s, accepted, freshId, freshUrl), o);
      && t.key == Some(o.key) && t.progress == 100
      && RenderContent(t) == UploadedView(freshUrl, false)
      && DropzoneDisabled(t) && !RemoveIgnored(t)
  {
  }

  /** A successful delete brings back the empty drop target, ready for a new file. */
  lemma {:induction false} DeleteSuccessReopens(s: UploaderState)
    requires !RemoveIgnored(s)
    ensures var t := Removed(s, DeleteOk);
      RenderContent(t) == EmptyView && !DropzoneDisabled(t) && t.key.None?
  {
  }
}
