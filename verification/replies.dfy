/**
 * What each PMCamera handler replies, and what it does to the file store,
 * stated as functions of the store and the request. The PMCamera class
 * methods are proved to deliver exactly these replies.
 */
module CameraReplies {
  import opened CameraTypes
  import opened CameraOptions
  import opened FileCache

  const DeletedMessage: string := "Files deleted successfully"
  const NoFileCached: string := "No file cached!"
  const SaveFailed: string := "Error in saving file!"
  const UnknownGetEntity: string := "Unknown source type option!"
  const UnknownDeleteEntity: string := "Unknown source type option in file delete!"
  const UnknownOutput: string := "Unknown output format! 1"
  const CameraNotAccessible: string := "Camera not accessible"
  const UserCancelled: string := "User cancelled"

  /** A reply together with the store it leaves behind. */
  datatype Handled = Handled(reply: Reply, files: Store)

  /** Every catch clause: the error's text under the `error` key. */
  function ErrorReply(e: CameraError): Reply
  {
    Reply(Error, ErrorMessage(e))
  }

  /** The location type an entity path component names, if any. */
  function EntityType(entity: string): (t: Option<ResponseType>)
    ensures t.Some? <==> entity == "image" || entity == "video"
    ensures t.Some? ==> LocationKind(t.value).Some?
    ensures t == Some(PhotoLocation) <==> entity == "image"
  {
    if entity == "image" then Some(PhotoLocation)
    else if entity == "video" then Some(VideoLocation)
    else None
  }

  /** processGETRequest for a known entity: the converted listing, or the listing's error. */
  function ListReply(files: Store, t: ResponseType): (r: Reply)
    requires LocationKind(t).Some?
    ensures LocationKind(t).value in files ==> r == Reply(t, Rendered(files[LocationKind(t).value]))
    ensures LocationKind(t).value !in files ==> r == Reply(Error, DirectoryUnreadable)
  {
    match ListFiles(files, t)
    case Success(paths) => Reply(t, Rendered(paths))
    case Failure(e) => ErrorReply(e)
  }

  /** The reply of processGETRequest once the request has been accepted. */
  function GetReply(files: Store, entity: string): (r: Reply)
    ensures r.kind == PhotoLocation <==> entity == "image" && Photo in files
    ensures r.kind == VideoLocation <==> entity == "video" && Video in files
    ensures r.kind == PhotoLocation ==> r.msg == Rendered(files[Photo])
    ensures r.kind == VideoLocation ==> r.msg == Rendered(files[Video])
    ensures EntityType(entity).None? ==> r == Reply(Error, UnknownGetEntity)
    ensures EntityType(entity).Some? && ListFiles(files, EntityType(entity).value).Failure? ==>
              r == ErrorReply(ListFiles(files, EntityType(entity).value).error)
    ensures r.kind in {PhotoLocation, VideoLocation, Error}
  {
    match EntityType(entity)
    case None => Reply(Error, UnknownGetEntity)
    case Some(t) => ListReply(files, t)
  }

  /** deleteFiles: the store with the kind's directory emptied, or the error it throws. */
  function DeleteOutcome(files: Store, t: ResponseType): (r: Result<Store, CameraError>)
    ensures r.Success? <==> LocationKind(t).Some? && LocationKind(t).value in files && files[LocationKind(t).value] != []
    ensures r.Success? ==> r.value.Keys == files.Keys && r.value[LocationKind(t).value] == []
    ensures r.Success? ==> forall k :: k in files && Some(k) != LocationKind(t) ==> r.value[k] == files[k]
    ensures LocationKind(t).Some? && LocationKind(t).value in files && files[LocationKind(t).value] == [] ==>
              r == Failure(FileHandlingError(NoFileCached))
  {
    match ListFiles(files, t)
    case Failure(e) => Failure(e)
    case Success(paths) =>
      if |paths| < 1 then Failure(FileHandlingError(NoFileCached))
      else Success(files[LocationKind(t).value := []])
  }

  /** processDeleteRequest once the request has been accepted. */
  function DeleteHandled(files: Store, entity: string): (h: Handled)
    ensures h.reply.kind in {Msg, Error}
    ensures h.reply.kind == Msg <==> EntityType(entity).Some? && DeleteOutcome(files, EntityType(entity).value).Success?
    ensures h.reply.kind == Msg ==> h.reply.msg == DeletedMessage
    ensures h.reply.kind == Msg ==> h.files == DeleteOutcome(files, EntityType(entity).value).value
    ensures EntityType(entity).Some? && DeleteOutcome(files, EntityType(entity).value).Failure? ==>
              h.reply == ErrorReply(DeleteOutcome(files, EntityType(entity).value).error)
    ensures h.reply.kind == Error ==> h.files == files
    ensures EntityType(entity).None? ==> h.reply == Reply(Error, UnknownDeleteEntity)
  {
    match EntityType(entity)
    case None => Handled(Reply(Error, UnknownDeleteEntity), files)
    case Some(t) =>
      match DeleteOutcome(files, t)
      case Success(after) => Handled(Reply(Msg, DeletedMessage), after)
      case Failure(e) => Handled(ErrorReply(e), files)
  }

  /** The store after a successful write of `path` into kind `k`: the file is listed once. */
  function Saved(files: Store, k: MediaKind, path: string): (r: Store)
    requires k in files
    ensures r.Keys == files.Keys
    ensures path in r[k] && forall x :: x in files[k] ==> x in r[k]
    ensures forall x :: x in r[k] ==> x in files[k] || x == path
    ensures forall j :: j in files && j != k ==> r[j] == files[j]
  {
    files[k := if path in files[k] then files[k] else files[k] + [path]]
  }

  /**
   * saveNSendResponse: name the file, write it (`writeOk` stands for the
   * outcome of the atomic write, which also fails when the directory is
   * missing), then reply with its path or an error.
   */
  function SaveHandled(t: ResponseType, files: Store, photoDir: string, videoDir: string, writeOk: bool, guid: string): (h: Handled)
    ensures LocationKind(t).None? ==> h == Handled(Reply(Error, "Invalid option in file generation!!"), files)
    ensures LocationKind(t).Some? && !(writeOk && LocationKind(t).value in files) ==>
              h == Handled(Reply(Error, SaveFailed), files)
    ensures LocationKind(t).Some? && writeOk && LocationKind(t).value in files ==>
              && h.reply == Reply(t, UniqueFilename(t, photoDir, videoDir, guid).value)
              && h.files == Saved(files, LocationKind(t).value, h.reply.msg)
  {
    match UniqueFilename(t, photoDir, videoDir, guid)
    case Failure(e) => Handled(ErrorReply(e), files)
    case Success(path) =>
      var k := LocationKind(t).value;
      if writeOk && k in files then Handled(Reply(t, path), Saved(files, k, path))
      else Handled(Reply(Error, SaveFailed), files)
  }

  /** generateOutput, given the options after the picker's mediaType override. */
  function CaptureHandled(options: Options, files: Store, photoDir: string, videoDir: string,
                          base64: string, writeOk: bool, guid: string): (h: Handled)
    ensures OutputTypeOf(options) == PhotoSrc ==> h == Handled(Reply(PhotoSrc, base64), files)
    ensures OutputTypeOf(options) in {PhotoLocation, VideoLocation} ==>
              h == SaveHandled(OutputTypeOf(options), files, photoDir, videoDir, writeOk, guid)
    ensures OutputTypeOf(options) !in {PhotoSrc, PhotoLocation, VideoLocation} ==>
              h == Handled(Reply(Error, UnknownOutput), files)
  {
    match OutputTypeOf(options)
    case PhotoSrc => Handled(Reply(PhotoSrc, base64), files)
    case PhotoLocation => SaveHandled(PhotoLocation, files, photoDir, videoDir, writeOk, guid)
    case VideoLocation => SaveHandled(VideoLocation, files, photoDir, videoDir, writeOk, guid)
    case _ => Handled(Reply(Error, UnknownOutput), files)
  }

  /**
   * What a finished capture replies: inline source only for an image with
   * output 1, a saved file's path only for output 0 when the write
   * succeeds, an error otherwise; the store changes only by the saved file.
   */
  lemma CaptureOutcomes(options: Options, files: Store, photoDir: string, videoDir: string,
                        base64: string, writeOk: bool, guid: string, isMovie: bool)
    ensures var o := options["mediaType" := IntValue(PickedMediaType(isMovie))];
            var h := CaptureHandled(o, files, photoDir, videoDir, base64, writeOk, guid);
            var k := if isMovie then Video else Photo;
            var t := if isMovie then VideoLocation else PhotoLocation;
            && h.reply.kind in {PhotoSrc, PhotoLocation, VideoLocation, Error}
            && (h.reply.kind == PhotoSrc <==> IntOption(options, "output") == Some(1) && !isMovie)
            && (h.reply.kind == PhotoSrc ==> h.reply.msg == base64 && h.files == files)
            && (h.reply.kind != Error && h.reply.kind != PhotoSrc <==>
                  IntOption(options, "output") == Some(0) && writeOk && k in files)
            && (h.reply.kind != Error && h.reply.kind != PhotoSrc ==>
                  h.reply.kind == t
                  && h.reply.msg == UniqueFilename(t, photoDir, videoDir, guid).value
                  && h.files == Saved(files, k, h.reply.msg))
            && (h.reply.kind == Error ==> h.files == files)
  {
  }

  /** Replies never carry the max-cache error, since the cache limit check is disabled. */
  lemma NoCacheLimitReply(options: Options, files: Store, photoDir: string, videoDir: string,
                          base64: string, writeOk: bool, guid: string)
    ensures CaptureHandled(options, files, photoDir, videoDir, base64, writeOk, guid).reply
         != Reply(Error, "Max limit of storage reached. Try deleting few files first.")
  {
  }

  /** A listing taken after a successful delete of the same entity reads "No files yet...". */
  lemma ListAfterDelete(files: Store, entity: string)
    requires DeleteHandled(files, entity).reply.kind == Msg
    ensures GetReply(DeleteHandled(files, entity).files, entity) == Reply(EntityType(entity).value, "No files yet...")
  {
  }

  /** A delete on an empty directory fails with "No file cached!" and leaves the store alone. */
  lemma DeleteEmptyFails(files: Store, entity: string)
    requires EntityType(entity).Some? && LocationKind(EntityType(entity).value).value in files
    requires files[LocationKind(EntityType(entity).value).value] == []
    ensures DeleteHandled(files, entity) == Handled(Reply(Error, NoFileCached), files)
  {
  }

  lemma CommaFreeConcat(a: string, b: string)
    requires ',' !in a && ',' !in b
    ensures ',' !in a + b
  {
    forall j | 0 <= j < |a + b| ensures (a + b)[j] != ',' {
      if j < |a| { assert (a + b)[j] == a[j]; } else { assert (a + b)[j] == b[j - |a|]; }
    }
  }

  /** A generated name has no comma when its directory and guid have none. */
  lemma CommaFreeName(t: ResponseType, photoDir: string, videoDir: string, guid: string)
    requires LocationKind(t).Some?
    requires ',' !in (if t == PhotoLocation then photoDir else videoDir) && ',' !in guid
    ensures ',' !in UniqueFilename(t, photoDir, videoDir, guid).value
  {
    var dir := if t == PhotoLocation then photoDir else videoDir;
    var ext := if t == PhotoLocation then ".jpeg" else ".mov";
    CommaFreeConcat(dir, "/PM_CAMERA_");
    CommaFreeConcat(dir + "/PM_CAMERA_", guid);
    CommaFreeConcat(dir + "/PM_CAMERA_" + guid, ext);
  }

  /** After a capture saved under output 0, a GET of that kind lists the new file's URL. */
  lemma ListAfterSave(t: ResponseType, files: Store, photoDir: string, videoDir: string, guid: string)
    requires LocationKind(t).Some? && LocationKind(t).value in files
    requires forall x :: x in files[LocationKind(t).value] ==> ',' !in x
    requires ',' !in (if t == PhotoLocation then photoDir else videoDir) && ',' !in guid
    ensures var h := SaveHandled(t, files, photoDir, videoDir, true, guid);
            var entity := if t == PhotoLocation then "image" else "video";
            && GetReply(h.files, entity).kind == t
            && FileUrl(h.reply.msg) in Entries(GetReply(h.files, entity).msg)
  {
    var k := LocationKind(t).value;
    var h := SaveHandled(t, files, photoDir, videoDir, true, guid);
    var path := h.reply.msg;
    assert path == UniqueFilename(t, photoDir, videoDir, guid).value;
    CommaFreeName(t, photoDir, videoDir, guid);
    var listing := h.files[k];
    assert path in listing;
    assert forall x :: x in listing ==> ',' !in x;
    var i :| 0 <= i < |listing| && listing[i] == path;
    RenderedRoundTrip(listing);
    assert FileUrls(listing)[i] == FileUrl(path);
  }
}
