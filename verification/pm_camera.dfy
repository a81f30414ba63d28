/**
 * The PMCamera singleton: the idle/processing guard, the stored callbacks
 * and options, the shared image picker's configuration, the media store and
 * the callbacks invoked so far.
 *
 * UIKit is abstracted: presenting the picker sets `picker.presented`, the
 * picker's delegate calls arrive as ImagePickerDidFinish / ImagePickerDidCancel,
 * camera availability is an input, and every callback invocation is appended
 * to `log`.
 */
module PMCameraModel {
  import opened CameraTypes
  import opened CameraOptions
  import opened FileCache
  import opened CameraReplies

  /** The uniform type identifiers the picker is configured with and reports. */
  datatype MediaUTType = ImageType | MovieType | VideoType

  /** The part of UIImagePickerController's state PMCamera sets. */
  datatype Picker = Picker(allowsEditing: bool, sourceType: SourceType, mediaTypes: seq<MediaUTType>, presented: bool)

  /** What the picker hands back: the media's type and the base64 text of its bytes. */
  datatype PickedMedia = PickedMedia(utType: MediaUTType, base64: string)

  const AllMediaTypes: seq<MediaUTType> := [ImageType, MovieType, VideoType]
  const MovieMediaTypes: seq<MediaUTType> := [MovieType, VideoType]

  class PMCamera {
    const photoDirPath: string
    const videoDirPath: string

    var state: State
    var mErrorReturn: Option<Callback>
    var mSuccessReturn: Option<Callback>
    var mOptions: Option<Options>
    var responseData: Option<Envelope>
    var picker: Picker
    /** The media directories' contents. */
    var files: Store
    /** Every callback invocation so far, in order. */
    var log: seq<Delivery>
    /** Set by the force-unwrap trap in getSourceType: the process is gone and nothing runs again. */
    var halted: bool

    /**
     * While a request is in flight its callbacks are stored; the picker is on
     * screen only during an accepted POST; a reply always has one key; a
     * trap happens only during an accepted POST, and no picker is on screen after it.
     */
    ghost predicate Valid()
      reads this
    {
      && (state == Processing ==> mErrorReturn.Some? && mSuccessReturn.Some?)
      && (picker.presented ==> state == Processing && mOptions.Some?)
      && (responseData.Some? ==> |responseData.value| == 1)
      && (halted ==> state == Processing && !picker.presented)
    }

    /** init, with both media directories already created. */
    constructor (photoDir: string, videoDir: string, store: Store)
      ensures Valid()
      ensures photoDirPath == photoDir && videoDirPath == videoDir && files == store
      ensures state == Idle && mErrorReturn == None && mSuccessReturn == None && mOptions == None
      ensures responseData == None && log == [] && !halted
      ensures picker == Picker(false, PhotoLibrary, [ImageType], false)
    {
      photoDirPath, videoDirPath := photoDir, videoDir;
      files := store;
      state := Idle;
      mErrorReturn, mSuccessReturn, mOptions := None, None, None;
      responseData := None;
      log := [];
      halted := false;
      picker := Picker(false, PhotoLibrary, [ImageType], false);
    }

    /** sendBusyResponse: the busy error goes to the given callback only. */
    method SendBusyResponse(errorReturn: Callback)
      modifies this`log
      ensures log == old(log) + [Delivery(errorReturn, BusyEnvelope())]
    {
      log := log + [Delivery(errorReturn, BusyEnvelope())];
    }

    /**
     * sendResponse: back to idle, a one-key dictionary, and exactly one of
     * the stored callbacks (the error callback exactly for an error).
     */
    method SendResponse(msg: string, t: ResponseType)
      requires mErrorReturn.Some? && mSuccessReturn.Some?
      modifies this`state, this`responseData, this`log
      ensures state == Idle
      ensures responseData == Some(MakeEnvelope(t, msg))
      ensures log == old(log) + [Deliver(mErrorReturn.value, mSuccessReturn.value, Reply(t, msg))]
    {
      responseData := Some(map[]);
      state := Idle;
      responseData := Some(MakeEnvelope(t, msg));
      var target := if t == Error then mErrorReturn.value else mSuccessReturn.value;
      log := log + [Delivery(target, responseData.value)];
    }

    /** openCamera: present the picker on the camera, or report that there is none. */
    method OpenCamera(cameraAvailable: bool)
      requires Valid() && !halted && state == Processing && mOptions.Some? && !picker.presented
      modifies this`picker, this`state, this`responseData, this`log
      ensures Valid()
      ensures cameraAvailable ==>
                picker == old(picker).(sourceType := Camera, presented := true)
                && state == Processing && responseData == old(responseData) && log == old(log)
      ensures !cameraAvailable ==>
                picker == old(picker) && state == Idle
                && responseData == Some(MakeEnvelope(Error, CameraNotAccessible))
                && log == old(log) + [Delivery(mErrorReturn.value, MakeEnvelope(Error, CameraNotAccessible))]
    {
      if cameraAvailable {
        picker := picker.(sourceType := Camera, presented := true);
      } else {
        SendResponse(CameraNotAccessible, Error);
      }
    }

    /** openGallary: present the picker (full screen or as a popover). */
    method OpenGallery()
      requires Valid() && !halted && state == Processing && mOptions.Some?
      modifies this`picker
      ensures Valid()
      ensures picker == old(picker).(presented := true)
    {
      picker := picker.(presented := true);
    }

    /**
     * processPOSTRequest. Busy: only the busy error, nothing else changes.
     * Idle: go to processing, store callbacks and options, configure the
     * picker and present it. `trapped` is the force-unwrap of a source type
     * outside 0..2: it halts the object, and no handler runs after it.
     */
    method ProcessPOSTRequest(options: Options, errorReturn: Callback, successReturn: Callback, cameraAvailable: bool)
      returns (trapped: bool)
      requires Valid() && !halted
      modifies this`state, this`mErrorReturn, this`mSuccessReturn, this`mOptions, this`picker, this`responseData, this`log,
               this`halted
      ensures Valid()
      ensures halted == trapped
      ensures old(state) == Processing ==>
                && !trapped && state == Processing
                && mErrorReturn == old(mErrorReturn) && mSuccessReturn == old(mSuccessReturn)
                && mOptions == old(mOptions) && picker == old(picker) && responseData == old(responseData)
                && log == old(log) + [Delivery(errorReturn, BusyEnvelope())]
      ensures old(state) == Idle ==>
                && mErrorReturn == Some(errorReturn) && mSuccessReturn == Some(successReturn)
                && mOptions == Some(options)
                && picker.allowsEditing == EditingAllowed(options)
                && (trapped <==> SourceTypeOf(options).None?)
      ensures old(state) == Idle && trapped ==>
                && state == Processing && log == old(log) && responseData == old(responseData)
                && picker == old(picker).(allowsEditing := EditingAllowed(options))
      ensures old(state) == Idle && SourceTypeOf(options) == Some(Camera) ==>
                && picker.mediaTypes == (if MediaTypeOf(options) == 1 then MovieMediaTypes else old(picker).mediaTypes)
                && (cameraAvailable ==>
                      && state == Processing && picker.sourceType == Camera && picker.presented
                      && log == old(log) && responseData == old(responseData))
                && (!cameraAvailable ==>
                      && state == Idle && picker.sourceType == old(picker).sourceType && !picker.presented
                      && responseData == Some(MakeEnvelope(Error, CameraNotAccessible))
                      && log == old(log) + [Delivery(errorReturn, MakeEnvelope(Error, CameraNotAccessible))])
      ensures old(state) == Idle && SourceTypeOf(options).Some? && SourceTypeOf(options) != Some(Camera) ==>
                && state == Processing && log == old(log) && responseData == old(responseData)
                && picker == Picker(EditingAllowed(options), SourceTypeOf(options).value, AllMediaTypes, true)
    {
      if state != Idle {
        SendBusyResponse(errorReturn);
        return false;
      }
      state := Processing;
      mErrorReturn := Some(errorReturn);
      mSuccessReturn := Some(successReturn);
      mOptions := Some(options);
      picker := picker.(allowsEditing := EditingAllowed(options));
      match SourceTypeOf(options)
      case None =>
        trapped := true;
        halted := true;
      case Some(Camera) =>
        trapped := false;
        if 1 == MediaTypeOf(options) {
          picker := picker.(mediaTypes := MovieMediaTypes);
        }
        OpenCamera(cameraAvailable);
      case Some(PhotoLibrary) =>
        trapped := false;
        picker := picker.(sourceType := PhotoLibrary, mediaTypes := AllMediaTypes);
        OpenGallery();
      case Some(SavedPhotosAlbum) =>
        trapped := false;
        picker := picker.(sourceType := SavedPhotosAlbum, mediaTypes := AllMediaTypes);
        OpenGallery();
    }

    /**
     * processGETRequest. Busy: only the busy error. Idle: store the callbacks
     * and answer at once with the converted listing (or its error), which
     * returns the guard to idle.
     */
    method ProcessGETRequest(entity: string, errorReturn: Callback, successReturn: Callback)
      requires Valid() && !halted
      modifies this`state, this`mErrorReturn, this`mSuccessReturn, this`responseData, this`log
      ensures Valid()
      ensures old(state) == Processing ==>
                && state == Processing
                && mErrorReturn == old(mErrorReturn) && mSuccessReturn == old(mSuccessReturn)
                && responseData == old(responseData)
                && log == old(log) + [Delivery(errorReturn, BusyEnvelope())]
      ensures old(state) == Idle ==>
                && state == Idle
                && mErrorReturn == Some(errorReturn) && mSuccessReturn == Some(successReturn)
                && responseData == Some(MakeEnvelope(GetReply(files, entity).kind, GetReply(files, entity).msg))
                && log == old(log) + [Deliver(errorReturn, successReturn, GetReply(files, entity))]
    {
      if state != Idle {
        SendBusyResponse(errorReturn);
        return;
      }
      state := Processing;
      mErrorReturn := Some(errorReturn);
      mSuccessReturn := Some(successReturn);
      match EntityType(entity)
      case None =>
        SendResponse(UnknownGetEntity, Error);
      case Some(t) =>
        var listing := ListFiles(files, t);
        match listing
        case Success(paths) =>
          var text := Convert(paths);
          SendResponse(text, t);
        case Failure(e) =>
          SendResponse(ErrorMessage(e), Error);
    }

    /**
     * deleteFiles: fails when the directory cannot be listed or is empty,
     * and otherwise removes every listed file, one at a time.
     */
    method DeleteFiles(t: ResponseType) returns (err: Option<CameraError>)
      modifies this`files
      ensures DeleteOutcome(old(files), t).Failure? ==>
                err == Some(DeleteOutcome(old(files), t).error) && files == old(files)
      ensures DeleteOutcome(old(files), t).Success? ==>
                err == None && files == DeleteOutcome(old(files), t).value
    {
      var listing := ListFiles(files, t);
      if listing.Failure? {
        return Some(listing.error);
      }
      var paths := listing.value;
      if |paths| < 1 {
        return Some(FileHandlingError(NoFileCached));
      }
      var k := LocationKind(t).value;
      var i := 0;
      while i < |paths|
        invariant 0 <= i <= |paths|
        invariant k in files && files == old(files)[k := files[k]]
        invariant forall x :: x in files[k] <==> x in paths && x !in paths[..i]
      {
        assert paths[..i + 1] == paths[..i] + [paths[i]];
        if paths[i] in files[k] {
          files := files[k := RemoveName(files[k], paths[i])];
        }
        i := i + 1;
      }
      assert paths[..i] == paths;
      NoMemberMeansEmpty(files[k]);
      err := None;
    }

    /**
     * processDeleteRequest. Busy: only the busy error. Idle: store the
     * callbacks, empty the entity's directory, and answer at once.
     */
    method ProcessDeleteRequest(entity: string, errorReturn: Callback, successReturn: Callback)
      requires Valid() && !halted
      modifies this`state, this`mErrorReturn, this`mSuccessReturn, this`responseData, this`log, this`files
      ensures Valid()
      ensures old(state) == Processing ==>
                && state == Processing
                && mErrorReturn == old(mErrorReturn) && mSuccessReturn == old(mSuccessReturn)
                && responseData == old(responseData) && files == old(files)
                && log == old(log) + [Delivery(errorReturn, BusyEnvelope())]
      ensures old(state) == Idle ==>
                var h := DeleteHandled(old(files), entity);
                && state == Idle
                && mErrorReturn == Some(errorReturn) && mSuccessReturn == Some(successReturn)
                && files == h.files
                && responseData == Some(MakeEnvelope(h.reply.kind, h.reply.msg))
                && log == old(log) + [Deliver(errorReturn, successReturn, h.reply)]
    {
      if state != Idle {
        SendBusyResponse(errorReturn);
        return;
      }
      state := Processing;
      mErrorReturn := Some(errorReturn);
      mSuccessReturn := Some(successReturn);
      match EntityType(entity)
      case None =>
        SendResponse(UnknownDeleteEntity, Error);
      case Some(t) =>
        var err := DeleteFiles(t);
        match err
        case None =>
          SendResponse(DeletedMessage, Msg);
        case Some(e) =>
          SendResponse(ErrorMessage(e), Error);
    }

    /** saveNSendResponse: write the file under a fresh name and reply with its path. */
    method SaveNSendResponse(t: ResponseType, writeOk: bool, guid: string)
      requires mErrorReturn.Some? && mSuccessReturn.Some?
      modifies this`files, this`state, this`responseData, this`log
      ensures var h := SaveHandled(t, old(files), photoDirPath, videoDirPath, writeOk, guid);
              && files == h.files && state == Idle
              && responseData == Some(MakeEnvelope(h.reply.kind, h.reply.msg))
              && log == old(log) + [Deliver(mErrorReturn.value, mSuccessReturn.value, h.reply)]
    {
      var name := UniqueFilename(t, photoDirPath, videoDirPath, guid);
      match name
      case Failure(e) =>
        SendResponse(ErrorMessage(e), Error);
      case Success(savePath) =>
        var k := LocationKind(t).value;
        var isSaved := writeOk && k in files;
        if isSaved {
          files := Saved(files, k, savePath);
          SendResponse(savePath, t);
        } else {
          SendResponse(SaveFailed, Error);
        }
    }

    /** generateOutput: inline source, a saved file, or the unknown-format error. */
    method GenerateOutput(base64: string, writeOk: bool, guid: string)
      requires mErrorReturn.Some? && mSuccessReturn.Some? && mOptions.Some?
      modifies this`files, this`state, this`responseData, this`log
      ensures var h := CaptureHandled(mOptions.value, old(files), photoDirPath, videoDirPath, base64, writeOk, guid);
              && files == h.files && state == Idle
              && responseData == Some(MakeEnvelope(h.reply.kind, h.reply.msg))
              && log == old(log) + [Deliver(mErrorReturn.value, mSuccessReturn.value, h.reply)]
    {
      var t := OutputTypeOf(mOptions.value);
      if t == PhotoSrc {
        SendResponse(base64, PhotoSrc);
      } else if t == PhotoLocation || t == VideoLocation {
        SaveNSendResponse(t, writeOk, guid);
      } else {
        SendResponse(UnknownOutput, Error);
      }
    }

    /**
     * imagePickerController(_:didFinishPickingMediaWithInfo:): dismiss the
     * picker, override mediaType with what was picked, and produce the output.
     */
    method ImagePickerDidFinish(media: PickedMedia, writeOk: bool, guid: string)
      requires Valid() && picker.presented
      modifies this`picker, this`mOptions, this`files, this`state, this`responseData, this`log
      ensures Valid()
      ensures picker == old(picker).(presented := false)
      ensures mOptions == Some(old(mOptions).value["mediaType" := IntValue(PickedMediaType(media.utType != ImageType))])
      ensures var h := CaptureHandled(mOptions.value, old(files), photoDirPath, videoDirPath, media.base64, writeOk, guid);
              && files == h.files && state == Idle
              && responseData == Some(MakeEnvelope(h.reply.kind, h.reply.msg))
              && log == old(log) + [Deliver(mErrorReturn.value, mSuccessReturn.value, h.reply)]
    {
      picker := picker.(presented := false);
      if media.utType == MovieType || media.utType == VideoType {
        mOptions := Some(mOptions.value["mediaType" := IntValue(1)]);
      } else {
        mOptions := Some(mOptions.value["mediaType" := IntValue(0)]);
      }
      GenerateOutput(media.base64, writeOk, guid);
    }

    /** imagePickerControllerDidCancel: dismiss the picker and report the cancellation. */
    method ImagePickerDidCancel()
      requires Valid() && picker.presented
      modifies this`picker, this`state, this`responseData, this`log
      ensures Valid()
      ensures picker == old(picker).(presented := false)
      ensures state == Idle && responseData == Some(MakeEnvelope(Error, UserCancelled))
      ensures log == old(log) + [Delivery(mErrorReturn.value, MakeEnvelope(Error, UserCancelled))]
    {
      picker := picker.(presented := false);
      SendResponse(UserCancelled, Error);
    }
  }
}
