# PMCamera camera service — a Dafny model

This project models the camera service of an iOS reference app. A web page
talks to it through local HTTP calls:

- `POST` with a JSON options body opens the image picker (camera or gallery).
  When the user finishes, the capture is returned inline as base64 or saved
  under a unique file name and returned as its path.
- `GET /camera/image` and `GET /camera/video` list the cached files.
- `DELETE /camera/image` and `DELETE /camera/video` empty the cache of that
  kind. The router reads only the last path component.

A single `PMCamera` object serves all of these. It has an idle/processing
guard: while one request is in flight, every other request gets the busy
error on its own error callback.

The project has six modules:

- `CameraTypes` (`types.dfy`): response types, errors, the one-key reply
  dictionary, and how a reply is routed to the error or success callback.
- `CameraOptions` (`options.dfy`): the option getters, read from the untyped
  options dictionary, and the picker's `mediaType` override.
- `FileCache` (`file_cache.dfy`): unique file names, the disabled cache
  limit, directory listing, the `convert` loop that renders a listing, and
  file removal, all over an abstract store.
- `CameraReplies` (`replies.dfy`): what each handler replies and what it does
  to the store, as functions, with the properties relating them.
- `PMCameraModel` (`pm_camera.dfy`): the `PMCamera` class. Its fields are
  updated in place by the request handlers and the picker delegate methods.
- `CameraService` (`camera_service.dfy`): the stateless router
  `performRequest`, its POST guards, and the events the host's three
  callbacks (response, data, complete) receive.

Modelling choices:

- A callback closure is an identity (`Callback(id)`). Each invocation is
  appended to the object's `log`, which holds the target and the JSON
  dictionary.
- The documents directory is a `Store`: each media kind maps to the file
  paths in its directory, in the order the directory lists them. A kind with
  no entry is a directory that cannot be read.
- The globally unique string is a `guid` parameter.
- The outcome of the atomic file write is a `writeOk` parameter.
- Camera availability is a `cameraAvailable` parameter.
- The picked media's base64 text is carried in `PickedMedia`.
- `getSourceType` force-unwraps the enum built from the raw value. An integer
  outside 0..2 therefore traps and ends the process. `SourceTypeOf` returns
  `None` for it. `ProcessPOSTRequest` then returns `trapped` and sets the
  object's `halted` field, and no handler may run on a halted object.

## Model

| member | source | states |
|---|---|---|
| CameraTypes.ResponseTypeOfKey | PMCamera.swift:340-357 | reading a reply key back yields a response type whose key it is |
| CameraTypes.ResponseKeyRoundTrip | PMCamera.swift:340-357 | each response type's key reads back to that type |
| CameraTypes.ResponseKeyInjective | PMCamera.swift:340-357 | no two response types share a reply key |
| CameraTypes.MakeEnvelope | PMCamera.swift:335-357 | the reply dictionary has exactly one key, the type's key, holding the message |
| CameraTypes.BusyEnvelope | PMCamera.swift:311-318 | the busy payload is the single key `error` with "Already processing a request, Please try again." |
| CameraTypes.Deliver | PMCamera.swift:360-373 | an error reply goes to the error callback and every other reply to the success callback; for distinct callbacks, error callback iff error type; payload is the one-key dictionary |
| CameraOptions.SourceTypeFromRaw | PMCamera.swift:506-516 | a source type exists exactly for raw values 0..2, and its raw value is the input |
| CameraOptions.SourceTypeOf | PMCamera.swift:506-516 | photo library when no integer is given; a trap exactly when the integer is outside 0..2; otherwise the source type with that raw value |
| CameraOptions.MediaTypeOf | PMCamera.swift:521-531 | 0 unless `mediaType` holds an integer, else that integer |
| CameraOptions.EditingAllowed | PMCamera.swift:564-574 | editing is allowed exactly when `edit` holds a non-zero integer |
| CameraOptions.CameraDirectionOf | PMCamera.swift:577-587 | 0 unless `cameraDirection` holds an integer, else that integer |
| CameraOptions.OutputTypeOf | PMCamera.swift:536-557 | photo file iff output 0 with mediaType 0; video file iff output 0 with another mediaType; inline photo iff output 1 with mediaType 0; never inline video or message; error otherwise |
| CameraOptions.Defaults | PMCamera.swift:506-587 | with no keys: photo library, mediaType 0, no editing, direction 0, and the output type is the error type |
| CameraOptions.OutputFollowsPickedMedia | PMCamera.swift:433-453 | after the picker's mediaType override, output 0 saves under the kind actually picked, output 1 is inline only for an image, and any other output is an error |
| FileCache.LocationKind | PMCamera.swift:784-798 | only the two location types have a directory, photo for photo_location |
| FileCache.UniqueFilename | PMCamera.swift:660-699 | succeeds exactly for the location types, giving `<photoDir>/PM_CAMERA_<guid>.jpeg` or `<videoDir>/PM_CAMERA_<guid>.mov`; otherwise fails with "Invalid option in file generation!!" |
| FileCache.IsFileCacheLimitReached | PMCamera.swift:741-743 | as written, the check returns false at once: it never reports the limit and never throws |
| FileCache.NeverMaxCacheError | PMCamera.swift:741-743 | since the limit check returns false at once, naming never fails with the max-cache error |
| FileCache.ParseGuid | PMCamera.swift:693-694 | a recovered guid recomposes to exactly the given name |
| FileCache.ParseUniqueFilename | PMCamera.swift:693-694 | every generated name parses back to its guid |
| FileCache.UniqueFilenameInjective | PMCamera.swift:693-694 | two names of one type are equal only for equal guids |
| FileCache.KindsNeverCollide | PMCamera.swift:677-694 | a photo name never equals a video name, whatever the directories and guids |
| FileCache.DistinctGuidsDistinctNames | PMCamera.swift:693-694 | pairwise distinct guids give pairwise distinct names |
| FileCache.ListFiles | PMCamera.swift:784-818 | non-location types fail with "Invalid option in response type!"; an unreadable directory fails with the platform error; otherwise the directory's contents |
| FileCache.ListingSnoc | PMCamera.swift:276-278 | one more path appends its URL and a comma to the listing text |
| FileCache.Convert | PMCamera.swift:268-280 | the loop builds exactly the rendered listing |
| FileCache.RenderedShape | PMCamera.swift:268-280 | an empty listing reads "No files yet..."; a non-empty one ends in a comma |
| FileCache.EntriesOfListing | PMCamera.swift:276-278 | splitting the listing text at commas gives each path's URL, in order, for comma-free paths |
| FileCache.RenderedRoundTrip | PMCamera.swift:268-280 | a non-empty rendered listing splits back into exactly the files' URLs |
| FileCache.RemoveName | PMCamera.swift:835-840 | after removal the name is gone, every other name stays, and nothing is added |
| CameraReplies.EntityType | PMCamera.swift:149-193 | only "image" and "video" name an entity, as photo and video location |
| CameraReplies.GetReply | PMCamera.swift:149-193 | a listing of the kind's files exactly for a known entity with a readable directory; "Unknown source type option!" for any other entity; otherwise the listing's error |
| CameraReplies.ListReply | PMCamera.swift:151-188 | the converted listing under the kind's location type for a readable directory, the unreadable-directory error otherwise |
| CameraReplies.DeleteOutcome | PMCamera.swift:825-850 | succeeds exactly for a readable, non-empty directory of a location type; success empties that directory and leaves the other kind alone; an empty directory fails with "No file cached!" |
| CameraReplies.DeleteHandled | PMCamera.swift:215-257 | a success message exactly when the delete succeeds; an error leaves the store unchanged; an unknown entity gets "Unknown source type option in file delete!" |
| CameraReplies.Saved | PMCamera.swift:613-614 | a written file is listed in its kind's directory; nothing else is added and the other kind is untouched |
| CameraReplies.SaveHandled | PMCamera.swift:610-653 | a non-location type gets "Invalid option in file generation!!"; a failed write gets "Error in saving file!" and leaves the store alone; a successful write replies with the generated path and adds it to its kind's directory |
| CameraReplies.CaptureHandled | PMCamera.swift:465-484 | an inline photo replies with the base64 text; a location type is saved as SaveHandled says; any other output type gets "Unknown output format! 1" and leaves the store alone |
| CameraReplies.CaptureOutcomes | PMCamera.swift:433-484 | a finished capture replies inline exactly for an image with output 1, and with the saved path exactly for output 0 with a successful write; an error otherwise; the store changes only by the saved file |
| CameraReplies.NoCacheLimitReply | PMCamera.swift:660-666 | a capture never replies with the max-cache error |
| CameraReplies.ListAfterDelete | PMCamera.swift:202-258 | a GET after a successful DELETE of the same entity reads "No files yet..." |
| CameraReplies.DeleteEmptyFails | PMCamera.swift:829-833 | deleting from an empty directory replies "No file cached!" and changes nothing |
| CameraReplies.ListAfterSave | PMCamera.swift:610-625 | after a saved capture, a GET of that kind lists the new file's URL |
| PMCameraModel.PMCamera.constructor | PMCamera.swift:67-80 | starts idle with no callbacks, options or reply, the picker not on screen, and the given directories and store |
| PMCameraModel.PMCamera.SendBusyResponse | PMCamera.swift:311-326 | only the given callback receives the busy payload, and no state changes |
| PMCameraModel.PMCamera.SendResponse | PMCamera.swift:333-380 | back to idle; the stored reply is the one-key dictionary; exactly one delivery, to the error or success callback by type |
| PMCameraModel.PMCamera.OpenCamera | PMCamera.swift:388-404 | an available camera presents the picker on the camera source; otherwise "Camera not accessible" goes to the error callback and the guard returns to idle |
| PMCameraModel.PMCamera.OpenGallery | PMCamera.swift:405-427 | presents the picker and changes nothing else |
| PMCameraModel.PMCamera.ProcessPOSTRequest | PMCamera.swift:88-128 | busy: only the busy error, all else unchanged. Idle: callbacks and options stored; editing from the options; a trap, which halts the object, iff invalid source type. Camera: movie types for mediaType 1, then OpenCamera. Library or album: all media types, picker presented, no delivery yet |
| PMCameraModel.PMCamera.ProcessGETRequest | PMCamera.swift:136-194 | busy: only the busy error. Idle: callbacks stored, one delivery of the GetReply, back to idle |
| PMCameraModel.PMCamera.DeleteFiles | PMCamera.swift:825-850 | the loop removes every listed file, leaving the store as DeleteOutcome says, or reports its error and changes nothing |
| PMCameraModel.PMCamera.ProcessDeleteRequest | PMCamera.swift:202-258 | busy: only the busy error, store unchanged. Idle: callbacks stored, the store and the one delivery are those of DeleteHandled, back to idle |
| PMCameraModel.PMCamera.SaveNSendResponse | PMCamera.swift:610-653 | the store, reply and one delivery are those of naming then writing the file: the path on success, "Error in saving file!" on a failed write, the naming error otherwise |
| PMCameraModel.PMCamera.GenerateOutput | PMCamera.swift:465-484 | by output type: the base64 inline, a saved file, or "Unknown output format! 1" |
| PMCameraModel.PMCamera.ImagePickerDidFinish | PMCamera.swift:433-454 | dismisses the picker; mediaType becomes 1 for a movie or video, else 0; then exactly the capture outcome is delivered |
| PMCameraModel.PMCamera.ImagePickerDidCancel | PMCamera.swift:458-462 | dismisses the picker; "User cancelled" goes to the error callback; back to idle |
| CameraService.HandlePOST | CameraService.swift:134-199 | the options reach PMCamera exactly when there is no query and the body parses to a dictionary, and they are that dictionary; every other case is a 400 with no extra headers |
| CameraService.PerformRequest | CameraService.swift:54-132 | 400 without URL, path or method. 405 with `Allow: POST, DELETE, GET` exactly for other methods, matched case-sensitively. GET and DELETE pass the last path component. POST reaches PMCamera exactly with no query and a JSON dictionary body, which is passed on unchanged |
| CameraService.MethodMatchIsExact | CameraService.swift:98-114 | lower-case or unknown methods get 405 |
| CameraService.PostBodyChecks | CameraService.swift:137-160 | a query, a missing body, an unparsable body or a non-dictionary body gets 400 |
| CameraService.ErrorStatusEvents | CameraService.swift:75-112 | respondWithErrorStatus is one exchange: the given status and headers first, completion last, no data |
| CameraService.CallbackEvents | CameraService.swift:167-189 | each closure is one exchange: the default 200 response first, the payload as its only data, completion last |
| CameraService.Serve | CameraService.swift:54-268 | a rejection leaves PMCamera unchanged; GET and DELETE complete within the call with one exchange; a POST answers at most once during the call; a trap happens exactly for an accepted POST with an invalid source type, answers nothing and halts the service; every delivery goes to that request's own closures |
| CameraService.BusyWhileCapturing | PMCamera.swift:88-194 | during a gallery capture, a GET and a DELETE get the busy error on their own error callbacks; cancel answers the POST; a later GET is served |
| CameraService.TrapOnBadSourceType | PMCamera.swift:506-516 | a POST with sourceType 7 traps: no callback fires and the service is halted |
| CameraService.InlinePhotoCapture | PMCamera.swift:465-472 | output 1 with a picked image answers the POST's success callback with `image_src` holding the base64 text |
| CameraService.DeleteThenList | PMCamera.swift:202-258 | deleting three photos answers "Files deleted successfully", and the next GET answers "No files yet..." |

## Left out

- UIKit presentation is abstracted to the picker's `presented` flag. This covers getTopVC, the popover on iPad, dismissal animations and main-thread dispatch.
- Camera.js and the web side of the API are not part of this model.
- getCompression and the JPEG encoding of the picked image are not modelled (floating point and image codecs). The picked media carries its base64 text, so base64 encoding is not modelled either.
- JSON serialisation of the reply dictionary is not modelled. The dictionary always holds one string value, so serialisation cannot fail, and the catch branches that only log are left out.
- Logging (`print`, Logger, PGSDKLogger) is not modelled.
- createDir: both directories are taken as created at construction. If creation fails, the paths stay nil and a later force-unwrap traps; that is not modelled.
- File I/O goes through the abstract store. A write that fails is the `writeOk` input. A write into an unreadable directory also fails.
- PMCameraModel.PMCamera.DeleteFiles: a removeItem that throws part-way through the loop is not modelled; every listed file is removed.
- The order in which the directory lists files is taken as the store's order.
- `URL.absoluteString` is modelled as "file://" followed by the path, without percent-encoding. The store holds paths, so the removal of every "file://" occurrence in deleteFiles is taken as stripping the prefix.
- The other force-unwraps in the picker delegate are not modelled. These are the media URL and its data read, and the original image and its JPEG data; the model assumes they succeed.
- deleteFile(_:) is dead code that targets a fixed "someFileName.png"; it is not modelled.
- FileCache.IsFileCacheLimitReached is modelled as written: it returns false at once. The count against MaxImgFiles (100) and MaxMovFiles (20) after that return is unreachable and is not modelled. The cache limit is therefore never enforced, and the model follows the code here rather than the documented design.
- "Unknown output format! 2" in saveNSendResponse is unreachable, because naming has already failed for any non-location type. The model has no such branch.
- getCameraDirection is modelled, but nothing in the source uses it to configure the picker.
- An output option that is missing yields "Unknown output format! 1". The model follows the code here, not a file-URI default.
- The closures are passed under the label `barcodeReturn:` while PMCamera names the parameter `successReturn`. The model treats them as the same success callback.
- The host's response object is abstracted to a status and headers. The default response passed to the closures is status 200 with no headers.
- Process termination after an invalid source type is modelled only as the `halted` flag. No handler may be called after it, and the process's restart is not modelled.
- The HTTP service registration (`serviceIdentifier`) and the commented-out path check are not modelled.
