/**
 * The option getters of PMCamera: each reads one key of the untyped options
 * dictionary and falls back to a default when the key is absent or does not
 * hold an integer. getOutputType turns (output, mediaType) into the response
 * type the capture will produce.
 */
module CameraOptions {
  import opened CameraTypes

  /** `options[key] as? Int`. */
  function IntOption(options: Options, key: string): Option<int>
  {
    if key in options && options[key].IntValue? then Some(options[key].n) else None
  }

  /** UIImagePickerControllerSourceType, with raw values 0, 1 and 2. */
  datatype SourceType = PhotoLibrary | Camera | SavedPhotosAlbum

  function RawValue(s: SourceType): int
  {
    match s
    case PhotoLibrary => 0
    case Camera => 1
    case SavedPhotosAlbum => 2
  }

  /** `UIImagePickerControllerSourceType(rawValue:)`: None for a raw value with no case. */
  function SourceTypeFromRaw(raw: int): (r: Option<SourceType>)
    ensures r.Some? <==> 0 <= raw <= 2
    ensures r.Some? ==> RawValue(r.value) == raw
  {
    if raw == 0 then Some(PhotoLibrary)
    else if raw == 1 then Some(Camera)
    else if raw == 2 then Some(SavedPhotosAlbum)
    else None
  }

  /**
   * getSourceType. The source force-unwraps the enum built from the raw value,
   * so an integer outside 0..2 traps; None stands for that trap.
   */
  function SourceTypeOf(options: Options): (r: Option<SourceType>)
    ensures IntOption(options, "sourceType").None? ==> r == Some(PhotoLibrary)
    ensures r.None? <==> IntOption(options, "sourceType").Some? && !(0 <= IntOption(options, "sourceType").value <= 2)
    ensures r.Some? && IntOption(options, "sourceType").Some? ==> RawValue(r.value) == IntOption(options, "sourceType").value
  {
    match IntOption(options, "sourceType")
    case None => Some(PhotoLibrary)
    case Some(raw) => SourceTypeFromRaw(raw)
  }

  /** getMediaType: 0 (photo) unless an integer is given. */
  function MediaTypeOf(options: Options): (r: int)
    ensures IntOption(options, "mediaType").None? ==> r == 0
    ensures IntOption(options, "mediaType").Some? ==> r == IntOption(options, "mediaType").value
  {
    match IntOption(options, "mediaType")
    case None => 0
    case Some(m) => m
  }

  /** getEditingAllowed: true exactly when `edit` holds a non-zero integer. */
  function EditingAllowed(options: Options): (r: bool)
    ensures r <==> IntOption(options, "edit").Some? && IntOption(options, "edit").value != 0
  {
    match IntOption(options, "edit")
    case None => false
    case Some(e) => e != 0
  }

  /** getCameraDirection: 0 unless an integer is given. */
  function CameraDirectionOf(options: Options): (r: int)
    ensures IntOption(options, "cameraDirection").None? ==> r == 0
    ensures IntOption(options, "cameraDirection").Some? ==> r == IntOption(options, "cameraDirection").value
  {
    match IntOption(options, "cameraDirection")
    case None => 0
    case Some(d) => d
  }

  /**
   * getOutputType: output 0 is a file URI (photo or video by mediaType),
   * output 1 is inline source (photos only); anything else is an error.
   */
  function OutputTypeOf(options: Options): (r: ResponseType)
    ensures r == PhotoLocation <==> IntOption(options, "output") == Some(0) && MediaTypeOf(options) == 0
    ensures r == VideoLocation <==> IntOption(options, "output") == Some(0) && MediaTypeOf(options) != 0
    ensures r == PhotoSrc <==> IntOption(options, "output") == Some(1) && MediaTypeOf(options) == 0
    ensures r != VideoSrc && r != Msg
  {
    match IntOption(options, "output")
    case None => Error
    case Some(output) =>
      if output == 0 then (if 0 == MediaTypeOf(options) then PhotoLocation else VideoLocation)
      else if output == 1 then (if 0 == MediaTypeOf(options) then PhotoSrc else Error)
      else Error
  }

  /** With none of the keys present, every getter gives its documented default. */
  lemma Defaults(options: Options)
    requires "sourceType" !in options && "mediaType" !in options && "edit" !in options
    requires "cameraDirection" !in options && "output" !in options
    ensures SourceTypeOf(options) == Some(PhotoLibrary)
    ensures MediaTypeOf(options) == 0
    ensures !EditingAllowed(options)
    ensures CameraDirectionOf(options) == 0
    ensures OutputTypeOf(options) == Error
  {
  }

  /** The mediaType the picker writes back for what was picked: 1 for a movie, 0 for an image. */
  function PickedMediaType(isMovie: bool): int
  {
    if isMovie then 1 else 0
  }

  /**
   * After the picker overrides mediaType, a file-URI output is saved under the
   * kind actually picked, and inline output is produced only for an image.
   */
  lemma OutputFollowsPickedMedia(options: Options, isMovie: bool)
    ensures var o := options["mediaType" := IntValue(PickedMediaType(isMovie))];
            && (IntOption(options, "output") == Some(0) ==>
                  OutputTypeOf(o) == (if isMovie then VideoLocation else PhotoLocation))
            && (IntOption(options, "output") == Some(1) ==>
                  OutputTypeOf(o) == (if isMovie then Error else PhotoSrc))
            && (IntOption(options, "output") != Some(0) && IntOption(options, "output") != Some(1) ==>
                  OutputTypeOf(o) == Error)
  {
  }
}
