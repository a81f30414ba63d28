/**
 * PMCamera's file handling, over an abstract store: unique file names for
 * captured media, the (disabled) cache limit, listing a kind's directory,
 * rendering a listing as the GET reply text, and removing a name.
 *
 * The store maps each media kind to the paths of the files in its
 * directory, in the order the directory lists them; a kind with no entry
 * is a directory that cannot be read.
 */
module FileCache {
  import opened CameraTypes

  type Store = map<MediaKind, seq<string>>

  /** Called FILE_NAME_SUFFIX in the source, though it starts the name. */
  const FilePrefix: string := "PM_CAMERA_"
  const PhotoDirName: string := "image"
  const VideoDirName: string := "video"
  /** The per-kind limits the disabled cache check would compare against. */
  const MaxImgFiles: nat := 100
  const MaxMovFiles: nat := 20
  const NoFilesText: string := "No files yet..."
  /** Stands for Foundation's description of a directory it cannot enumerate. */
  const DirectoryUnreadable: string := "The folder could not be opened."

  /** The kind of a location response type; the other types have no directory. */
  function LocationKind(t: ResponseType): (k: Option<MediaKind>)
    ensures k.Some? <==> t == PhotoLocation || t == VideoLocation
    ensures k == Some(Photo) <==> t == PhotoLocation
  {
    match t
    case PhotoLocation => Some(Photo)
    case VideoLocation => Some(Video)
    case _ => None
  }

  function Extension(k: MediaKind): string
  {
    match k
    case Photo => "jpeg"
    case Video => "mov"
  }

  /**
   * isFileCacheLimitReached as written: it returns false before doing
   * anything else. The count against MaxImgFiles / MaxMovFiles that follows
   * the return in the source is unreachable and is not part of this model.
   */
  function IsFileCacheLimitReached(t: ResponseType): (r: Result<bool, CameraError>)
    ensures r.Success? && !r.value
  {
    Success(false)
  }

  /**
   * generateUniqueFilename: `<dir>/PM_CAMERA_<guid>.<ext>` in the directory
   * of the kind; any non-location type throws a file handling error.
   */
  function UniqueFilename(t: ResponseType, photoDir: string, videoDir: string, guid: string): (r: Result<string, CameraError>)
    ensures r.Success? <==> LocationKind(t).Some?
    ensures t == PhotoLocation ==> r == Success(photoDir + "/PM_CAMERA_" + guid + ".jpeg")
    ensures t == VideoLocation ==> r == Success(videoDir + "/PM_CAMERA_" + guid + ".mov")
    ensures r.Failure? ==> r.error == FileHandlingError("Invalid option in file generation!!")
  {
    match IsFileCacheLimitReached(t)
    case Failure(e) => Failure(e)
    case Success(reached) =>
      if reached then Failure(MaxCacheError("Max limit of storage reached. Try deleting few files first."))
      else match t
        case PhotoLocation =>
          ComposedName(photoDir, guid, Photo);
          Success(photoDir + "/" + FilePrefix + guid + "." + Extension(Photo))
        case VideoLocation =>
          ComposedName(videoDir, guid, Video);
          Success(videoDir + "/" + FilePrefix + guid + "." + Extension(Video))
        case _ => Failure(FileHandlingError("Invalid option in file generation!!"))
  }

  lemma ComposedName(dir: string, guid: string, k: MediaKind)
    ensures dir + "/" + FilePrefix + guid + "." + Extension(k)
         == dir + "/PM_CAMERA_" + guid + (if k == Photo then ".jpeg" else ".mov")
  {
    assert dir + "/" + FilePrefix == dir + "/PM_CAMERA_";
    assert "." + Extension(k) == (if k == Photo then ".jpeg" else ".mov");
  }

  /** Because the cache limit check always passes, no file name request fails with the max-cache error. */
  lemma NeverMaxCacheError(t: ResponseType, photoDir: string, videoDir: string, guid: string)
    ensures !UniqueFilename(t, photoDir, videoDir, guid).Failure?
            || !UniqueFilename(t, photoDir, videoDir, guid).error.MaxCacheError?
  {
  }

  /** The inverse of the name composition: the guid of a name in `dir` with extension `ext`. */
  function ParseGuid(dir: string, ext: string, name: string): (g: Option<string>)
    ensures g.Some? ==> name == dir + "/" + FilePrefix + g.value + "." + ext
  {
    var head := dir + "/" + FilePrefix;
    var tail := "." + ext;
    if |head| + |tail| <= |name| && name[..|head|] == head && name[|name| - |tail|..] == tail then
      assert name == name[..|head|] + name[|head|..|name| - |tail|] + name[|name| - |tail|..];
      Some(name[|head|..|name| - |tail|])
    else None
  }

  /** Every generated name gives back its guid. */
  lemma ParseUniqueFilename(t: ResponseType, photoDir: string, videoDir: string, guid: string)
    requires LocationKind(t).Some?
    ensures var dir := if t == PhotoLocation then photoDir else videoDir;
            ParseGuid(dir, Extension(LocationKind(t).value), UniqueFilename(t, photoDir, videoDir, guid).value) == Some(guid)
  {
  }

  /** Fresh guids give fresh names: two requests of one type collide only on equal guids. */
  lemma UniqueFilenameInjective(t: ResponseType, photoDir: string, videoDir: string, g1: string, g2: string)
    requires LocationKind(t).Some?
    requires UniqueFilename(t, photoDir, videoDir, g1) == UniqueFilename(t, photoDir, videoDir, g2)
    ensures g1 == g2
  {
    ParseUniqueFilename(t, photoDir, videoDir, g1);
    ParseUniqueFilename(t, photoDir, videoDir, g2);
  }

  /** A photo name and a video name never collide, even if both directories were the same. */
  lemma KindsNeverCollide(photoDir: string, videoDir: string, g1: string, g2: string)
    ensures UniqueFilename(PhotoLocation, photoDir, videoDir, g1).value
         != UniqueFilename(VideoLocation, photoDir, videoDir, g2).value
  {
    var a := UniqueFilename(PhotoLocation, photoDir, videoDir, g1).value;
    var b := UniqueFilename(VideoLocation, photoDir, videoDir, g2).value;
    assert a[|a| - 1] == 'g';
    assert b[|b| - 1] == 'v';
  }

  /** N requests with N distinct guids produce N distinct names. */
  lemma DistinctGuidsDistinctNames(t: ResponseType, photoDir: string, videoDir: string, guids: seq<string>)
    requires LocationKind(t).Some?
    requires forall i, j :: 0 <= i < j < |guids| ==> guids[i] != guids[j]
    ensures forall i, j :: 0 <= i < j < |guids| ==>
              UniqueFilename(t, photoDir, videoDir, guids[i]) != UniqueFilename(t, photoDir, videoDir, guids[j])
  {
    forall i, j | 0 <= i < j < |guids|
      ensures UniqueFilename(t, photoDir, videoDir, guids[i]) != UniqueFilename(t, photoDir, videoDir, guids[j])
    {
      if UniqueFilename(t, photoDir, videoDir, guids[i]) == UniqueFilename(t, photoDir, videoDir, guids[j]) {
        UniqueFilenameInjective(t, photoDir, videoDir, guids[i], guids[j]);
      }
    }
  }

  /** getFileURLs: the listing of the type's directory. */
  function ListFiles(files: Store, t: ResponseType): (r: Result<seq<string>, CameraError>)
    ensures LocationKind(t).None? ==> r == Failure(FileHandlingError("Invalid option in response type!"))
    ensures LocationKind(t).Some? && LocationKind(t).value in files ==> r == Success(files[LocationKind(t).value])
    ensures LocationKind(t).Some? && LocationKind(t).value !in files ==> r == Failure(PlatformError(DirectoryUnreadable))
  {
    match LocationKind(t)
    case None => Failure(FileHandlingError("Invalid option in response type!"))
    case Some(k) => if k in files then Success(files[k]) else Failure(PlatformError(DirectoryUnreadable))
  }

  /** `URL(fileURLWithPath:).absoluteString`, without percent-encoding. */
  function FileUrl(path: string): string
  {
    "file://" + path
  }

  function FileUrls(paths: seq<string>): (r: seq<string>)
    ensures |r| == |paths| && forall i :: 0 <= i < |paths| ==> r[i] == FileUrl(paths[i])
  {
    seq(|paths|, i requires 0 <= i < |paths| => FileUrl(paths[i]))
  }

  /** Each path's URL followed by a comma, in listing order. */
  function Listing(paths: seq<string>): string
  {
    if paths == [] then "" else FileUrl(paths[0]) + "," + Listing(paths[1..])
  }

  /** The text convert returns. */
  function Rendered(paths: seq<string>): string
  {
    if |paths| < 1 then NoFilesText else Listing(paths)
  }

  lemma {:induction false} ListingSnoc(paths: seq<string>, p: string)
    ensures Listing(paths + [p]) == Listing(paths) + FileUrl(p) + ","
  {
    if paths == [] {
      assert Listing([p][1..]) == "";
    } else {
      assert (paths + [p])[1..] == paths[1..] + [p];
      ListingSnoc(paths[1..], p);
    }
  }

  /** convert: builds the reply text one path at a time. */
  method Convert(paths: seq<string>) returns (s: string)
    ensures s == Rendered(paths)
  {
    s := "";
    if |paths| < 1 {
      s := NoFilesText;
    }
    var i := 0;
    while i < |paths|
      invariant 0 <= i <= |paths|
      invariant |paths| >= 1 ==> s == Listing(paths[..i])
      invariant |paths| < 1 ==> s == NoFilesText
    {
      ListingSnoc(paths[..i], paths[i]);
      assert paths[..i + 1] == paths[..i] + [paths[i]];
      s := s + FileUrl(paths[i]) + ",";
      i := i + 1;
    }
    assert paths[..i] == paths;
  }

  /** An empty listing reads "No files yet..."; a non-empty one ends with a comma. */
  lemma RenderedShape(paths: seq<string>)
    ensures paths == [] ==> Rendered(paths) == "No files yet..."
    ensures paths != [] ==> |Rendered(paths)| > 0 && Rendered(paths)[|Rendered(paths)| - 1] == ','
  {
    if paths != [] {
      var n := |paths|;
      assert paths == paths[..n - 1] + [paths[n - 1]];
      ListingSnoc(paths[..n - 1], paths[n - 1]);
    }
  }

  /** The index of the first occurrence of `c`. */
  function FirstIndex(s: string, c: char): (i: nat)
    requires c in s
    ensures i < |s| && s[i] == c && c !in s[..i]
  {
    if s[0] == c then 0 else 1 + FirstIndex(s[1..], c)
  }

  /** Splits comma-terminated text back into its entries. */
  function Entries(s: string): seq<string>
    decreases |s|
  {
    if ',' in s then
      var k := FirstIndex(s, ',');
      [s[..k]] + Entries(s[k + 1..])
    else if s == "" then []
    else [s]
  }

  lemma {:induction false} FirstIndexAfter(a: string, b: string, c: char)
    requires c !in a
    ensures c in a + [c] + b && FirstIndex(a + [c] + b, c) == |a|
  {
    var s := a + [c] + b;
    assert s[|a|] == c;
    if a != [] {
      assert s[1..] == a[1..] + [c] + b;
      FirstIndexAfter(a[1..], b, c);
    }
  }

  /** Splitting a rendered non-empty listing at its commas gives back each file's URL. */
  lemma {:induction false} EntriesOfListing(paths: seq<string>)
    requires forall i :: 0 <= i < |paths| ==> ',' !in paths[i]
    ensures Entries(Listing(paths)) == FileUrls(paths)
  {
    if paths != [] {
      var u := FileUrl(paths[0]);
      var rest := Listing(paths[1..]);
      assert ',' !in u by {
        assert u == "file://" + paths[0];
        forall j | 0 <= j < |u| ensures u[j] != ',' {
          if j >= 7 { assert u[j] == paths[0][j - 7]; }
        }
      }
      var s := Listing(paths);
      assert s == u + [','] + rest;
      FirstIndexAfter(u, rest, ',');
      assert s[..|u|] == u;
      assert s[|u| + 1..] == rest;
      EntriesOfListing(paths[1..]);
    }
  }

  /** convert is lossless for comma-free paths: its non-empty output splits back into the URLs. */
  lemma RenderedRoundTrip(paths: seq<string>)
    requires paths != []
    requires forall i :: 0 <= i < |paths| ==> ',' !in paths[i]
    ensures Entries(Rendered(paths)) == FileUrls(paths)
  {
    EntriesOfListing(paths);
  }

  lemma NoMemberMeansEmpty(s: seq<string>)
    ensures (forall x :: x !in s) ==> s == []
  {
    if s != [] {
      assert s[0] in s;
    }
  }

  /** The listing with every copy of `p` removed (a removeItem on the store). */
  function RemoveName(names: seq<string>, p: string): (r: seq<string>)
    ensures forall x :: x in r <==> x in names && x != p
    ensures |r| <= |names|
  {
    if names == [] then []
    else
      assert names == [names[0]] + names[1..];
      (if names[0] == p then [] else [names[0]]) + RemoveName(names[1..], p)
  }
}
