/** The storage helpers of the front end: recognising HEIC/HEIF photos, naming an
    upload, reporting the storage answer, and finding the bucket and path of a
    public storage URL to delete. The storage client, the clock, the random
    suffix and the HEIC converter are foreign and appear as parameters. */
module SupabaseStorage {
  import opened Wrappers
  import Strings

  const ListingImagesBucket: string := "listing-images"
  const AvatarsBucket: string := "avatars"
  /** Conversion of listing images is switched off. */
  const EnableHeicConversion: bool := false
  const DefaultExtension: string := "jpg"
  const PublicMarker: string := "/storage/v1/object/public/"

  /** The name and MIME type of a browser `File`. */
  datatype FileInfo = FileInfo(name: string, mime: string)

  /** What an upload reports back. */
  datatype UploadResult = UploadResult(success: bool, url: Option<string>, error: Option<string>)

  const HeicTypes: seq<string> := ["image/heic", "image/heif", "image/x-heic", "image/x-heif"]

  /** `isHeicFile`: a HEIC/HEIF MIME type or a `.heic`/`.heif` name, in any case. */
  predicate IsHeicFile(f: FileInfo) {
    Strings.Lower(f.mime) in HeicTypes ||
    Strings.EndsWith(Strings.Lower(f.name), ".heic") || Strings.EndsWith(Strings.Lower(f.name), ".heif")
  }

  /** The test does not depend on letter case. */
  lemma IsHeicIgnoresCase(f: FileInfo)
    ensures IsHeicFile(FileInfo(Strings.Lower(f.name), Strings.Lower(f.mime))) == IsHeicFile(f)
  {
    Strings.LowerIdempotent(f.name);
    Strings.LowerIdempotent(f.mime);
  }

  /** `name.split('.').pop() || 'jpg'`: the text after the last dot, the whole name
      when there is no dot, and `jpg` when that text is empty. */
  function Extension(name: string): (ext: string)
    ensures ext != "" && '.' !in ext
  {
    var parts := Strings.SplitOn(name, ".");
    Strings.SplitCharPiecesFree(name, '.');
    var last := parts[|parts| - 1];
    if last == "" then DefaultExtension else last
  }

  /** The extension of `stem.ext` is `ext`, or `jpg` when `ext` is empty. */
  lemma ExtensionAfterLastDot(stem: string, ext: string)
    requires '.' !in ext
    ensures Extension(stem + "." + ext) == if ext == "" then DefaultExtension else ext
  {
    Strings.SplitCharLast(stem, '.', ext);
  }

  /** A name without any dot is taken whole as its extension. */
  lemma ExtensionOfDotlessName(name: string)
    requires '.' !in name && name != ""
    ensures Extension(name) == name
  {
    Strings.SplitCharAbsent(name, '.');
  }

  /** `${listingId}-${imageIndex}-${timestamp}-${random}.${ext}`. */
  function ListingImageName(listingId: string, imageIndex: nat, timestamp: nat, random: nat, ext: string): string {
    listingId + "-" + Strings.NatToString(imageIndex) + "-" + Strings.NatToString(timestamp) + "-" +
      Strings.NatToString(random) + "." + ext
  }

  /** `avatar-${userId}-${timestamp}-${random}.${ext}`. */
  function AvatarName(userId: string, timestamp: nat, random: nat, ext: string): string {
    "avatar-" + userId + "-" + Strings.NatToString(timestamp) + "-" + Strings.NatToString(random) + "." + ext
  }

  /** The stored name keeps the uploaded file's extension. */
  lemma ListingImageNameKeepsExtension(f: FileInfo, listingId: string, imageIndex: nat, timestamp: nat, random: nat)
    ensures Extension(ListingImageName(listingId, imageIndex, timestamp, random, Extension(f.name))) == Extension(f.name)
  {
    var ext := Extension(f.name);
    var stem := listingId + "-" + Strings.NatToString(imageIndex) + "-" + Strings.NatToString(timestamp) + "-" +
      Strings.NatToString(random);
    assert ListingImageName(listingId, imageIndex, timestamp, random, ext) == stem + "." + ext;
    ExtensionAfterLastDot(stem, ext);
  }

  /** The storage answer: an error message means failure with no URL. */
  function Report(storageError: Option<string>, url: string): (r: UploadResult)
    ensures r.success <==> storageError.None?
    ensures storageError.Some? ==> r.url.None? && r.error == storageError
    ensures storageError.None? ==> r.url == Some(url) && r.error.None?
  {
    if storageError.Some? then UploadResult(false, None, storageError) else UploadResult(true, Some(url), None)
  }

  /** `uploadListingImage`: with conversion switched off a HEIC file is uploaded as
      it is, only flagged as skipped. `storageError` is the storage client's answer
      and `publicUrl` its URL for a stored name. */
  method UploadListingImage(file: FileInfo, listingId: string, imageIndex: nat, timestamp: nat, random: nat,
                            storageError: Option<string>, publicUrl: string -> string)
    returns (result: UploadResult, uploaded: FileInfo, fileName: string, conversionSkipped: bool)
    ensures uploaded == file
    ensures conversionSkipped <==> IsHeicFile(file)
    ensures fileName == ListingImageName(listingId, imageIndex, timestamp, random, Extension(file.name))
    ensures result == Report(storageError, publicUrl(fileName))
  {
    var fileToUpload := file;
    conversionSkipped := false;
    if IsHeicFile(file) {
      if !EnableHeicConversion {
        conversionSkipped := true;
      }
    }
    var fileExtension := Extension(fileToUpload.name);
    fileName := ListingImageName(listingId, imageIndex, timestamp, random, fileExtension);
    uploaded := fileToUpload;
    result := Report(storageError, publicUrl(fileName));
  }

  /** `uploadAvatar`: a HEIC avatar is converted regardless of the switch; a
      conversion that throws (`converted` is `None`) falls back to the original. */
  method UploadAvatar(file: FileInfo, userId: string, timestamp: nat, random: nat, converted: Option<FileInfo>,
                      storageError: Option<string>, publicUrl: string -> string)
    returns (result: UploadResult, uploaded: FileInfo, fileName: string)
    ensures uploaded == if IsHeicFile(file) && converted.Some? then converted.value else file
    ensures fileName == AvatarName(userId, timestamp, random, Extension(uploaded.name))
    ensures result == Report(storageError, publicUrl(fileName))
  {
    var fileToUpload := file;
    if IsHeicFile(file) {
      if converted.Some? {
        fileToUpload := converted.value;
      } else {
        fileToUpload := file;
      }
    }
    var fileExtension := Extension(fileToUpload.name);
    fileName := AvatarName(userId, timestamp, random, fileExtension);
    uploaded := fileToUpload;
    result := Report(storageError, publicUrl(fileName));
  }

  /** The bucket and path `deleteStorageFile` removes: `None` unless the URL splits
      into exactly two parts on the public marker; then the first two `/`-separated
      segments after it, the path missing when there is only one. */
  function DeleteTarget(url: string): (t: Option<(string, Option<string>)>)
    ensures t.Some? <==> |Strings.SplitOn(url, PublicMarker)| == 2
    ensures t.Some? ==> '/' !in t.value.0 && (t.value.1.Some? ==> '/' !in t.value.1.value)
  {
    var parts := Strings.SplitOn(url, PublicMarker);
    if |parts| != 2 then None
    else
      var segments := Strings.SplitOn(parts[1], "/");
      Strings.SplitCharPiecesFree(parts[1], '/');
      Some((segments[0], if |segments| >= 2 then Some(segments[1]) else None))
  }

  /** `deleteStorageFile`: true only for a URL of that shape whose removal the
      storage client reports without error. */
  function DeleteStorageFile(url: string, removeError: bool): (ok: bool)
    ensures ok <==> |Strings.SplitOn(url, PublicMarker)| == 2 && !removeError
  {
    DeleteTarget(url).Some? && !removeError
  }

  /** A URL without the public marker is never deleted. */
  lemma DeleteRejectsForeignUrl(url: string, removeError: bool)
    requires !Strings.Contains(url, PublicMarker)
    ensures !DeleteStorageFile(url, removeError)
  {
    Strings.SplitWithoutSeparator(url, PublicMarker);
  }

  /** After the marker, the bucket and the path are the first two segments; any
      deeper segments are dropped. */
  lemma DeleteTargetSegments(url: string, bucket: string, path: string, deeper: string)
    requires |Strings.SplitOn(url, PublicMarker)| == 2
    requires Strings.SplitOn(url, PublicMarker)[1] == bucket + "/" + path + deeper
    requires '/' !in bucket && '/' !in path && (deeper == "" || deeper[0] == '/')
    ensures DeleteTarget(url) == Some((bucket, Some(path)))
  {
    var rest := path + deeper;
    assert bucket + "/" + path + deeper == bucket + ['/'] + rest;
    Strings.SplitCharHead(bucket, '/', rest);
    var segments := Strings.SplitOn(bucket + ['/'] + rest, ['/']);
    assert segments == [bucket] + Strings.SplitOn(rest, ['/']);
    if deeper == "" {
      assert rest == path;
      Strings.SplitCharAbsent(path, '/');
    } else {
      assert rest == path + ['/'] + deeper[1..];
      Strings.SplitCharHead(path, '/', deeper[1..]);
    }
    assert |segments| >= 2 && segments[0] == bucket && segments[1] == path;
  }
}
