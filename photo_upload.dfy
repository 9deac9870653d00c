/** The photo uploader of the listing form: accepting a batch of files, removing a
    photo, moving a photo by drag and drop, and the label under each photo. The
    parent's photo list is the component's `photos` field; `onPhotosChange`
    assigns it. */
module PhotoUpload {
  import opened Wrappers
  import Seqs
  import Strings
  import Selection

  const DefaultMaxPhotos: nat := 7
  const DefaultMinPhotos: nat := 5
  const MaxFileSize: nat := 10 * 1024 * 1024
  const NotImages: string := "Please select image files only."
  const TooLarge: string := "Some files are too large. Please select files smaller than 10MB."
  const CoverLabel: string := "Cover Photo"

  /** A browser `File`: name, MIME type and size in bytes. */
  datatype ImageFile = ImageFile(name: string, mime: string, size: nat)

  /** An entry of the list: a file chosen in this session or the URL of a stored photo. */
  datatype Photo = NewFile(file: ImageFile) | StoredUrl(url: string)

  /** What a batch does: an alert and no change, or the new list. */
  datatype FilesOutcome = Rejected(alert: string) | Accepted(photos: seq<Photo>)

  function IsImage(f: ImageFile): bool {
    Strings.StartsWith(f.mime, "image/")
  }

  function IsOversized(f: ImageFile): bool {
    f.size > MaxFileSize
  }

  function AsPhotos(files: seq<ImageFile>): (ps: seq<Photo>)
    ensures |ps| == |files| && forall k :: 0 <= k < |files| ==> ps[k] == NewFile(files[k])
  {
    seq(|files|, k requires 0 <= k < |files| => NewFile(files[k]))
  }

  /** `handleFiles`: non-images are dropped; a batch with no image, or with an image
      over 10 MB, is refused with an alert; otherwise the images follow the old
      photos and the list is cut at `maxPhotos`. */
  function HandleFiles(photos: seq<Photo>, files: seq<ImageFile>, maxPhotos: nat): (r: FilesOutcome)
    ensures (forall k :: 0 <= k < |files| ==> !IsImage(files[k])) ==> r == Rejected(NotImages)
    ensures (exists k :: 0 <= k < |files| && IsImage(files[k]) && IsOversized(files[k])) ==> r == Rejected(TooLarge)
    ensures r.Accepted? <==>
      (exists k :: 0 <= k < |files| && IsImage(files[k])) &&
      (forall k :: 0 <= k < |files| && IsImage(files[k]) ==> !IsOversized(files[k]))
    ensures r.Accepted? ==>
      r.photos == Selection.AppendCapped(photos, AsPhotos(Seqs.Filter(files, IsImage)), maxPhotos) &&
      forall p :: p in r.photos && p !in photos ==> p.NewFile? && p.file in files && IsImage(p.file) && !IsOversized(p.file)
  {
    var images := Seqs.Filter(files, IsImage);
    if images == [] then
      assert forall k :: 0 <= k < |files| ==> (IsImage(files[k]) ==> files[k] in images);
      Rejected(NotImages)
    else if Seqs.Filter(images, IsOversized) != [] then
      var big := Seqs.Filter(images, IsOversized)[0];
      assert big in images && big in files;
      var k :| 0 <= k < |files| && files[k] == big;
      Rejected(TooLarge)
    else
      assert forall k :: 0 <= k < |images| ==> (IsOversized(images[k]) ==> images[k] in Seqs.Filter(images, IsOversized));
      assert images[0] in files;
      assert forall k :: 0 <= k < |files| && IsImage(files[k]) ==> files[k] in images;
      Selection.AppendCappedDrawsFrom(photos, AsPhotos(images), maxPhotos);
      Accepted(Selection.AppendCapped(photos, AsPhotos(images), maxPhotos))
  }

  /** `photos.filter((_, i) => i !== index)`. */
  function RemovePhoto(photos: seq<Photo>, index: nat): (r: seq<Photo>)
    ensures index < |photos| ==> |r| == |photos| - 1
    ensures index < |photos| ==> forall k :: 0 <= k < index ==> r[k] == photos[k]
    ensures index < |photos| ==> forall k :: index <= k < |r| ==> r[k] == photos[k + 1]
    ensures index >= |photos| ==> r == photos
  {
    if index < |photos| then photos[..index] + photos[index + 1..] else photos
  }

  /** Removing drops exactly the photo at the index. */
  lemma RemovePhotoDropsOne(photos: seq<Photo>, index: nat)
    requires index < |photos|
    ensures multiset(RemovePhoto(photos, index)) + multiset{photos[index]} == multiset(photos)
  {
    assert photos == photos[..index] + [photos[index]] + photos[index + 1..];
  }

  /** The list once the photo at `from` is taken out and put back in at `to`. */
  function Moved(photos: seq<Photo>, from: nat, to: nat): seq<Photo>
    requires from < |photos| && to < |photos|
  {
    var rest := photos[..from] + photos[from + 1..];
    rest[..to] + [photos[from]] + rest[to..]
  }

  /** A move keeps every photo, puts the moved one at `to`, and moving it back
      restores the list. */
  lemma MovedIsPermutation(photos: seq<Photo>, from: nat, to: nat)
    requires from < |photos| && to < |photos|
    ensures |Moved(photos, from, to)| == |photos|
    ensures multiset(Moved(photos, from, to)) == multiset(photos)
    ensures Moved(photos, from, to)[to] == photos[from]
    ensures Moved(Moved(photos, from, to), to, from) == photos
  {
    MovedMultiset(photos, from, to);
    var rest := photos[..from] + photos[from + 1..];
    var m := Moved(photos, from, to);
    assert m[..to] + m[to + 1..] == rest;
  }

  /** Taking a photo out and putting it back elsewhere keeps the multiset. */
  lemma MovedMultiset(photos: seq<Photo>, from: nat, to: nat)
    requires from < |photos| && to < |photos|
    ensures multiset(Moved(photos, from, to)) == multiset(photos)
  {
    var rest := photos[..from] + photos[from + 1..];
    var m := Moved(photos, from, to);
    assert photos == photos[..from] + [photos[from]] + photos[from + 1..];
    assert multiset(photos) == multiset(rest) + multiset{photos[from]};
    assert rest == rest[..to] + rest[to..];
    assert multiset(m) == multiset(rest) + multiset{photos[from]};
  }

  /** Where each photo ends up after a move. */
  lemma MovedAt(photos: seq<Photo>, from: nat, to: nat, i: nat)
    requires from < |photos| && to < |photos| && i < |photos|
    ensures Moved(photos, from, to)[i] ==
      if i == to then photos[from]
      else if from <= i < to then photos[i + 1]
      else if to < i <= from then photos[i - 1]
      else photos[i]
  {
  }

  /** `getPhotoOrderLabel`. */
  function Label(index: nat): string {
    if index == 0 then CoverLabel
    else if index == 1 then "Photo 2"
    else if index == 2 then "Photo 3"
    else if index == 3 then "Photo 4"
    else if index == 4 then "Photo 5"
    else "Photo " + Strings.NatToString(index + 1)
  }

  /** Every photo after the cover is labelled with its one-based position. */
  lemma LabelFormula(i: nat)
    requires i >= 1
    ensures Label(i) == "Photo " + Strings.NatToString(i + 1)
  {
    if i <= 4 {
      assert Strings.NatToString(i + 1) == [Strings.DigitChar(i + 1)];
    }
  }

  /** No two positions share a label. */
  lemma LabelsDistinct(i: nat, j: nat)
    requires i != j
    ensures Label(i) != Label(j)
  {
    if i >= 1 {
      LabelFormula(i);
      assert Label(i)[0] == 'P';
      assert Label(i)[6..] == Strings.NatToString(i + 1);
      Strings.NatToStringRoundTrip(i + 1);
    }
    if j >= 1 {
      LabelFormula(j);
      assert Label(j)[0] == 'P';
      assert Label(j)[6..] == Strings.NatToString(j + 1);
      Strings.NatToStringRoundTrip(j + 1);
    }
  }

  class PhotoUploader {
    var photos: seq<Photo>
    var draggedIndex: Option<nat>
    var dragOverIndex: Option<nat>
    const maxPhotos: nat

    constructor (photos: seq<Photo>, maxPhotos: nat)
      ensures this.photos == photos && this.maxPhotos == maxPhotos
      ensures draggedIndex.None? && dragOverIndex.None?
    {
      this.photos := photos;
      this.maxPhotos := maxPhotos;
      draggedIndex := None;
      dragOverIndex := None;
    }

    /** `handleFiles`: the alert, if any, and the list the parent now holds. */
    method AddFiles(files: seq<ImageFile>) returns (alert: Option<string>)
      modifies this
      ensures HandleFiles(old(photos), files, maxPhotos).Rejected? ==>
        alert == Some(HandleFiles(old(photos), files, maxPhotos).alert) && photos == old(photos)
      ensures HandleFiles(old(photos), files, maxPhotos).Accepted? ==>
        alert.None? && photos == HandleFiles(old(photos), files, maxPhotos).photos
      ensures draggedIndex == old(draggedIndex) && dragOverIndex == old(dragOverIndex)
    {
      match HandleFiles(photos, files, maxPhotos)
      case Rejected(message) => alert := Some(message);
      case Accepted(ps) => alert := None; photos := ps;
    }

    method Remove(index: nat)
      modifies this
      ensures photos == RemovePhoto(old(photos), index)
      ensures draggedIndex == old(draggedIndex) && dragOverIndex == old(dragOverIndex)
    {
      photos := RemovePhoto(photos, index);
    }

    method DragStart(index: nat)
      modifies this
      ensures draggedIndex == Some(index) && photos == old(photos) && dragOverIndex == old(dragOverIndex)
    {
      draggedIndex := Some(index);
    }

    /** `handleDropOnPhoto`: a drop on a different photo moves the dragged one
        there; the drag state is cleared either way. */
    method DropOnPhoto(dropIndex: nat)
      requires dropIndex < |photos| && (draggedIndex.Some? ==> draggedIndex.value < |photos|)
      modifies this
      ensures old(draggedIndex).Some? && old(draggedIndex).value != dropIndex ==>
        photos == Moved(old(photos), old(draggedIndex).value, dropIndex)
      ensures old(draggedIndex).None? || old(draggedIndex).value == dropIndex ==> photos == old(photos)
      ensures draggedIndex.None? && dragOverIndex.None?
    {
      if draggedIndex.Some? && draggedIndex.value != dropIndex {
        photos := Reorder(photos, draggedIndex.value, dropIndex);
      }
      draggedIndex := None;
      dragOverIndex := None;
    }
  }

  /** A forward move, written as slices of the original list. */
  lemma MovedForwardForm(photos: seq<Photo>, from: nat, to: nat)
    requires from < to < |photos|
    ensures Moved(photos, from, to) == photos[..from] + photos[from + 1..to + 1] + [photos[from]] + photos[to + 1..]
  {
    var rest := photos[..from] + photos[from + 1..];
    assert rest[..to] == photos[..from] + photos[from + 1..to + 1];
    assert rest[to..] == photos[to + 1..];
  }

  /** A backward move (or none), written as slices of the original list. */
  lemma MovedBackwardForm(photos: seq<Photo>, from: nat, to: nat)
    requires to <= from < |photos|
    ensures Moved(photos, from, to) == photos[..to] + [photos[from]] + photos[to..from] + photos[from + 1..]
  {
    var rest := photos[..from] + photos[from + 1..];
    assert rest[..to] == photos[..to];
    assert rest[to..] == photos[to..from] + photos[from + 1..];
  }

  /** Takes out `a[from]`, shifts `a[from + 1..to + 1]` down by one place and puts
      it back at `to`. */
  method MoveForward(a: array<Photo>, from: nat, to: nat)
    requires from < to < a.Length
    modifies a
    ensures forall i :: 0 <= i < from || to < i < a.Length ==> a[i] == old(a[i])
    ensures forall i :: from <= i < to ==> a[i] == old(a[i + 1])
    ensures a[to] == old(a[from])
  {
    var moved := a[from];
    var k := from;
    while k < to
      invariant from <= k <= to
      invariant forall i :: 0 <= i < a.Length && !(from <= i < k) ==> a[i] == old(a[i])
      invariant forall i :: from <= i < k ==> a[i] == old(a[i + 1])
    {
      a[k] := a[k + 1];
      k := k + 1;
    }
    a[to] := moved;
  }

  /** The list a forward shift leaves, written as slices of the original list. */
  lemma ShiftedForward(s: seq<Photo>, t: seq<Photo>, from: nat, to: nat)
    requires from < to < |s| == |t|
    requires forall i :: 0 <= i < from || to < i < |s| ==> t[i] == s[i]
    requires forall i :: from <= i < to ==> t[i] == s[i + 1]
    requires t[to] == s[from]
    ensures t == s[..from] + s[from + 1..to + 1] + [s[from]] + s[to + 1..]
  {
    var u := s[..from] + s[from + 1..to + 1] + [s[from]] + s[to + 1..];
    forall i | 0 <= i < |t| ensures t[i] == u[i] {
      if from <= i < to {
        assert u[i] == s[from + 1..to + 1][i - from];
      } else if i > to {
        assert u[i] == s[to + 1..][i - to - 1];
      }
    }
  }

  /** Takes out `a[from]`, shifts `a[to..from]` up by one place and puts it back
      at `to`. */
  method MoveBackward(a: array<Photo>, from: nat, to: nat)
    requires to <= from < a.Length
    modifies a
    ensures forall i :: 0 <= i < to || from < i < a.Length ==> a[i] == old(a[i])
    ensures forall i :: to < i <= from ==> a[i] == old(a[i - 1])
    ensures a[to] == old(a[from])
  {
    var moved := a[from];
    var k := from;
    while k > to
      invariant to <= k <= from
      invariant forall i :: 0 <= i < a.Length && !(k < i <= from) ==> a[i] == old(a[i])
      invariant forall i :: k < i <= from ==> a[i] == old(a[i - 1])
    {
      a[k] := a[k - 1];
      k := k - 1;
    }
    a[to] := moved;
  }

  /** The list a backward shift leaves, written as slices of the original list. */
  lemma ShiftedBackward(s: seq<Photo>, t: seq<Photo>, from: nat, to: nat)
    requires to <= from < |s| == |t|
    requires forall i :: 0 <= i < to || from < i < |s| ==> t[i] == s[i]
    requires forall i :: to < i <= from ==> t[i] == s[i - 1]
    requires t[to] == s[from]
    ensures t == s[..to] + [s[from]] + s[to..from] + s[from + 1..]
  {
    var u := s[..to] + [s[from]] + s[to..from] + s[from + 1..];
    forall i | 0 <= i < |t| ensures t[i] == u[i] {
      if to < i <= from {
        assert u[i] == s[to..from][i - to - 1];
      } else if i > from {
        assert u[i] == s[from + 1..][i - from - 1];
      }
    }
  }

  /** `reorderPhoto`: the copied list is spliced in place, shifting the photos
      between the two positions by one. */
  method Reorder(photos: seq<Photo>, from: nat, to: nat) returns (r: seq<Photo>)
    requires from < |photos| && to < |photos|
    ensures r == Moved(photos, from, to)
  {
    var a := new Photo[|photos|](k requires 0 <= k < |photos| => photos[k]);
    assert a[..] == photos;
    if from < to {
      MoveForward(a, from, to);
      ShiftedForward(photos, a[..], from, to);
      MovedForwardForm(photos, from, to);
    } else {
      MoveBackward(a, from, to);
      ShiftedBackward(photos, a[..], from, to);
      MovedBackwardForm(photos, from, to);
    }
    r := a[..];
  }
}
