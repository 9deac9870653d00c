/** The listing routes: creating a listing with its amenities, occupants and
    uploaded photos, reading listings with their images, and updating and
    deleting a listing. Rows carry the SQL parameters the handler sends: a
    multipart body field is text, absent or null, and a default the handler
    supplies is a number or text. `JSON.parse` and the uploaded files' stored
    names are foreign and appear as parameters. */
module Listings {
  import opened Wrappers
  import Seqs

  const NotFound: string := "Not found"
  const UploadsPrefix: string := "/uploads/"
  /** At most ten files under `photos`; multer refuses the request otherwise. */
  const MaxPhotos: nat := 10
  const UnexpectedField: string := "Unexpected field"

  /** A value bound to a SQL parameter; `undefined` is bound as null. */
  datatype Param = SqlNull | Text(s: string) | Num(n: int)

  /** A `listings` row, one column per parameter of the insert. */
  datatype Listing = Listing(
    id: nat,
    userId: Param, title: Param, description: Param, address: Param, city: Param, state: Param,
    zip: Param, country: Param, pricePerNight: Param, startDate: Param, endDate: Param,
    maxOccupancy: Param, status: Param, propertyType: Param, guestSpace: Param,
    bedrooms: Param, bathrooms: Param)

  /** The multipart body of `POST /`. */
  datatype CreateBody = CreateBody(
    userId: Field<string>, title: Field<string>, description: Field<string>, address: Field<string>,
    city: Field<string>, state: Field<string>, zip: Field<string>, country: Field<string>,
    pricePerNight: Field<string>, startDate: Field<string>, endDate: Field<string>,
    maxOccupancy: Field<string>, status: Field<string>, propertyType: Field<string>,
    guestSpace: Field<string>, bedrooms: Field<string>, bathrooms: Field<string>,
    amenities: Field<string>, occupants: Field<string>)

  /** The JSON body of `PUT /:id`: the twelve columns it sets. */
  datatype UpdateBody = UpdateBody(
    title: Field<string>, description: Field<string>, address: Field<string>, city: Field<string>,
    state: Field<string>, zip: Field<string>, country: Field<string>, pricePerNight: Field<string>,
    startDate: Field<string>, endDate: Field<string>, maxOccupancy: Field<string>, status: Field<string>)

  /** A `listing_images` row. */
  datatype ListingImage = ListingImage(listingId: nat, url: string, orderIndex: int)

  /** A listing as the list view sends it, with its images attached. */
  datatype Listed = Listed(listing: Listing, images: seq<string>)

  predicate Falsy(f: Field<string>) {
    f.Undefined? || f.Null? || f == Given("")
  }

  /** A body field bound as it is. */
  function Bind(f: Field<string>): (p: Param)
    ensures p.Text? <==> f.Given?
    ensures f.Given? ==> p == Text(f.value)
  {
    if f.Given? then Text(f.value) else SqlNull
  }

  /** `f || d`. */
  function OrDefault(f: Field<string>, d: Param): (p: Param)
    ensures Falsy(f) ==> p == d
    ensures !Falsy(f) ==> p == Text(f.value)
  {
    if Falsy(f) then d else Text(f.value)
  }

  /** The row the insert of `POST /` creates. */
  function NewListing(id: nat, b: CreateBody): Listing {
    Listing(id,
      Bind(b.userId), Bind(b.title), Bind(b.description), Bind(b.address), Bind(b.city), Bind(b.state),
      Bind(b.zip), Bind(b.country), Bind(b.pricePerNight), Bind(b.startDate), Bind(b.endDate),
      OrDefault(b.maxOccupancy, Num(1)), OrDefault(b.status, Text("active")),
      OrDefault(b.propertyType, Text("apartment")), OrDefault(b.guestSpace, Text("entire_place")),
      OrDefault(b.bedrooms, Num(1)), OrDefault(b.bathrooms, Num(1)))
  }

  /** A new listing takes occupancy 1, status `active`, type `apartment`, space
      `entire_place`, one bedroom and one bathroom whenever the body leaves those
      out or empty, and the body's text otherwise. */
  lemma NewListingDefaults(id: nat, b: CreateBody)
    ensures var l := NewListing(id, b);
      l.id == id &&
      (Falsy(b.maxOccupancy) <==> l.maxOccupancy == Num(1)) &&
      (Falsy(b.status) ==> l.status == Text("active")) &&
      (Falsy(b.propertyType) ==> l.propertyType == Text("apartment")) &&
      (Falsy(b.guestSpace) ==> l.guestSpace == Text("entire_place")) &&
      (Falsy(b.bedrooms) <==> l.bedrooms == Num(1)) &&
      (Falsy(b.bathrooms) <==> l.bathrooms == Num(1)) &&
      (!Falsy(b.status) ==> l.status == Text(b.status.value)) &&
      (!Falsy(b.propertyType) ==> l.propertyType == Text(b.propertyType.value)) &&
      (!Falsy(b.guestSpace) ==> l.guestSpace == Text(b.guestSpace.value)) &&
      l.title == Bind(b.title) && l.city == Bind(b.city) && l.endDate == Bind(b.endDate)
  {
  }

  /** `amenities ? JSON.parse(amenities) : []`; `None` is a parse that throws. */
  function ParseList(f: Field<string>, parse: string -> Option<seq<string>>): (r: Option<seq<string>>)
    ensures Falsy(f) ==> r == Some([])
    ensures !Falsy(f) ==> r == parse(f.value)
  {
    if Falsy(f) then Some([]) else parse(f.value)
  }

  /** One `(listing_id, value)` row per element, in order. */
  function RowsFor(id: nat, xs: seq<string>): (rows: seq<(nat, string)>)
    ensures |rows| == |xs|
    ensures forall k :: 0 <= k < |xs| ==> rows[k] == (id, xs[k])
  {
    seq(|xs|, k requires 0 <= k < |xs| => (id, xs[k]))
  }

  /** The image rows of the uploaded files, `order_index` counting from 0. */
  function ImageRows(id: nat, files: seq<string>): (rows: seq<ListingImage>)
    ensures |rows| == |files|
    ensures forall k :: 0 <= k < |files| ==> rows[k] == ListingImage(id, UploadsPrefix + files[k], k)
  {
    seq(|files|, k requires 0 <= k < |files| => ListingImage(id, UploadsPrefix + files[k], k))
  }

  /** The uploaded files' rows carry the indices 0..n-1 in upload order, so no two
      share one, and every url names a file under `/uploads/`. */
  lemma ImageRowsOrdered(id: nat, files: seq<string>)
    ensures forall j, k :: 0 <= j < k < |files| ==> ImageRows(id, files)[j].orderIndex < ImageRows(id, files)[k].orderIndex
    ensures forall k :: 0 <= k < |files| ==>
      ImageRows(id, files)[k].listingId == id && ImageRows(id, files)[k].orderIndex == k &&
      ImageRows(id, files)[k].url[..|UploadsPrefix|] == UploadsPrefix &&
      ImageRows(id, files)[k].url[|UploadsPrefix|..] == files[k]
  {
  }

  function OrderIndex(i: ListingImage): int {
    i.orderIndex
  }

  function OfListing(id: nat): ListingImage -> bool {
    (i: ListingImage) => i.listingId == id
  }

  /** `SELECT ... FROM listing_images WHERE listing_id = $1 ORDER BY order_index`. */
  function ImagesOf(images: seq<ListingImage>, id: nat): seq<ListingImage> {
    Seqs.SortByKey(Seqs.Filter(images, OfListing(id)), OrderIndex)
  }

  /** The images of a listing are exactly its rows, ascending by `order_index`. */
  lemma ImagesOfCorrect(images: seq<ListingImage>, id: nat)
    ensures forall i :: i in ImagesOf(images, id) <==> i in images && i.listingId == id
    ensures forall j, k :: 0 <= j < k < |ImagesOf(images, id)| ==>
      ImagesOf(images, id)[j].orderIndex <= ImagesOf(images, id)[k].orderIndex
  {
    var f := Seqs.Filter(images, OfListing(id));
    Seqs.SortByKeyCorrect(f, OrderIndex);
    var v := Seqs.SortByKey(f, OrderIndex);
    forall i ensures i in v <==> i in f {
      assert i in v <==> i in multiset(v);
      assert i in f <==> i in multiset(f);
    }
  }

  /** The list view's `... ORDER BY order_index LIMIT 1`, as the urls it keeps. */
  function FirstImageUrls(images: seq<ListingImage>, id: nat): seq<string> {
    var v := ImagesOf(images, id);
    if v == [] then [] else [v[0].url]
  }

  /** The list view attaches at most one image: none when the listing has no
      image, otherwise one of its images with the lowest `order_index`. */
  lemma FirstImageIsLowest(images: seq<ListingImage>, id: nat)
    ensures |FirstImageUrls(images, id)| <= 1
    ensures FirstImageUrls(images, id) == [] <==> forall i :: i in images ==> i.listingId != id
    ensures FirstImageUrls(images, id) != [] ==>
      exists i :: i in images && i.listingId == id && i.url == FirstImageUrls(images, id)[0] &&
        forall o :: o in images && o.listingId == id ==> i.orderIndex <= o.orderIndex
  {
    ImagesOfCorrect(images, id);
    var v := ImagesOf(images, id);
    if v != [] {
      assert v[0] in v;
      forall o | o in images && o.listingId == id ensures v[0].orderIndex <= o.orderIndex {
        assert o in v;
        var k :| 0 <= k < |v| && v[k] == o;
        if k > 0 {
          assert v[0].orderIndex <= v[k].orderIndex;
        }
      }
    } else {
      assert forall i :: i in images && i.listingId == id ==> i in v;
    }
  }

  predicate HasId(ls: seq<Listing>, id: nat) {
    exists k :: 0 <= k < |ls| && ls[k].id == id
  }

  /** `GET /:id`: 404 when no row has the id; otherwise the listing and all its
      images in `order_index` order. */
  function Get(ls: seq<Listing>, images: seq<ListingImage>, id: nat): (r: Response<(Listing, seq<ListingImage>)>)
    ensures r.Success? <==> HasId(ls, id)
    ensures r.Failure? ==> r == Failure(404, NotFound)
    ensures r.Success? ==> r.code == 200 && r.value.0 in ls && r.value.0.id == id && r.value.1 == ImagesOf(images, id)
  {
    if ls == [] then Failure(404, NotFound)
    else if ls[0].id == id then Success(200, (ls[0], ImagesOf(images, id)))
    else Get(ls[1..], images, id)
  }

  /** The row after `UPDATE listings SET ...`: the twelve columns take the body's
      values, an omitted one becoming null; the others stay. */
  function Updated(l: Listing, u: UpdateBody): (l': Listing)
    ensures l'.id == l.id && l'.userId == l.userId && l'.propertyType == l.propertyType
    ensures l'.guestSpace == l.guestSpace && l'.bedrooms == l.bedrooms && l'.bathrooms == l.bathrooms
  {
    l.(title := Bind(u.title), description := Bind(u.description), address := Bind(u.address),
       city := Bind(u.city), state := Bind(u.state), zip := Bind(u.zip), country := Bind(u.country),
       pricePerNight := Bind(u.pricePerNight), startDate := Bind(u.startDate), endDate := Bind(u.endDate),
       maxOccupancy := Bind(u.maxOccupancy), status := Bind(u.status))
  }

  /** An update that leaves a column out sets it to null, with no default: a
      missing `status` leaves the listing with no status at all. */
  lemma UpdateErasesOmittedColumns(l: Listing, u: UpdateBody)
    requires u.status.Undefined? && u.maxOccupancy.Undefined?
    ensures Updated(l, u).status == SqlNull && Updated(l, u).maxOccupancy == SqlNull
  {
  }

  /** The table with every row of the id updated. */
  function UpdateAll(ls: seq<Listing>, id: nat, u: UpdateBody): (ls': seq<Listing>)
    ensures |ls'| == |ls|
    ensures forall k :: 0 <= k < |ls| ==> ls'[k] == if ls[k].id == id then Updated(ls[k], u) else ls[k]
  {
    if ls == [] then [] else [if ls[0].id == id then Updated(ls[0], u) else ls[0]] + UpdateAll(ls[1..], id, u)
  }

  /** `PUT /:id`: 404 and nothing changed when no row has the id. */
  function Put(ls: seq<Listing>, id: nat, u: UpdateBody): (res: (Response<Listing>, seq<Listing>))
    ensures !HasId(ls, id) ==> res == (Failure(404, NotFound), ls)
    ensures HasId(ls, id) ==>
      res.0.Success? && res.0.code == 200 && res.1 == UpdateAll(ls, id, u) &&
      res.0.value in res.1 && res.0.value.id == id
  {
    var ls' := UpdateAll(ls, id, u);
    if !HasId(ls, id) then (Failure(404, NotFound), ls)
    else (Success(200, ls'[IndexOf(ls, id)]), ls')
  }

  /** The first row with the id, as `rows[0]` of `RETURNING *` picks it. */
  function IndexOf(ls: seq<Listing>, id: nat): (k: nat)
    requires HasId(ls, id)
    ensures k < |ls| && ls[k].id == id
    ensures forall j :: 0 <= j < k ==> ls[j].id != id
  {
    if ls[0].id == id then 0
    else
      assert HasId(ls[1..], id) by {
        var k :| 0 <= k < |ls| && ls[k].id == id;
        assert ls[1..][k - 1] == ls[k];
      }
      1 + IndexOf(ls[1..], id)
  }

  /** The rows `DELETE FROM listings WHERE id = $1` leaves. */
  function RemoveId(ls: seq<Listing>, id: nat): (ls': seq<Listing>)
    ensures forall l :: l in ls' <==> l in ls && l.id != id
  {
    if ls == [] then [] else (if ls[0].id == id then [] else [ls[0]]) + RemoveId(ls[1..], id)
  }

  /** `DELETE /:id`: 404 when no row was deleted, 204 otherwise. */
  function Delete(ls: seq<Listing>, id: nat): (res: (Response<()>, seq<Listing>))
    ensures !HasId(ls, id) ==> res == (Failure(404, NotFound), ls)
    ensures HasId(ls, id) ==> res == (Success(204, ()), RemoveId(ls, id))
    ensures !HasId(res.1, id)
  {
    if !HasId(ls, id) then (Failure(404, NotFound), ls) else (Success(204, ()), RemoveId(ls, id))
  }

  /** A deleted listing can no longer be updated or deleted. */
  lemma DeleteThenMissing(ls: seq<Listing>, id: nat, u: UpdateBody)
    ensures Put(Delete(ls, id).1, id, u).0 == Failure(404, NotFound)
    ensures Delete(Delete(ls, id).1, id).0 == Failure(404, NotFound)
  {
  }

  class ListingRoutes {
    var listings: seq<Listing>
    var amenities: seq<(nat, string)>
    var occupants: seq<(nat, string)>
    var images: seq<ListingImage>
    var nextId: nat
    const parse: string -> Option<seq<string>>
    const parseError: string

    constructor (listings: seq<Listing>, images: seq<ListingImage>, nextId: nat,
                 parse: string -> Option<seq<string>>, parseError: string)
      ensures this.listings == listings && this.images == images && this.nextId == nextId
      ensures this.amenities == [] && this.occupants == []
      ensures this.parse == parse && this.parseError == parseError
    {
      this.listings := listings;
      this.amenities := [];
      this.occupants := [];
      this.images := images;
      this.nextId := nextId;
      this.parse := parse;
      this.parseError := parseError;
    }

    /** `POST /`: too many photos or an unparsable list changes nothing; otherwise
        the listing is inserted under the next serial id, then one amenity row
        per amenity, one occupant row per occupant and one image row per file. */
    method CreateListing(b: CreateBody, files: seq<string>) returns (r: Response<Listing>)
      modifies this
      ensures |files| > MaxPhotos ==> r == Failure(500, UnexpectedField) && unchanged(this)
      ensures |files| <= MaxPhotos && (ParseList(b.amenities, parse).None? || ParseList(b.occupants, parse).None?) ==>
        r == Failure(500, parseError) && unchanged(this)
      ensures |files| <= MaxPhotos && ParseList(b.amenities, parse).Some? && ParseList(b.occupants, parse).Some? ==>
        r == Success(201, NewListing(old(nextId), b)) &&
        listings == old(listings) + [NewListing(old(nextId), b)] && nextId == old(nextId) + 1 &&
        amenities == old(amenities) + RowsFor(old(nextId), ParseList(b.amenities, parse).value) &&
        occupants == old(occupants) + RowsFor(old(nextId), ParseList(b.occupants, parse).value) &&
        images == old(images) + ImageRows(old(nextId), files)
    {
      if |files| > MaxPhotos {
        return Failure(500, UnexpectedField);
      }
      var amenityList := ParseList(b.amenities, parse);
      var occupantList := ParseList(b.occupants, parse);
      if amenityList.None? || occupantList.None? {
        return Failure(500, parseError);
      }
      var listing := NewListing(nextId, b);
      listings := listings + [listing];
      nextId := nextId + 1;
      InsertAmenities(listing.id, amenityList.value);
      InsertOccupants(listing.id, occupantList.value);
      InsertImages(listing.id, files);
      r := Success(201, listing);
    }

    /** One `listing_amenities` row per amenity, in order. */
    method InsertAmenities(id: nat, xs: seq<string>)
      modifies this
      ensures amenities == old(amenities) + RowsFor(id, xs)
      ensures listings == old(listings) && occupants == old(occupants) && images == old(images) && nextId == old(nextId)
    {
      var i := 0;
      while i < |xs|
        invariant 0 <= i <= |xs|
        invariant amenities == old(amenities) + RowsFor(id, xs[..i])
        invariant listings == old(listings) && occupants == old(occupants) && images == old(images) && nextId == old(nextId)
      {
        assert RowsFor(id, xs[..i + 1]) == RowsFor(id, xs[..i]) + [(id, xs[i])];
        amenities := amenities + [(id, xs[i])];
        i := i + 1;
      }
      assert xs[..i] == xs;
    }

    /** One `listing_occupants` row per occupant, in order. */
    method InsertOccupants(id: nat, ys: seq<string>)
      modifies this
      ensures occupants == old(occupants) + RowsFor(id, ys)
      ensures listings == old(listings) && amenities == old(amenities) && images == old(images) && nextId == old(nextId)
    {
      var i := 0;
      while i < |ys|
        invariant 0 <= i <= |ys|
        invariant occupants == old(occupants) + RowsFor(id, ys[..i])
        invariant listings == old(listings) && amenities == old(amenities) && images == old(images) && nextId == old(nextId)
      {
        assert RowsFor(id, ys[..i + 1]) == RowsFor(id, ys[..i]) + [(id, ys[i])];
        occupants := occupants + [(id, ys[i])];
        i := i + 1;
      }
      assert ys[..i] == ys;
    }

    /** One `listing_images` row per uploaded file, `order_index` its position. */
    method InsertImages(id: nat, files: seq<string>)
      modifies this
      ensures images == old(images) + ImageRows(id, files)
      ensures listings == old(listings) && amenities == old(amenities) && occupants == old(occupants) && nextId == old(nextId)
    {
      var i := 0;
      while i < |files|
        invariant 0 <= i <= |files|
        invariant images == old(images) + ImageRows(id, files[..i])
        invariant listings == old(listings) && amenities == old(amenities) && occupants == old(occupants) && nextId == old(nextId)
      {
        assert ImageRows(id, files[..i + 1]) ==
          ImageRows(id, files[..i]) + [ListingImage(id, UploadsPrefix + files[i], i)];
        images := images + [ListingImage(id, UploadsPrefix + files[i], i)];
        i := i + 1;
      }
      assert files[..i] == files;
    }

    /** `GET /`: every listing, each with its first image attached. */
    method ListAll() returns (r: seq<Listed>)
      ensures |r| == |listings|
      ensures forall k :: 0 <= k < |listings| ==> r[k] == Listed(listings[k], FirstImageUrls(images, listings[k].id))
    {
      r := [];
      var i := 0;
      while i < |listings|
        invariant 0 <= i <= |listings|
        invariant |r| == i
        invariant forall k :: 0 <= k < i ==> r[k] == Listed(listings[k], FirstImageUrls(images, listings[k].id))
      {
        r := r + [Listed(listings[i], FirstImageUrls(images, listings[i].id))];
        i := i + 1;
      }
    }

    method GetListing(id: nat) returns (r: Response<(Listing, seq<ListingImage>)>)
      ensures r == Get(listings, images, id)
    {
      r := Get(listings, images, id);
    }

    method UpdateListing(id: nat, u: UpdateBody) returns (r: Response<Listing>)
      modifies this
      ensures (r, listings) == Put(old(listings), id, u)
      ensures images == old(images) && amenities == old(amenities) && occupants == old(occupants) && nextId == old(nextId)
    {
      var res := Put(listings, id, u);
      r, listings := res.0, res.1;
    }

    method DeleteListing(id: nat) returns (r: Response<()>)
      modifies this
      ensures (r, listings) == Delete(old(listings), id)
      ensures images == old(images) && amenities == old(amenities) && occupants == old(occupants) && nextId == old(nextId)
    {
      var res := Delete(listings, id);
      r, listings := res.0, res.1;
    }
  }
}
