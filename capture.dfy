/** The capture form: which camera is in use, the captured image, the review fields
    (dish name, place, star rating, note), the place name built from a reverse-geocoding
    answer, and the upload step that hands the post data on to the feed. */
module Capture {
  import opened Wrappers
  import opened Text

  datatype Facing = User | Environment

  /** `toggleCamera`'s updater: the other camera. */
  function Flip(f: Facing): (r: Facing)
    ensures r != f
  {
    if f == User then Environment else User
  }

  /** Toggling twice comes back to the same camera. */
  lemma FlipTwice(f: Facing)
    ensures Flip(Flip(f)) == f
  {
  }

  // ---------------------------------------------------------------------------
  // Place name from a reverse-geocoding answer

  /** The parts of the geocoder's `address` object the form reads; absent ones are None. */
  datatype Address = Address(
    road: Option<string>,
    suburb: Option<string>,
    neighbourhood: Option<string>,
    city: Option<string>,
    town: Option<string>,
    village: Option<string>)

  /** The geocoder's answer, once the request and its decoding succeeded. */
  datatype Geo = Geo(displayName: Option<string>, address: Option<Address>)

  /** The three candidate pieces of the short name, each the first truthy value of its
      `||` chain, or empty when none is: road; suburb, else neighbourhood; city, else
      town, else village. A missing `address` leaves all three empty. */
  function ShortNameParts(addr: Option<Address>): (parts: seq<string>)
    ensures |parts| == 3
    ensures addr.None? ==> parts == [[], [], []]
    ensures addr.Some? ==> var a := addr.value;
      parts[0] == (if Truthy(a.road) then a.road.value else [])
      && (parts[1] != [] <==> Truthy(a.suburb) || Truthy(a.neighbourhood))
      && (Truthy(a.suburb) ==> parts[1] == a.suburb.value)
      && (!Truthy(a.suburb) && Truthy(a.neighbourhood) ==> parts[1] == a.neighbourhood.value)
      && (parts[2] != [] <==> Truthy(a.city) || Truthy(a.town) || Truthy(a.village))
      && (Truthy(a.city) ==> parts[2] == a.city.value)
      && (!Truthy(a.city) && Truthy(a.town) ==> parts[2] == a.town.value)
      && (!Truthy(a.city) && !Truthy(a.town) && Truthy(a.village) ==> parts[2] == a.village.value)
  {
    match addr
    case None => [[], [], []]
    case Some(a) =>
      [OrElse(a.road, []),
       OrElse(a.suburb, OrElse(a.neighbourhood, [])),
       OrElse(a.city, OrElse(a.town, OrElse(a.village, [])))]
  }

  /** `filter(Boolean)` on strings: the non-empty ones, in order. */
  function NonEmpty(ps: seq<string>): (r: seq<string>)
    ensures |r| <= |ps|
    ensures forall k :: 0 <= k < |r| ==> r[k] != []
    ensures r == [] <==> forall k :: 0 <= k < |ps| ==> ps[k] == []
  {
    if ps == [] then []
    else
      var rest := NonEmpty(ps[1..]);
      if ps[0] != [] then [ps[0]] + rest else rest
  }

  /** `filter(Boolean)` keeps pieces independently of their neighbours: filtering a
      concatenation is concatenating the filtered halves, and a single piece is kept
      exactly when it is non-empty. */
  lemma {:induction false} NonEmptyAppend(a: seq<string>, b: seq<string>)
    ensures NonEmpty(a + b) == NonEmpty(a) + NonEmpty(b)
    ensures |a| == 1 ==> NonEmpty(a) == if a[0] == [] then [] else a
  {
    if a == [] {
      assert a + b == b;
    } else {
      assert (a + b)[1..] == a[1..] + b;
      NonEmptyAppend(a[1..], b);
    }
  }

  /** Joining non-empty pieces is empty only when there are no pieces. */
  lemma JoinNonEmpty(ps: seq<string>, sep: string)
    requires forall k :: 0 <= k < |ps| ==> ps[k] != []
    ensures Join(ps, sep) == [] <==> ps == []
  {
    if |ps| > 1 {
      assert |Join(ps, sep)| >= |ps[0]|;
    }
  }

  /** The short place name: the non-empty pieces joined by ", "; empty exactly when the
      address gives none of the three pieces. */
  function ShortName(addr: Option<Address>): (name: string)
    ensures var p := ShortNameParts(addr);
      name == [] <==> p[0] == [] && p[1] == [] && p[2] == []
  {
    JoinNonEmpty(NonEmpty(ShortNameParts(addr)), ", ");
    Join(NonEmpty(ShortNameParts(addr)), ", ")
  }

  /** The piece `p` as a list of the pieces it contributes: itself when non-empty. */
  function Present(p: string): (r: seq<string>)
    ensures r == NonEmpty([p])
  {
    if p == [] then [] else [p]
  }

  /** The short name is the join with ", " of the present pieces among road,
      suburb-or-neighbourhood and city-or-town-or-village, in that order, for every
      pattern of which pieces are present. */
  lemma ShortNameOfParts(addr: Option<Address>)
    ensures var p := ShortNameParts(addr);
      ShortName(addr) == Join(Present(p[0]) + Present(p[1]) + Present(p[2]), ", ")
    ensures var p := ShortNameParts(addr);
      && (p[0] != [] && p[1] != [] && p[2] != [] ==> ShortName(addr) == p[0] + ", " + p[1] + ", " + p[2])
      && (p[0] == [] && p[1] != [] && p[2] != [] ==> ShortName(addr) == p[1] + ", " + p[2])
      && (p[0] != [] && p[1] == [] && p[2] != [] ==> ShortName(addr) == p[0] + ", " + p[2])
      && (p[0] != [] && p[1] != [] && p[2] == [] ==> ShortName(addr) == p[0] + ", " + p[1])
      && (p[1] == [] && p[2] == [] ==> ShortName(addr) == p[0])
      && (p[0] == [] && p[2] == [] ==> ShortName(addr) == p[1])
      && (p[0] == [] && p[1] == [] ==> ShortName(addr) == p[2])
  {
    var p := ShortNameParts(addr);
    assert p == [p[0]] + [p[1]] + [p[2]];
    NonEmptyAppend([p[0]] + [p[1]], [p[2]]);
    NonEmptyAppend([p[0]], [p[1]]);
    NonEmptyAppend([p[1]], []);
    NonEmptyAppend([p[2]], []);
    var kept := Present(p[0]) + Present(p[1]) + Present(p[2]);
    assert NonEmpty(p) == kept;
    if |kept| == 3 {
      assert kept[1..][1..] == [p[2]];
      assert Join(kept[1..], ", ") == p[1] + ", " + p[2];
    } else if |kept| == 2 {
      assert kept[1..] == [kept[1]];
    }
  }

  /** `display_name.split(",").slice(0, 3).join(",")`: the display name cut just before
      its third comma; it never empties a non-empty display name. */
  function DisplayNameHead(displayName: string): (r: string)
    ensures |r| <= |displayName| && r == displayName[..|r|]
    ensures Count(r, ',') == if Count(displayName, ',') < 2 then Count(displayName, ',') else 2
    ensures |r| < |displayName| ==> displayName[|r|] == ','
    ensures displayName != [] ==> r != []
  {
    KeepFields(displayName, ',', 3);
    Join(Take(Split(displayName, ','), 3), ",")
  }

  /** What `handleGetLocation` writes into the location field once a position is known:
      with a `display_name` in the answer, the short name or, when that is empty, the
      head of `display_name`; with no answer or no `display_name`, the coordinates as
      formatted text. */
  function ResolvedLocation(geo: Option<Geo>, coordsLabel: string): (r: string)
    ensures geo.None? || !Truthy(geo.value.displayName) ==> r == coordsLabel
    ensures geo.Some? && Truthy(geo.value.displayName) ==>
      r == (if ShortName(geo.value.address) != [] then ShortName(geo.value.address)
            else DisplayNameHead(geo.value.displayName.value))
    ensures geo.Some? && Truthy(geo.value.displayName) ==> r != []
  {
    if geo.Some? && Truthy(geo.value.displayName) then
      var short := ShortName(geo.value.address);
      if short != [] then short else DisplayNameHead(geo.value.displayName.value)
    else coordsLabel
  }

  // ---------------------------------------------------------------------------
  // The form

  datatype Coords = Coords(latitude: real, longitude: real)

  /** The review fields the user fills in. */
  datatype FormFields = FormFields(
    dishName: string, location: string, locationCoords: Option<Coords>, rating: int, note: string)

  /** What `uploadImage` hands to `onUploadSuccess`. */
  datatype UploadData = UploadData(
    url: string, dishName: string, location: string, rating: int, note: string,
    latitude: Option<real>, longitude: Option<real>)

  /** How the storage upload went: the public URL of the stored file, or the error
      that was thrown (a failed image fetch or a storage error). */
  datatype StorageOutcome = Stored(publicUrl: string) | UploadFailed(message: string)

  const UploadFailedAlert: string := "Lỗi khi tải ảnh: "

  class CaptureForm {
    /** Whether the parent passed `onUploadSuccess`. */
    const hasUploadCallback: bool
    var facingMode: Facing
    var capturedImage: Option<string>
    var uploading: bool
    var dishName: string
    var location: string
    var locationCoords: Option<Coords>
    var rating: int
    var note: string
    var gettingLocation: bool
    /** The `alert` messages raised so far. */
    var alerts: seq<string>

    function Form(): FormFields
      reads this
    {
      FormFields(dishName, location, locationCoords, rating, note)
    }

    /** The form as it opens: back camera, nothing captured, empty fields, five stars. */
    constructor (hasUploadCallback: bool)
      ensures this.hasUploadCallback == hasUploadCallback
      ensures facingMode == Environment && capturedImage == None && !uploading
      ensures Form() == FormFields([], [], None, 5, []) && !gettingLocation && alerts == []
    {
      this.hasUploadCallback := hasUploadCallback;
      facingMode := Environment;
      capturedImage := None;
      uploading := false;
      dishName := [];
      location := [];
      locationCoords := None;
      rating := 5;
      note := [];
      gettingLocation := false;
      alerts := [];
    }

    /** `toggleCamera`, followed by the effect that runs whenever the facing mode
        changes: it clears the captured image and the uploading flag. */
    method ToggleCamera()
      modifies this
      ensures facingMode == Flip(old(facingMode))
      ensures capturedImage == None && !uploading
      ensures Form() == old(Form()) && alerts == old(alerts) && gettingLocation == old(gettingLocation)
    {
      facingMode := Flip(facingMode);
      capturedImage := None;
      uploading := false;
    }

    /** A frame taken from the camera or a file read from the gallery, as a data URL. */
    method CaptureImage(image: string)
      modifies this
      ensures capturedImage == Some(image)
      ensures facingMode == old(facingMode) && uploading == old(uploading)
      ensures Form() == old(Form()) && alerts == old(alerts) && gettingLocation == old(gettingLocation)
    {
      capturedImage := Some(image);
    }

    /** `retake`: drops the captured image and keeps what was typed. */
    method Retake()
      modifies this
      ensures capturedImage == None
      ensures facingMode == old(facingMode) && uploading == old(uploading)
      ensures Form() == old(Form()) && alerts == old(alerts) && gettingLocation == old(gettingLocation)
    {
      capturedImage := None;
    }

    /** Typing into the dish, place and note inputs. */
    method Edit(dish: string, place: string, text: string)
      modifies this
      ensures Form() == old(Form()).(dishName := dish, location := place, note := text)
      ensures facingMode == old(facingMode) && capturedImage == old(capturedImage)
      ensures uploading == old(uploading) && alerts == old(alerts) && gettingLocation == old(gettingLocation)
    {
      dishName, location, note := dish, place, text;
    }

    /** Star `s` of the five is drawn highlighted. */
    predicate StarLit(s: int)
      reads this
    {
      s <= rating
    }

    /** Pressing star `star` of the five: the rating becomes `star`, and exactly the stars
        up to it are highlighted. */
    method ChooseStar(star: int)
      requires 1 <= star <= 5
      modifies this
      ensures rating == star
      ensures forall s :: 1 <= s <= 5 ==> (StarLit(s) <==> s <= star)
      ensures Form() == old(Form()).(rating := star)
      ensures facingMode == old(facingMode) && capturedImage == old(capturedImage)
      ensures uploading == old(uploading) && alerts == old(alerts) && gettingLocation == old(gettingLocation)
    {
      rating := star;
    }

    /** The success callback of `getCurrentPosition`: stores the coordinates, fills the
        location field from the geocoder's answer and ends the lookup. */
    method ApplyPosition(coords: Coords, geo: Option<Geo>, coordsLabel: string)
      modifies this
      ensures locationCoords == Some(coords)
      ensures location == ResolvedLocation(geo, coordsLabel)
      ensures !gettingLocation
      ensures dishName == old(dishName) && rating == old(rating) && note == old(note)
      ensures facingMode == old(facingMode) && capturedImage == old(capturedImage)
      ensures uploading == old(uploading) && alerts == old(alerts)
    {
      locationCoords := Some(coords);
      location := ResolvedLocation(geo, coordsLabel);
      gettingLocation := false;
    }

    /** The submit button's `disabled`: an upload is running or the place is blank. */
    predicate SubmitDisabled()
      reads this
      ensures SubmitDisabled() <==>
        uploading || forall k :: 0 <= k < |location| ==> IsSpace(location[k])
    {
      uploading || IsBlank(location)
    }

    /** `uploadImage`. Without a captured image (none, or an empty string) it returns and changes nothing. Otherwise
        the upload runs; on success the callback (when there is one) gets the public URL
        with the form fields exactly as they are, and the view closes; on failure an
        alert is raised. The `finally` lowers `uploading` either way. */
    method UploadImage(outcome: StorageOutcome) returns (handed: Option<UploadData>, closed: bool)
      modifies this
      ensures !Truthy(old(capturedImage)) ==>
        handed == None && !closed && uploading == old(uploading) && alerts == old(alerts)
      ensures Truthy(old(capturedImage)) ==> !uploading
      ensures handed == if Truthy(old(capturedImage)) && outcome.Stored? && hasUploadCallback
        then Some(UploadData(outcome.publicUrl, dishName, location, rating, note,
          if locationCoords.Some? then Some(locationCoords.value.latitude) else None,
          if locationCoords.Some? then Some(locationCoords.value.longitude) else None))
        else None
      ensures closed <==> Truthy(old(capturedImage)) && outcome.Stored?
      ensures alerts == if Truthy(old(capturedImage)) && outcome.UploadFailed?
        then old(alerts) + [UploadFailedAlert + outcome.message] else old(alerts)
      ensures Form() == old(Form()) && facingMode == old(facingMode)
      ensures capturedImage == old(capturedImage) && gettingLocation == old(gettingLocation)
    {
      handed, closed := None, false;
      if !Truthy(capturedImage) {
        return;
      }
      uploading := true;
      match outcome {
        case Stored(url) =>
          if hasUploadCallback {
            handed := Some(UploadData(url, dishName, location, rating, note,
              if locationCoords.Some? then Some(locationCoords.value.latitude) else None,
              if locationCoords.Some? then Some(locationCoords.value.longitude) else None));
          }
          closed := true;
        case UploadFailed(message) =>
          alerts := alerts + [UploadFailedAlert + message];
      }
      uploading := false;
    }
  }
}
