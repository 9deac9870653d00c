/** The eleven-step "add a listing" form: the per-step checks and the error
    messages they leave, moving between steps, the amenity and occupant toggles,
    the photo cap, the final submission and "save progress" as an inactive draft.
    The signed-in user, the date parser, the clock and the server's answer are
    parameters; the multipart body is modelled as the text fields the listings
    route reads. */
module AddListing {
  import opened Wrappers
  import Strings
  import Selection
  import Listings
  import PhotoUpload

  const LastStep: int := 11
  const MaxPhotos: nat := 7
  const MinPhotos: nat := 5
  const MaxTitle: nat := 30
  const MaxDescription: nat := 500
  const IncompleteAlert: string := "Please complete all required fields before submitting."
  const LoginAlert: string := "Please log in to create a listing"
  const LoginToSaveAlert: string := "Please log in to save progress"
  const MissingIdAlert: string := "User ID is missing. Please log in again."
  const SavedAlert: string := "Progress saved successfully! Your listing has been saved as inactive."
  const DraftTitle: string := "Draft Listing"

  /** The fields an error can be recorded under; `Name` is the key of the errors
      object. */
  datatype Key =
    | PropertyTypeKey | GuestSpaceKey | AddressKey | CityKey | StateKey | ZipKey | CountryKey
    | MaxOccupancyKey | AmenitiesKey | PhotosKey | TitleKey | DescriptionKey | PriceKey
    | StartDateKey | EndDateKey
  {
    function Name(): string {
      match this
      case PropertyTypeKey => "property_type"
      case GuestSpaceKey => "guest_space"
      case AddressKey => "address"
      case CityKey => "city"
      case StateKey => "state"
      case ZipKey => "zip"
      case CountryKey => "country"
      case MaxOccupancyKey => "max_occupancy"
      case AmenitiesKey => "amenities"
      case PhotosKey => "photos"
      case TitleKey => "title"
      case DescriptionKey => "description"
      case PriceKey => "price_per_night"
      case StartDateKey => "start_date"
      case EndDateKey => "end_date"
    }
  }

  /** The form's state. Numbers are the values of the number inputs. */
  datatype Form = Form(
    propertyType: string, guestSpace: string,
    address: string, unit: string, city: string, state: string, zip: string, country: string, neighborhood: string,
    maxOccupancy: int, bedrooms: int, bathrooms: int,
    occupants: seq<string>, amenities: seq<string>, photos: seq<PhotoUpload.ImageFile>,
    title: string, description: string, pricePerNight: int, startDate: string, endDate: string)

  /** The form a new listing starts from. */
  const InitialForm: Form := Form("apartment", "entire_place", "", "", "", "", "", "", "",
    1, 1, 1, [], [], [], "", "", 100, "", "")

  /** `m` with `key` set to `message` when `failed`. */
  function Put(m: map<Key, string>, failed: bool, key: Key, message: string): (r: map<Key, string>)
    ensures failed ==> r == m[key := message] && key in r && r[key] == message
    ensures !failed ==> r == m
  {
    if failed then m[key := message] else m
  }

  /** The errors of the address step, given which of the five fields are blank. */
  function AddressErrorsOf(address: bool, city: bool, state: bool, zip: bool, country: bool): map<Key, string> {
    var m1 := Put(map[], address, AddressKey, "Address is required");
    var m2 := Put(m1, city, CityKey, "City is required");
    var m3 := Put(m2, state, StateKey, "State is required");
    var m4 := Put(m3, zip, ZipKey, "ZIP code is required");
    Put(m4, country, CountryKey, "Country is required")
  }

  /** One error per blank address field. */
  function AddressErrors(f: Form): map<Key, string> {
    AddressErrorsOf(Strings.IsBlank(f.address), Strings.IsBlank(f.city), Strings.IsBlank(f.state),
                    Strings.IsBlank(f.zip), Strings.IsBlank(f.country))
  }

  /** Each field is named exactly when it is blank. */
  lemma AddressErrorsNameFields(address: bool, city: bool, state: bool, zip: bool, country: bool)
    ensures var e := AddressErrorsOf(address, city, state, zip, country);
      (AddressKey in e <==> address) && (CityKey in e <==> city) && (StateKey in e <==> state) &&
      (ZipKey in e <==> zip) && (CountryKey in e <==> country) &&
      (e.Keys <= {AddressKey, CityKey, StateKey, ZipKey, CountryKey})
  {
  }

  /** The error of the title or description step: required, then at most `max`
      characters. */
  function TextErrors(text: string, max: nat, key: Key, required: string, tooLong: string): map<Key, string> {
    if Strings.IsBlank(text) then map[key := required]
    else Put(map[], |text| > max, key, tooLong)
  }

  /** A text step records nothing exactly when the text is not blank and not too
      long; otherwise it records one message under its key, "required" before "too
      long". */
  lemma TextErrorsIffFails(text: string, max: nat, key: Key, required: string, tooLong: string)
    ensures TextErrors(text, max, key, required, tooLong) == map[] <==> !Strings.IsBlank(text) && |text| <= max
    ensures TextErrors(text, max, key, required, tooLong).Keys <= {key}
    ensures Strings.IsBlank(text) ==> TextErrors(text, max, key, required, tooLong)[key] == required
    ensures !Strings.IsBlank(text) && |text| > max ==> TextErrors(text, max, key, required, tooLong)[key] == tooLong
  {
    var e := TextErrors(text, max, key, required, tooLong);
    if Strings.IsBlank(text) || |text| > max {
      assert key in e;
    }
  }

  /** Both dates parse and the end is not after the start. */
  predicate EndNotAfterStart(f: Form, parseDate: string -> Option<int>) {
    parseDate(f.startDate).Some? && parseDate(f.endDate).Some? && parseDate(f.startDate).value >= parseDate(f.endDate).value
  }

  /** The errors of the date step. `parseDate` is `new Date(text)`, `None` for an
      invalid date (whose comparisons are all false). */
  function DateErrors(f: Form, parseDate: string -> Option<int>): map<Key, string> {
    var m1 := Put(map[], f.startDate == "", StartDateKey, "Start date is required");
    var m2 := Put(m1, f.endDate == "", EndDateKey, "End date is required");
    Put(m2, f.startDate != "" && f.endDate != "" && EndNotAfterStart(f, parseDate), EndDateKey, "End date must be after start date")
  }

  /** The errors `validateStep(step)` records. */
  function StepErrors(step: int, f: Form, parseDate: string -> Option<int>): map<Key, string> {
    if step == 1 then Put(map[], f.propertyType == "", PropertyTypeKey, "Please select a property type")
    else if step == 2 then Put(map[], f.guestSpace == "", GuestSpaceKey, "Please select a guest space type")
    else if step == 3 then AddressErrors(f)
    else if step == 4 then Put(map[], f.maxOccupancy < 1, MaxOccupancyKey, "Maximum occupancy must be at least 1")
    else if step == 6 then Put(map[], |f.amenities| == 0, AmenitiesKey, "Please select at least one amenity")
    else if step == 7 then Put(map[], |f.photos| < MinPhotos, PhotosKey, "Please upload at least 5 photos")
    else if step == 8 then TextErrors(f.title, MaxTitle, TitleKey, "Title is required", "Title must be 30 characters or less")
    else if step == 9 then
      TextErrors(f.description, MaxDescription, DescriptionKey, "Description is required", "Description must be 500 characters or less")
    else if step == 10 then Put(map[], f.pricePerNight <= 0, PriceKey, "Price must be greater than 0")
    else if step == 11 then DateErrors(f, parseDate)
    else map[]
  }

  predicate AddressOk(f: Form) {
    !Strings.IsBlank(f.address) && !Strings.IsBlank(f.city) && !Strings.IsBlank(f.state) &&
    !Strings.IsBlank(f.zip) && !Strings.IsBlank(f.country)
  }

  predicate DatesOk(f: Form, parseDate: string -> Option<int>) {
    f.startDate != "" && f.endDate != "" && !EndNotAfterStart(f, parseDate)
  }

  /** What each step asks of the form, in plain terms. Step 5 (occupants) and any
      other number ask nothing. */
  predicate StepOk(step: int, f: Form, parseDate: string -> Option<int>) {
    if step == 1 then f.propertyType != ""
    else if step == 2 then f.guestSpace != ""
    else if step == 3 then AddressOk(f)
    else if step == 4 then f.maxOccupancy >= 1
    else if step == 6 then |f.amenities| > 0
    else if step == 7 then |f.photos| >= MinPhotos
    else if step == 8 then !Strings.IsBlank(f.title) && |f.title| <= MaxTitle
    else if step == 9 then !Strings.IsBlank(f.description) && |f.description| <= MaxDescription
    else if step == 10 then f.pricePerNight > 0
    else if step == 11 then DatesOk(f, parseDate)
    else true
  }

  /** Step 3 names exactly the blank address fields, and passes when none is. */
  lemma AddressStepNamesBlankFields(f: Form)
    ensures var e := AddressErrors(f);
      (AddressKey in e <==> Strings.IsBlank(f.address)) && (CityKey in e <==> Strings.IsBlank(f.city)) &&
      (StateKey in e <==> Strings.IsBlank(f.state)) && (ZipKey in e <==> Strings.IsBlank(f.zip)) &&
      (CountryKey in e <==> Strings.IsBlank(f.country)) &&
      (e == map[] <==> AddressOk(f))
  {
    var a, c, s, z, k := Strings.IsBlank(f.address), Strings.IsBlank(f.city), Strings.IsBlank(f.state),
                         Strings.IsBlank(f.zip), Strings.IsBlank(f.country);
    AddressErrorsNameFields(a, c, s, z, k);
    var e := AddressErrorsOf(a, c, s, z, k);
    if e == map[] {
      assert !a && !c && !s && !z && !k;
    } else {
      var key :| key in e;
      assert a || c || s || z || k;
    }
  }

  /** The date step: the order message replaces "End date is required" only when
      both dates are given; a missing start and a missing end are both reported. */
  lemma DateStepMessages(f: Form, parseDate: string -> Option<int>)
    ensures var e := DateErrors(f, parseDate);
      (StartDateKey in e <==> f.startDate == "") &&
      (EndDateKey in e <==> f.endDate == "" || (f.startDate != "" && EndNotAfterStart(f, parseDate))) &&
      (f.endDate == "" ==> e[EndDateKey] == "End date is required") &&
      (f.startDate != "" && f.endDate != "" && EndNotAfterStart(f, parseDate) ==>
        e == map[EndDateKey := "End date must be after start date"]) &&
      (e == map[] <==> DatesOk(f, parseDate))
  {
    var e := DateErrors(f, parseDate);
    if !DatesOk(f, parseDate) {
      assert StartDateKey in e || EndDateKey in e;
    }
  }

  /** A step records no error exactly when the form meets what the step asks. */
  lemma StepErrorsIffFails(step: int, f: Form, parseDate: string -> Option<int>)
    ensures StepErrors(step, f, parseDate) == map[] <==> StepOk(step, f, parseDate)
  {
    if step == 1 || step == 2 || step == 4 || step == 6 || step == 7 || step == 10 {
    } else if step == 3 {
      AddressStepNamesBlankFields(f);
    } else if step == 11 {
      DateStepMessages(f, parseDate);
    } else if step == 8 {
      TextErrorsIffFails(f.title, MaxTitle, TitleKey, "Title is required", "Title must be 30 characters or less");
    } else if step == 9 {
      TextErrorsIffFails(f.description, MaxDescription, DescriptionKey, "Description is required",
        "Description must be 500 characters or less");
    }
  }

  /** Whether each of the steps 1..11 passes; step `s` is at index `s - 1`. */
  function Results(f: Form, parseDate: string -> Option<int>): (r: seq<bool>)
    ensures |r| == LastStep
  {
    seq(LastStep, i => StepOk(i + 1, f, parseDate))
  }

  /** The first index from `from` on that holds `false`. */
  function FirstFalse(bs: seq<bool>, from: nat): (k: Option<nat>)
    decreases |bs| - from
  {
    if from >= |bs| then None
    else if !bs[from] then Some(from)
    else FirstFalse(bs, from + 1)
  }

  /** `FirstFalse` finds the least `false` entry, and none when all are true. */
  lemma {:induction false} FirstFalseCorrect(bs: seq<bool>, from: nat)
    ensures var k := FirstFalse(bs, from);
      (k.None? <==> forall i :: from <= i < |bs| ==> bs[i]) &&
      (k.Some? ==> from <= k.value < |bs| && !bs[k.value] && forall i :: from <= i < k.value ==> bs[i])
    decreases |bs| - from
  {
    if from < |bs| && bs[from] {
      FirstFalseCorrect(bs, from + 1);
    }
  }

  /** The first of the steps 1..11 whose checks fail, as the submit loop finds it. */
  function FirstFailing(f: Form, parseDate: string -> Option<int>): Option<int> {
    match FirstFalse(Results(f, parseDate), 0)
    case None => None
    case Some(k) => Some(k + 1)
  }

  /** `FirstFailing` is the least failing step, and none when every step passes. */
  lemma FirstFailingCorrect(f: Form, parseDate: string -> Option<int>)
    ensures var s := FirstFailing(f, parseDate);
      (s.None? <==> forall t :: 1 <= t <= LastStep ==> StepOk(t, f, parseDate)) &&
      (s.Some? ==> 1 <= s.value <= LastStep && !StepOk(s.value, f, parseDate) &&
                   forall t :: 1 <= t < s.value ==> StepOk(t, f, parseDate))
  {
    var rs := Results(f, parseDate);
    FirstFalseCorrect(rs, 0);
    assert forall t :: 1 <= t <= LastStep ==> rs[t - 1] == StepOk(t, f, parseDate);
  }

  /** A step that fails after only passing steps is the one `FirstFailing` names. */
  lemma FirstFailingIs(f: Form, parseDate: string -> Option<int>, s: int)
    requires 1 <= s <= LastStep && !StepOk(s, f, parseDate)
    requires forall t :: 1 <= t < s ==> StepOk(t, f, parseDate)
    ensures FirstFailing(f, parseDate) == Some(s)
  {
    FirstFailingCorrect(f, parseDate);
  }

  /** `a || b` for an optional text. */
  function OrElse(a: Option<string>, b: string): (r: string)
    ensures a.Some? && a.value != "" ==> r == a.value
    ensures a.None? || a.value == "" ==> r == b
  {
    if a.Some? && a.value != "" then a.value else b
  }

  /** `n.toString()` for an integer. */
  function IntText(n: int): string {
    if n < 0 then "-" + Strings.NatToString(-n) else Strings.NatToString(n)
  }

  /** The text fields of the multipart body as the listings route reads them. The
      unit, neighbourhood and coordinates are sent as well but the route does not
      read them. */
  function Body(userId: string, f: Form, title: string, startDate: string, endDate: string,
                status: Field<string>, stringify: seq<string> -> string): Listings.CreateBody
  {
    Listings.CreateBody(
      Given(userId), Given(title), Given(f.description), Given(f.address),
      Given(f.city), Given(f.state), Given(f.zip), Given(f.country),
      Given(IntText(f.pricePerNight)), Given(startDate), Given(endDate),
      Given(IntText(f.maxOccupancy)), status, Given(f.propertyType),
      Given(f.guestSpace), Given(IntText(f.bedrooms)), Given(IntText(f.bathrooms)),
      Given(stringify(f.amenities)), Given(stringify(f.occupants)))
  }

  /** The body of the final submission: the form as it is, no status. */
  function SubmitBody(userId: string, f: Form, stringify: seq<string> -> string): Listings.CreateBody {
    Body(userId, f, f.title, f.startDate, f.endDate, Undefined, stringify)
  }

  /** The body of "save progress": a blank title becomes "Draft Listing", a blank
      date becomes today or the same day a year later, and the status is
      `inactive`. */
  function DraftBody(userId: string, f: Form, todayIso: string, yearLaterIso: string,
                     stringify: seq<string> -> string): Listings.CreateBody {
    Body(userId, f,
      if Strings.IsBlank(f.title) then DraftTitle else f.title,
      if Strings.IsBlank(f.startDate) then todayIso else f.startDate,
      if Strings.IsBlank(f.endDate) then yearLaterIso else f.endDate,
      Given("inactive"), stringify)
  }

  /** A submitted form becomes an active listing with the form's own type, space,
      title and end date. */
  lemma SubmittedListingIsActive(id: nat, userId: string, f: Form, stringify: seq<string> -> string)
    requires f.propertyType != "" && f.guestSpace != ""
    ensures var l := Listings.NewListing(id, SubmitBody(userId, f, stringify));
      l.status == Listings.Text("active") &&
      l.propertyType == Listings.Text(f.propertyType) && l.guestSpace == Listings.Text(f.guestSpace) &&
      l.title == Listings.Text(f.title) && l.endDate == Listings.Text(f.endDate)
  {
    Listings.NewListingDefaults(id, SubmitBody(userId, f, stringify));
  }

  /** A saved draft becomes an inactive listing that always has a title and dates. */
  lemma DraftListingIsInactive(id: nat, userId: string, f: Form, todayIso: string, yearLaterIso: string,
                               stringify: seq<string> -> string)
    ensures var l := Listings.NewListing(id, DraftBody(userId, f, todayIso, yearLaterIso, stringify));
      l.status == Listings.Text("inactive") &&
      l.title == Listings.Text(if Strings.IsBlank(f.title) then DraftTitle else f.title) &&
      (Strings.IsBlank(f.startDate) ==> l.startDate == Listings.Text(todayIso)) &&
      (Strings.IsBlank(f.endDate) ==> l.endDate == Listings.Text(yearLaterIso))
  {
    Listings.NewListingDefaults(id, DraftBody(userId, f, todayIso, yearLaterIso, stringify));
  }

  /** The server's answer: a success, an error with a JSON body (its `message` and
      `error`), an error with another body, or a request that throws. */
  datatype Outcome = Ok | JsonError(message: Option<string>, error: Option<string>) | OtherError | Thrown

  /** The alert an answer raises; `what` is "creating listing" or "saving progress". */
  function FailureAlert(what: string, o: Outcome): (a: string)
    requires !o.Ok?
    ensures o.JsonError? ==> a == "Error " + what + ": " + OrElse(o.message, OrElse(o.error, "Unknown error"))
    ensures o.OtherError? ==> a == "Error " + what + ". Please check the console for details."
    ensures o.Thrown? ==> a == "Error " + what + ". Please try again."
  {
    match o
    case JsonError(message, error) => "Error " + what + ": " + OrElse(message, OrElse(error, "Unknown error"))
    case OtherError => "Error " + what + ". Please check the console for details."
    case Thrown => "Error " + what + ". Please try again."
  }

  /** What reaches the server: the text fields and the photo files. */
  datatype Submission = Submission(body: Listings.CreateBody, photos: seq<PhotoUpload.ImageFile>)

  /** The address checks of `validateStep`, one field after another. */
  method CheckAddress(f: Form) returns (e: map<Key, string>)
    ensures e == AddressErrors(f)
  {
    e := map[];
    if Strings.IsBlank(f.address) { e := e[AddressKey := "Address is required"]; }
    if Strings.IsBlank(f.city) { e := e[CityKey := "City is required"]; }
    if Strings.IsBlank(f.state) { e := e[StateKey := "State is required"]; }
    if Strings.IsBlank(f.zip) { e := e[ZipKey := "ZIP code is required"]; }
    if Strings.IsBlank(f.country) { e := e[CountryKey := "Country is required"]; }
  }

  /** The title or description check of `validateStep`. */
  method CheckText(text: string, max: nat, key: Key, required: string, tooLong: string) returns (e: map<Key, string>)
    ensures e == TextErrors(text, max, key, required, tooLong)
  {
    e := map[];
    if Strings.IsBlank(text) {
      e := e[key := required];
    } else if |text| > max {
      e := e[key := tooLong];
    }
  }

  /** The date checks of `validateStep`: the order message overwrites the
      missing-end message under the same key. */
  method CheckDates(f: Form, parseDate: string -> Option<int>) returns (e: map<Key, string>)
    ensures e == DateErrors(f, parseDate)
  {
    e := map[];
    if f.startDate == "" { e := e[StartDateKey := "Start date is required"]; }
    if f.endDate == "" { e := e[EndDateKey := "End date is required"]; }
    if f.startDate != "" && f.endDate != "" && EndNotAfterStart(f, parseDate) {
      e := e[EndDateKey := "End date must be after start date"];
    }
  }

  /** The single-field checks of steps 1, 2, 4, 6, 7 and 10. */
  method CheckField(step: int, f: Form) returns (e: map<Key, string>)
    requires step in {1, 2, 4, 6, 7, 10}
    ensures e == StepErrors(step, f, _ => None)
  {
    e := map[];
    if step == 1 {
      if f.propertyType == "" { e := e[PropertyTypeKey := "Please select a property type"]; }
    } else if step == 2 {
      if f.guestSpace == "" { e := e[GuestSpaceKey := "Please select a guest space type"]; }
    } else if step == 4 {
      if f.maxOccupancy < 1 { e := e[MaxOccupancyKey := "Maximum occupancy must be at least 1"]; }
    } else if step == 6 {
      if |f.amenities| == 0 { e := e[AmenitiesKey := "Please select at least one amenity"]; }
    } else if step == 7 {
      if |f.photos| < MinPhotos { e := e[PhotosKey := "Please upload at least 5 photos"]; }
    } else {
      if f.pricePerNight <= 0 { e := e[PriceKey := "Price must be greater than 0"]; }
    }
  }

  class ListingForm {
    var currentStep: int
    var form: Form
    var errors: map<Key, string>
    var submitting: bool
    var savingProgress: bool
    const parseDate: string -> Option<int>
    const stringify: seq<string> -> string

    constructor (parseDate: string -> Option<int>, stringify: seq<string> -> string)
      ensures currentStep == 1 && form == InitialForm && errors == map[] && !submitting && !savingProgress
      ensures this.parseDate == parseDate && this.stringify == stringify
    {
      this.parseDate := parseDate;
      this.stringify := stringify;
      currentStep := 1;
      form := InitialForm;
      errors := map[];
      submitting := false;
      savingProgress := false;
    }

    /** `validateStep`: the errors are built field by field and replace the shown
        ones. */
    method ValidateStep(step: int) returns (ok: bool)
      modifies this
      ensures errors == StepErrors(step, form, parseDate)
      ensures ok <==> StepOk(step, form, parseDate)
      ensures ok <==> errors == map[]
      ensures form == old(form) && currentStep == old(currentStep)
      ensures submitting == old(submitting) && savingProgress == old(savingProgress)
    {
      var newErrors: map<Key, string> := map[];
      if step == 3 {
        newErrors := CheckAddress(form);
      } else if step == 8 {
        newErrors := CheckText(form.title, MaxTitle, TitleKey, "Title is required", "Title must be 30 characters or less");
      } else if step == 9 {
        newErrors := CheckText(form.description, MaxDescription, DescriptionKey, "Description is required",
          "Description must be 500 characters or less");
      } else if step == 11 {
        newErrors := CheckDates(form, parseDate);
      } else if step in {1, 2, 4, 6, 7, 10} {
        newErrors := CheckField(step, form);
      }
      errors := newErrors;
      StepErrorsIffFails(step, form, parseDate);
      ok := |newErrors| == 0;
    }

    /** The loop of `handleSubmit`: steps 1..11 are validated in order and the
        loop stops at the first that fails, leaving its errors shown. */
    method ValidateAll() returns (allValid: bool)
      modifies this
      ensures allValid <==> FirstFailing(form, parseDate).None?
      ensures !allValid ==> errors == StepErrors(FirstFailing(form, parseDate).value, form, parseDate)
      ensures allValid ==> errors == map[]
      ensures form == old(form) && currentStep == old(currentStep)
      ensures submitting == old(submitting) && savingProgress == old(savingProgress)
    {
      allValid := true;
      var step := 1;
      while step <= LastStep
        invariant 1 <= step <= LastStep + 1
        invariant forall t :: 1 <= t < step ==> StepOk(t, form, parseDate)
        invariant step > 1 ==> errors == map[]
        invariant form == old(form) && currentStep == old(currentStep)
        invariant submitting == old(submitting) && savingProgress == old(savingProgress)
      {
        var ok := ValidateStep(step);
        if !ok {
          FirstFailingIs(form, parseDate, step);
          allValid := false;
          return;
        }
        step := step + 1;
      }
      FirstFailingCorrect(form, parseDate);
    }

    /** `nextStep`: on to the next step only when the current one passes and is
        not the last. */
    method NextStep()
      modifies this
      ensures StepOk(old(currentStep), old(form), parseDate) && old(currentStep) < LastStep ==>
        currentStep == old(currentStep) + 1 && errors == map[]
      ensures !(StepOk(old(currentStep), old(form), parseDate) && old(currentStep) < LastStep) ==>
        currentStep == old(currentStep) && errors == StepErrors(old(currentStep), old(form), parseDate)
      ensures form == old(form) && submitting == old(submitting) && savingProgress == old(savingProgress)
    {
      var ok := ValidateStep(currentStep);
      if ok {
        if currentStep < LastStep {
          currentStep := currentStep + 1;
          errors := map[];
        }
      }
    }

    /** `prevStep`: back one step, never below the first. */
    method PrevStep()
      modifies this
      ensures currentStep == if old(currentStep) > 1 then old(currentStep) - 1 else old(currentStep)
      ensures form == old(form) && errors == old(errors)
      ensures submitting == old(submitting) && savingProgress == old(savingProgress)
    {
      if currentStep > 1 {
        currentStep := currentStep - 1;
      }
    }

    /** `handleAmenityToggle`. */
    method ToggleAmenity(code: string)
      modifies this
      ensures form == old(form).(amenities := Selection.Toggle(old(form).amenities, code))
      ensures currentStep == old(currentStep) && errors == old(errors)
      ensures submitting == old(submitting) && savingProgress == old(savingProgress)
    {
      form := form.(amenities := Selection.Toggle(form.amenities, code));
    }

    /** `handleOccupantToggle`. */
    method ToggleOccupant(occupant: string)
      modifies this
      ensures form == old(form).(occupants := Selection.Toggle(old(form).occupants, occupant))
      ensures currentStep == old(currentStep) && errors == old(errors)
      ensures submitting == old(submitting) && savingProgress == old(savingProgress)
    {
      form := form.(occupants := Selection.Toggle(form.occupants, occupant));
    }

    /** `handlePhotoUpload`: the new files follow the old photos, at most seven kept. */
    method UploadPhotos(files: seq<PhotoUpload.ImageFile>)
      modifies this
      ensures form == old(form).(photos := Selection.AppendCapped(old(form).photos, files, MaxPhotos))
      ensures currentStep == old(currentStep) && errors == old(errors)
      ensures submitting == old(submitting) && savingProgress == old(savingProgress)
    {
      form := form.(photos := Selection.AppendCapped(form.photos, files, MaxPhotos));
    }

    /** `handleSubmit`: ignored while a submission is running; otherwise steps 1..11
        are checked in order up to the first that fails, whose errors stay shown,
        and nothing is sent unless all pass and a user with an id is signed in.
        `userId` is `None` without a signed-in user and profile. */
    method HandleSubmit(userId: Option<string>, outcome: Outcome)
      returns (alert: Option<string>, request: Option<Submission>, navigate: bool)
      modifies this
      ensures old(submitting) ==> alert.None? && request.None? && !navigate && errors == old(errors)
      ensures !old(submitting) && FirstFailing(form, parseDate).Some? ==>
        alert == Some(IncompleteAlert) && request.None? && !navigate &&
        errors == StepErrors(FirstFailing(form, parseDate).value, form, parseDate)
      ensures !old(submitting) && FirstFailing(form, parseDate).None? && userId.None? ==>
        alert == Some(LoginAlert) && request.None? && !navigate
      ensures !old(submitting) && FirstFailing(form, parseDate).None? && userId == Some("") ==>
        alert == Some(MissingIdAlert) && request.None? && !navigate
      ensures !old(submitting) && FirstFailing(form, parseDate).None? && userId.Some? && userId.value != "" ==>
        request == Some(Submission(SubmitBody(userId.value, form, stringify), form.photos)) &&
        navigate == outcome.Ok? &&
        alert == (if outcome.Ok? then None else Some(FailureAlert("creating listing", outcome)))
      ensures request.Some? ==> forall s :: 1 <= s <= LastStep ==> StepOk(s, form, parseDate)
      ensures !old(submitting) ==> !submitting
      ensures old(submitting) ==> submitting
      ensures form == old(form) && currentStep == old(currentStep) && savingProgress == old(savingProgress)
    {
      alert, request, navigate := None, None, false;
      if submitting {
        return;
      }
      FirstFailingCorrect(form, parseDate);
      var allValid := ValidateAll();
      if !allValid {
        alert := Some(IncompleteAlert);
        submitting := false;
        return;
      }
      submitting := true;
      if userId.None? {
        alert := Some(LoginAlert);
        submitting := false;
        return;
      }
      if userId.value == "" {
        alert := Some(MissingIdAlert);
        submitting := false;
        return;
      }
      request := Some(Submission(SubmitBody(userId.value, form, stringify), form.photos));
      if outcome.Ok? {
        navigate := true;
      } else {
        alert := Some(FailureAlert("creating listing", outcome));
      }
      submitting := false;
    }

    /** `handleSaveProgress`: no step is checked; the draft goes out whenever a
        user with an id is signed in. `todayIso` and `yearLaterIso` are today's
        date and the date a year later as `YYYY-MM-DD`. */
    method SaveProgress(userId: Option<string>, outcome: Outcome, todayIso: string, yearLaterIso: string)
      returns (alert: Option<string>, request: Option<Submission>, navigate: bool)
      modifies this
      ensures old(savingProgress) ==> alert.None? && request.None? && !navigate
      ensures !old(savingProgress) && userId.None? ==> alert == Some(LoginToSaveAlert) && request.None? && !navigate
      ensures !old(savingProgress) && userId == Some("") ==> alert == Some(MissingIdAlert) && request.None? && !navigate
      ensures !old(savingProgress) && userId.Some? && userId.value != "" ==>
        request == Some(Submission(DraftBody(userId.value, form, todayIso, yearLaterIso, stringify), form.photos)) &&
        navigate == outcome.Ok? &&
        alert == Some(if outcome.Ok? then SavedAlert else FailureAlert("saving progress", outcome))
      ensures savingProgress == old(savingProgress)
      ensures form == old(form) && currentStep == old(currentStep) && errors == old(errors) && submitting == old(submitting)
    {
      alert, request, navigate := None, None, false;
      if savingProgress {
        return;
      }
      savingProgress := true;
      if userId.None? {
        alert := Some(LoginToSaveAlert);
        savingProgress := false;
        return;
      }
      if userId.value == "" {
        alert := Some(MissingIdAlert);
        savingProgress := false;
        return;
      }
      request := Some(Submission(DraftBody(userId.value, form, todayIso, yearLaterIso, stringify), form.photos));
      if outcome.Ok? {
        alert := Some(SavedAlert);
        navigate := true;
      } else {
        alert := Some(FailureAlert("saving progress", outcome));
      }
      savingProgress := false;
    }
  }
}
