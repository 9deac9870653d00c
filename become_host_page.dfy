/** The older thirteen-step "become a host" wizard: its step counter, the amenity
    and occupant toggles and the photo input, which replaces the chosen photos
    rather than adding to them. */
module BecomeHost {
  import Selection
  import PhotoUpload

  const LastStep: int := 13

  class HostWizard {
    var currentStep: int
    var amenities: seq<string>
    var occupants: seq<string>
    var photos: seq<PhotoUpload.ImageFile>

    /** The steps the wizard can be on. */
    predicate Valid()
      reads this
    {
      1 <= currentStep <= LastStep
    }

    constructor ()
      ensures Valid() && currentStep == 1 && amenities == [] && occupants == [] && photos == []
    {
      currentStep := 1;
      amenities := [];
      occupants := [];
      photos := [];
    }

    /** `nextStep`: up by one while below the last step. */
    method NextStep()
      requires Valid()
      modifies this
      ensures Valid()
      ensures currentStep == if old(currentStep) < LastStep then old(currentStep) + 1 else old(currentStep)
      ensures amenities == old(amenities) && occupants == old(occupants) && photos == old(photos)
    {
      if currentStep < LastStep {
        currentStep := currentStep + 1;
      }
    }

    /** `prevStep`: down by one while above the first step. */
    method PrevStep()
      requires Valid()
      modifies this
      ensures Valid()
      ensures currentStep == if old(currentStep) > 1 then old(currentStep) - 1 else old(currentStep)
      ensures amenities == old(amenities) && occupants == old(occupants) && photos == old(photos)
    {
      if currentStep > 1 {
        currentStep := currentStep - 1;
      }
    }

    /** `handleAmenityToggle`. */
    method ToggleAmenity(code: string)
      modifies this
      ensures amenities == Selection.Toggle(old(amenities), code)
      ensures currentStep == old(currentStep) && occupants == old(occupants) && photos == old(photos)
    {
      amenities := Selection.Toggle(amenities, code);
    }

    /** `handleOccupantToggle`. */
    method ToggleOccupant(occupant: string)
      modifies this
      ensures occupants == Selection.Toggle(old(occupants), occupant)
      ensures currentStep == old(currentStep) && amenities == old(amenities) && photos == old(photos)
    {
      occupants := Selection.Toggle(occupants, occupant);
    }

    /** `handlePhotoUpload`: the chosen files become the photo list. */
    method UploadPhotos(files: seq<PhotoUpload.ImageFile>)
      modifies this
      ensures photos == files
      ensures currentStep == old(currentStep) && amenities == old(amenities) && occupants == old(occupants)
    {
      photos := files;
    }
  }

  /** The step `n` presses of "next" reach from step `s`, stopping at the last. */
  function AfterNext(s: int, n: nat): (t: int)
    requires 1 <= s <= LastStep
    ensures 1 <= t <= LastStep
    ensures t == if s + n <= LastStep then s + n else LastStep
    decreases n
  {
    if n == 0 || s == LastStep then s else AfterNext(s + 1, n - 1)
  }

  /** The step `n` presses of "back" reach from step `s`, stopping at the first. */
  function AfterPrev(s: int, n: nat): (t: int)
    requires 1 <= s <= LastStep
    ensures 1 <= t <= LastStep
    ensures t == if s - n >= 1 then s - n else 1
    decreases n
  {
    if n == 0 || s == 1 then s else AfterPrev(s - 1, n - 1)
  }

  /** Going forward and back the same number of steps returns to the start as long
      as the last step was not reached on the way. */
  lemma NextThenPrev(s: int, n: nat)
    requires 1 <= s && s + n <= LastStep
    ensures AfterPrev(AfterNext(s, n), n) == s
  {
  }
}
