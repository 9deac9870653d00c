/** The three-step registration form: the checks that move from one step to the
    next, the error each failed check shows, and the step-3 checks that stop the
    registration before any account is created. Sign-up, the profile insert and
    the avatar upload talk to the authentication service and are not modelled;
    whether an avatar file was chosen is a flag. */
module Register {
  import opened Wrappers
  import Strings

  const LastStep: int := 3
  const MinPassword: nat := 6
  const NameMissing: string := "Please enter your full name"
  const AvatarMissing: string := "Please upload a profile picture"
  const EmailMissing: string := "Please enter your email address"
  const EmailInvalid: string := "Please enter a valid email address"
  const UniversityMissing: string := "Please select your university"
  const PasswordShort: string := "Password must be at least 6 characters long"
  const MajorMissing: string := "Please enter your major"
  const YearMissing: string := "Please select your graduation year"

  /** What the user has entered so far. */
  datatype Entries = Entries(name: string, avatar: bool, email: string, universityId: string,
                             password: string, major: string, year: string)

  /** The message `nextStep` shows for `step`, or none when it may advance. Only
      steps 1 and 2 have checks; the first failing check wins. */
  function StepError(step: int, e: Entries): (msg: Option<string>)
    ensures msg.Some? ==> step == 1 || step == 2
  {
    if step == 1 then
      if Strings.IsBlank(e.name) then Some(NameMissing)
      else if !e.avatar then Some(AvatarMissing)
      else None
    else if step == 2 then
      if Strings.IsBlank(e.email) then Some(EmailMissing)
      else if '@' !in e.email then Some(EmailInvalid)
      else if e.universityId == "" then Some(UniversityMissing)
      else if |e.password| < MinPassword then Some(PasswordShort)
      else None
    else None
  }

  /** `validateCurrentStep`: whether the shown step is complete. Any step other
      than 1, 2 and 3 is not. */
  predicate StepComplete(step: int, e: Entries) {
    if step == 1 then !Strings.IsBlank(e.name) && e.avatar
    else if step == 2 then !Strings.IsBlank(e.email) && '@' in e.email && e.universityId != "" && |e.password| >= MinPassword
    else if step == 3 then !Strings.IsBlank(e.major) && e.year != ""
    else false
  }

  /** The checks of `handleRegister` made before sign-up. */
  function RegisterError(e: Entries): (msg: Option<string>) {
    if Strings.IsBlank(e.major) then Some(MajorMissing)
    else if e.year == "" then Some(YearMissing)
    else None
  }

  /** On steps 1 and 2 `nextStep` shows no error exactly when the step is complete,
      and registration goes ahead exactly when step 3 is; a failed check names the
      first missing item. */
  lemma ChecksAgree(step: int, e: Entries)
    ensures step == 1 || step == 2 ==> (StepError(step, e).None? <==> StepComplete(step, e))
    ensures RegisterError(e).None? <==> StepComplete(3, e)
    ensures step == 1 && Strings.IsBlank(e.name) ==> StepError(step, e) == Some(NameMissing)
    ensures step == 2 && !Strings.IsBlank(e.email) && '@' !in e.email ==> StepError(step, e) == Some(EmailInvalid)
    ensures Strings.IsBlank(e.major) ==> RegisterError(e) == Some(MajorMissing)
  {
  }

  /** The passwords step 2 accepts are those of at least six characters. */
  lemma ShortPasswordRefused(e: Entries)
    requires !Strings.IsBlank(e.email) && '@' in e.email && e.universityId != ""
    ensures StepError(2, e) == (if |e.password| < MinPassword then Some(PasswordShort) else None)
  {
  }

  class RegisterForm {
    var currentStep: int
    var entries: Entries
    var error: string
    var loading: bool

    /** The steps the form can be on. */
    predicate Valid()
      reads this
    {
      1 <= currentStep <= LastStep
    }

    constructor ()
      ensures Valid() && currentStep == 1 && error == "" && !loading
      ensures entries == Entries("", false, "", "", "", "", "")
    {
      currentStep := 1;
      entries := Entries("", false, "", "", "", "", "");
      error := "";
      loading := false;
    }

    /** `nextStep`: below the last step the error is cleared and the step's checks
        run in order; the first that fails sets its message and the step stays,
        otherwise the form moves on. On the last step nothing happens. */
    method NextStep()
      requires Valid()
      modifies this
      ensures Valid()
      ensures old(currentStep) >= LastStep ==> currentStep == old(currentStep) && error == old(error)
      ensures old(currentStep) < LastStep && StepError(old(currentStep), entries).Some? ==>
        currentStep == old(currentStep) && error == StepError(old(currentStep), entries).value
      ensures old(currentStep) < LastStep && StepError(old(currentStep), entries).None? ==>
        currentStep == old(currentStep) + 1 && error == ""
      ensures entries == old(entries) && loading == old(loading)
    {
      if currentStep < LastStep {
        error := "";
        if currentStep == 1 {
          if Strings.IsBlank(entries.name) {
            error := NameMissing;
            return;
          }
          if !entries.avatar {
            error := AvatarMissing;
            return;
          }
        } else if currentStep == 2 {
          if Strings.IsBlank(entries.email) {
            error := EmailMissing;
            return;
          }
          if '@' !in entries.email {
            error := EmailInvalid;
            return;
          }
          if entries.universityId == "" {
            error := UniversityMissing;
            return;
          }
          if |entries.password| < MinPassword {
            error := PasswordShort;
            return;
          }
        }
        currentStep := currentStep + 1;
      }
    }

    /** `prevStep`: back one step and the error cleared, never below the first. */
    method PrevStep()
      requires Valid()
      modifies this
      ensures Valid()
      ensures old(currentStep) > 1 ==> currentStep == old(currentStep) - 1 && error == ""
      ensures old(currentStep) <= 1 ==> currentStep == old(currentStep) && error == old(error)
      ensures entries == old(entries) && loading == old(loading)
    {
      if currentStep > 1 {
        currentStep := currentStep - 1;
        error := "";
      }
    }

    /** `validateCurrentStep`, which enables the step's button. */
    predicate CurrentStepComplete()
      reads this
    {
      StepComplete(currentStep, entries)
    }

    /** The start of `handleRegister`: the error is cleared; a blank major or an
        unselected year sets its message and stops; otherwise loading starts and
        sign-up may proceed. */
    method BeginRegister() returns (proceed: bool)
      modifies this
      ensures proceed <==> RegisterError(entries).None?
      ensures !proceed ==> error == RegisterError(entries).value && loading == old(loading)
      ensures proceed ==> error == "" && loading
      ensures entries == old(entries) && currentStep == old(currentStep)
    {
      error := "";
      var check := RegisterError(entries);
      if check.Some? {
        error := check.value;
        return false;
      }
      loading := true;
      return true;
    }
  }
}
