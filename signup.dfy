/**
 * The sign-up wizard of src/app/signup/page.tsx: a fixed table of steps,
 * the handlers that complete identity, phone and face verification, and the
 * minimum-age check.
 */
module Signup {
  import opened Wrappers

  datatype Step =
    | Terms | Preparation | Capture | Loading | Confirmation | AgeRestriction
    | PhoneEntry | CodeEntry | FaceGuide | FaceCapture | FaceConfirm | FinalLoading | Complete

  /** Position of a step in the wizard's declared order. */
  function Rank(s: Step): nat {
    match s
    case Terms => 0 case Preparation => 1 case Capture => 2 case Loading => 3
    case Confirmation => 4 case AgeRestriction => 5 case PhoneEntry => 6 case CodeEntry => 7
    case FaceGuide => 8 case FaceCapture => 9 case FaceConfirm => 10 case FinalLoading => 11
    case Complete => 12
  }

  /** A calendar date as year, month (1-12) and day; the birth date and "today" both. */
  datatype Date = Date(year: int, month: int, day: int)

  /** `d1` falls on or before `d2`. */
  predicate OnOrBefore(d1: Date, d2: Date) {
    d1.year < d2.year
    || (d1.year == d2.year && (d1.month < d2.month || (d1.month == d2.month && d1.day <= d2.day)))
  }

  /** The recognised identity card; `birthDate` is None when its text does not read as numbers. */
  datatype IdCardInfo = IdCardInfo(name: string, gender: string, birthDate: Option<Date>, address: string)

  /**
   * `checkAge`: the completed years between birth and today (one less when
   * this year's birthday is still ahead), compared with 50. An unreadable
   * birth date gives NaN arithmetic and so false.
   */
  function CheckAge(birth: Option<Date>, today: Date): (ok: bool)
    ensures ok <==> birth.Some? && OnOrBefore(Date(birth.value.year + 50, birth.value.month, birth.value.day), today)
  {
    match birth
    case None => false
    case Some(b) =>
      var age := today.year - b.year;
      var monthDiff := today.month - b.month;
      var hasHadBirthdayThisYear := monthDiff > 0 || (monthDiff == 0 && today.day >= b.day);
      var actualAge := if hasHadBirthdayThisYear then age else age - 1;
      actualAge >= 50
  }

  /** `handleNextStep`'s table. From confirmation the age check chooses between the phone step and the age stop. */
  function NextStep(s: Step, info: Option<IdCardInfo>, today: Date): (r: Step)
    ensures Rank(r) >= Rank(s)
    ensures r == s <==> s in {Capture, AgeRestriction, FaceCapture, FaceConfirm, Complete}
    ensures s == Confirmation ==>
              (r == PhoneEntry <==> info.Some? && CheckAge(info.value.birthDate, today))
              && (r == PhoneEntry || r == AgeRestriction)
  {
    match s
    case Terms => Preparation
    case Preparation => Capture
    case Confirmation =>
      if info.Some? && CheckAge(info.value.birthDate, today) then PhoneEntry else AgeRestriction
    case Loading => Confirmation
    case PhoneEntry => CodeEntry
    case CodeEntry => FaceGuide
    case FaceGuide => FaceCapture
    case FinalLoading => Complete
    case _ => s
  }

  /** `handlePrevStep`'s table: never forward, and the first, the age stop and the last two steps stay put. */
  function PrevStep(s: Step): (r: Step)
    ensures Rank(r) <= Rank(s)
    ensures r == s <==> s in {Terms, AgeRestriction, FinalLoading, Complete}
  {
    match s
    case Preparation => Terms
    case Capture => Preparation
    case Loading => Capture
    case Confirmation => Capture
    case PhoneEntry => Confirmation
    case CodeEntry => PhoneEntry
    case FaceGuide => CodeEntry
    case FaceCapture => FaceGuide
    case FaceConfirm => FaceCapture
    case _ => s
  }

  /** Going forward and then back returns to the same step on the linear stretches of the wizard. */
  lemma PrevUndoesNext(s: Step, info: Option<IdCardInfo>, today: Date)
    requires s in {Terms, Preparation, PhoneEntry, CodeEntry, FaceGuide}
    ensures PrevStep(NextStep(s, info, today)) == s
  {
  }

  /** The text in the error slot: a server message, or the screen's fallback for that failure. */
  datatype SignupError =
    | Reported(message: string)
    | IdRecognitionFailed | IdVerificationError
    | CodeSendFailed | CodeSendError | CodeResendFailed | CodeResendError
    | MissingInformation

  /** `message || fallback`. */
  function MessageOr(message: Option<string>, fallback: SignupError): (e: SignupError)
    ensures message.Some? && message.value != "" ==> e == Reported(message.value)
    ensures !(message.Some? && message.value != "") ==> e == fallback
  {
    if message.Some? && message.value != "" then Reported(message.value) else fallback
  }

  /** How `verifyIDCard` settled: a result with `success` true, one with `success` false, or a thrown error. */
  datatype OcrOutcome =
    | OcrSucceeded(info: IdCardInfo)
    | OcrFailed(message: Option<string>)
    | OcrThrew(message: Option<string>)

  /**
   * How a phone request (`sendVerificationCode`, `verifyPhoneCode`) settled.
   * For `verifyPhoneCode`, PhoneSucceeded stands for `success` with a `data` payload.
   */
  datatype PhoneOutcome =
    | PhoneSucceeded
    | PhoneFailed(message: Option<string>)
    | PhoneThrew(message: Option<string>)

  /** The captured face photo. */
  datatype Blob = Blob(id: nat)

  /** Everything the wizard holds in React state, plus the object URLs it has released. */
  datatype Wizard = Wizard(
    step: Step, idCardInfo: Option<IdCardInfo>, phoneNumber: string,
    facePhoto: Option<string>, facePhotoBlob: Option<Blob>,
    showErrorModal: bool, isProcessing: bool, error: Option<SignupError>,
    revokedUrls: seq<string>)

  class SignupWizard {
    var currentStep: Step
    var idCardInfo: Option<IdCardInfo>
    var phoneNumber: string
    var facePhoto: Option<string>
    var facePhotoBlob: Option<Blob>
    var showErrorModal: bool
    var isProcessing: bool
    var error: Option<SignupError>
    /** Object URLs handed back to the browser, oldest first. */
    var revokedUrls: seq<string>

    function State(): Wizard
      reads this
    {
      Wizard(currentStep, idCardInfo, phoneNumber, facePhoto, facePhotoBlob,
             showErrorModal, isProcessing, error, revokedUrls)
    }

    constructor ()
      ensures State() == Wizard(Terms, None, "", None, None, false, false, None, [])
    {
      currentStep := Terms;
      idCardInfo := None;
      phoneNumber := "";
      facePhoto := None;
      facePhotoBlob := None;
      showErrorModal := false;
      isProcessing := false;
      error := None;
      revokedUrls := [];
    }

    /** `handleNextStep`; on the complete step the router leaves the wizard instead. */
    method HandleNextStep(today: Date) returns (navigateHome: bool)
      modifies this
      ensures State() == old(State()).(step := NextStep(old(currentStep), old(idCardInfo), today))
      ensures navigateHome <==> old(currentStep) == Complete
    {
      navigateHome := false;
      match currentStep {
        case Terms => currentStep := Preparation;
        case Preparation => currentStep := Capture;
        case Confirmation =>
          if idCardInfo.Some? && CheckAge(idCardInfo.value.birthDate, today) {
            currentStep := PhoneEntry;
          } else {
            currentStep := AgeRestriction;
          }
        case Loading => currentStep := Confirmation;
        case PhoneEntry => currentStep := CodeEntry;
        case CodeEntry => currentStep := FaceGuide;
        case FaceGuide => currentStep := FaceCapture;
        case FinalLoading => currentStep := Complete;
        case Complete => navigateHome := true;
        case _ =>
      }
    }

    /** `handlePrevStep`: always clears the error, then steps back by the table. */
    method HandlePrevStep()
      modifies this
      ensures State() == old(State()).(step := PrevStep(old(currentStep)), error := None)
    {
      error := None;
      match currentStep {
        case Preparation => currentStep := Terms;
        case Capture => currentStep := Preparation;
        case Loading => currentStep := Capture;
        case Confirmation => currentStep := Capture;
        case PhoneEntry => currentStep := Confirmation;
        case CodeEntry => currentStep := PhoneEntry;
        case FaceGuide => currentStep := CodeEntry;
        case FaceCapture => currentStep := FaceGuide;
        case FaceConfirm => currentStep := FaceCapture;
        case _ =>
      }
    }

    /** `handleCaptureNext`, up to its await: busy, no error, on the loading step. */
    method HandleCaptureNext()
      modifies this
      ensures State() == old(State()).(isProcessing := true, error := None, step := Loading)
    {
      isProcessing := true;
      error := None;
      currentStep := Loading;
    }

    /** `handleCaptureNext` after `verifyIDCard` settles: confirmation with the card, or back to capture with an error. */
    method OnIdCardVerified(outcome: OcrOutcome)
      modifies this
      ensures outcome.OcrSucceeded? ==>
                State() == old(State()).(idCardInfo := Some(outcome.info), step := Confirmation, isProcessing := false)
      ensures outcome.OcrFailed? ==>
                State() == old(State()).(error := Some(MessageOr(outcome.message, IdRecognitionFailed)),
                                         step := Capture, isProcessing := false)
      ensures outcome.OcrThrew? ==>
                State() == old(State()).(error := Some(MessageOr(outcome.message, IdVerificationError)),
                                         step := Capture, isProcessing := false)
    {
      match outcome {
        case OcrSucceeded(info) =>
          idCardInfo := Some(info);
          currentStep := Confirmation;
        case OcrFailed(message) =>
          error := Some(MessageOr(message, IdRecognitionFailed));
          currentStep := Capture;
        case OcrThrew(message) =>
          error := Some(MessageOr(message, IdVerificationError));
          currentStep := Capture;
      }
      isProcessing := false;
    }

    /** `handlePhoneInputNext`, up to its await: remembers the number. */
    method HandlePhoneInputNext(phone: string)
      modifies this
      ensures State() == old(State()).(isProcessing := true, error := None, phoneNumber := phone)
    {
      isProcessing := true;
      error := None;
      phoneNumber := phone;
    }

    /** `handlePhoneInputNext` after the code was (or was not) sent; a failure keeps the step. */
    method OnCodeSent(outcome: PhoneOutcome)
      modifies this
      ensures outcome.PhoneSucceeded? ==> State() == old(State()).(step := CodeEntry, isProcessing := false)
      ensures outcome.PhoneFailed? ==>
                State() == old(State()).(error := Some(MessageOr(outcome.message, CodeSendFailed)), isProcessing := false)
      ensures outcome.PhoneThrew? ==>
                State() == old(State()).(error := Some(MessageOr(outcome.message, CodeSendError)), isProcessing := false)
    {
      match outcome {
        case PhoneSucceeded => currentStep := CodeEntry;
        case PhoneFailed(message) => error := Some(MessageOr(message, CodeSendFailed));
        case PhoneThrew(message) => error := Some(MessageOr(message, CodeSendError));
      }
      isProcessing := false;
    }

    /** `handleVerificationSuccess`, up to its await. */
    method HandleVerificationSuccess()
      modifies this
      ensures State() == old(State()).(isProcessing := true, error := None)
    {
      isProcessing := true;
      error := None;
    }

    /** `handleVerificationSuccess` after `verifyPhoneCode` settles: the face guide, or only the error modal. */
    method OnCodeVerified(outcome: PhoneOutcome)
      modifies this
      ensures outcome.PhoneSucceeded? ==> State() == old(State()).(step := FaceGuide, isProcessing := false)
      ensures !outcome.PhoneSucceeded? ==> State() == old(State()).(showErrorModal := true, isProcessing := false)
    {
      if outcome.PhoneSucceeded? {
        currentStep := FaceGuide;
      } else {
        showErrorModal := true;
      }
      isProcessing := false;
    }

    /** `handleResendCode`, up to its await: the modal closes. */
    method HandleResendCode()
      modifies this
      ensures State() == old(State()).(showErrorModal := false, isProcessing := true, error := None)
    {
      showErrorModal := false;
      isProcessing := true;
      error := None;
    }

    /** `handleResendCode` after the code was (or was not) sent again; the step never changes. */
    method OnCodeResent(outcome: PhoneOutcome)
      modifies this
      ensures outcome.PhoneSucceeded? ==> State() == old(State()).(isProcessing := false)
      ensures outcome.PhoneFailed? ==>
                State() == old(State()).(error := Some(MessageOr(outcome.message, CodeResendFailed)), isProcessing := false)
      ensures outcome.PhoneThrew? ==>
                State() == old(State()).(error := Some(MessageOr(outcome.message, CodeResendError)), isProcessing := false)
    {
      match outcome {
        case PhoneSucceeded =>
        case PhoneFailed(message) => error := Some(MessageOr(message, CodeResendFailed));
        case PhoneThrew(message) => error := Some(MessageOr(message, CodeResendError));
      }
      isProcessing := false;
    }

    /** `handleFacePhotoCapture`: keeps the photo and its object URL and asks for confirmation. */
    method HandleFacePhotoCapture(photo: Blob, objectUrl: string)
      modifies this
      ensures State() == old(State()).(facePhoto := Some(objectUrl), facePhotoBlob := Some(photo), step := FaceConfirm)
    {
      facePhoto := Some(objectUrl);
      facePhotoBlob := Some(photo);
      currentStep := FaceConfirm;
    }

    /**
     * `handleFacePhotoConfirm`: without the card or the photo only an error is
     * shown; otherwise the final loading step starts and stays busy (the
     * registration call is disabled in the source).
     */
    method HandleFacePhotoConfirm()
      modifies this
      ensures old(idCardInfo).None? || old(facePhotoBlob).None? ==>
                State() == old(State()).(error := Some(MissingInformation))
      ensures old(idCardInfo).Some? && old(facePhotoBlob).Some? ==>
                State() == old(State()).(isProcessing := true, error := None, step := FinalLoading)
    {
      if idCardInfo.None? || facePhotoBlob.None? {
        error := Some(MissingInformation);
        return;
      }
      isProcessing := true;
      error := None;
      currentStep := FinalLoading;
    }

    /** `handleRetry`: forget the card and capture it again. */
    method HandleRetry()
      modifies this
      ensures State() == old(State()).(idCardInfo := None, error := None, step := Capture)
    {
      idCardInfo := None;
      error := None;
      currentStep := Capture;
    }

    /** `handleFaceRetry`: release the photo's URL (when there is a non-empty one), forget the photo and take it again. */
    method HandleFaceRetry()
      modifies this
      ensures State() == old(State()).(
                revokedUrls := old(revokedUrls) + (if old(facePhoto).Some? && old(facePhoto).value != "" then [old(facePhoto).value] else []),
                facePhoto := None, facePhotoBlob := None, error := None, step := FaceCapture)
    {
      if facePhoto.Some? && facePhoto.value != "" {
        revokedUrls := revokedUrls + [facePhoto.value];
      }
      facePhoto := None;
      facePhotoBlob := None;
      error := None;
      currentStep := FaceCapture;
    }
  }
}
