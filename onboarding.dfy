/** The onboarding wizard: six steps with per-step gating, the zodiac sign
    derived from the birth date, and the records written when the last step
    completes. */
module Onboarding {
  import opened Text
  import opened Schema

  // ---------------------------------------------------------------------------
  // Zodiac sign
  // ---------------------------------------------------------------------------

  datatype Sign = Aries | Taurus | Gemini | Cancer | Leo | Virgo | Libra
                | Scorpio | Sagittarius | Capricorn | Aquarius | Pisces

  /** A sign runs from its first day (startMonth, startDay) to its last day
      (endMonth, endDay) in the following month. */
  datatype Span = Span(startMonth: int, startDay: int, endMonth: int, endDay: int)

  /** The reference table of the tropical zodiac as the app dates it. */
  function SpanOf(s: Sign): Span
  {
    match s
    case Aries => Span(3, 21, 4, 19)
    case Taurus => Span(4, 20, 5, 20)
    case Gemini => Span(5, 21, 6, 20)
    case Cancer => Span(6, 21, 7, 22)
    case Leo => Span(7, 23, 8, 22)
    case Virgo => Span(8, 23, 9, 22)
    case Libra => Span(9, 23, 10, 22)
    case Scorpio => Span(10, 23, 11, 21)
    case Sagittarius => Span(11, 22, 12, 21)
    case Capricorn => Span(12, 22, 1, 19)
    case Aquarius => Span(1, 20, 2, 18)
    case Pisces => Span(2, 19, 3, 20)
  }

  /** The day (month, day) falls in the sign's span. Days past a month's end
      count as the rest of that month. */
  predicate Within(s: Sign, month: int, day: int)
  {
    var p := SpanOf(s);
    (month == p.startMonth && day >= p.startDay) || (month == p.endMonth && day <= p.endDay)
  }

  function SignName(s: Sign): string
  {
    match s
    case Aries => "Aries"
    case Taurus => "Taurus"
    case Gemini => "Gemini"
    case Cancer => "Cancer"
    case Leo => "Leo"
    case Virgo => "Virgo"
    case Libra => "Libra"
    case Scorpio => "Scorpio"
    case Sagittarius => "Sagittarius"
    case Capricorn => "Capricorn"
    case Aquarius => "Aquarius"
    case Pisces => "Pisces"
  }

  /** `calculateHoroscope` on the month (1-12) and day the browser reads from
      the entered date. It is total: for a month 1-12 the sign is the one
      whose span holds the day, and any other month gives Pisces. */
  function Horoscope(month: int, day: int): (s: Sign)
    ensures 1 <= month <= 12 ==> Within(s, month, day)
    ensures !(1 <= month <= 12) ==> s == Pisces
  {
    if (month == 3 && day >= 21) || (month == 4 && day <= 19) then Aries
    else if (month == 4 && day >= 20) || (month == 5 && day <= 20) then Taurus
    else if (month == 5 && day >= 21) || (month == 6 && day <= 20) then Gemini
    else if (month == 6 && day >= 21) || (month == 7 && day <= 22) then Cancer
    else if (month == 7 && day >= 23) || (month == 8 && day <= 22) then Leo
    else if (month == 8 && day >= 23) || (month == 9 && day <= 22) then Virgo
    else if (month == 9 && day >= 23) || (month == 10 && day <= 22) then Libra
    else if (month == 10 && day >= 23) || (month == 11 && day <= 21) then Scorpio
    else if (month == 11 && day >= 22) || (month == 12 && day <= 21) then Sagittarius
    else if (month == 12 && day >= 22) || (month == 1 && day <= 19) then Capricorn
    else if (month == 1 && day >= 20) || (month == 2 && day <= 18) then Aquarius
    else Pisces
  }

  /** The spans do not overlap: a day lies in at most one sign. */
  lemma SpansDisjoint(s: Sign, t: Sign, month: int, day: int)
    requires Within(s, month, day) && Within(t, month, day)
    ensures s == t
  {
  }

  /** Each span ends the day before the next one starts, Capricorn wrapping
      from December into January, so the twelve spans tile the year. */
  lemma SpansConsecutive()
    ensures forall s :: SpanOf(s).endMonth == SpanOf(s).startMonth % 12 + 1
    ensures forall s, t :: SpanOf(t).startMonth == SpanOf(s).endMonth ==> SpanOf(t).startDay == SpanOf(s).endDay + 1
  {
  }

  /** For a month 1-12, the computed sign is exactly the sign whose span holds
      the day. */
  lemma HoroscopeIff(month: int, day: int, s: Sign)
    requires 1 <= month <= 12
    ensures Horoscope(month, day) == s <==> Within(s, month, day)
  {
    if Within(s, month, day) {
      SpansDisjoint(Horoscope(month, day), s, month, day);
    }
  }

  // ---------------------------------------------------------------------------
  // Steps and gating
  // ---------------------------------------------------------------------------

  datatype Step = LanguageStep | NicknameStep | DobStep | AssessmentStep | IntensityStep | ConsentStep

  const Steps: seq<Step> := [LanguageStep, NicknameStep, DobStep, AssessmentStep, IntensityStep, ConsentStep]

  /** The form the steps fill in: the deep-dive answers are option texts
      keyed by question id. */
  datatype Form = Form(language: string, nickname: string, dob: string,
                       answers: map<int, string>, intensity: Intensity, memoryConsent: bool)

  function InitialForm(): Form
  {
    Form("en", "", "", map[], Direct, true)
  }

  /** `canProceed` for the given step. */
  function CanProceed(step: Step, f: Form): (b: bool)
    ensures step in {DobStep, IntensityStep, ConsentStep} ==> b
    ensures step == LanguageStep ==> (b <==> f.language != "")
    ensures step == NicknameStep ==> (b <==> Utf16Length(Trim(f.nickname)) >= 2)
    ensures step == AssessmentStep ==> (b <==> |f.answers.Keys| >= 5)
  {
    match step
    case LanguageStep => f.language != ""
    case NicknameStep => Utf16Length(Trim(f.nickname)) >= 2
    case DobStep => true
    case AssessmentStep => |f.answers.Keys| >= 5
    case IntensityStep => true
    case ConsentStep => true
  }

  /** A nickname of whitespace only (or empty) never passes. */
  lemma BlankNicknameBlocked(f: Form)
    requires forall i :: 0 <= i < |f.nickname| ==> IsJsWhitespace(f.nickname[i])
    ensures !CanProceed(NicknameStep, f)
  {
    TrimEmptyIff(f.nickname);
  }

  /** Two visible characters anywhere in the nickname let it pass, whatever
      whitespace surrounds or separates them. */
  lemma TwoVisibleCharactersPass(f: Form, i: nat, j: nat)
    requires i < j < |f.nickname|
    requires !IsJsWhitespace(f.nickname[i]) && !IsJsWhitespace(f.nickname[j])
    ensures CanProceed(NicknameStep, f)
  {
    var s := f.nickname;
    var k := LeadingWhitespace(s);
    var r := Trim(s);
    assert k <= i && j < k + |r|;
  }

  /** `.length` counts UTF-16 units, so a nickname of one character outside
      the Basic Multilingual Plane (an emoji, say) already passes. */
  lemma AstralNicknamePasses(f: Form)
    requires |f.nickname| == 1 && f.nickname[0] as int > 0xFFFF
    ensures CanProceed(NicknameStep, f)
  {
    assert Trim(f.nickname) == f.nickname by {
      TrimUnchanged(f.nickname);
    }
  }

  /** Answering more deep-dive questions never closes the step again. */
  lemma MoreAnswersStillPass(f: Form, g: Form)
    requires f.answers.Keys <= g.answers.Keys
    requires CanProceed(AssessmentStep, f)
    ensures CanProceed(AssessmentStep, g)
  {
    SubsetCardinality(f.answers.Keys, g.answers.Keys);
  }

  lemma {:induction false} SubsetCardinality(a: set<int>, b: set<int>)
    requires a <= b
    ensures |a| <= |b|
  {
    if a != {} {
      if forall x :: x !in a {
        assert false;
      }
      var x :| x in a;
      SubsetCardinality(a - {x}, b - {x});
    }
  }

  // ---------------------------------------------------------------------------
  // Completion
  // ---------------------------------------------------------------------------

  /** The profile fields written on completion. */
  datatype ProfileUpdate = ProfileUpdate(
    nickname: string, language: string, dateOfBirth: Option<string>, horoscopeSign: Option<string>,
    intensity: Intensity, memoryConsent: bool, assessmentAnswers: map<int, string>,
    onboardingCompleted: bool, onboardingStep: int)

  datatype SubscriptionRow = SubscriptionRow(userId: string, tier: Tier, status: string,
                                             voiceMinutesLimit: int, voiceMinutesUsed: int)

  /** How `completeOnboarding` ends: nothing without a signed-in user; an
      error toast when no backend is configured or the profile update fails;
      otherwise the profile update and the starter subscription. The result
      of the subscription insert is not checked. */
  datatype Completion =
    | NotSignedIn
    | BackendMissing
    | UpdateFailed(update: ProfileUpdate)
    | Completed(update: ProfileUpdate, subscription: SubscriptionRow)

  /** The record of the entered form; `birthday` is the (month, day) the
      browser reads from the entered date. */
  function ProfileOf(f: Form, birthday: (int, int)): (p: ProfileUpdate)
    ensures p.dateOfBirth.None? <==> f.dob == ""
    ensures p.horoscopeSign.None? <==> f.dob == ""
    ensures f.dob != "" ==>
              p.dateOfBirth == Some(f.dob) && p.horoscopeSign == Some(SignName(Horoscope(birthday.0, birthday.1)))
    ensures p.onboardingCompleted && p.onboardingStep == |Steps| == 6
    ensures p.nickname == f.nickname && p.language == f.language && p.intensity == f.intensity
      && p.memoryConsent == f.memoryConsent && p.assessmentAnswers == f.answers
  {
    ProfileUpdate(
      f.nickname, f.language,
      if f.dob == "" then None else Some(f.dob),
      if f.dob == "" then None else Some(SignName(Horoscope(birthday.0, birthday.1))),
      f.intensity, f.memoryConsent, f.answers, true, |Steps|)
  }

  function Complete(f: Form, user: Option<string>, backendConfigured: bool,
                    updateSucceeds: bool, birthday: (int, int)): (c: Completion)
    ensures c.NotSignedIn? <==> user.None?
    ensures c.BackendMissing? <==> user.Some? && !backendConfigured
    ensures (c.UpdateFailed? || c.Completed?) ==> c.update == ProfileOf(f, birthday)
    ensures c.Completed? <==> user.Some? && backendConfigured && updateSucceeds
    ensures c.Completed? ==> c.subscription == SubscriptionRow(user.value, Discovery, "active", 5, 0)
  {
    if user.None? then NotSignedIn
    else if !backendConfigured then BackendMissing
    else if !updateSucceeds then UpdateFailed(ProfileOf(f, birthday))
    else Completed(ProfileOf(f, birthday), SubscriptionRow(user.value, Discovery, "active", 5, 0))
  }

  // ---------------------------------------------------------------------------
  // The wizard
  // ---------------------------------------------------------------------------

  class Wizard {
    var currentStep: nat
    var form: Form
    var isLoading: bool
    var completion: Option<Completion>

    ghost predicate Valid()
      reads this
    {
      currentStep < |Steps|
    }

    constructor ()
      ensures Valid()
      ensures currentStep == 0 && form == InitialForm() && !isLoading && completion == None
    {
      currentStep, form, isLoading, completion := 0, InitialForm(), false, None;
    }

    /** Whether the Next button is enabled. */
    function CanGoNext(): (b: bool)
      reads this
      requires Valid()
      ensures b <==> !isLoading && CanProceed(Steps[currentStep], form)
      ensures Steps[currentStep] in {DobStep, IntensityStep, ConsentStep} ==> (b <==> !isLoading)
    {
      CanProceed(Steps[currentStep], form) && !isLoading
    }

    /** Choosing an option of deep-dive question `id`. */
    method Answer(id: int, option: string)
      modifies this`form
      ensures form == old(form).(answers := old(form).answers[id := option])
    {
      form := form.(answers := form.answers[id := option]);
    }

    /** Any of the other inputs (language, nickname, date, intensity, consent). */
    method Edit(f: Form)
      modifies this`form
      ensures form == f
    {
      form := f;
    }

    /** `handleNext`: advance, or on the last step complete the onboarding. */
    method Next(user: Option<string>, backendConfigured: bool, updateSucceeds: bool, birthday: (int, int))
      requires Valid()
      modifies this`currentStep, this`isLoading, this`completion
      ensures Valid()
      ensures old(currentStep) < |Steps| - 1 ==>
        currentStep == old(currentStep) + 1 && completion == old(completion) && isLoading == old(isLoading)
      ensures old(currentStep) == |Steps| - 1 ==>
        currentStep == old(currentStep) && !isLoading
        && completion == Some(Complete(form, user, backendConfigured, updateSucceeds, birthday))
    {
      if currentStep < |Steps| - 1 {
        currentStep := currentStep + 1;
      } else {
        isLoading := true;
        completion := Some(Complete(form, user, backendConfigured, updateSucceeds, birthday));
        isLoading := false;
      }
    }

    /** `handleBack`: step back unless on the first step. */
    method Back()
      requires Valid()
      modifies this`currentStep
      ensures Valid()
      ensures currentStep == if old(currentStep) > 0 then old(currentStep) - 1 else 0
    {
      if currentStep > 0 {
        currentStep := currentStep - 1;
      }
    }
  }
}
