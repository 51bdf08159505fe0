/** Input validation for the membership lead form (a WhatsApp number and a
    full name), the mapping from database errors to messages a user may
    see, and the control-character sanitiser. */
module Validation {
  import opened Text

  // ---------------------------------------------------------------------------
  // WhatsApp number
  // ---------------------------------------------------------------------------

  const PhoneRequired := "WhatsApp number is required"
  const PhoneInvalid := "Please enter a valid phone number (e.g., +1234567890)"

  predicate IsDigit(c: char) { '0' <= c <= '9' }

  predicate IsNonZeroDigit(c: char) { '1' <= c <= '9' }

  /** What follows the optional plus: a digit 1-9, then 6 to 14 digits. */
  predicate PhoneBody(d: string)
  {
    && 7 <= |d| <= 15
    && IsNonZeroDigit(d[0])
    && forall i :: 1 <= i < |d| ==> IsDigit(d[i])
  }

  /** The language of `^\+?[1-9]\d{6,14}$`: an optional plus followed by a
      phone body and nothing else. */
  predicate PhonePattern(s: string)
  {
    exists k :: 0 <= k <= 1 && k <= |s| && s[..k] == "+"[..k] && PhoneBody(s[k..])
  }

  /** The length of the run of digits that starts `s`. */
  function DigitRun(s: string): (n: nat)
    ensures n <= |s|
    ensures forall i :: 0 <= i < n ==> IsDigit(s[i])
    ensures n < |s| ==> !IsDigit(s[n])
  {
    if s != [] && IsDigit(s[0]) then 1 + DigitRun(s[1..]) else 0
  }

  /** A left-to-right matcher for the phone pattern: take the plus if there
      is one, then one digit 1-9, then a run of digits that must reach the
      end. */
  function MatchPhone(s: string): bool
  {
    var k := if s != [] && s[0] == '+' then 1 else 0;
    var d := s[k..];
    |d| >= 1 && IsNonZeroDigit(d[0]) && DigitRun(d[1..]) == |d| - 1 && 6 <= |d| - 1 <= 14
  }

  /** The matcher accepts exactly the pattern's language: a leading plus can
      only be matched by `\+?`, so there is no other way to match. */
  lemma MatchPhoneIff(s: string)
    ensures MatchPhone(s) <==> PhonePattern(s)
  {
    var k := if s != [] && s[0] == '+' then 1 else 0;
    var d := s[k..];
    assert s[..k] == "+"[..k];
    if MatchPhone(s) {
      assert forall i :: 1 <= i < |d| ==> d[i] == d[1..][i - 1];
      assert PhoneBody(d);
    }
    if PhonePattern(s) {
      var j :| 0 <= j <= 1 && j <= |s| && s[..j] == "+"[..j] && PhoneBody(s[j..]);
      assert s[j..][0] == s[j] && s[j] != '+';
      assert j == k;
      assert forall i :: 0 <= i < |d| - 1 ==> IsDigit(d[1..][i]);
    }
  }

  /** `whatsappSchema`: zod runs every check and reports each failure, so the
      empty string gets both messages. */
  function WhatsappIssues(s: string): (issues: seq<string>)
    ensures issues == [] <==> PhonePattern(s)
    ensures s == "" ==> issues == [PhoneRequired, PhoneInvalid]
    ensures forall m :: m in issues ==> m == PhoneRequired || m == PhoneInvalid
  {
    MatchPhoneIff(s);
    (if Utf16Length(s) < 1 then [PhoneRequired] else [])
    + (if MatchPhone(s) then [] else [PhoneInvalid])
  }

  /** An accepted number has 7 to 15 digits (the ITU-T E.164 maximum is 15)
      and at most one other character, the leading plus. */
  lemma {:induction false} AcceptedPhoneDigits(s: string)
    requires WhatsappIssues(s) == []
    ensures 7 <= Count(s, IsDigit) <= 15
    ensures |s| - Count(s, IsDigit) <= 1
  {
    var k :| 0 <= k <= 1 && k <= |s| && s[..k] == "+"[..k] && PhoneBody(s[k..]);
    var d := s[k..];
    AllCounted(d);
    if k == 1 {
      assert s == [s[0]] + d;
      assert !IsDigit(s[0]);
      assert Count(s, IsDigit) == Count(d, IsDigit);
    } else {
      assert s == d;
    }
  }

  lemma {:induction false} AllCounted(d: string)
    requires forall i :: 0 <= i < |d| ==> IsDigit(d[i])
    ensures Count(d, IsDigit) == |d|
  {
    if d != [] {
      AllCounted(d[1..]);
    }
  }

  // ---------------------------------------------------------------------------
  // Full name
  // ---------------------------------------------------------------------------

  const NameTooShort := "Name must be at least 2 characters"
  const NameTooLong := "Name must be less than 100 characters"
  const NameBadCharacters := "Name can only contain letters, spaces, hyphens, and apostrophes"

  /** The class `[a-zA-ZÀ-ſ\s'-]`. */
  predicate IsNameChar(c: char)
  {
    || ('a' <= c <= 'z') || ('A' <= c <= 'Z')
    || (0xC0 <= c as int <= 0x17F)
    || IsJsWhitespace(c) || c == '\'' || c == '-'
  }

  predicate NamePattern(s: string)
  {
    |s| >= 1 && forall i :: 0 <= i < |s| ==> IsNameChar(s[i])
  }

  /** `fullNameSchema`: minimum 2 and maximum 100 UTF-16 units, and only
      name characters. Every check that fails reports its message. */
  function NameIssues(s: string): (issues: seq<string>)
    ensures issues == [] <==> 2 <= |s| <= 100 && NamePattern(s)
    ensures forall m :: m in issues ==> m in [NameTooShort, NameTooLong, NameBadCharacters]
  {
    var n := Utf16Length(s);
    BmpLength(s);
    (if n < 2 then [NameTooShort] else [])
    + (if n > 100 then [NameTooLong] else [])
    + (if NamePattern(s) then [] else [NameBadCharacters])
  }

  /** Name characters are all in the Basic Multilingual Plane, so for a
      string of them the UTF-16 length is the character count. */
  lemma {:induction false} BmpLength(s: string)
    ensures (forall i :: 0 <= i < |s| ==> s[i] as int <= 0xFFFF) ==> Utf16Length(s) == |s|
  {
    if s != [] {
      BmpLength(s[1..]);
      assert forall i :: 1 <= i < |s| ==> s[i] == s[1..][i - 1];
    }
  }

  /** The character class takes any whitespace and the whole Latin-1
      Supplement block, so a name of two spaces, or of the signs × and ÷,
      passes; a name of exactly 100 characters passes too, although the
      message speaks of "less than 100". */
  lemma NameCheckAdmits()
    ensures NameIssues("  ") == []
    ensures NameIssues("×÷") == []
    ensures forall s :: |s| == 100 && NamePattern(s) ==> NameIssues(s) == []
  {
  }

  // ---------------------------------------------------------------------------
  // Lead form
  // ---------------------------------------------------------------------------

  datatype Lead = Lead(fullName: string, whatsapp: string)

  /** A reported problem: the field it concerns and its message. */
  datatype Issue = Issue(path: string, message: string)

  function Tagged(path: string, messages: seq<string>): (r: seq<Issue>)
    ensures |r| == |messages|
    ensures forall i :: 0 <= i < |r| ==> r[i] == Issue(path, messages[i])
  {
    seq(|messages|, i requires 0 <= i < |messages| => Issue(path, messages[i]))
  }

  /** `membershipLeadSchema`: the name's issues, then the number's. */
  function LeadIssues(l: Lead): (issues: seq<Issue>)
    ensures issues == [] <==> (2 <= |l.fullName| <= 100 && NamePattern(l.fullName)) && PhonePattern(l.whatsapp)
    ensures forall i :: 0 <= i < |issues| ==> issues[i].path in ["fullName", "whatsapp"]
  {
    Tagged("fullName", NameIssues(l.fullName)) + Tagged("whatsapp", WhatsappIssues(l.whatsapp))
  }

  // ---------------------------------------------------------------------------
  // Database errors
  // ---------------------------------------------------------------------------

  /** What `getErrorMessage` may be given: a falsy value, or an object whose
      `code` and `message` may be missing (PostgreSQL reports the SQLSTATE
      of Appendix A of its manual as `code`). */
  datatype ErrorValue = Falsy | Thrown(code: Option<string>, message: Option<string>)

  const Unexpected := "An unexpected error occurred"
  const Duplicate := "This record already exists"
  const BadReference := "Invalid reference. Please try again"
  const BadPhone := "Please enter a valid phone number (e.g., +1234567890)"
  const BadName := "Please enter a valid name (2-100 characters)"
  const BadFormat := "Invalid data format. Please check your input"
  const Forbidden := "You don't have permission to perform this action"
  const Expired := "Session expired. Please refresh and try again"
  const Generic := "An error occurred. Please try again"

  function UserMessages(): seq<string>
  {
    [Unexpected, Duplicate, BadReference, BadPhone, BadName, BadFormat, Forbidden, Expired, Generic]
  }

  /** `err.message?.includes(word)`. */
  predicate Mentions(message: Option<string>, word: string)
  {
    message.Some? && Contains(message.value, word)
  }

  function GetErrorMessage(e: ErrorValue): (r: string)
    ensures r in UserMessages()
    ensures e.Falsy? <==> r == Unexpected
    ensures e.Thrown? && e.code == Some("23505") ==> r == Duplicate
    ensures e.Thrown? && e.code == Some("23503") ==> r == BadReference
    ensures e.Thrown? && e.code == Some("23514") && Mentions(e.message, "whatsapp") ==> r == BadPhone
    ensures e.Thrown? && e.code == Some("23514") && !Mentions(e.message, "whatsapp") && Mentions(e.message, "fullname") ==> r == BadName
    ensures e.Thrown? && e.code == Some("23514") && !Mentions(e.message, "whatsapp") && !Mentions(e.message, "fullname") ==> r == BadFormat
    ensures e.Thrown? && e.code == Some("42501") ==> r == Forbidden
    ensures e.Thrown? && e.code == Some("PGRST301") ==> r == Expired
    ensures e.Thrown? && e.code !in {Some("23505"), Some("23503"), Some("23514"), Some("42501"), Some("PGRST301")} ==> r == Generic
  {
    match e
    case Falsy => Unexpected
    case Thrown(code, message) =>
      if code == Some("23505") then Duplicate
      else if code == Some("23503") then BadReference
      else if code == Some("23514") then
        if Mentions(message, "whatsapp") then BadPhone
        else if Mentions(message, "fullname") then BadName
        else BadFormat
      else if code == Some("42501") then Forbidden
      else if code == Some("PGRST301") then Expired
      else Generic
  }

  /** The raw error text never reaches the user: only whether it mentions
      "whatsapp" or "fullname" matters, and only for SQLSTATE 23514. */
  lemma MessageTextIgnored(code: Option<string>, m1: Option<string>, m2: Option<string>)
    requires code == Some("23514") ==>
      (Mentions(m1, "whatsapp") <==> Mentions(m2, "whatsapp")) && (Mentions(m1, "fullname") <==> Mentions(m2, "fullname"))
    ensures GetErrorMessage(Thrown(code, m1)) == GetErrorMessage(Thrown(code, m2))
  {
  }

  /** The messages are pairwise distinct, so the message identifies the case. */
  lemma UserMessagesDistinct()
    ensures forall i, j :: 0 <= i < j < |UserMessages()| ==> UserMessages()[i] != UserMessages()[j]
  {
  }

  // ---------------------------------------------------------------------------
  // Sanitising
  // ---------------------------------------------------------------------------

  /** `[\x00-\x08\x0B\x0C\x0E-\x1F\x7F]`: the C0 controls except tab, line
      feed and carriage return, and DEL. */
  predicate IsStrippedControl(c: char)
  {
    var n := c as int;
    (0 <= n <= 0x08) || n == 0x0B || n == 0x0C || (0x0E <= n <= 0x1F) || n == 0x7F
  }

  predicate IsKept(c: char) { !IsStrippedControl(c) }

  function StripControls(s: string): (r: string)
    ensures |r| <= |s|
    ensures forall i :: 0 <= i < |r| ==> !IsStrippedControl(r[i])
  {
    Filter(s, IsKept)
  }

  /** A character survives stripping exactly when it occurs and is not one of
      the stripped controls: tab, line feed and carriage return are kept. */
  lemma StripMembership(s: string, c: char)
    ensures c in StripControls(s) <==> c in s && !IsStrippedControl(c)
  {
    FilterMembership(s, IsKept, c);
  }

  /** `sanitizeString` as written: trim first, then strip the controls. */
  function SanitizeString(s: string): (r: string)
    ensures |r| <= |s|
    ensures forall i :: 0 <= i < |r| ==> !IsStrippedControl(r[i])
  {
    StripControls(Trim(s))
  }

  /** On input free of stripped controls the result is the trimmed input. */
  lemma SanitizeControlFree(s: string)
    requires forall i :: 0 <= i < |s| ==> !IsStrippedControl(s[i])
    ensures SanitizeString(s) == Trim(s)
  {
    var t := Trim(s);
    var k := LeadingWhitespace(s);
    assert forall i :: 0 <= i < |t| ==> t[i] == s[k + i];
    FilterKeepsAll(t, IsKept);
  }

  /** Trimming before stripping leaves whitespace that a stripped control
      shielded from the trim: "a \U{1}" becomes "a ", and sanitising again
      gives "a". */
  lemma SanitizeKeepsPadding()
    ensures SanitizeString("a \U{1}") == "a "
    ensures SanitizeString(SanitizeString("a \U{1}")) == "a"
  {
    PaddedTrims();
    PaddedStrips();
  }

  lemma PaddedTrims()
    ensures Trim("a \U{1}") == "a \U{1}"
    ensures Trim("a ") == "a"
  {
    assert LeadingWhitespace("a \U{1}") == 0;
    assert TextEnd("a \U{1}", 0, 3) == 3;
    assert LeadingWhitespace("a ") == 0;
    assert TextEnd("a ", 0, 2) == 1;
  }

  lemma PaddedStrips()
    ensures StripControls("a \U{1}") == "a "
    ensures StripControls("a") == "a"
  {
    var s := "a \U{1}";
    assert Filter(s[2..], IsKept) == [];
    assert Filter(s, IsKept) == "a ";
    assert Filter("a", IsKept) == "a";
  }

  /** Stripping first, then trimming: the result has neither stripped
      controls nor surrounding whitespace. */
  function SanitizeTrimmed(s: string): (r: string)
    ensures |r| <= |s|
    ensures forall i :: 0 <= i < |r| ==> !IsStrippedControl(r[i])
    ensures r == [] || (!IsJsWhitespace(r[0]) && !IsJsWhitespace(r[|r| - 1]))
  {
    var t := StripControls(s);
    var r := Trim(t);
    var k := LeadingWhitespace(t);
    assert forall i :: 0 <= i < |r| ==> r[i] == t[k + i];
    r
  }

  /** The corrected sanitiser agrees with the written one on control-free
      input, and sanitising its output again changes nothing. */
  lemma SanitizeTrimmedProperties(s: string)
    ensures (forall i :: 0 <= i < |s| ==> !IsStrippedControl(s[i])) ==> SanitizeTrimmed(s) == SanitizeString(s)
    ensures SanitizeTrimmed(SanitizeTrimmed(s)) == SanitizeTrimmed(s)
  {
    if forall i :: 0 <= i < |s| ==> !IsStrippedControl(s[i]) {
      FilterKeepsAll(s, IsKept);
      SanitizeControlFree(s);
    }
    var r := SanitizeTrimmed(s);
    FilterKeepsAll(r, IsKept);
    TrimUnchanged(r);
  }
}
