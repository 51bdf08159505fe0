/** The chat page: the transcript, the intensity (tone) of the guide, the
    session, stop words typed or spoken instead of a message, and the
    voice-minute quota. The chat function's reply and the session insert
    are given as inputs. */
module VoiceChat {
  import opened Text
  import opened Schema

  // ---------------------------------------------------------------------------
  // Stop words
  // ---------------------------------------------------------------------------

  datatype StopWord = Pause | Ground | SwitchTone | StopMemory

  function Word(w: StopWord): string
  {
    match w
    case Pause => "pause"
    case Ground => "ground"
    case SwitchTone => "switch tone"
    case StopMemory => "stop memory"
  }

  /** The stop words in the order they are tried. */
  const StopWords: seq<StopWord> := [Pause, Ground, SwitchTone, StopMemory]

  /** The first of `words`, in list order, that occurs in `lower`. */
  function FirstStopWord(lower: string, words: seq<StopWord>): (r: Option<StopWord>)
    ensures r.Some? ==> r.value in words
  {
    if words == [] then None
    else if Contains(lower, Word(words[0])) then Some(words[0])
    else FirstStopWord(lower, words[1..])
  }

  /** The word found is contained in the input, every word listed before it
      is not, and none is found exactly when no word is contained. */
  lemma {:induction false} FirstStopWordSpec(lower: string, words: seq<StopWord>)
    ensures var r := FirstStopWord(lower, words);
      && (r.None? <==> forall j :: 0 <= j < |words| ==> !Contains(lower, Word(words[j])))
      && (r.Some? ==> Contains(lower, Word(r.value)))
      && (r.Some? ==> exists k :: 0 <= k < |words| && words[k] == r.value && (forall j :: 0 <= j < k ==> !Contains(lower, Word(words[j]))))
  {
    if words == [] {
    } else if Contains(lower, Word(words[0])) {
      assert words[0] == FirstStopWord(lower, words).value;
    } else {
      FirstStopWordSpec(lower, words[1..]);
      var r := FirstStopWord(lower, words);
      assert r == FirstStopWord(lower, words[1..]);
      if r.Some? {
        var k :| 0 <= k < |words[1..]| && words[1..][k] == r.value &&
          forall j :: 0 <= j < k ==> !Contains(lower, Word(words[1..][j]));
        assert words[k + 1] == r.value;
        forall j | 0 <= j < k + 1
          ensures !Contains(lower, Word(words[j]))
        {
          if j > 0 {
            assert words[j] == words[1..][j - 1];
          }
        }
      } else {
        forall j | 0 <= j < |words|
          ensures !Contains(lower, Word(words[j]))
        {
          if j > 0 {
            assert words[j] == words[1..][j - 1];
          }
        }
      }
    }
  }

  /** `for (const word of stopWords) if (lowerInput.includes(word)) ...`:
      the loop finds the first listed stop word the input contains. */
  method FindStopWord(lower: string) returns (found: Option<StopWord>)
    ensures found == FirstStopWord(lower, StopWords)
  {
    var i := 0;
    while i < |StopWords|
      invariant 0 <= i <= |StopWords|
      invariant FirstStopWord(lower, StopWords) == FirstStopWord(lower, StopWords[i..])
    {
      assert StopWords[i..][0] == StopWords[i] && StopWords[i..][1..] == StopWords[i + 1..];
      if IndexOf(lower, Word(StopWords[i])).Some? {
        return Some(StopWords[i]);
      }
      i := i + 1;
    }
    return None;
  }

  /** "pause" is tried first, so input that holds it pauses whatever else it
      holds; a word that merely contains a stop word ("background") is taken
      for that stop word. */
  lemma StopWordOrder(lower: string)
    ensures Contains(lower, "pause") ==> FirstStopWord(lower, StopWords) == Some(Pause)
    ensures Contains("background", "ground")
  {
    assert StartsWith("background"[4..], "ground");
  }

  // ---------------------------------------------------------------------------
  // Intensity
  // ---------------------------------------------------------------------------

  const Modes: seq<Intensity> := [Soft, Direct, NoMercy]

  function ModeIndex(i: Intensity): (k: nat)
    ensures k < |Modes| && Modes[k] == i
  {
    match i
    case Soft => 0
    case Direct => 1
    case NoMercy => 2
  }

  /** `modes[(modes.indexOf(intensity) + 1) % modes.length]`. */
  function NextIntensity(i: Intensity): (n: Intensity)
    ensures n != i
  {
    Modes[(ModeIndex(i) + 1) % |Modes|]
  }

  /** Soft, direct and no mercy follow each other, and three switches come
      back to the start. */
  lemma IntensityCycle(i: Intensity)
    ensures NextIntensity(Soft) == Direct && NextIntensity(Direct) == NoMercy && NextIntensity(NoMercy) == Soft
    ensures NextIntensity(NextIntensity(NextIntensity(i))) == i
  {
  }

  // ---------------------------------------------------------------------------
  // Voice minutes
  // ---------------------------------------------------------------------------

  /** The subscription's counters; a missing counter is `None`. */
  datatype Subscription = Subscription(minutesUsed: Option<int>, minutesLimit: Option<int>)

  /** JavaScript's `n || d` for an optional number: missing or zero falls
      back. */
  function NumberOr(o: Option<int>, d: int): (r: int)
    ensures (o.None? || o.value == 0) ==> r == d
    ensures o.Some? && o.value != 0 ==> r == o.value
  {
    if o.Some? && o.value != 0 then o.value else d
  }

  /** Minutes left: the limit (a missing or zero limit counts as 5) less the
      minutes used (missing counts as 0), never below 0. */
  function RemainingMinutes(s: Option<Subscription>): (r: int)
    ensures r >= 0
    ensures var used := if s.Some? then NumberOr(s.value.minutesUsed, 0) else 0;
      var limit := if s.Some? then NumberOr(s.value.minutesLimit, 5) else 5;
      && (r == 0 <==> used >= limit)
      && (r > 0 ==> r + used == limit)
  {
    var used := if s.Some? then NumberOr(s.value.minutesUsed, 0) else 0;
    var limit := if s.Some? then NumberOr(s.value.minutesLimit, 5) else 5;
    if limit - used > 0 then limit - used else 0
  }

  /** A new account, or one whose limit is recorded as 0, has 5 minutes. */
  lemma StarterMinutes()
    ensures RemainingMinutes(None) == 5
    ensures RemainingMinutes(Some(Subscription(Some(0), Some(0)))) == 5
    ensures RemainingMinutes(Some(Subscription(Some(5), Some(5)))) == 0
  {
  }

  // ---------------------------------------------------------------------------
  // The page
  // ---------------------------------------------------------------------------

  datatype Message = Message(role: string, content: string)

  /** What the page sends to the chat function. */
  datatype ChatRequest = ChatRequest(message: string, intensity: Intensity, sessionId: string, memoryConsent: bool)

  /** The chat function's reply: a content, or an error (the reply's
      `error` field or a failed request). */
  datatype ChatReply = Answered(content: string) | Errored(message: string)

  /** What one input does: nothing (blank, or no signed-in user with an
      auth session), nothing for want of a chat session, a stop word, or a
      message sent in the given session. */
  datatype Route = Ignored | NoSession | Intercepted(word: StopWord) | Sent(sessionId: string)

  /** The decisions of `processUserInput`, in its order: blank input (see
      `TrimEmptyIff`) and a missing user come first, then the session (the
      current one, else the one just created), then the stop words on the
      lower-cased input. */
  function RouteOf(input: string, signedIn: bool, current: Option<string>, created: Option<string>): (r: Route)
    ensures r == Ignored <==> Blank(input) || !signedIn
    ensures r == NoSession ==> current == None && created == None
  {
    if Blank(input) || !signedIn then Ignored
    else
      var session := if current.Some? then current else created;
      if session.None? then NoSession
      else match FirstStopWord(ToLower(input), StopWords)
        case Some(w) => Intercepted(w)
        case None => Sent(session.value)
  }

  /** Only non-blank input free of every stop word reaches the chat
      function, in the current session if there is one. */
  lemma SentInputs(input: string, signedIn: bool, current: Option<string>, created: Option<string>)
    ensures RouteOf(input, signedIn, current, created).Sent? <==>
      && !Blank(input) && signedIn && (current.Some? || created.Some?)
      && forall j :: 0 <= j < |StopWords| ==> !Contains(ToLower(input), Word(StopWords[j]))
    ensures RouteOf(input, signedIn, current, created).Sent? && current.Some? ==>
      RouteOf(input, signedIn, current, created).sessionId == current.value
  {
    FirstStopWordSpec(ToLower(input), StopWords);
  }

  /** Any input that says "pause", in any letter case, pauses. */
  lemma PauseAlwaysPauses(input: string, current: string)
    requires !Blank(input)
    requires Contains(ToLower(input), "pause")
    ensures RouteOf(input, true, Some(current), None) == Intercepted(Pause)
  {
    StopWordOrder(ToLower(input));
  }

  class ChatPage {
    var messages: seq<Message>
    var intensity: Intensity
    var isSessionActive: bool
    var currentSessionId: Option<string>
    var isProcessing: bool
    var isRecording: bool
    var textInput: string

    constructor ()
      ensures messages == [] && intensity == Direct && !isSessionActive && currentSessionId == None
      ensures !isProcessing && !isRecording && textInput == ""
    {
      messages, intensity, isSessionActive, currentSessionId := [], Direct, false, None;
      isProcessing, isRecording, textInput := false, false, "";
    }

    /** `handleStopWord`: "pause" ends the active session, "switch tone"
        moves to the next intensity; the other stop words do nothing. */
    method HandleStopWord(word: StopWord)
      modifies this`isSessionActive, this`intensity
      ensures isSessionActive == (if word == Pause then false else old(isSessionActive))
      ensures intensity == (if word == SwitchTone then NextIntensity(old(intensity)) else old(intensity))
    {
      if word == Pause {
        isSessionActive := false;
      } else if word == SwitchTone {
        intensity := NextIntensity(intensity);
      }
    }

    /** The profile's saved intensity, when it has one, replaces the
        current one. */
    method LoadPreference(preference: Option<Intensity>)
      modifies this`intensity
      ensures intensity == (if preference.Some? then preference.value else old(intensity))
    {
      if preference.Some? {
        intensity := preference.value;
      }
    }

    /** The tone button in the header. */
    method CycleIntensity()
      modifies this`intensity
      ensures intensity == NextIntensity(old(intensity))
    {
      intensity := NextIntensity(intensity);
    }

    /** The End button. */
    method EndSession()
      modifies this`isSessionActive
      ensures !isSessionActive
    {
      isSessionActive := false;
    }

    /** The part of `processUserInput` after the checks: show the user's
        message, mark the session active, send the request and show the
        reply, if there is one. */
    method Exchange(input: string, sessionId: string, memoryConsent: bool, reply: ChatReply)
      returns (sent: ChatRequest)
      modifies this`messages, this`isSessionActive, this`isProcessing
      ensures sent == ChatRequest(input, intensity, sessionId, memoryConsent)
      ensures messages == old(messages) + [Message("user", input)]
        + (if reply.Answered? then [Message("assistant", reply.content)] else [])
      ensures isSessionActive && !isProcessing
    {
      messages := messages + [Message("user", input)];
      isSessionActive := true;
      isProcessing := true;
      sent := ChatRequest(input, intensity, sessionId, memoryConsent);
      if reply.Answered? {
        messages := messages + [Message("assistant", reply.content)];
      }
      isProcessing := false;
    }

    /** `processUserInput`, against `RouteOf`: the session created when
        there was none becomes the current one; a stop word is handled and
        nothing is shown or sent; a message that goes through is shown, sent
        with the profile's memory consent (missing counts as consent) and
        the intensity in force, and followed by the reply if there is one. */
    method ProcessUserInput(input: string, signedIn: bool, created: Option<string>,
                            memoryConsent: Option<bool>, reply: ChatReply)
      returns (sent: Option<ChatRequest>)
      modifies this`messages, this`isSessionActive, this`currentSessionId, this`isProcessing, this`intensity
      ensures var route := RouteOf(input, signedIn, old(currentSessionId), created);
        && currentSessionId == (if route == Ignored || old(currentSessionId).Some? then old(currentSessionId) else created)
        && sent == (if route.Sent? then Some(ChatRequest(input, old(intensity), route.sessionId,
                                                         if memoryConsent.Some? then memoryConsent.value else true))
                    else None)
        && messages == (if route.Sent? then old(messages) + [Message("user", input)]
                          + (if reply.Answered? then [Message("assistant", reply.content)] else [])
                        else old(messages))
        && isSessionActive == (if route.Sent? then true else if route == Intercepted(Pause) then false else old(isSessionActive))
        && intensity == (if route == Intercepted(SwitchTone) then NextIntensity(old(intensity)) else old(intensity))
        && isProcessing == (if route.Sent? then false else old(isProcessing))
    {
      sent := None;
      if Blank(input) || !signedIn {
        return;
      }
      var sessionId := currentSessionId;
      if sessionId.None? {
        sessionId := created;
        if created.Some? {
          currentSessionId := created;
        }
      }
      if sessionId.None? {
        return;
      }
      var stop := FindStopWord(ToLower(input));
      if stop.Some? {
        HandleStopWord(stop.value);
        return;
      }
      var consent := if memoryConsent.Some? then memoryConsent.value else true;
      var request := Exchange(input, sessionId.value, consent, reply);
      sent := Some(request);
    }

    /** `handleTextSubmit`: sends the typed text unless it is blank, then
        clears the input box. */
    method SubmitText(signedIn: bool, created: Option<string>, memoryConsent: Option<bool>, reply: ChatReply)
      returns (sent: Option<ChatRequest>)
      modifies this`messages, this`isSessionActive, this`currentSessionId, this`isProcessing, this`intensity, this`textInput
      ensures Blank(old(textInput)) ==> sent == None && textInput == old(textInput) && messages == old(messages)
      ensures !Blank(old(textInput)) ==> textInput == ""
      ensures var route := RouteOf(old(textInput), signedIn, old(currentSessionId), created);
        && currentSessionId == (if route == Ignored || old(currentSessionId).Some? then old(currentSessionId) else created)
        && sent == (if route.Sent? then Some(ChatRequest(old(textInput), old(intensity), route.sessionId,
                                                         if memoryConsent.Some? then memoryConsent.value else true))
                    else None)
        && messages == (if route.Sent? then old(messages) + [Message("user", old(textInput))]
                          + (if reply.Answered? then [Message("assistant", reply.content)] else [])
                        else old(messages))
        && isSessionActive == (if route.Sent? then true else if route == Intercepted(Pause) then false else old(isSessionActive))
        && intensity == (if route == Intercepted(SwitchTone) then NextIntensity(old(intensity)) else old(intensity))
        && isProcessing == (if route.Sent? then false else old(isProcessing))
    {
      sent := None;
      if Blank(textInput) {
        return;
      }
      sent := ProcessUserInput(textInput, signedIn, created, memoryConsent, reply);
      textInput := "";
    }

    /** `startRecording`: refused when no minutes remain. */
    method StartRecording(s: Option<Subscription>) returns (refused: bool)
      modifies this`isRecording
      ensures refused <==> RemainingMinutes(s) <= 0
      ensures isRecording == (if refused then old(isRecording) else true)
    {
      if RemainingMinutes(s) <= 0 {
        return true;
      }
      isRecording := true;
      return false;
    }

    method StopRecording()
      modifies this`isRecording
      ensures !isRecording
    {
      isRecording := false;
    }
  }
}
