/** The chat function: one turn of conversation with the NewMe persona.
    It checks for an Authorization header, identifies the user, renders the
    consented memory into a context, assembles the system prompt, asks the
    language model (or, without an API key, answers with a demo text), and
    stores the user's message and the reply. Storage and the model are
    given as inputs. */
module NewmeChat {
  import opened Text
  import opened Schema

  // ---------------------------------------------------------------------------
  // Inputs and outputs
  // ---------------------------------------------------------------------------

  datatype ChatBody = ChatBody(message: string, intensity: string, sessionId: string, memoryConsent: bool)

  /** The request body, or the text of the error `req.json()` throws. */
  datatype Json = Parsed(body: ChatBody) | Unparsable(reason: string)

  datatype Request = Request(httpMethod: string, authorization: Option<string>, json: Json)

  datatype Profile = Profile(nickname: Option<string>, horoscopeSign: Option<string>)

  /** A message saved earlier, as the memory query selects it. */
  datatype Saved = Saved(role: string, content: string)

  datatype MessageRow = MessageRow(sessionId: string, userId: string, role: string, content: string, savedToMemory: bool)

  datatype ChatMessage = ChatMessage(role: string, content: string)

  /** The model's answer: its HTTP status and either the reply text or the
      text of the error thrown when the reply has no `choices[0].message`. */
  datatype Upstream = Upstream(status: int, reply: Json2)
  datatype Json2 = Reply(content: string) | Unreadable(reason: string)

  datatype Body = NoBody | PlainText(text: string) | Content(content: string) | Failure(error: string)

  datatype Response = Response(status: int, body: Body)

  /** What one request leads to: the response, the messages sent to the
      model (none when it was not called), and the rows inserted. */
  datatype Turn = Turn(response: Response, sent: seq<ChatMessage>, inserted: seq<MessageRow>)

  /** JavaScript's `a || b` for an optional string: a missing or empty
      value falls back. */
  function OrDefault(o: Option<string>, d: string): (r: string)
    ensures r == d || (o.Some? && r == o.value && r != "")
    ensures (o.None? || o.value == "") ==> r == d
  {
    if o.Some? && o.value != "" then o.value else d
  }

  // ---------------------------------------------------------------------------
  // Token
  // ---------------------------------------------------------------------------

  /** `authHeader.replace("Bearer ", "")`: removes the first occurrence of
      the scheme, wherever it is. */
  function BearerToken(h: string): (t: string)
    ensures StartsWith(h, "Bearer ") ==> t == h[7..]
    ensures !Contains(h, "Bearer ") ==> t == h
    ensures Contains(h, "Bearer ") ==> |t| == |h| - 7
  {
    RemoveFirst(h, "Bearer ")
  }

  // ---------------------------------------------------------------------------
  // Memory context
  // ---------------------------------------------------------------------------

  const MemoryLimit := 10

  function Line(m: Saved): string
  {
    m.role + ": " + m.content
  }

  function Lines(ms: seq<Saved>): (r: seq<string>)
    ensures |r| == |ms|
    ensures forall i :: 0 <= i < |ms| ==> r[i] == Line(ms[i])
  {
    seq(|ms|, i requires 0 <= i < |ms| => Line(ms[i]))
  }

  /** The context from the saved messages, newest first as the query orders
      them (`None` when the query returned no data): the ten newest, turned
      oldest first, one "role: content" line each, joined by newlines.
      Without consent the context is empty. */
  function Context(consent: bool, newestFirst: Option<seq<Saved>>): (c: string)
    ensures !consent || newestFirst.None? ==> c == ""
  {
    if consent && newestFirst.Some? then
      var recent := newestFirst.value[..Min(MemoryLimit, |newestFirst.value|)];
      Join(Lines(Reverse(recent)), "\n")
    else ""
  }

  function Min(a: int, b: int): int { if a <= b then a else b }

  /** When no saved text contains a line break, the context splits back into
      one line per message: the at most ten newest, oldest first. */
  lemma ContextLines(newestFirst: seq<Saved>)
    requires newestFirst != []
    requires forall i :: 0 <= i < |newestFirst| ==> '\n' !in Line(newestFirst[i])
    ensures var lines := Split(Context(true, Some(newestFirst)), '\n');
      && |lines| == Min(MemoryLimit, |newestFirst|)
      && forall i :: 0 <= i < |lines| ==> lines[i] == Line(newestFirst[|lines| - 1 - i])
  {
    var n := Min(MemoryLimit, |newestFirst|);
    var ls := Lines(Reverse(newestFirst[..n]));
    SplitJoin(ls, '\n');
  }

  // ---------------------------------------------------------------------------
  // Persona and prompt
  // ---------------------------------------------------------------------------

  const SoftPersona := "You are NewMe, a warm, nurturing astrological psychologist. Use zodiac archetypes gently to validate the user. Be supportive."
  const DirectPersona := "You are NewMe, a precise and declarative astrological psychologist. Use zodiac archetypes to track patterns and confront inconsistencies directly."
  const NoMercyPersona := "You are NewMe, a brutally honest astrological psychologist. Use zodiac archetypes to strip away comfortable lies. Be provocative and direct."

  function PersonaFor(i: Intensity): string
  {
    match i
    case Soft => SoftPersona
    case Direct => DirectPersona
    case NoMercy => NoMercyPersona
  }

  /** The persona for the requested intensity; any other value gets the
      direct persona. */
  function Persona(intensity: string): (p: string)
    ensures ParseIntensity(intensity).Some? ==> p == PersonaFor(ParseIntensity(intensity).value)
    ensures ParseIntensity(intensity).None? ==> p == DirectPersona
  {
    match ParseIntensity(intensity)
    case Some(i) => PersonaFor(i)
    case None => DirectPersona
  }

  /** Each intensity has its own persona. */
  lemma PersonasDistinct(a: Intensity, b: Intensity)
    requires PersonaFor(a) == PersonaFor(b)
    ensures a == b
  {
    assert PersonaFor(a)[13] == PersonaFor(b)[13];
  }

  /** The system prompt: the persona, the nickname (default "there"), the
      horoscope (default "unknown") and the context, in that order. */
  function SystemPrompt(persona: string, p: Option<Profile>, context: string): (r: string)
    ensures StartsWith(r, persona)
    ensures |context| <= |r| && r[|r| - |context|..] == context
    ensures Contains(r, "User nickname: " + OrDefault(if p.Some? then p.value.nickname else None, "there") + ".")
    ensures Contains(r, "User horoscope: " + OrDefault(if p.Some? then p.value.horoscopeSign else None, "unknown") + ".")
  {
    var nickname := OrDefault(if p.Some? then p.value.nickname else None, "there");
    var sign := OrDefault(if p.Some? then p.value.horoscopeSign else None, "unknown");
    var r := persona + " \n    " + ("User nickname: " + nickname + ".") + " \n    "
             + ("User horoscope: " + sign + ".") + "\n    Past context:\n    " + context;
    ContainsPieces(persona, " \n    ", "User nickname: " + nickname + ".", " \n    ",
                   "User horoscope: " + sign + ".", "\n    Past context:\n    ", context);
    r
  }

  /** The reply without an API key: it names the intensity, quotes the
      user's message and names the profile's sign ("inner" without one). */
  function DemoReply(intensity: string, message: string, p: Option<Profile>): (r: string)
    ensures StartsWith(r, "[Demo Mode] ")
    ensures Contains(r, "\"" + message + "\"")
    ensures Contains(r, "As a " + intensity + " guide")
    ensures Contains(r, " " + OrDefault(if p.Some? then p.value.horoscopeSign else None, "inner") + " archetypes.")
  {
    var sign := OrDefault(if p.Some? then p.value.horoscopeSign else None, "inner");
    var r := "[Demo Mode] " + ("As a " + intensity + " guide") + ", I hear you. You mentioned "
             + ("\"" + message + "\"") + ". Let's explore your" + (" " + sign + " archetypes.");
    ContainsPieces("[Demo Mode] ", "As a " + intensity + " guide", ", I hear you. You mentioned ",
                   "\"" + message + "\"", ". Let's explore your", " " + sign + " archetypes.", "");
    assert r + "" == r;
    r
  }

  /** The rows one answered turn stores: the user's message, then the reply. */
  function TurnRows(b: ChatBody, userId: string, reply: string): (rows: seq<MessageRow>)
    ensures |rows| == 2
    ensures rows[0].role == "user" && rows[0].content == b.message
    ensures rows[1].role == "assistant" && rows[1].content == reply
    ensures forall i :: 0 <= i < 2 ==>
      rows[i].sessionId == b.sessionId && rows[i].userId == userId && rows[i].savedToMemory == b.memoryConsent
  {
    [MessageRow(b.sessionId, userId, "user", b.message, b.memoryConsent),
     MessageRow(b.sessionId, userId, "assistant", reply, b.memoryConsent)]
  }

  // ---------------------------------------------------------------------------
  // The handler
  // ---------------------------------------------------------------------------

  /** The turn a request leads to. `users` maps access tokens to user ids,
      `profile` and `memory` are what the two queries return, and `upstream`
      is what the model answers. */
  function ChatTurn(req: Request, users: map<string, string>, profile: Option<Profile>,
                    memory: Option<seq<Saved>>, apiKey: Option<string>, upstream: Upstream): Turn
  {
    if req.httpMethod == "OPTIONS" then Turn(Response(200, NoBody), [], [])
    else if req.authorization.None? || req.authorization.value == "" then
      Turn(Response(401, PlainText("Unauthorized")), [], [])
    else if req.json.Unparsable? then Turn(Response(500, Failure(req.json.reason)), [], [])
    else if BearerToken(req.authorization.value) !in users then
      Turn(Response(500, Failure("User not found")), [], [])
    else
      var b := req.json.body;
      var userId := users[BearerToken(req.authorization.value)];
      var prompt := SystemPrompt(Persona(b.intensity), profile, Context(b.memoryConsent, memory));
      if apiKey.None? || apiKey.value == "" then
        var reply := DemoReply(b.intensity, b.message, profile);
        Turn(Response(200, Content(reply)), [], TurnRows(b, userId, reply))
      else
        var sent := [ChatMessage("system", prompt), ChatMessage("user", b.message)];
        match upstream.reply
        case Unreadable(reason) => Turn(Response(500, Failure(reason)), sent, [])
        case Reply(content) => Turn(Response(200, Content(content)), sent, TurnRows(b, userId, content))
  }

  /** The request handler, step by step with early returns. */
  method Handle(req: Request, users: map<string, string>, profile: Option<Profile>,
                memory: Option<seq<Saved>>, apiKey: Option<string>, upstream: Upstream)
    returns (response: Response, sent: seq<ChatMessage>, inserted: seq<MessageRow>)
    ensures Turn(response, sent, inserted) == ChatTurn(req, users, profile, memory, apiKey, upstream)
  {
    sent, inserted := [], [];
    if req.httpMethod == "OPTIONS" {
      return Response(200, NoBody), sent, inserted;
    }
    if req.authorization.None? || req.authorization.value == "" {
      return Response(401, PlainText("Unauthorized")), sent, inserted;
    }
    if req.json.Unparsable? {
      return Response(500, Failure(req.json.reason)), sent, inserted;
    }
    var b := req.json.body;
    var token := BearerToken(req.authorization.value);
    if token !in users {
      return Response(500, Failure("User not found")), sent, inserted;
    }
    var userId := users[token];
    var context := "";
    if b.memoryConsent && memory.Some? {
      context := Context(true, memory);
    }
    assert context == Context(b.memoryConsent, memory);
    var prompt := SystemPrompt(Persona(b.intensity), profile, context);
    if apiKey.None? || apiKey.value == "" {
      var reply := DemoReply(b.intensity, b.message, profile);
      inserted := TurnRows(b, userId, reply);
      return Response(200, Content(reply)), sent, inserted;
    }
    sent := [ChatMessage("system", prompt), ChatMessage("user", b.message)];
    match upstream.reply {
      case Unreadable(reason) =>
        response := Response(500, Failure(reason));
      case Reply(content) =>
        inserted := TurnRows(b, userId, content);
        response := Response(200, Content(content));
    }
  }

  // ---------------------------------------------------------------------------
  // Properties of a turn
  // ---------------------------------------------------------------------------

  /** OPTIONS gets an empty reply and a request without an Authorization
      header gets 401; neither reaches the model or storage. */
  lemma AuthGate(req: Request, users: map<string, string>, profile: Option<Profile>,
                 memory: Option<seq<Saved>>, apiKey: Option<string>, upstream: Upstream)
    requires req.httpMethod == "OPTIONS" || req.authorization.None?
    ensures var t := ChatTurn(req, users, profile, memory, apiKey, upstream);
      && t.sent == [] && t.inserted == []
      && t.response == if req.httpMethod == "OPTIONS" then Response(200, NoBody)
                       else Response(401, PlainText("Unauthorized"))
  {
  }

  /** Rows are stored exactly when the turn is answered with 200 and a
      content, and then they are the user's message and that content. Every
      other outcome after the gate is a 500 with an error text. */
  lemma AnsweredTurnsStoreTwoRows(req: Request, users: map<string, string>, profile: Option<Profile>,
                                  memory: Option<seq<Saved>>, apiKey: Option<string>, upstream: Upstream)
    requires req.httpMethod != "OPTIONS" && req.authorization.Some? && req.authorization.value != ""
    ensures var t := ChatTurn(req, users, profile, memory, apiKey, upstream);
      && (t.response.status == 200 || (t.response.status == 500 && t.response.body.Failure?))
      && (t.inserted != [] <==> t.response.status == 200)
      && (t.response.status == 200 ==>
            t.response.body.Content? && req.json.Parsed?
            && t.inserted == TurnRows(req.json.body, users[BearerToken(req.authorization.value)], t.response.body.content))
  {
    var t := ChatTurn(req, users, profile, memory, apiKey, upstream);
    if req.json.Parsed? && BearerToken(req.authorization.value) in users {
      var b := req.json.body;
      var userId := users[BearerToken(req.authorization.value)];
      if apiKey.None? || apiKey.value == "" {
        var reply := DemoReply(b.intensity, b.message, profile);
        assert t == Turn(Response(200, Content(reply)), [], TurnRows(b, userId, reply));
      } else {
        match upstream.reply {
          case Unreadable(reason) =>
            assert t.response == Response(500, Failure(reason)) && t.inserted == [];
          case Reply(content) =>
            assert t.response == Response(200, Content(content));
            assert t.inserted == TurnRows(b, userId, content);
        }
      }
    }
  }

  /** The model's HTTP status is never looked at: two answers that differ
      only in status lead to the same turn. */
  lemma UpstreamStatusIgnored(req: Request, users: map<string, string>, profile: Option<Profile>,
                              memory: Option<seq<Saved>>, apiKey: Option<string>, u1: Upstream, u2: Upstream)
    requires u1.reply == u2.reply
    ensures ChatTurn(req, users, profile, memory, apiKey, u1) == ChatTurn(req, users, profile, memory, apiKey, u2)
  {
  }

  /** Without an API key the model is not called and the reply is the demo
      text, which quotes the user's message. */
  lemma DemoModeWithoutKey(req: Request, users: map<string, string>, profile: Option<Profile>,
                           memory: Option<seq<Saved>>, upstream: Upstream)
    requires req.httpMethod != "OPTIONS" && req.authorization.Some? && req.authorization.value != ""
    requires req.json.Parsed? && BearerToken(req.authorization.value) in users
    ensures var t := ChatTurn(req, users, profile, memory, None, upstream);
      && t.sent == []
      && t.response == Response(200, Content(DemoReply(req.json.body.intensity, req.json.body.message, profile)))
      && Contains(t.response.body.content, "\"" + req.json.body.message + "\"")
  {
    var b := req.json.body;
    var reply := DemoReply(b.intensity, b.message, profile);
    assert ChatTurn(req, users, profile, memory, None, upstream).response == Response(200, Content(reply));
  }

  /** With a key, the model receives the system prompt and then the user's
      message; the prompt carries the persona and, when consent was given,
      the memory context. */
  lemma ModelRequest(req: Request, users: map<string, string>, profile: Option<Profile>,
                     memory: Option<seq<Saved>>, key: string, upstream: Upstream)
    requires req.httpMethod != "OPTIONS" && req.authorization.Some? && req.authorization.value != ""
    requires req.json.Parsed? && BearerToken(req.authorization.value) in users && key != ""
    ensures var t := ChatTurn(req, users, profile, memory, Some(key), upstream);
      var b := req.json.body;
      && |t.sent| == 2
      && t.sent[0].role == "system" && StartsWith(t.sent[0].content, Persona(b.intensity))
      && t.sent[1] == ChatMessage("user", b.message)
      && (!b.memoryConsent ==> t.sent[0].content == SystemPrompt(Persona(b.intensity), profile, ""))
  {
    var b := req.json.body;
    var prompt := SystemPrompt(Persona(b.intensity), profile, Context(b.memoryConsent, memory));
    assert ChatTurn(req, users, profile, memory, Some(key), upstream).sent
      == [ChatMessage("system", prompt), ChatMessage("user", b.message)];
  }
}
