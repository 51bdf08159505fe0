/** The image function: builds the image-model request for a "generate" or
    an "edit" action, maps the gateway's failures to responses, and
    extracts the generated image. The gateway is given as an input. */
module ImageGateway {
  import opened Text

  // ---------------------------------------------------------------------------
  // Inputs and outputs
  // ---------------------------------------------------------------------------

  /** The request body fields; a missing field is `None`. */
  datatype ImageBody = ImageBody(action: Option<string>, prompt: Option<string>, imageUrl: Option<string>)

  datatype Json = Parsed(body: ImageBody) | Unparsable(reason: string)

  datatype Request = Request(httpMethod: string, json: Json)

  /** Message content: a plain text, or parts (a text, then an image). */
  datatype Part = TextPart(text: string) | ImageUrlPart(url: string)
  datatype Content = PlainContent(text: string) | Parts(parts: seq<Part>)
  datatype Message = Message(role: string, content: Content)

  /** The gateway's answer: its status and, when its body is JSON, the first
      image URL and the text of the first choice, if present. */
  datatype Reply = Reply(imageUrl: Option<string>, text: Option<string>) | Unreadable(reason: string)
  datatype Gateway = Gateway(status: nat, reply: Reply)

  datatype Body = NoBody | Image(imageUrl: string, message: string) | Failure(error: string)
  datatype Response = Response(status: nat, body: Body)

  /** What a request leads to: the response and the messages sent to the
      gateway (none when it was not called). */
  datatype Outcome = Outcome(response: Response, sent: Option<seq<Message>>)

  const GenerateDefault := "A beautiful abstract cosmic scene with purple and pink gradients, mystical and ethereal"
  const EditDefault := "Enhance this image with mystical, ethereal lighting"
  const KeyMissing := "LOVABLE_API_KEY is not configured"
  const InvalidAction := "Invalid action or missing parameters"
  const RateLimited := "Rate limit exceeded. Please try again in a moment."
  const CreditsExhausted := "AI credits exhausted. Please add credits to continue."
  const NoImage := "No image was generated"
  const ImageDone := "Image generated successfully"

  /** JavaScript's `a || b` for an optional string. */
  function OrDefault(o: Option<string>, d: string): (r: string)
    ensures (o.None? || o.value == "") ==> r == d
    ensures o.Some? && o.value != "" ==> r == o.value
  {
    if o.Some? && o.value != "" then o.value else d
  }

  predicate Truthy(o: Option<string>) { o.Some? && o.value != "" }

  // ---------------------------------------------------------------------------
  // Request building
  // ---------------------------------------------------------------------------

  /** The messages for an action: "generate" sends the prompt (or its
      default) as text; "edit" with an image URL sends a text part (the
      prompt or the edit default) followed by the image. Anything else has
      no messages. */
  function BuildMessages(b: ImageBody): (r: Option<seq<Message>>)
    ensures r.Some? <==> b.action == Some("generate") || (b.action == Some("edit") && Truthy(b.imageUrl))
    ensures r.Some? ==> |r.value| == 1 && r.value[0].role == "user"
    ensures b.action == Some("generate") ==>
      r == Some([Message("user", PlainContent(OrDefault(b.prompt, GenerateDefault)))])
    ensures b.action == Some("edit") && Truthy(b.imageUrl) ==>
      r == Some([Message("user", Parts([TextPart(OrDefault(b.prompt, EditDefault)), ImageUrlPart(b.imageUrl.value)]))])
  {
    if b.action == Some("generate") then
      Some([Message("user", PlainContent(OrDefault(b.prompt, GenerateDefault)))])
    else if b.action == Some("edit") && Truthy(b.imageUrl) then
      Some([Message("user", Parts([TextPart(OrDefault(b.prompt, EditDefault)), ImageUrlPart(b.imageUrl.value)]))])
    else None
  }

  /** An edit request carries exactly the URL it was given. */
  lemma EditCarriesImage(b: ImageBody)
    requires BuildMessages(b).Some? && b.action == Some("edit")
    ensures var c := BuildMessages(b).value[0].content;
      c.Parts? && |c.parts| == 2 && c.parts[0].TextPart? && c.parts[1] == ImageUrlPart(b.imageUrl.value)
  {
  }

  // ---------------------------------------------------------------------------
  // Gateway failures
  // ---------------------------------------------------------------------------

  predicate Ok(status: nat) { 200 <= status <= 299 }

  /** The response for a failed gateway call: 429 and 402 are passed on with
      their own messages; any other status becomes a 500 naming it. */
  function FailureFor(status: nat): (r: Response)
    requires !Ok(status)
    ensures status == 429 ==> r == Response(429, Failure(RateLimited))
    ensures status == 402 ==> r == Response(402, Failure(CreditsExhausted))
    ensures status != 429 && status != 402 ==> r.status == 500
    ensures r.body.Failure?
  {
    if status == 429 then Response(429, Failure(RateLimited))
    else if status == 402 then Response(402, Failure(CreditsExhausted))
    else Response(500, Failure("AI gateway error: " + NatToString(status)))
  }

  /** The 500 message names the status, and the status can be read back
      from it. */
  lemma FailureNamesStatus(status: nat)
    requires !Ok(status) && status != 429 && status != 402
    ensures var e := FailureFor(status).body.error;
      && |e| > |"AI gateway error: "|
      && e[..|"AI gateway error: "|] == "AI gateway error: "
      && DecimalValue(e[|"AI gateway error: "|..]) == status
  {
    var e := FailureFor(status).body.error;
    assert e[|"AI gateway error: "|..] == NatToString(status);
    NatToStringRoundTrip(status);
  }

  // ---------------------------------------------------------------------------
  // The handler
  // ---------------------------------------------------------------------------

  function ImageOutcome(req: Request, apiKey: Option<string>, gateway: Gateway): Outcome
  {
    if req.httpMethod == "OPTIONS" then Outcome(Response(200, NoBody), None)
    else if req.json.Unparsable? then Outcome(Response(500, Failure(req.json.reason)), None)
    else if !Truthy(apiKey) then Outcome(Response(500, Failure(KeyMissing)), None)
    else if BuildMessages(req.json.body).None? then Outcome(Response(500, Failure(InvalidAction)), None)
    else
      var sent := BuildMessages(req.json.body);
      if !Ok(gateway.status) then Outcome(FailureFor(gateway.status), sent)
      else match gateway.reply
        case Unreadable(reason) => Outcome(Response(500, Failure(reason)), sent)
        case Reply(url, text) =>
          if !Truthy(url) then Outcome(Response(500, Failure(NoImage)), sent)
          else Outcome(Response(200, Image(url.value, OrDefault(text, ImageDone))), sent)
  }

  /** The request handler, with `messages` assigned along the action chain
      and early returns for the gateway's failures. */
  method Handle(req: Request, apiKey: Option<string>, gateway: Gateway)
    returns (response: Response, sent: Option<seq<Message>>)
    ensures Outcome(response, sent) == ImageOutcome(req, apiKey, gateway)
  {
    sent := None;
    if req.httpMethod == "OPTIONS" {
      return Response(200, NoBody), sent;
    }
    if req.json.Unparsable? {
      return Response(500, Failure(req.json.reason)), sent;
    }
    var b := req.json.body;
    if !Truthy(apiKey) {
      return Response(500, Failure(KeyMissing)), sent;
    }
    var messages: seq<Message> := [];
    if b.action == Some("generate") {
      messages := [Message("user", PlainContent(OrDefault(b.prompt, GenerateDefault)))];
    } else if b.action == Some("edit") && Truthy(b.imageUrl) {
      messages := [Message("user", Parts([TextPart(OrDefault(b.prompt, EditDefault)), ImageUrlPart(b.imageUrl.value)]))];
    } else {
      return Response(500, Failure(InvalidAction)), sent;
    }
    sent := Some(messages);
    if !Ok(gateway.status) {
      if gateway.status == 429 {
        return Response(429, Failure(RateLimited)), sent;
      }
      if gateway.status == 402 {
        return Response(402, Failure(CreditsExhausted)), sent;
      }
      return Response(500, Failure("AI gateway error: " + NatToString(gateway.status))), sent;
    }
    match gateway.reply {
      case Unreadable(reason) =>
        response := Response(500, Failure(reason));
      case Reply(url, text) =>
        if !Truthy(url) {
          response := Response(500, Failure(NoImage));
        } else {
          response := Response(200, Image(url.value, OrDefault(text, ImageDone)));
        }
    }
  }

  // ---------------------------------------------------------------------------
  // Properties
  // ---------------------------------------------------------------------------

  /** Without an API key nothing is built or sent, whatever the action. */
  lemma KeyCheckedFirst(req: Request, gateway: Gateway)
    requires req.httpMethod != "OPTIONS" && req.json.Parsed?
    ensures ImageOutcome(req, None, gateway) == Outcome(Response(500, Failure(KeyMissing)), None)
    ensures ImageOutcome(req, Some(""), gateway) == Outcome(Response(500, Failure(KeyMissing)), None)
  {
  }

  /** The gateway is called exactly for a parsed request with a key and a
      valid action, and then with the built messages. */
  lemma GatewayCalledIff(req: Request, apiKey: Option<string>, gateway: Gateway)
    ensures var o := ImageOutcome(req, apiKey, gateway);
      && (o.sent.Some? <==> req.httpMethod != "OPTIONS" && req.json.Parsed? && Truthy(apiKey)
                            && BuildMessages(req.json.body).Some?)
      && (o.sent.Some? ==> o.sent == BuildMessages(req.json.body))
  {
  }

  /** Every response is 200 with an image, an empty OPTIONS reply, or a
      failure whose status is 429, 402 or 500; a 200 always carries a
      non-empty image URL. */
  lemma ResponseShapes(req: Request, apiKey: Option<string>, gateway: Gateway)
    ensures var r := ImageOutcome(req, apiKey, gateway).response;
      || (r.status == 200 && r.body.NoBody? && req.httpMethod == "OPTIONS")
      || (r.status == 200 && r.body.Image? && r.body.imageUrl != "")
      || (r.body.Failure? && r.status in {429, 402, 500})
    ensures var r := ImageOutcome(req, apiKey, gateway).response;
      r.status in {429, 402} ==> gateway.status == r.status
  {
  }
}
