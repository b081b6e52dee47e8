/**
 * The worker thread's `run`: build the prompt and the JSON payload, post it to
 * the local model server and turn whatever happens into exactly one caption.
 * The file system, base64, the HTTP client and the JSON decoder are the
 * environment `Env`, handed in as functions.
 */
module Transport {
  import opened Wrappers

  type Byte = bv8

  const Url: string := "http://localhost:11434/api/generate"
  const JsonContentType: string := "application/json"
  const ModelId: string := "llava-phi3:latest"
  const Instruction: string := "Generate a catchy, Instagram-friendly caption for the image."
  const DescriptionLead: string := " The user describes it as: "
  const NoCaption: string := "No caption generated."
  const ServerErrorPrefix: string := "Error: "
  const ConnectFailurePrefix: string := "Failed to connect to Ollama: "

  /** One worker: the image path and the (already stripped) description it was started with. */
  datatype Worker = Worker(imagePath: string, description: string)

  /** The JSON body of the request; `images` holds base64 text. */
  datatype Payload = Payload(model: string, prompt: string, stream: bool, images: seq<string>)

  datatype Request = Request(url: string, contentType: string, body: Payload)

  /** Reading the image file: its bytes, or the text of the exception raised. */
  datatype ReadResult = Read(bytes: seq<Byte>) | ReadFailed(reason: string)

  /** The POST: a response (status code and raw body text), or the text of the exception raised. */
  datatype HttpResult = Response(status: int, text: string) | PostFailed(reason: string)

  /** Decoding a response body as JSON: the `response` member if there is one, or the exception text. */
  datatype JsonResult = Parsed(response: Option<string>) | ParseFailed(reason: string)

  /** Everything `run` calls that is outside this model. */
  datatype Env = Env(
    readFile: string -> ReadResult,
    encode: seq<Byte> -> string,
    post: Request -> HttpResult,
    parseJson: string -> JsonResult)

  /**
   * What the exchange with the server came to: a 200 with the `response`
   * member (or without it), another status with its body, or an exception.
   */
  datatype Outcome = Ok200(field: Option<string>) | Status(code: int, body: string) | Raised(message: string)

  /** The prompt: the fixed instruction, extended by the description when there is one. */
  function Prompt(description: string): (p: string)
    ensures Instruction <= p
    ensures p == Instruction <==> description == ""
  {
    if description != "" then Instruction + DescriptionLead + description + "." else Instruction
  }

  /** What a prompt with a description starts with. */
  const DescribedHead: string := Instruction + DescriptionLead

  /** Reads the description back out of a prompt, or None if `p` is no prompt at all. */
  function DescriptionOf(p: string): (d: Option<string>)
    ensures d.Some? ==> Instruction <= p
    ensures d == Some("") <==> p == Instruction
  {
    if p == Instruction then Some("")
    else if |DescribedHead| + 1 < |p| && DescribedHead <= p && p[|p| - 1] == '.' then
      Some(p[|DescribedHead|..|p| - 1])
    else None
  }

  /** Every description can be read back out of its prompt. */
  lemma PromptRoundTrip(description: string)
    ensures DescriptionOf(Prompt(description)) == Some(description)
  {
  }

  /** Whatever DescriptionOf accepts is the prompt of what it returns. */
  lemma DescriptionOfSound(p: string, description: string)
    requires DescriptionOf(p) == Some(description)
    ensures Prompt(description) == p
  {
  }

  /** Different descriptions never give the same prompt. */
  lemma PromptInjective(d1: string, d2: string)
    requires Prompt(d1) == Prompt(d2)
    ensures d1 == d2
  {
    PromptRoundTrip(d1);
    PromptRoundTrip(d2);
  }

  /** The payload for one base64-encoded image and one description. */
  function BuildPayload(image: string, description: string): (p: Payload)
    ensures p.model == ModelId && !p.stream
    ensures p.images == [image]
    ensures DescriptionOf(p.prompt) == Some(description)
  {
    PromptRoundTrip(description);
    Payload(ModelId, Prompt(description), false, [image])
  }

  /** The POST request `run` makes. */
  function BuildRequest(image: string, description: string): (r: Request)
    ensures r.url == Url && r.contentType == JsonContentType
    ensures r.body.images == [image]
    ensures DescriptionOf(r.body.prompt) == Some(description)
  {
    Request(Url, JsonContentType, BuildPayload(image, description))
  }

  /**
   * The request has the fixed endpoint, content type, model and stream flag,
   * carries exactly the one image, and its prompt gives back the description.
   */
  lemma RequestShape(image: string, description: string)
    ensures var r := BuildRequest(image, description);
            && r.url == Url && r.contentType == JsonContentType
            && r.body.model == ModelId && !r.body.stream
            && r.body.images == [image]
            && DescriptionOf(r.body.prompt) == Some(description)
  {
  }

  /** Two requests agree only when image and description both agree. */
  lemma RequestInjective(i1: string, d1: string, i2: string, d2: string)
    requires BuildRequest(i1, d1) == BuildRequest(i2, d2)
    ensures i1 == i2 && d1 == d2
  {
    assert BuildRequest(i1, d1).body.images[0] == i1;
    PromptInjective(d1, d2);
  }

  /** The request the worker posts, or None when the image file cannot be read (nothing is sent). */
  function SentRequest(w: Worker, env: Env): (r: Option<Request>)
    ensures r.Some? <==> env.readFile(w.imagePath).Read?
    ensures r.Some? ==> r.value == BuildRequest(env.encode(env.readFile(w.imagePath).bytes), w.description)
  {
    match env.readFile(w.imagePath)
    case Read(bytes) => Some(BuildRequest(env.encode(bytes), w.description))
    case ReadFailed(_) => None
  }

  /** The steps of `run` up to the caption, each foreign call allowed to raise. */
  function Exchange(w: Worker, env: Env): (o: Outcome)
    ensures o.Status? ==> o.code != 200
    ensures !o.Raised? ==> SentRequest(w, env).Some?
  {
    match env.readFile(w.imagePath)
    case ReadFailed(reason) => Raised(reason)
    case Read(bytes) =>
      match env.post(BuildRequest(env.encode(bytes), w.description))
      case PostFailed(reason) => Raised(reason)
      case Response(status, text) =>
        if status == 200 then
          match env.parseJson(text)
          case ParseFailed(reason) => Raised(reason)
          case Parsed(field) => Ok200(field)
        else Status(status, text)
  }

  /**
   * The one caption an outcome is shown as. It is empty only when the
   * server answered 200 with an empty `response` member.
   */
  function Caption(o: Outcome): (c: string)
    ensures c == "" <==> o == Ok200(Some(""))
  {
    match o
    case Ok200(Some(text)) => text
    case Ok200(None) => NoCaption
    case Status(_, body) => ServerErrorPrefix + body
    case Raised(message) => ConnectFailurePrefix + message
  }

  /** The two kinds of failure never produce the same caption. */
  lemma FailureCaptionsDistinct(code: int, body: string, message: string)
    ensures Caption(Status(code, body)) != Caption(Raised(message))
  {
    assert Caption(Status(code, body))[0] == 'E';
    assert Caption(Raised(message))[0] == 'F';
  }

  /** A failure caption gives back the server body or the exception text it was made from. */
  lemma FailureCaptionDetail(o: Outcome)
    requires o.Status? || o.Raised?
    ensures o.Status? ==> ServerErrorPrefix <= Caption(o) && Caption(o)[|ServerErrorPrefix|..] == o.body
    ensures o.Raised? ==> ConnectFailurePrefix <= Caption(o) && Caption(o)[|ConnectFailurePrefix|..] == o.message
  {
  }

  /**
   * `run`: the caption the worker emits. Over these outcomes it is total, so
   * it always emits and never raises; the caption is empty only when the server answered 200
   * with an empty `response` member.
   */
  function Run(w: Worker, env: Env): (c: string)
    ensures c == "" <==>
      && SentRequest(w, env).Some?
      && env.post(SentRequest(w, env).value).Response?
      && env.post(SentRequest(w, env).value).status == 200
      && env.parseJson(env.post(SentRequest(w, env).value).text) == Parsed(Some(""))
  {
    Caption(Exchange(w, env))
  }

  /** A 200 whose JSON has a `response` member: the caption is that member. */
  lemma RunSuccess(w: Worker, env: Env, text: string, caption: string)
    requires SentRequest(w, env).Some?
    requires env.post(SentRequest(w, env).value) == Response(200, text)
    requires env.parseJson(text) == Parsed(Some(caption))
    ensures Run(w, env) == caption
  {
  }

  /** A 200 whose JSON lacks `response`: the caption is the fixed fallback. */
  lemma RunNoField(w: Worker, env: Env, text: string)
    requires SentRequest(w, env).Some?
    requires env.post(SentRequest(w, env).value) == Response(200, text)
    requires env.parseJson(text) == Parsed(None)
    ensures Run(w, env) == NoCaption
  {
  }

  /** Any other status: "Error: " and the raw body, whatever the body says. */
  lemma RunServerError(w: Worker, env: Env, status: int, text: string)
    requires SentRequest(w, env).Some?
    requires env.post(SentRequest(w, env).value) == Response(status, text)
    requires status != 200
    ensures Run(w, env) == ServerErrorPrefix + text
  {
  }

  /**
   * An exception anywhere (the file, the connection, or the JSON of a 200)
   * becomes "Failed to connect to Ollama: " and its text.
   */
  lemma RunRaised(w: Worker, env: Env, reason: string)
    requires
      || env.readFile(w.imagePath) == ReadFailed(reason)
      || (SentRequest(w, env).Some? && env.post(SentRequest(w, env).value) == PostFailed(reason))
      || (SentRequest(w, env).Some?
          && env.post(SentRequest(w, env).value).Response?
          && env.post(SentRequest(w, env).value).status == 200
          && env.parseJson(env.post(SentRequest(w, env).value).text) == ParseFailed(reason))
    ensures Run(w, env) == ConnectFailurePrefix + reason
  {
  }

  /** The image a worker sends is the encoding of the bytes of its own file, and nothing else. */
  lemma RunSendsOwnImage(w: Worker, env: Env, bytes: seq<Byte>)
    requires env.readFile(w.imagePath) == Read(bytes)
    ensures SentRequest(w, env).Some?
    ensures SentRequest(w, env).value.body.images == [env.encode(bytes)]
    ensures DescriptionOf(SentRequest(w, env).value.body.prompt) == Some(w.description)
  {
  }
}
