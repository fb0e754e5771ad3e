/**
 * The language-model side of the agent: the three back ends (a mock that
 * echoes a summary of the prompt, a local Ollama server, the Gemini REST
 * API), what each makes of a prompt, and the factory that picks one from a
 * model type, a configuration and the environment.
 *
 * The network is an oracle: a `Remote` maps each request to the reply (or
 * the transport failure) it gets.
 */
module ModelClients {
  import opened Wrappers
  import opened Text

  const DefaultOllamaUrl: string := "http://localhost:11434"
  const DefaultOllamaModel: string := "llama3"
  const DefaultGeminiModel: string := "gemini-1.5-flash"
  const GeminiBaseUrl: string := "https://generativelanguage.googleapis.com/v1beta/models"

  /** The model types `build_model_client` accepts, in the order its error message lists them. */
  const SupportedModels: seq<string> := ["ollama", "gemini", "mock"]

  /** A constructed model client: which back end, with its endpoint settings. */
  datatype Backend = Mock | Ollama(baseUrl: string, model: string) | Gemini(apiKey: string, model: string)

  /** The model type a back end answers to. */
  function TypeName(b: Backend): string {
    match b
    case Mock => "mock"
    case Ollama(_, _) => "ollama"
    case Gemini(_, _) => "gemini"
  }

  // ---------------------------------------------------------------------------
  // The factory
  // ---------------------------------------------------------------------------

  /**
   * One setting: the configuration attribute when it is present and
   * non-empty, else the environment variable when it is set (even to the
   * empty string), else the default.
   */
  function Setting(config: map<string, string>, attribute: string, env: map<string, string>, variable: string,
                   default: string): string
  {
    if attribute in config && config[attribute] != "" then config[attribute]
    else if variable in env then env[variable]
    else default
  }

  /** `GeminiModelClient`'s own fallback for an empty key: `GEMINI_API_KEY`, else the empty string. */
  function GeminiKey(given: string, env: map<string, string>): string {
    if given != "" then given
    else if "GEMINI_API_KEY" in env && env["GEMINI_API_KEY"] != "" then env["GEMINI_API_KEY"]
    else ""
  }

  function UnknownModelMessage(modelType: string): string {
    "Unknown model_type '" + modelType + "'. Supported: ollama, gemini, mock."
  }

  /**
   * `build_model_client`: a back end of the requested type exactly when the
   * type is supported, else the `ValueError` message naming it. `config`
   * holds the attributes of the optional configuration object (absent ones
   * left out) and `env` the process environment.
   */
  function BuildModelClient(modelType: string, config: map<string, string>, env: map<string, string>)
    : (r: Result<Backend, string>)
    ensures r.Ok? <==> modelType in SupportedModels
    ensures r.Ok? ==> TypeName(r.value) == modelType
    ensures r.Err? ==> r.error == UnknownModelMessage(modelType)
    ensures r.Ok? && r.value.Ollama? ==> r.value.baseUrl == [] || r.value.baseUrl[|r.value.baseUrl| - 1] != '/'
  {
    if modelType == "mock" then Ok(Mock)
    else if modelType == "ollama" then
      var url := Setting(config, "ollama_url", env, "OLLAMA_URL", DefaultOllamaUrl);
      var model := Setting(config, "ollama_model", env, "OLLAMA_MODEL", DefaultOllamaModel);
      Ok(Ollama(TrimEnd(url, '/'), model))
    else if modelType == "gemini" then
      var key := Setting(config, "gemini_api_key", env, "GEMINI_API_KEY", "");
      var model := Setting(config, "gemini_model", env, "GEMINI_MODEL", DefaultGeminiModel);
      Ok(Gemini(GeminiKey(key, env), model))
    else Err(UnknownModelMessage(modelType))
  }

  /** With no configuration and no environment, each back end gets the documented defaults. */
  lemma FactoryDefaults()
    ensures BuildModelClient("ollama", map[], map[]) == Ok(Ollama("http://localhost:11434", "llama3"))
    ensures BuildModelClient("gemini", map[], map[]) == Ok(Gemini("", "gemini-1.5-flash"))
    ensures BuildModelClient("mock", map[], map[]) == Ok(Mock)
  {
    assert TrimEnd(DefaultOllamaUrl, '/') == DefaultOllamaUrl by {
      assert DefaultOllamaUrl[|DefaultOllamaUrl| - 1] == '4';
    }
  }

  // ---------------------------------------------------------------------------
  // The mock back end
  // ---------------------------------------------------------------------------

  /** A line the mock quotes: not blank, and without the stock-name marker. */
  predicate IsDataLine(line: string) {
    !Contains(line, "[STOCK NAME]") && !IsBlank(line)
  }

  /** The position of the first data line, or the number of lines when there is none. */
  function FirstDataLineIndex(lines: seq<string>): (k: nat)
    ensures k <= |lines|
  {
    if lines == [] then 0
    else if IsDataLine(lines[0]) then 0
    else 1 + FirstDataLineIndex(lines[1..])
  }

  /** The index found is the first data line: every line before it is blank or names the stock. */
  lemma {:induction false} FirstDataLineIndexFirst(lines: seq<string>)
    ensures forall j | 0 <= j < FirstDataLineIndex(lines) :: !IsDataLine(lines[j])
    ensures FirstDataLineIndex(lines) < |lines| ==> IsDataLine(lines[FirstDataLineIndex(lines)])
  {
    if lines != [] && !IsDataLine(lines[0]) {
      FirstDataLineIndexFirst(lines[1..]);
    }
  }

  /** The line the mock quotes: the first data line of the prompt, or "N/A". */
  function FirstDataLine(prompt: string): string {
    var lines := Lines(prompt);
    var k := FirstDataLineIndex(lines);
    if k < |lines| then lines[k] else "N/A"
  }

  const MockPrefix: string := "[MOCK RESPONSE] Prompt received ("

  /** The mock's opening, up to the first full stop: "[MOCK RESPONSE] Prompt received (N chars)". */
  function MockHead(length: nat): string {
    MockPrefix + NatToString(length) + " chars)"
  }

  /**
   * `MockModelClient.complete`: the prompt's length in characters and at
   * most 80 characters of its first data line.
   */
  function MockComplete(prompt: string): string {
    MockHead(|prompt|) + "." + " First data line: " + Take(FirstDataLine(prompt), 80)
  }

  /** The mock's head holds no full stop. */
  lemma MockHeadNoStop(n: nat)
    ensures '.' !in MockHead(n)
  {
    var digits := NatToString(n);
    assert '.' !in MockPrefix;
    assert '.' !in " chars)";
    assert forall i | 0 <= i < |digits| :: digits[i] != '.';
  }

  /** The prompt's length can be read back from the mock's head. */
  lemma MockHeadLength(n: nat)
    ensures var head := MockHead(n);
            |MockPrefix| + 7 <= |head| && ParseDecimal(head[|MockPrefix|..|head| - 7]) == n
  {
    var head := MockHead(n);
    assert head[|MockPrefix|..|head| - 7] == NatToString(n);
    NatToStringRoundTrip(n);
  }

  /**
   * The mock's reply is its head, a full stop and the quoted line; the head
   * holds no full stop, and the prompt's length can be read back from it.
   */
  lemma MockFirstPiece(prompt: string)
    ensures '.' !in MockHead(|prompt|)
    ensures MockComplete(prompt) == MockHead(|prompt|) + ['.'] + (" First data line: " + Take(FirstDataLine(prompt), 80))
    ensures var head := MockHead(|prompt|);
            |MockPrefix| + 7 <= |head| && ParseDecimal(head[|MockPrefix|..|head| - 7]) == |prompt|
  {
    MockHeadNoStop(|prompt|);
    MockHeadLength(|prompt|);
  }

  // ---------------------------------------------------------------------------
  // The remote back ends
  // ---------------------------------------------------------------------------

  /** A member of a JSON object that `.get` reads: missing, `null`, or a value. */
  datatype Member<T> = Missing | Null | Present(value: T)

  datatype Part = Part(text: Option<string>)
  datatype Content = Content(parts: Member<seq<Part>>)
  datatype Candidate = Candidate(content: Member<Content>)

  /**
   * A reply: the transport failed (with the exception's text), the body was
   * JSON but not an object (a list, string, number or `null`), or a JSON
   * object with its "response" member (Ollama) and "candidates" member
   * (Gemini) when present and not `null`.
   */
  datatype Reply = Failed(message: string) | NotAnObject | Body(response: Option<string>, candidates: Option<seq<Candidate>>)

  datatype ModelRequest = OllamaGenerate(url: string, model: string, prompt: string) | GeminiGenerate(url: string, prompt: string)

  type Remote = ModelRequest -> Reply

  function OllamaUrl(baseUrl: string): string { baseUrl + "/api/generate" }

  function GeminiUrl(apiKey: string, model: string): string {
    GeminiBaseUrl + "/" + model + ":generateContent?key=" + apiKey
  }

  /** The request a remote back end sends for a prompt. */
  function RequestFor(b: Backend, prompt: string): (req: Option<ModelRequest>)
    ensures req.None? <==> b.Mock?
    ensures req.Some? ==> req.value.prompt == prompt
  {
    match b
    case Mock => None
    case Ollama(u, m) => Some(OllamaGenerate(OllamaUrl(u), m, prompt))
    case Gemini(k, m) => Some(GeminiGenerate(GeminiUrl(k, m), prompt))
  }

  /**
   * The text of the first part of the first candidate. A missing member reads
   * as its default; a `null` content or part list, or an empty part list,
   * raises.
   */
  function GeminiText(candidates: Option<seq<Candidate>>): (r: Result<string, string>)
    ensures r.Err? <==> candidates.Some? && |candidates.value| > 0 &&
                        var c := candidates.value[0].content;
                        c.Null? || (c.Present? && (c.value.parts.Null? || c.value.parts == Present([])))
    ensures r.Ok? && candidates.Some? && |candidates.value| > 0 && candidates.value[0].content.Present? &&
            candidates.value[0].content.value.parts.Present? ==>
            r.value == candidates.value[0].content.value.parts.value[0].text.GetOr("")
  {
    var cs := candidates.GetOr([]);
    if cs == [] then Ok("")
    else
      match cs[0].content
      case Null => Err("AttributeError: 'NoneType' object has no attribute 'get'")
      case Missing => Ok("")
      case Present(content) =>
        match content.parts
        case Null => Err("TypeError: 'NoneType' object is not subscriptable")
        case Missing => Ok("")
        case Present(parts) =>
          if parts == [] then Err("IndexError: list index out of range") else Ok(parts[0].text.GetOr(""))
  }

  /** Whether a Gemini reply makes `complete` raise: a body that is not an object, or a malformed first candidate. */
  predicate GeminiRaises(reply: Reply) {
    match reply
    case Failed(_) => false
    case NotAnObject => true
    case Body(_, candidates) => GeminiText(candidates).Err?
  }

  /**
   * Back ends on which `complete` returns text for every prompt: the mock,
   * and Ollama while every reply body is a JSON object.
   */
  ghost predicate NeverRaises(b: Backend, remote: Remote) {
    b.Mock? || (b.Ollama? && forall req :: !remote(req).NotAnObject?)
  }

  /**
   * `complete`: the text a back end answers with. A transport failure comes
   * back as an "[ERROR] ..." text; `Err` is an exception that escapes: `.get`
   * on a body that is not an object, or a malformed Gemini candidate.
   */
  function Complete(b: Backend, prompt: string, remote: Remote): (r: Result<string, string>)
    ensures NeverRaises(b, remote) ==> r.Ok?
    ensures b.Ollama? ==> (r.Err? <==> remote(RequestFor(b, prompt).value).NotAnObject?)
    ensures b.Gemini? ==> (r.Err? <==> GeminiRaises(remote(RequestFor(b, prompt).value)))
  {
    match b
    case Mock => Ok(MockComplete(prompt))
    case Ollama(u, m) =>
      (match remote(OllamaGenerate(OllamaUrl(u), m, prompt))
       case Failed(e) => Ok("[ERROR] Ollama request failed: " + e)
       case NotAnObject => Err("AttributeError: object has no attribute 'get'")
       case Body(response, _) => Ok(response.GetOr("")))
    case Gemini(k, m) =>
      (match remote(GeminiGenerate(GeminiUrl(k, m), prompt))
       case Failed(e) => Ok("[ERROR] Gemini request failed: " + e)
       case NotAnObject => Err("AttributeError: object has no attribute 'get'")
       case Body(_, candidates) => GeminiText(candidates))
  }

  /** A failed request to a remote back end never raises: its text starts with "[ERROR] ". */
  lemma TransportFailureIsText(b: Backend, prompt: string, remote: Remote)
    requires !b.Mock? && remote(RequestFor(b, prompt).value).Failed?
    ensures Complete(b, prompt, remote).Ok? && StartsWith(Complete(b, prompt, remote).value, "[ERROR] ")
  {
  }
}
