/** The wrapper around the generation SDK (services/geminiService.ts): it shapes
    the client options, the outgoing parts and the configuration, hands them to
    the SDK, and maps the SDK's response back to message parts. The SDK itself
    is a function parameter: what it answers is not modelled. */
module GeminiService {
  import opened Types

  /** The options the SDK client is constructed with. */
  datatype ClientOptions = ClientOptions(apiKey: Option<string>, baseUrl: Option<string>)

  /** A configuration value: a string, or any other JSON value kept opaque. */
  datatype ConfigValue = Str(s: string) | Other(json: string)

  type Config = map<string, ConfigValue>

  const SystemInstructionKey := "systemInstruction"

  datatype Request = Request(model: string, contents: seq<MessagePart>, config: Config)

  /** One part of an SDK candidate, as the SDK delivers it. */
  datatype SdkPart = SdkPart(text: Option<string>, inlineData: Option<InlineData>)

  /** A candidate's content parts; a candidate without content has none. */
  datatype Candidate = Candidate(parts: seq<SdkPart>)

  /** The SDK's response: its candidates and its `text` accessor. */
  datatype Response = Response(candidates: seq<Candidate>, text: Option<string>)

  /** A raised error: its string form, `status`, `code` and `message`. */
  datatype GenerationError = GenerationError(description: string, status: Option<int>,
                                             code: Option<int>, message: string)

  datatype SdkOutcome = Returned(response: Response) | Threw(error: GenerationError)

  /** What a call of `generateContent` comes to: the parts, or the error it rethrows. */
  datatype Outcome = Success(parts: seq<MessagePart>) | Failure(error: GenerationError)

  /** The client options: the custom key if truthy, else the environment's key;
      a base URL only when a truthy custom one is given. */
  method BuildOptions(customApiKey: Option<string>, customBaseUrl: Option<string>,
                      envApiKey: Option<string>)
    returns (options: ClientOptions)
    ensures Truthy(customApiKey) ==> options.apiKey == customApiKey
    ensures !Truthy(customApiKey) ==> options.apiKey == envApiKey
    ensures options.baseUrl.Some? <==> Truthy(customBaseUrl)
    ensures options.baseUrl.Some? ==> options.baseUrl == customBaseUrl
  {
    options := ClientOptions(OrElse(customApiKey, envApiKey), None);
    if Truthy(customBaseUrl) {
      options := options.(baseUrl := customBaseUrl);
    }
  }

  /** The outgoing parts: every attachment as inline data, in order, then the
      prompt as a text part when it is not empty. */
  method BuildParts(prompt: string, attachments: seq<InlineData>) returns (parts: seq<MessagePart>)
    ensures |parts| == |attachments| + (if prompt != "" then 1 else 0)
    ensures forall i :: 0 <= i < |attachments| ==> parts[i] == InlinePart(attachments[i])
    ensures prompt != "" ==> parts[|attachments|] == TextPart(prompt)
  {
    parts := [];
    for i := 0 to |attachments|
      invariant |parts| == i
      invariant forall k :: 0 <= k < i ==> parts[k] == InlinePart(attachments[k])
    {
      parts := parts + [InlinePart(attachments[i])];
    }
    if prompt != "" {
      parts := parts + [TextPart(prompt)];
    }
  }

  /** The configuration actually sent: a copy of `config` (or of `{}`), with the
      system instruction set when it is truthy. */
  method MergeConfig(config: Option<Config>, systemInstruction: Option<string>)
    returns (finalConfig: Config)
    ensures var base := if config.Some? then config.value else map[];
      && (Truthy(systemInstruction) ==>
            SystemInstructionKey in finalConfig
            && finalConfig[SystemInstructionKey] == Str(systemInstruction.value))
      && (!Truthy(systemInstruction) ==> finalConfig == base)
      && (forall k :: k != SystemInstructionKey ==> (k in finalConfig <==> k in base))
      && (forall k :: k != SystemInstructionKey && k in base ==> finalConfig[k] == base[k])
  {
    finalConfig := if config.Some? then config.value else map[];
    if Truthy(systemInstruction) {
      finalConfig := finalConfig[SystemInstructionKey := Str(systemInstruction.value)];
    }
  }

  /** The parts of the first candidate, or none. */
  function FirstCandidateParts(response: Response): seq<SdkPart>
  {
    if |response.candidates| > 0 then response.candidates[0].parts else []
  }

  /** A part is kept when it has truthy text or inline data. */
  predicate Convertible(p: SdkPart)
  {
    Truthy(p.text) || p.inlineData.Some?
  }

  /** What one SDK part becomes: truthy text wins over inline data; a part
      with neither is dropped. */
  function ConvertPart(p: SdkPart): seq<MessagePart>
  {
    if Truthy(p.text) then [TextPart(p.text.value)]
    else if p.inlineData.Some? then [InlinePart(p.inlineData.value)]
    else []
  }

  /** The response parts produced by the loop over the candidate's parts. */
  function Converted(ps: seq<SdkPart>): seq<MessagePart>
  {
    if ps == [] then [] else Converted(ps[..|ps| - 1]) + ConvertPart(ps[|ps| - 1])
  }

  /** Mapping the parts commutes with concatenation, so the output keeps the
      input's order. */
  lemma {:induction false} ConvertedAppend(a: seq<SdkPart>, b: seq<SdkPart>)
    ensures Converted(a + b) == Converted(a) + Converted(b)
    decreases |b|
  {
    if b == [] {
      assert a + b == a;
    } else {
      var b' := b[..|b| - 1];
      assert (a + b)[..|a + b| - 1] == a + b';
      assert (a + b)[|a + b| - 1] == b[|b| - 1];
      ConvertedAppend(a, b');
    }
  }

  /** Parts are dropped, never added: the output is at most as long as the
      input, and exactly as long precisely when every part is kept. */
  lemma {:induction false} ConvertedLength(ps: seq<SdkPart>)
    ensures |Converted(ps)| <= |ps|
    ensures |Converted(ps)| == |ps| <==> forall i :: 0 <= i < |ps| ==> Convertible(ps[i])
  {
    if ps != [] {
      var init := ps[..|ps| - 1];
      ConvertedLength(init);
      assert forall i :: 0 <= i < |init| ==> init[i] == ps[i];
    }
  }

  /** When every part is kept, output part i is input part i converted. */
  lemma {:induction false} ConvertedPointwise(ps: seq<SdkPart>, i: nat)
    requires forall k :: 0 <= k < |ps| ==> Convertible(ps[k])
    requires i < |ps|
    ensures |Converted(ps)| == |ps|
    ensures [Converted(ps)[i]] == ConvertPart(ps[i])
  {
    ConvertedLength(ps);
    var init := ps[..|ps| - 1];
    assert forall k :: 0 <= k < |init| ==> init[k] == ps[k];
    ConvertedLength(init);
    if i < |ps| - 1 {
      ConvertedPointwise(init, i);
    }
  }

  /** The response parts: the converted candidate parts, or the response's
      text as the single part when none were produced and the text is truthy. */
  method ExtractResponseParts(response: Response) returns (responseParts: seq<MessagePart>)
    ensures responseParts == ResponseParts(response)
  {
    responseParts := [];
    var candidateParts := FirstCandidateParts(response);
    for i := 0 to |candidateParts|
      invariant responseParts == Converted(candidateParts[..i])
    {
      var part := candidateParts[i];
      assert candidateParts[..i + 1][..i] == candidateParts[..i];
      if Truthy(part.text) {
        responseParts := responseParts + [TextPart(part.text.value)];
      } else if part.inlineData.Some? {
        responseParts := responseParts + [InlinePart(part.inlineData.value)];
      }
    }
    assert candidateParts[..|candidateParts|] == candidateParts;
    if |responseParts| == 0 && Truthy(response.text) {
      responseParts := responseParts + [TextPart(response.text.value)];
    }
  }

  /** The parts `generateContent` returns for a response. */
  function ResponseParts(response: Response): seq<MessagePart>
  {
    var c := Converted(FirstCandidateParts(response));
    if c == [] && Truthy(response.text) then [TextPart(response.text.value)] else c
  }

  /** The fallback: when the first candidate yields no parts, the result is
      exactly the response's text as one part if it is truthy, else nothing;
      in particular no candidates and no text give no parts. Otherwise the
      text is ignored and the result is at most as long as the candidate's
      parts. */
  lemma ResponsePartsFallback(response: Response)
    ensures Converted(FirstCandidateParts(response)) == [] ==>
              ResponseParts(response) == if Truthy(response.text) then [TextPart(response.text.value)] else []
    ensures response.candidates == [] && !Truthy(response.text) ==> ResponseParts(response) == []
    ensures Converted(FirstCandidateParts(response)) != [] ==>
              ResponseParts(response) == Converted(FirstCandidateParts(response))
              && |ResponseParts(response)| <= |FirstCandidateParts(response)|
  {
    ConvertedLength(FirstCandidateParts(response));
  }

  /** One generation call: build options, parts and configuration, call the
      SDK with them; on success map its response, on failure rethrow its error
      unchanged. `options` and `request` are what the SDK was called with. */
  method GenerateContent(prompt: string, attachments: seq<InlineData>, modelId: string,
                         customApiKey: Option<string>, customBaseUrl: Option<string>,
                         config: Option<Config>, systemInstruction: Option<string>,
                         envApiKey: Option<string>, sdk: (ClientOptions, Request) -> SdkOutcome)
    returns (options: ClientOptions, request: Request, result: Outcome)
    ensures options.apiKey == OrElse(customApiKey, envApiKey)
    ensures options.baseUrl == if Truthy(customBaseUrl) then customBaseUrl else None
    ensures request.model == modelId
    ensures |request.contents| == |attachments| + (if prompt != "" then 1 else 0)
    ensures forall i :: 0 <= i < |attachments| ==> request.contents[i] == InlinePart(attachments[i])
    ensures prompt != "" ==> request.contents[|attachments|] == TextPart(prompt)
    ensures var base := if config.Some? then config.value else map[];
      && (Truthy(systemInstruction) ==>
            SystemInstructionKey in request.config
            && request.config[SystemInstructionKey] == Str(systemInstruction.value))
      && (!Truthy(systemInstruction) ==> request.config == base)
      && (forall k :: k != SystemInstructionKey ==> (k in request.config <==> k in base))
      && (forall k :: k != SystemInstructionKey && k in base ==> request.config[k] == base[k])
    ensures sdk(options, request).Threw? ==> result == Failure(sdk(options, request).error)
    ensures sdk(options, request).Returned? ==> result == Success(ResponseParts(sdk(options, request).response))
  {
    options := BuildOptions(customApiKey, customBaseUrl, envApiKey);
    var parts := BuildParts(prompt, attachments);
    var finalConfig := MergeConfig(config, systemInstruction);
    request := Request(modelId, parts, finalConfig);
    var outcome := sdk(options, request);
    match outcome
    case Threw(error) =>
      result := Failure(error);
    case Returned(response) =>
      var responseParts := ExtractResponseParts(response);
      result := Success(responseParts);
  }
}
