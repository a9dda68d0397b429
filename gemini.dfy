/** The Gemini image client (`GenerateImage`): the request defaults, the
    request built from a prompt, and the checks the response goes through
    before the first inline image of the first candidate is returned. The
    HTTP exchange is a parameter; floating-point settings are not modelled. */
module Gemini {
  import opened Common
  import opened Documents

  datatype Client = Client(apiKey: string, baseUrl: string)

  /** Request side. `Temperature` and `TopP` are floats and are not modelled. */
  datatype Part = Part(text: string)
  datatype Content = Content(parts: seq<Part>, role: string)
  datatype GenerationConfig = GenerationConfig(topK: int, maxOutputTokens: int, candidateCount: int)
  datatype GenerateContentRequest = GenerateContentRequest(contents: seq<Content>, generationConfig: GenerationConfig)

  /** Response side, as `encoding/json` decodes it. */
  datatype ImageData = ImageData(mimeType: string, data: string)
  datatype ResponsePart = ResponsePart(text: string, inlineData: Option<ImageData>)
  datatype ResponseContent = ResponseContent(parts: seq<ResponsePart>, role: string)
  datatype Candidate = Candidate(content: ResponseContent, finishReason: string)
  datatype GenerateContentResponse = GenerateContentResponse(candidates: seq<Candidate>)

  /** The caller's parameters and the result handed back. */
  datatype GenerateImageRequest = GenerateImageRequest(prompt: string, topK: int)
  datatype GenerateImageResponse = GenerateImageResponse(imageData: string, mimeType: string, finishReason: string)

  datatype GeminiError =
    | MarshalFailed(cause: ExtError)
    | RequestFailed(cause: ExtError)
    | SendFailed(cause: ExtError)
    | ReadFailed(cause: ExtError)
    | StatusNotOk(status: int, body: string)
    | UnmarshalFailed(cause: ExtError)
    | NoCandidates
    | NoParts
    | NoImageData

  /** What the HTTP round trip gives back: no response, a body that cannot be
      read, or a status with a body and what decoding that body yields. */
  datatype Exchange =
    | NotSent(cause: ExtError)
    | Unreadable(cause: ExtError)
    | Received(status: int, body: string, decoded: Result<GenerateContentResponse, ExtError>)

  const DefaultTopK := 40
  const StatusOK := 200

  /** The generateContent endpoint of the image-preview model, key in the query. */
  function Url(c: Client): string
  {
    c.baseUrl + "/v1beta/models/gemini-3-pro-image-preview:generateContent?key=" + c.apiKey
  }

  /** The defaulting on the value copy of the caller's request: a zero `TopK` becomes 40. */
  method ApplyDefaults(req: GenerateImageRequest) returns (r: GenerateImageRequest)
    ensures r.prompt == req.prompt
    ensures r.topK != 0
    ensures req.topK != 0 ==> r.topK == req.topK
    ensures req.topK == 0 ==> r.topK == DefaultTopK
  {
    r := req;
    if r.topK == 0 {
      r := r.(topK := DefaultTopK);
    }
  }

  /** The single prompt of a request that holds one content with one part, if it is one. */
  function PromptOf(apiReq: GenerateContentRequest): Option<string>
  {
    if |apiReq.contents| == 1 && |apiReq.contents[0].parts| == 1 then Some(apiReq.contents[0].parts[0].text)
    else None
  }

  /** The API request: the prompt as the only part of the only content, one candidate. */
  function BuildRequest(req: GenerateImageRequest): (r: GenerateContentRequest)
    ensures PromptOf(r) == Some(req.prompt)
    ensures r.generationConfig.candidateCount == 1
    ensures r.generationConfig.topK == req.topK
  {
    GenerateContentRequest(
      [Content([Part(req.prompt)], "")],
      GenerationConfig(req.topK, 0, 1))
  }

  predicate HasImage(p: ResponsePart) { p.inlineData.Some? }

  /** The parts loop: the inline data of the first part that has some. */
  method FindImage(parts: seq<ResponsePart>) returns (img: Option<ImageData>)
    ensures img.None? <==> FirstMatch(parts, HasImage).None?
    ensures img.Some? ==> img == parts[FirstMatch(parts, HasImage).value].inlineData
  {
    img := None;
    var i := 0;
    while i < |parts|
      invariant 0 <= i <= |parts|
      invariant forall j :: 0 <= j < i ==> !HasImage(parts[j])
    {
      if parts[i].inlineData.Some? {
        img := parts[i].inlineData;
        FirstMatchAt(parts, HasImage, i);
        break;
      }
      i := i + 1;
    }
  }

  /** Parts after the first image never matter. */
  lemma {:induction false} FirstImageIgnoresLater(parts: seq<ResponsePart>, more: seq<ResponsePart>)
    requires FirstMatch(parts, HasImage).Some?
    ensures FirstMatch(parts + more, HasImage) == FirstMatch(parts, HasImage)
  {
    var i := FirstMatch(parts, HasImage).value;
    assert (parts + more)[i] == parts[i];
    forall j | 0 <= j < i ensures !HasImage((parts + more)[j]) {
      assert (parts + more)[j] == parts[j];
    }
    FirstMatchAt(parts + more, HasImage, i);
  }

  /** What a decoded response yields: the first inline image of the first
      candidate's parts, with that candidate's finish reason, or the first
      check that fails. It is accepted exactly when some part of the first
      candidate carries inline data, and the image is that of the first such part. */
  function Validated(resp: GenerateContentResponse): (r: Result<GenerateImageResponse, GeminiError>)
    ensures resp.candidates == [] ==> r == Err(NoCandidates)
    ensures resp.candidates != [] && resp.candidates[0].content.parts == [] ==> r == Err(NoParts)
    ensures r.Ok? <==>
      resp.candidates != [] &&
      exists i :: 0 <= i < |resp.candidates[0].content.parts| && HasImage(resp.candidates[0].content.parts[i])
    ensures r.Ok? ==>
      r.value.finishReason == resp.candidates[0].finishReason &&
      exists i :: 0 <= i < |resp.candidates[0].content.parts| &&
        resp.candidates[0].content.parts[i].inlineData == Some(ImageData(r.value.mimeType, r.value.imageData)) &&
        forall j :: 0 <= j < i ==> !HasImage(resp.candidates[0].content.parts[j])
    ensures r.Err? && resp.candidates != [] && resp.candidates[0].content.parts != [] ==> r == Err(NoImageData)
  {
    if resp.candidates == [] then Err(NoCandidates)
    else
      var parts := resp.candidates[0].content.parts;
      if parts == [] then Err(NoParts)
      else
        var first := FirstMatch(parts, HasImage);
        if first.None? then Err(NoImageData)
        else
          var img := parts[first.value].inlineData.value;
          Ok(GenerateImageResponse(img.data, img.mimeType, resp.candidates[0].finishReason))
  }

  /** Candidates after the first, and parts after the first image, never matter. */
  lemma ValidatedIgnoresLater(c: Candidate, more: seq<Candidate>, extra: seq<ResponsePart>)
    requires FirstMatch(c.content.parts, HasImage).Some?
    ensures
      var c' := c.(content := c.content.(parts := c.content.parts + extra));
      Validated(GenerateContentResponse([c'] + more)) == Validated(GenerateContentResponse([c]))
  {
    FirstImageIgnoresLater(c.content.parts, extra);
    var i := FirstMatch(c.content.parts, HasImage).value;
    assert (c.content.parts + extra)[i] == c.content.parts[i];
  }

  /** The checks on a decoded response, in the order the client makes them. */
  method CheckResponse(resp: GenerateContentResponse) returns (r: Result<GenerateImageResponse, GeminiError>)
    ensures r == Validated(resp)
  {
    if |resp.candidates| == 0 {
      return Err(NoCandidates);
    }
    var candidate := resp.candidates[0];
    if |candidate.content.parts| == 0 {
      return Err(NoParts);
    }
    var imageData := FindImage(candidate.content.parts);
    if imageData.None? {
      return Err(NoImageData);
    }
    r := Ok(GenerateImageResponse(imageData.value.data, imageData.value.mimeType, candidate.finishReason));
  }

  /** `GenerateImage`: defaults, the request, the exchange with the endpoint,
      then the status and the response checks. `marshalErr` and `buildErr`
      are what `json.Marshal` and `http.NewRequestWithContext` report, and
      `transport` answers the request actually sent to the URL actually built. */
  method GenerateImage(c: Client, req: GenerateImageRequest, marshalErr: Option<ExtError>, buildErr: Option<ExtError>,
                       transport: (string, GenerateContentRequest) -> Exchange)
    returns (r: Result<GenerateImageResponse, GeminiError>)
    ensures marshalErr.Some? ==> r == Err(MarshalFailed(marshalErr.value))
    ensures marshalErr.None? && buildErr.Some? ==> r == Err(RequestFailed(buildErr.value))
    ensures marshalErr.None? && buildErr.None? ==>
      var sent := BuildRequest(req.(topK := if req.topK == 0 then DefaultTopK else req.topK));
      var e := transport(Url(c), sent);
      (e.NotSent? ==> r == Err(SendFailed(e.cause))) &&
      (e.Unreadable? ==> r == Err(ReadFailed(e.cause))) &&
      (e.Received? && e.status != StatusOK ==> r == Err(StatusNotOk(e.status, e.body))) &&
      (e.Received? && e.status == StatusOK && e.decoded.Err? ==> r == Err(UnmarshalFailed(e.decoded.error))) &&
      (e.Received? && e.status == StatusOK && e.decoded.Ok? ==> r == Validated(e.decoded.value))
  {
    var defaulted := ApplyDefaults(req);
    assert defaulted == req.(topK := if req.topK == 0 then DefaultTopK else req.topK);
    var apiReq := BuildRequest(defaulted);
    if marshalErr.Some? {
      return Err(MarshalFailed(marshalErr.value));
    }
    var url := Url(c);
    if buildErr.Some? {
      return Err(RequestFailed(buildErr.value));
    }
    var exchange := transport(url, apiReq);
    if exchange.NotSent? {
      return Err(SendFailed(exchange.cause));
    }
    if exchange.Unreadable? {
      return Err(ReadFailed(exchange.cause));
    }
    if exchange.status != StatusOK {
      return Err(StatusNotOk(exchange.status, exchange.body));
    }
    if exchange.decoded.Err? {
      return Err(UnmarshalFailed(exchange.decoded.error));
    }
    r := CheckResponse(exchange.decoded.value);
  }
}
