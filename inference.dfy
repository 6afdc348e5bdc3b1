/** The control logic around the chat-completion calls of
    `analyze_text_query` and `analyze_image_with_query`: input guards that
    answer with sentinel strings, the bounded retry loop of the text path
    with its linearly growing sleeps, the empty-response sentinels, the
    language note of the image path and its fallback to the text path when
    the model is not found.

    The remote service is an oracle: `Remote(request, attempt)` is the
    outcome of the `attempt`-th request (from 0) of one call. The sleeps are
    recorded as a sequence of seconds instead of being slept. */
module Inference {
  import opened Results
  import opened PyStrings
  import Languages

  const DefaultLanguage := Languages.English
  const DefaultModel := "llama3-8b-8192"
  const DefaultRetries := 3
  const MaxTokens := 800

  // Sentinel strings of the text path.
  const InvalidQuery := "Error: Invalid query parameter."
  const EmptyTextResponse := "Error: Empty response from text analysis."
  const EmptyTextContent := "Error: Empty content from text analysis."
  const TextFailure := "Text analysis failed: "

  // Sentinel strings of the image path.
  const MissingParameters := "Error: Missing required parameters for image analysis."
  const EmptyImageResponse := "Error: Empty response from image analysis."
  const VisionFailure := "Vision analysis failed: "
  const ModelNotFound := "model_not_found"
  /** `str()` of the `IndexError` that `response.choices[0]` raises on an
      empty list of choices. */
  const IndexErrorMessage := "list index out of range"

  /** The note appended to an image-path answer, by language. */
  const Notes: map<string, string> := map[
    "English" := "\n\nNote: This analysis is based on your description. For more accurate diagnosis, please consult a healthcare professional.",
    "Hindi" := "\n\nनोट: यह विश्लेषण आपके विवरण के आधार पर है। अधिक सटीक निदान के लिए, कृपया एक स्वास्थ्य देखभाल पेशेवर से परामर्श करें।",
    "Marathi" := "\n\nटीप: हे विश्लेषण तुमच्या वर्णनावर आधारित आहे. अधिक अचूक निदानासाठी, कृपया वैद्यकीय व्यावसायिकांशी सल्लामसलत करा."
  ]

  // ---------------------------------------------------------------------
  // Requests and outcomes

  /** The system prompt, by the language whose text is used; the prompt
      texts themselves are not modelled. */
  datatype Prompt = SymptomsPrompt(language: string) | DermatologyPrompt(language: string)

  /** The user message: the query itself, or the query embedded in the
      image-context paragraph. */
  datatype UserMessage = Symptoms(query: string) | ImageReport(query: string)

  datatype Request = Request(system: Prompt, user: UserMessage, model: string, maxTokens: nat)

  /** What one `chat.completions.create` call and the read of its first
      choice come to. */
  datatype Outcome =
    | Completion(content: PyValue)   // at least one choice; its message content
    | NoChoices                      // a response whose `choices` is empty
    | GroqError(message: string)     // a `GroqError` raised, with its `str()`
    | OtherError(message: string)    // any other exception, with its `str()`

  type Remote = (Request, nat) -> Outcome

  function TextRequest(query: string, language: string, model: string): Request {
    Request(SymptomsPrompt(Languages.Resolve(language)), Symptoms(query), model, MaxTokens)
  }

  /** The image itself is not part of the request: only the query is. */
  function ImageRequest(query: PyValue, language: string, model: string): Request {
    Request(DermatologyPrompt(Languages.Resolve(language)), ImageReport(ToStr(query)), model, MaxTokens)
  }

  // ---------------------------------------------------------------------
  // Text path

  /** The answer of the text path to an outcome it does not retry. */
  function TextReply(o: Outcome): (r: string)
    ensures o.NoChoices? ==> r == EmptyTextResponse
    ensures o.Completion? && Blank(ToStr(o.content)) ==> r == EmptyTextContent
    ensures o.Completion? && !Blank(ToStr(o.content)) ==> r == ToStr(o.content)
    ensures (o.GroqError? || o.OtherError?) ==> r == TextFailure + o.message
  {
    match o
    case Completion(c) => if Blank(ToStr(c)) then EmptyTextContent else ToStr(c)
    case NoChoices => EmptyTextResponse
    case GroqError(m) => TextFailure + m
    case OtherError(m) => TextFailure + m
  }

  /** A result, the sleeps taken before it (in seconds) and the number of
      requests sent. */
  datatype TextRun = TextRun(result: Option<string>, delays: seq<nat>, sent: nat)

  /** The attempts from `attempt` on: a `GroqError` before the last attempt
      sleeps `attempt + 1` seconds and tries again; any other outcome, or
      any outcome of the last attempt, is answered at once. */
  function Attempts(req: Request, maxRetries: int, remote: Remote, attempt: nat): (run: TextRun)
    requires attempt < maxRetries
    ensures 1 <= run.sent <= maxRetries - attempt
    ensures forall k :: attempt <= k < attempt + run.sent - 1 ==> remote(req, k).GroqError?
    ensures attempt + run.sent < maxRetries ==> !remote(req, attempt + run.sent - 1).GroqError?
    ensures run.result == Some(TextReply(remote(req, attempt + run.sent - 1)))
    ensures run.delays == seq(run.sent - 1, k => attempt + k + 1)
    decreases maxRetries - attempt
  {
    var o := remote(req, attempt);
    if o.GroqError? && attempt < maxRetries - 1 then
      var rest := Attempts(req, maxRetries, remote, attempt + 1);
      TextRun(rest.result, [attempt + 1] + rest.delays, rest.sent + 1)
    else
      TextRun(Some(TextReply(o)), [], 1)
  }

  /** The run is decided by its first attempt that fails with something
      other than a `GroqError`, or else by the last attempt: any `n`
      meeting the contract of `Attempts` is its number of requests. */
  lemma AttemptsDecidedBy(req: Request, maxRetries: int, remote: Remote, n: nat)
    requires 1 <= n <= maxRetries
    requires forall k :: 0 <= k < n - 1 ==> remote(req, k).GroqError?
    requires n < maxRetries ==> !remote(req, n - 1).GroqError?
    ensures Attempts(req, maxRetries, remote, 0)
      == TextRun(Some(TextReply(remote(req, n - 1))), seq(n - 1, k => k + 1), n)
  {
    var run := Attempts(req, maxRetries, remote, 0);
    assert run.sent == n;
  }

  /** `analyze_text_query(query, language, model, max_retries)` without its
      cache. With `max_retries <= 0` the loop never runs and the function
      falls off its end, returning None. No request is sent exactly when the
      query is rejected or the loop never runs; None comes only from a valid
      query with `max_retries <= 0`; at most `max_retries` requests are
      sent. */
  function TextQuery(query: PyValue, language: string, model: string, maxRetries: int, remote: Remote): (run: TextRun)
    ensures run.sent == 0 <==> !IsNonEmptyStr(query) || maxRetries <= 0
    ensures !IsNonEmptyStr(query) ==> run == TextRun(Some(InvalidQuery), [], 0)
    ensures run.result.None? <==> IsNonEmptyStr(query) && maxRetries <= 0
    ensures run.sent > 0 ==> run.sent <= maxRetries
  {
    if !IsNonEmptyStr(query) then TextRun(Some(InvalidQuery), [], 0)
    else if maxRetries <= 0 then TextRun(None, [], 0)
    else Attempts(TextRequest(query.s, language, model), maxRetries, remote, 0)
  }

  /** The retry loop of `analyze_text_query`. */
  method AnalyzeTextQuery(query: PyValue, language: string, model: string, maxRetries: int, remote: Remote)
    returns (result: Option<string>, delays: seq<nat>, sent: nat)
    ensures TextRun(result, delays, sent) == TextQuery(query, language, model, maxRetries, remote)
  {
    if !IsNonEmptyStr(query) {
      return Some(InvalidQuery), [], 0;
    }
    var req := TextRequest(query.s, language, model);
    result, delays, sent := None, [], 0;
    var attempt: nat := 0;
    while attempt < maxRetries
      invariant maxRetries > 0 ==> attempt < maxRetries
      invariant maxRetries <= 0 ==> attempt == 0
      invariant sent == attempt && delays == seq(attempt, k => k + 1)
      invariant forall k :: 0 <= k < attempt ==> remote(req, k).GroqError?
      invariant result == None
      decreases maxRetries - attempt
    {
      var outcome := remote(req, attempt);
      sent := sent + 1;
      if outcome.GroqError? && attempt < maxRetries - 1 {
        delays := delays + [attempt + 1];
        attempt := attempt + 1;
      } else {
        result := Some(TextReply(outcome));
        AttemptsDecidedBy(req, maxRetries, remote, sent);
        return;
      }
    }
  }

  /** An outcome other than a `GroqError` is answered after one request,
      without sleeping: empty choices and blank content by their sentinels,
      other content (converted with `str`) unchanged. */
  lemma NoRetryUnlessGroqError(query: string, language: string, model: string, maxRetries: int, remote: Remote)
    requires query != [] && maxRetries > 0
    requires !remote(TextRequest(query, language, model), 0).GroqError?
    ensures TextQuery(Str(query), language, model, maxRetries, remote)
      == TextRun(Some(TextReply(remote(TextRequest(query, language, model), 0))), [], 1)
  {
  }

  /** Two `GroqError`s and then content: three requests, sleeps of one and
      two seconds, the content returned. */
  lemma TwoFailuresThenContent(query: string, language: string, model: string, remote: Remote, content: string)
    requires query != []
    requires remote(TextRequest(query, language, model), 0).GroqError?
    requires remote(TextRequest(query, language, model), 1).GroqError?
    requires remote(TextRequest(query, language, model), 2) == Completion(Str(content))
    requires !Blank(content)
    ensures TextQuery(Str(query), language, model, DefaultRetries, remote) == TextRun(Some(content), [1, 2], 3)
  {
    var req := TextRequest(query, language, model);
    var run := Attempts(req, 3, remote, 0);
    assert run.sent == 3;
    assert run.delays == [1, 2];
  }

  /** When every attempt fails with a `GroqError`, all `max_retries`
      requests are sent, with sleeps of 1, 2, ..., `max_retries - 1`
      seconds, and the last error is reported. */
  lemma AllGroqErrors(query: string, language: string, model: string, maxRetries: int, remote: Remote)
    requires query != [] && maxRetries > 0
    requires forall k :: 0 <= k < maxRetries ==> remote(TextRequest(query, language, model), k).GroqError?
    ensures var run := TextQuery(Str(query), language, model, maxRetries, remote);
      run.sent == maxRetries
      && run.delays == seq(maxRetries - 1, k => k + 1)
      && run.result == Some(TextFailure + remote(TextRequest(query, language, model), maxRetries - 1).message)
  {
  }

  // ---------------------------------------------------------------------
  // Image path

  /** The image path either answers, or hands the query to the text path. */
  datatype ImageStep = Answer(text: string) | DelegateToText

  datatype ImageRun = ImageRun(step: ImageStep, sent: nat)

  /** `note.get(language, note["English"])`. */
  function Note(language: string): string {
    Notes[Languages.Resolve(language)]
  }

  /** The handler of any exception: a message naming `model_not_found`
      falls back to the text path, any other is reported. */
  function FailureStep(message: string): (step: ImageStep)
    ensures step.DelegateToText? <==> Contains(message, ModelNotFound)
    ensures step.Answer? ==> step.text == VisionFailure + message
  {
    if Contains(message, ModelNotFound) then DelegateToText else Answer(VisionFailure + message)
  }

  /** `analyze_image_with_query(query, encoded_image, language, model)`
      without its cache: a single request, no retry. */
  function ImageQuery(query: PyValue, encodedImage: PyValue, language: string, model: string, remote: Remote): (run: ImageRun)
    ensures run.sent <= 1
    ensures run.sent == 0 <==> !Truthy(query) || !Truthy(encodedImage)
    ensures run.sent == 0 ==> run.step == Answer(MissingParameters)
  {
    if !Truthy(query) || !Truthy(encodedImage) then ImageRun(Answer(MissingParameters), 0)
    else
      var step := match remote(ImageRequest(query, language, model), 0)
        case Completion(c) =>
          if Blank(ToStr(c)) then Answer(EmptyImageResponse) else Answer(ToStr(c) + Note(language))
        case NoChoices => FailureStep(IndexErrorMessage)
        case GroqError(m) => FailureStep(m)
        case OtherError(m) => FailureStep(m);
      ImageRun(step, 1)
  }

  /** Content with text is answered with the note of the language appended
      (English for an unknown language); blank content by its sentinel. */
  lemma ImageContent(query: PyValue, encodedImage: PyValue, language: string, model: string, remote: Remote)
    requires Truthy(query) && Truthy(encodedImage)
    requires remote(ImageRequest(query, language, model), 0).Completion?
    ensures var content := ToStr(remote(ImageRequest(query, language, model), 0).content);
      ImageQuery(query, encodedImage, language, model, remote).step ==
        if Blank(content) then Answer(EmptyImageResponse) else Answer(content + Notes[Languages.Resolve(language)])
  {
  }

  /** A string without the first character of `sub` does not contain `sub`. */
  lemma {:induction false} MissingFirst(s: string, sub: string)
    requires sub != [] && sub[0] !in s
    ensures !Contains(s, sub)
    decreases |s|
  {
    if s != [] {
      assert s[0] in s;
      assert sub[0] !in s[1..] by {
        forall i | 0 <= i < |s| - 1 ensures s[1..][i] != sub[0] {
          assert s[1..][i] == s[i + 1];
        }
      }
      MissingFirst(s[1..], sub);
    }
  }

  /** Empty choices raise an `IndexError`, whose message does not name the
      missing model, so it is reported. */
  lemma ImageNoChoices(query: PyValue, encodedImage: PyValue, language: string, model: string, remote: Remote)
    requires Truthy(query) && Truthy(encodedImage)
    requires remote(ImageRequest(query, language, model), 0).NoChoices?
    ensures ImageQuery(query, encodedImage, language, model, remote).step == Answer(VisionFailure + IndexErrorMessage)
  {
    IndexErrorIsReported();
  }

  /** The `IndexError` message does not contain `model_not_found`: it has
      no letter `m`. */
  lemma IndexErrorIsReported()
    ensures FailureStep(IndexErrorMessage) == Answer(VisionFailure + IndexErrorMessage)
  {
    assert ModelNotFound[0] == 'm';
    assert 'm' !in IndexErrorMessage;
    MissingFirst(IndexErrorMessage, ModelNotFound);
  }

  /** An exception of either kind falls back to the text path exactly when
      its message contains `model_not_found`. */
  lemma ImageErrors(query: PyValue, encodedImage: PyValue, language: string, model: string, remote: Remote)
    requires Truthy(query) && Truthy(encodedImage)
    requires remote(ImageRequest(query, language, model), 0).GroqError?
      || remote(ImageRequest(query, language, model), 0).OtherError?
    ensures var message := remote(ImageRequest(query, language, model), 0).message;
      ImageQuery(query, encodedImage, language, model, remote).step ==
        if Contains(message, ModelNotFound) then DelegateToText else Answer(VisionFailure + message)
  {
  }

  /** The encoded image is only tested for truthiness: its contents never
      affect the answer. */
  lemma ImageIgnored(query: PyValue, image1: PyValue, image2: PyValue, language: string, model: string, remote: Remote)
    requires Truthy(image1) == Truthy(image2)
    ensures ImageQuery(query, image1, language, model, remote) == ImageQuery(query, image2, language, model, remote)
  {
  }
}
