/**
 * The calls to the local inference service: the two prompt senders with
 * their empty-argument guards, the extraction of the generated text from a
 * reply, and the preload gate that forces a model into memory.
 *
 * The service is an oracle: `post` gives the outcome of POSTing a chat
 * completion request, `list` the outcome of GETting the model listing right
 * after a model was asked to load.
 */
module Inference {
  import opened Wrappers
  import opened Strings

  /** One entry of a reply's `choices`; `content` is `choices[k].message.content`. */
  datatype Choice = Choice(content: string)

  /**
   * A chat completion request: the URL it is POSTed to, the model, which
   * fixed system message it carries, and the content of the user message. The fixed remainder of the
   * JSON body (temperature, max_tokens, stream) is not represented.
   */
  datatype Request = Request(url: string, model: string, system: SystemMessage, user: string)

  /**
   * The three fixed system messages, by kind: the preload instruction and the
   * solving and grading rubrics. Their wording is not represented.
   */
  datatype SystemMessage = PreloadSystem | BenchmarkingSystem | EvaluationSystem

  /** What a POST gives back: an exception, or an HTTP status with the `choices` of its JSON body, if any. */
  datatype Transport = Raised(reason: string) | Answered(status: int, choices: Option<seq<Choice>>)

  /** What the GET of the model listing gives back: an exception, or a status with the `state` of each `data` entry. */
  datatype Listing = ListingRaised(reason: string) | Listed(status: int, states: seq<string>)

  /** The inference service as seen from this program. */
  datatype Service = Service(post: Request -> Transport, list: (string, string) -> Listing)

  /**
   * The dictionary a sender returns: the server's JSON body (represented by
   * its `choices` entry), or a one-entry error dictionary `{key: detail}`.
   */
  datatype Reply = Completion(choices: Option<seq<Choice>>) | ErrorDict(key: string, detail: string)

  const ErrorKey: string := "error"
  const TransportErrorKey: string := "Error while sending request to the LLM Server"
  const NoResponse: string := "No response from the model"
  const StatusFailurePrefix: string := "Request failed with status code "
  const NotLoaded: string := "not-loaded"
  const BenchmarkingPromptHead: string := "\n**Challenge Description:**  \n\""
  const BenchmarkingPromptTail: string := "\"\n"
  const EvaluationPromptHead: string := "\n**Reference Solution:**\n"
  const EvaluationPromptMiddle: string := " \n**LLM Response:**\n"
  const EvaluationPromptTail: string := "\n"

  /** The user message of a solving request: the challenge description inside the fixed template. */
  function BenchmarkingUserPrompt(description: string): string
  {
    BenchmarkingPromptHead + description + BenchmarkingPromptTail
  }

  /** The user message of a grading request: the reference solution and the generated response inside the rubric template. */
  function EvaluationUserPrompt(solution: string, response: string): string
  {
    EvaluationPromptHead + solution + EvaluationPromptMiddle + response + EvaluationPromptTail
  }

  /** Recovers the challenge description from a solving prompt. */
  function DescriptionOf(prompt: string): string
    requires |prompt| >= |BenchmarkingPromptHead| + |BenchmarkingPromptTail|
  {
    prompt[|BenchmarkingPromptHead|..|prompt| - |BenchmarkingPromptTail|]
  }

  /** The solving prompt carries the description unchanged: it can be read back. */
  lemma DescriptionRoundTrip(description: string)
    ensures |BenchmarkingUserPrompt(description)| >= |BenchmarkingPromptHead| + |BenchmarkingPromptTail|
    ensures DescriptionOf(BenchmarkingUserPrompt(description)) == description
  {
    var p := BenchmarkingUserPrompt(description);
    assert p[|BenchmarkingPromptHead|..|p| - |BenchmarkingPromptTail|] == description;
  }

  /** The grading prompt carries the reference solution right after its head and the response right before its tail. */
  lemma EvaluationPromptEmbeds(solution: string, response: string)
    ensures var p := EvaluationUserPrompt(solution, response);
      var s := |EvaluationPromptHead|;
      |p| == s + |solution| + |EvaluationPromptMiddle| + |response| + |EvaluationPromptTail|
      && p[s..s + |solution|] == solution
      && p[|p| - |EvaluationPromptTail| - |response|..|p| - |EvaluationPromptTail|] == response
  {
    var p := EvaluationUserPrompt(solution, response);
    var s := |EvaluationPromptHead|;
    assert p[s..s + |solution|] == solution;
    assert p[|p| - |EvaluationPromptTail| - |response|..|p| - |EvaluationPromptTail|] == response;
  }

  /**
   * The message of the first argument, in the given order, that is empty
   * (Python's `not x` on a string), or None when none is.
   */
  function FirstEmpty(guards: seq<(string, string)>): (r: Option<string>)
  {
    if |guards| == 0 then None
    else if guards[0].0 == "" then Some(guards[0].1)
    else FirstEmpty(guards[1..])
  }

  /** `FirstEmpty` names exactly the earliest empty argument, and is None only when none is empty. */
  lemma {:induction false} FirstEmptySpec(guards: seq<(string, string)>)
    ensures FirstEmpty(guards).None? <==> forall k :: 0 <= k < |guards| ==> guards[k].0 != ""
    ensures FirstEmpty(guards).Some? ==>
      exists k :: 0 <= k < |guards| && guards[k].0 == "" && FirstEmpty(guards).value == guards[k].1
        && forall j :: 0 <= j < k ==> guards[j].0 != ""
  {
    if |guards| > 0 && guards[0].0 != "" {
      FirstEmptySpec(guards[1..]);
      if FirstEmpty(guards).Some? {
        var k :| 0 <= k < |guards[1..]| && guards[1..][k].0 == "" && FirstEmpty(guards[1..]).value == guards[1..][k].1
          && forall j :: 0 <= j < k ==> guards[1..][j].0 != "";
        assert guards[k + 1] == guards[1..][k];
        assert forall j :: 0 <= j < k + 1 ==> guards[j].0 != "" by {
          forall j | 0 <= j < k + 1 ensures guards[j].0 != "" {
            if j > 0 { assert guards[j] == guards[1..][j - 1]; }
          }
        }
      }
    } else if |guards| > 0 {
      assert guards[0].0 == "";
    }
  }

  /** `FirstEmpty` checks the first guard, then the rest. */
  lemma FirstEmptyCons(head: (string, string), rest: seq<(string, string)>)
    ensures FirstEmpty([head] + rest) == if head.0 == "" then Some(head.1) else FirstEmpty(rest)
  {
    assert ([head] + rest)[1..] == rest;
  }

  /** The guards of `send_benchmarking_prompt`, in the order they are checked. */
  function BenchmarkingGuards(prompt: string, model: string, llmUrl: string): seq<(string, string)>
  {
    [(prompt, "Message is empty"), (model, "Model is empty"), (llmUrl, "LLM URL is empty")]
  }

  /** The guards of `send_evaluation_prompt`, in the order they are checked. */
  function EvaluationGuards(solution: string, response: string, model: string, llmUrl: string): seq<(string, string)>
  {
    [(solution, "Solution is empty"), (response, "LLM Response is empty"), (model, "Model is empty"), (llmUrl, "LLM URL is empty")]
  }

  /** POSTs a request and turns the outcome into the dictionary the senders return. */
  function Deliver(request: Request, service: Service): (r: Reply)
    ensures r.Completion? <==> service.post(request).Answered? && service.post(request).status == 200
    ensures service.post(request).Raised? ==> r == ErrorDict(TransportErrorKey, service.post(request).reason)
    ensures r.Completion? ==> r.choices == service.post(request).choices
    ensures r.ErrorDict? && service.post(request).Answered? ==> r.key == ErrorKey && r.detail == StatusFailurePrefix + IntToString(service.post(request).status)
  {
    match service.post(request)
    case Raised(reason) => ErrorDict(TransportErrorKey, reason)
    case Answered(status, choices) =>
      if status == 200 then Completion(choices)
      else ErrorDict(ErrorKey, StatusFailurePrefix + IntToString(status))
  }

  /** `send_benchmarking_prompt`. */
  function SendBenchmarkingPrompt(prompt: string, model: string, llmUrl: string, service: Service): (r: Reply)
    ensures FirstEmpty(BenchmarkingGuards(prompt, model, llmUrl)).Some? ==>
      r == ErrorDict(ErrorKey, FirstEmpty(BenchmarkingGuards(prompt, model, llmUrl)).value)
    ensures FirstEmpty(BenchmarkingGuards(prompt, model, llmUrl)).None? ==>
      r == Deliver(Request(llmUrl, model, BenchmarkingSystem, BenchmarkingUserPrompt(prompt)), service)
  {
    FirstEmptyCons((prompt, "Message is empty"), [(model, "Model is empty"), (llmUrl, "LLM URL is empty")]);
    FirstEmptyCons((model, "Model is empty"), [(llmUrl, "LLM URL is empty")]);
    FirstEmptyCons((llmUrl, "LLM URL is empty"), []);
    if prompt == "" then ErrorDict(ErrorKey, "Message is empty")
    else if model == "" then ErrorDict(ErrorKey, "Model is empty")
    else if llmUrl == "" then ErrorDict(ErrorKey, "LLM URL is empty")
    else Deliver(Request(llmUrl, model, BenchmarkingSystem, BenchmarkingUserPrompt(prompt)), service)
  }

  /** `send_evaluation_prompt`. */
  function SendEvaluationPrompt(solution: string, response: string, model: string, llmUrl: string, service: Service): (r: Reply)
    ensures FirstEmpty(EvaluationGuards(solution, response, model, llmUrl)).Some? ==>
      r == ErrorDict(ErrorKey, FirstEmpty(EvaluationGuards(solution, response, model, llmUrl)).value)
    ensures FirstEmpty(EvaluationGuards(solution, response, model, llmUrl)).None? ==>
      r == Deliver(Request(llmUrl, model, EvaluationSystem, EvaluationUserPrompt(solution, response)), service)
  {
    FirstEmptyCons((solution, "Solution is empty"), [(response, "LLM Response is empty"), (model, "Model is empty"), (llmUrl, "LLM URL is empty")]);
    FirstEmptyCons((response, "LLM Response is empty"), [(model, "Model is empty"), (llmUrl, "LLM URL is empty")]);
    FirstEmptyCons((model, "Model is empty"), [(llmUrl, "LLM URL is empty")]);
    FirstEmptyCons((llmUrl, "LLM URL is empty"), []);
    if solution == "" then ErrorDict(ErrorKey, "Solution is empty")
    else if response == "" then ErrorDict(ErrorKey, "LLM Response is empty")
    else if model == "" then ErrorDict(ErrorKey, "Model is empty")
    else if llmUrl == "" then ErrorDict(ErrorKey, "LLM URL is empty")
    else Deliver(Request(llmUrl, model, EvaluationSystem, EvaluationUserPrompt(solution, response)), service)
  }

  /** Python truthiness of `response.get("choices")`: present and non-empty. */
  predicate HasChoices(reply: Reply)
  {
    reply.Completion? && reply.choices.Some? && |reply.choices.value| > 0
  }

  /** The text the orchestrator keeps from a reply: the first choice's content, or the fallback. */
  function ReplyText(reply: Reply): string
  {
    if HasChoices(reply) then reply.choices.value[0].content else NoResponse
  }

  /**
   * A delivered request yields the first choice's content exactly when the
   * service answered 200 with a non-empty `choices` list; a raised request,
   * another status, or a missing or empty list all yield the fallback.
   */
  lemma DeliveredText(request: Request, service: Service)
    ensures var t := service.post(request);
      ReplyText(Deliver(request, service)) ==
        if t.Answered? && t.status == 200 && t.choices.Some? && |t.choices.value| > 0
        then t.choices.value[0].content
        else NoResponse
  {
  }

  /**
   * An empty argument stops `send_benchmarking_prompt` before the service is
   * contacted: the reply is the same for every service, has no choices, and
   * so reads as the fallback text.
   */
  lemma {:induction false} BenchmarkingGuardFallsBack(prompt: string, model: string, llmUrl: string, s1: Service, s2: Service)
    requires prompt == "" || model == "" || llmUrl == ""
    ensures SendBenchmarkingPrompt(prompt, model, llmUrl, s1) == SendBenchmarkingPrompt(prompt, model, llmUrl, s2)
    ensures !HasChoices(SendBenchmarkingPrompt(prompt, model, llmUrl, s1))
    ensures ReplyText(SendBenchmarkingPrompt(prompt, model, llmUrl, s1)) == NoResponse
  {
    var g := BenchmarkingGuards(prompt, model, llmUrl);
    FirstEmptySpec(g);
    assert g[0].0 == prompt && g[1].0 == model && g[2].0 == llmUrl;
  }

  /** The same for `send_evaluation_prompt` and its four arguments. */
  lemma {:induction false} EvaluationGuardFallsBack(solution: string, response: string, model: string, llmUrl: string, s1: Service, s2: Service)
    requires solution == "" || response == "" || model == "" || llmUrl == ""
    ensures SendEvaluationPrompt(solution, response, model, llmUrl, s1) == SendEvaluationPrompt(solution, response, model, llmUrl, s2)
    ensures !HasChoices(SendEvaluationPrompt(solution, response, model, llmUrl, s1))
    ensures ReplyText(SendEvaluationPrompt(solution, response, model, llmUrl, s1)) == NoResponse
  {
    var g := EvaluationGuards(solution, response, model, llmUrl);
    FirstEmptySpec(g);
    assert g[0].0 == solution && g[1].0 == response && g[2].0 == model && g[3].0 == llmUrl;
  }

  /** What `load_model` returns: a boolean, or the error dictionary of its `except` branch. */
  datatype LoadResult = Decided(loaded: bool) | LoadRaised(detail: string)

  /** Python truthiness of the result: the error dictionary is non-empty, hence true. */
  predicate Truthy(r: LoadResult)
  {
    r.LoadRaised? || r.loaded
  }

  /**
   * `load_model`. An IndexError from an empty `data` list happens inside the
   * `try` and so ends in the error dictionary, as every exception does.
   */
  function LoadModel(model: string, promptUrl: string, modelsUrl: string, service: Service): LoadResult
  {
    if model == "" || promptUrl == "" then Decided(false)
    else match service.post(Request(promptUrl, model, PreloadSystem, ""))
      case Raised(reason) => LoadRaised(reason)
      case Answered(status, _) =>
        if status != 200 then Decided(false)
        else match service.list(modelsUrl, model)
          case ListingRaised(reason) => LoadRaised(reason)
          case Listed(listStatus, states) =>
            if listStatus != 200 then Decided(false)
            else if |states| == 0 then LoadRaised("list index out of range")
            else Decided(states[0] != NotLoaded)
  }

  /** The cases in which `load_model` answers False. */
  predicate LoadRefused(model: string, promptUrl: string, modelsUrl: string, service: Service)
  {
    var load := service.post(Request(promptUrl, model, PreloadSystem, ""));
    var listing := service.list(modelsUrl, model);
    || model == ""
    || promptUrl == ""
    || (load.Answered? && load.status != 200)
    || (load.Answered? && load.status == 200 && listing.Listed? && listing.status != 200)
    || (load.Answered? && load.status == 200 && listing.Listed? && listing.status == 200
        && |listing.states| > 0 && listing.states[0] == NotLoaded)
  }

  /**
   * The caller keeps a model exactly when `load_model` did not refuse it:
   * an exception anywhere in the two requests counts as success.
   */
  lemma PreloadDecision(model: string, promptUrl: string, modelsUrl: string, service: Service)
    ensures Truthy(LoadModel(model, promptUrl, modelsUrl, service)) <==> !LoadRefused(model, promptUrl, modelsUrl, service)
    ensures LoadModel(model, promptUrl, modelsUrl, service).LoadRaised? ==>
      model != "" && promptUrl != "" &&
      (service.post(Request(promptUrl, model, PreloadSystem, "")).Raised?
       || service.list(modelsUrl, model).ListingRaised?
       || service.list(modelsUrl, model).states == [])
  {
  }
}
