/**
 * The language-model call as the turn handler sees it: the transport either
 * throws or returns a completion, which is normalised to a spoken answer and
 * a token count.
 */
module OpenAIService {
  import opened Wrappers

  /** Token counts the provider reports; either may be missing. */
  datatype Usage = Usage(promptTokens: Option<nat>, completionTokens: Option<nat>)

  /** The parts of a chat completion the wrapper reads: the first choice's text and the usage block. */
  datatype Completion = Completion(content: Option<string>, usage: Option<Usage>)

  /** What the wrapper returns. */
  datatype ChatReply = ChatReply(response: string, tokensUsed: nat)

  /** A reported count, missing read as zero. */
  function Reported(usage: Option<Usage>, prompt: bool): nat {
    if usage.None? then 0
    else if prompt then usage.value.promptTokens.GetOr(0)
    else usage.value.completionTokens.GetOr(0)
  }

  /**
   * Normalises one transport outcome. A transport error is rethrown with a
   * fixed prefix; a completion yields its text (empty when none) and the sum of
   * the prompt and completion counts.
   */
  function Chat(transport: Result<Completion, string>): (r: Result<ChatReply, string>)
    ensures r.Failure? <==> transport.Failure?
    ensures r.Failure? ==> r.error == "Failed to get response from OpenAI: " + transport.error
    ensures r.Success? ==> r.value.tokensUsed == Reported(transport.value.usage, true) + Reported(transport.value.usage, false)
    ensures r.Success? && transport.value.usage.None? ==> r.value.tokensUsed == 0
    ensures r.Success? ==> (r.value.response == "" <==> !(transport.value.content.Some? && transport.value.content.value != ""))
    ensures r.Success? && transport.value.content.Some? ==> r.value.response == transport.value.content.value
  {
    match transport
    case Failure(message) => Failure("Failed to get response from OpenAI: " + message)
    case Success(completion) =>
      var response := completion.content.GetOr("");
      Success(ChatReply(response, Reported(completion.usage, true) + Reported(completion.usage, false)))
  }
}
