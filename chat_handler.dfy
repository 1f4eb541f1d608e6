/**
 * The two voice-request handlers: the chat turn (quota check, model call,
 * usage commit) and the reprompt counter kept in the session attributes.
 */
module ChatHandler {
  import opened Wrappers
  import opened TokenTracker
  import OpenAIService

  /** The intent of an intent request, with the value of its `query` slot. */
  datatype Intent = Intent(name: string, query: Option<string>)

  /** The parts of a request envelope the handlers read. */
  datatype Request = Request(requestType: string, intent: Option<Intent>, dialogState: Option<string>)

  /** A voice response: speech, an optional reprompt, and whether the session ends. */
  datatype Response = Response(speak: string, reprompt: Option<string>, endSession: bool)

  /** One message sent to the model. */
  datatype Message = Message(role: string, content: string)

  /** The external calls a turn makes, in order. */
  datatype Effect =
    | CheckedLimit(user: UserId)
    | CalledModel(messages: seq<Message>)
    | AddedTokens(user: UserId, tokens: int)

  /** Which store operations of a turn fail: the quota check's read, the commit's read, the commit's write. */
  datatype TurnFaults = TurnFaults(checkReadFails: bool, commitReadFails: bool, commitWriteFails: bool)

  const NoQuestion := Response("I didn't hear a question. What would you like to know?", Some("What would you like to know?"), false)
  const DailyLimitReached := Response("You've reached your daily limit of tokens. Please try again tomorrow.", None, true)
  const Apology := Response("Sorry, I couldn't get a response. Please try again.", Some("What would you like to know?"), false)

  function Answer(text: string): Response {
    Response(text, Some("What else would you like to know?"), false)
  }

  /** A slot value counts as a question only when present and non-empty. */
  predicate HasQuery(query: Option<string>) {
    query.Some? && query.value != ""
  }

  /** The chat handler claims intent requests for `ChatIntent`. */
  function ChatIntentCanHandle(req: Request): (b: bool)
    ensures b ==> req.requestType == "IntentRequest" && req.intent.Some?
  {
    req.requestType == "IntentRequest" && req.intent.Some? && req.intent.value.name == "ChatIntent"
  }

  /**
   * The reprompt handler claims a resumed session, or a fallback intent whose
   * dialog has just started; never a request the chat handler claims.
   */
  function RepromptCanHandle(req: Request): (b: bool)
    ensures b ==> !ChatIntentCanHandle(req)
    ensures req.requestType == "SessionResumedRequest" ==> b
  {
    || req.requestType == "SessionResumedRequest"
    || (&& req.requestType == "IntentRequest"
        && req.intent.Some? && req.intent.value.name == "AMAZON.FallbackIntent"
        && req.dialogState == Some("STARTED"))
  }

  /**
   * One chat turn. `transport` is what the model transport would return if
   * called; `effects` lists the calls the turn actually made.
   */
  method ChatIntentHandle(table: UsageTable, req: Request, userId: UserId, today: TimeZone -> Date,
                          transport: Result<OpenAIService.Completion, string>, faults: TurnFaults)
    returns (resp: Response, effects: seq<Effect>)
    requires ChatIntentCanHandle(req)
    modifies table
    // no question: ask again, touch nothing
    ensures !HasQuery(req.intent.value.query) ==>
      resp == NoQuestion && effects == [] && table.items == old(table.items)
    // the quota check cannot be read: apologise
    ensures HasQuery(req.intent.value.query) && faults.checkReadFails ==>
      resp == Apology && effects == [CheckedLimit(userId)] && table.items == old(table.items)
    // over quota: end the session without calling the model
    ensures HasQuery(req.intent.value.query) && !faults.checkReadFails
            && !Admission(old(table.Lookup(userId)), today).allowed ==>
      resp == DailyLimitReached && effects == [CheckedLimit(userId)] && table.items == old(table.items)
    // admitted and the model call throws: apologise, commit nothing
    ensures HasQuery(req.intent.value.query) && !faults.checkReadFails
            && Admission(old(table.Lookup(userId)), today).allowed
            && OpenAIService.Chat(transport).Failure? ==>
      && resp == Apology
      && effects == [CheckedLimit(userId), CalledModel([Message("user", req.intent.value.query.value)])]
      && table.items == old(table.items)
    // admitted and answered: commit exactly the reported tokens, once
    ensures HasQuery(req.intent.value.query) && !faults.checkReadFails
            && Admission(old(table.Lookup(userId)), today).allowed
            && OpenAIService.Chat(transport).Success? ==>
      var reply := OpenAIService.Chat(transport).value;
      && effects == [CheckedLimit(userId), CalledModel([Message("user", req.intent.value.query.value)]),
                     AddedTokens(userId, reply.tokensUsed)]
      && (faults.commitReadFails || faults.commitWriteFails ==>
            resp == Apology && table.items == old(table.items))
      && (!faults.commitReadFails && !faults.commitWriteFails ==>
            && resp == Answer(reply.response)
            && table.items == old(table.items)[userId := CommittedRecord(old(table.Lookup(userId)), today, reply.tokensUsed)])
    // only a quota block ends the session; every other response reprompts
    ensures resp.endSession <==>
      HasQuery(req.intent.value.query) && !faults.checkReadFails && !Admission(old(table.Lookup(userId)), today).allowed
    ensures resp.endSession <==> resp.reprompt.None?
  {
    var query := req.intent.value.query;
    if query.None? || query.value == "" {
      return NoQuestion, [];
    }
    effects := [CheckedLimit(userId)];
    var tokenStatus := table.CheckTokenLimit(userId, today, faults.checkReadFails);
    if tokenStatus.Failure? {
      return Apology, effects;
    }
    if !tokenStatus.value.allowed {
      return DailyLimitReached, effects;
    }
    var messages := [Message("user", query.value)];
    effects := effects + [CalledModel(messages)];
    var chatResponse := OpenAIService.Chat(transport);
    if chatResponse.Failure? {
      return Apology, effects;
    }
    effects := effects + [AddedTokens(userId, chatResponse.value.tokensUsed)];
    var added := table.AddTokens(userId, chatResponse.value.tokensUsed, today,
                                 faults.commitReadFails, faults.commitWriteFails);
    if added.Failure? {
      return Apology, effects;
    }
    resp := Answer(chatResponse.value.response);
  }

  /** The session attributes the reprompt handler reads and writes back. */
  class SessionAttributes {
    var repromptCount: Option<int>

    constructor (repromptCount: Option<int>)
      ensures this.repromptCount == repromptCount
    {
      this.repromptCount := repromptCount;
    }
  }

  /** The stored count and the response after one reprompt. */
  datatype RepromptTurn = RepromptTurn(count: Option<int>, response: Response)

  /**
   * The reprompt state machine: absent or 0 moves to 1, 1 moves to 2, and any
   * other count says goodbye, ends the session and is left as it was.
   */
  function RepromptStep(stored: Option<int>): (next: RepromptTurn)
    ensures next.response.endSession <==> stored.GetOr(0) != 0 && stored.GetOr(0) != 1
    ensures next.response.endSession ==> next.count == stored && next.response.reprompt.None?
    ensures !next.response.endSession ==>
      next.count == Some(stored.GetOr(0) + 1) && next.response.reprompt == Some(next.response.speak)
  {
    var count := stored.GetOr(0);
    if count == 0 then
      RepromptTurn(Some(1), Response("Still here.", Some("Still here."), false))
    else if count == 1 then
      RepromptTurn(Some(2), Response("Let me know if you need anything else.", Some("Let me know if you need anything else."), false))
    else
      RepromptTurn(stored, Response("Goodbye.", None, true))
  }

  /** Handles one reprompt, updating the count in place. */
  method RepromptHandle(attrs: SessionAttributes) returns (resp: Response)
    modifies attrs
    ensures RepromptTurn(attrs.repromptCount, resp) == RepromptStep(old(attrs.repromptCount))
  {
    var repromptCount := attrs.repromptCount.GetOr(0);
    if repromptCount == 0 {
      attrs.repromptCount := Some(1);
      resp := Response("Still here.", Some("Still here."), false);
    } else if repromptCount == 1 {
      attrs.repromptCount := Some(2);
      resp := Response("Let me know if you need anything else.", Some("Let me know if you need anything else."), false);
    } else {
      resp := Response("Goodbye.", None, true);
    }
  }

  /** The stored count after `n` reprompts. */
  function RepromptRun(stored: Option<int>, n: nat): Option<int>
    decreases n
  {
    if n == 0 then stored else RepromptRun(RepromptStep(stored).count, n - 1)
  }

  function Max(a: int, b: int): int {
    if a < b then b else a
  }

  /** No number of reprompts raises the count beyond 2 (or beyond where it already was). */
  lemma {:induction false} RepromptCountBounded(stored: Option<int>, n: nat)
    ensures RepromptRun(stored, n).GetOr(0) <= Max(stored.GetOr(0), 2)
    decreases n
  {
    if n > 0 {
      var next := RepromptStep(stored).count;
      RepromptCountBounded(next, n - 1);
    }
  }

  /** From a count of 2 or more, every further reprompt leaves the count as it is. */
  lemma {:induction false} GoodbyeIsAbsorbing(stored: Option<int>, n: nat)
    requires stored.GetOr(0) != 0 && stored.GetOr(0) != 1
    ensures RepromptRun(stored, n) == stored
    ensures RepromptStep(RepromptRun(stored, n)).response.endSession
    decreases n
  {
    if n > 0 {
      GoodbyeIsAbsorbing(stored, n - 1);
    }
  }

  /**
   * From a fresh session, the first two reprompts keep the session open and the
   * third and every later one end it.
   */
  lemma RepromptFromFresh(n: nat)
    ensures RepromptRun(None, n) == (if n == 0 then None else if n == 1 then Some(1) else Some(2))
    ensures RepromptStep(RepromptRun(None, n)).response.endSession <==> n >= 2
  {
    if n >= 2 {
      assert RepromptRun(None, n) == RepromptRun(Some(2), n - 2);
      GoodbyeIsAbsorbing(Some(2), n - 2);
    }
  }
}
