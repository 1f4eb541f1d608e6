# Daily token quota and chat turn handling for a voice assistant

This project models the core of a voice-assistant backend that forwards a spoken
question to a language model. The model covers two parts.

- **The per-user daily token quota** (`TokenTracker`). The quota table holds one
  item per user: `tokensUsed`, `resetDate` and `timezone`. The table is the
  `items: map<UserId, Record>` field of class `UsageTable`.
  - The admission check only reads the table.
  - The usage commit reads the item, rolls it over lazily and overwrites the whole item.
  - The timezone change keeps usage and reset date and replaces the zone.
  - Rollover rule: stored usage counts only while the item's `resetDate` equals
    "today" in the item's own zone, or in `America/Los_Angeles` when the item has
    no zone. Otherwise the user starts the day at zero.
  - The daily limit is 10000.
- **The request handlers** (`ChatHandler`).
  - `ChatIntentHandle` runs one chat turn: a missing question gets a reprompt. An
    over-quota user gets a goodbye that ends the session. An admitted user gets
    the model's answer, and exactly the tokens that the model call reported are
    committed. Any thrown error gets an apology with a reprompt.
  - `RepromptHandle` runs the three-state reprompt counter kept in the session
    attributes.
- **The model call** (`OpenAIService.Chat`) normalises one transport outcome. A
  missing answer text becomes `""`. Missing token counts are read as 0.

The clock, the key-value store and the model transport are parameters:

- The clock is a function `today: TimeZone -> Date`, passed to each operation.
- A store read or write fails when its `readFails`/`writeFails` flag is set. The
  operation then returns `Failure`/`Fail` and leaves the table unchanged.
- The model transport's outcome is a `Result<Completion, string>` argument of the turn.

`ChatIntentHandle` also returns the list of external calls it made
(`CheckedLimit`, `CalledModel`, `AddedTokens`). Its contract uses this list to
say when the model is not called and when no tokens are committed.

JavaScript truthiness is modelled explicitly. Each item field is an `Option`:

- A missing `tokensUsed` reads as 0.
- A missing or empty `timezone` reads as the default zone.
- A missing `resetDate` never equals today, so the item is stale.
- In a timezone change, a missing or empty `resetDate` is replaced by today in
  the new zone.

## Model

| member | source | states |
|---|---|---|
| `TokenTracker.Remaining` | lambda/services/tokenTracker.js:81 | Tokens remaining are never negative. They are zero exactly when usage is at or past the limit. For usage within the limit, usage plus remaining is the limit. |
| `TokenTracker.EffectiveTimezone` | lambda/services/tokenTracker.js:68-69 | The zone for "today" is never empty. It is the item's stored zone when the item has a non-empty one. Otherwise it is the default zone, and never a zone a caller supplies. |
| `TokenTracker.Admission` | lambda/services/tokenTracker.js:71-87 | With no item, or a stale one, the result is allowed, 0 used and 10000 remaining, whatever the stored usage. Otherwise it reports the carried usage. Remaining is the limit minus usage, floored at 0. Allowed holds exactly when some tokens remain. |
| `TokenTracker.CommittedRecord` | lambda/services/tokenTracker.js:95-107 | The item a commit writes is current today. It keeps the prior item's effective zone. Its usage is the carried usage plus the tokens added. |
| `TokenTracker.RetimedRecord` | lambda/services/tokenTracker.js:120-133 | A timezone change writes the new zone. It keeps the stored usage, with missing read as 0, and keeps a non-empty reset date. An existing item with a missing or empty reset date gets today in the new zone. With no prior item it writes 0 used, dated today in the new zone. |
| `TokenTracker.UsageTable.GetTokenUsage` | lambda/services/tokenTracker.js:22-35 | A read fails exactly when the store fails. Otherwise it returns the user's item exactly when one is stored. |
| `TokenTracker.UsageTable.UpdateTokenUsage` | lambda/services/tokenTracker.js:40-60 | On success the user's item is overwritten with the given count, today's date and the zone, which defaults when omitted. Every other user's item is unchanged. On a write failure nothing changes. |
| `TokenTracker.UsageTable.CheckTokenLimit` | lambda/services/tokenTracker.js:66-88 | Reads only. The result is the admission decision on the stored item. A user with no item is allowed with the full limit. A read failure is reported as such. |
| `TokenTracker.UsageTable.AddTokens` | lambda/services/tokenTracker.js:94-114 | The new total is the carried usage plus the tokens added. Only this user's item is overwritten, with the committed item. The result reports the total and the remaining tokens, floored at 0. It reports the limit reached exactly when the total is at least the limit. A read or write failure leaves the table unchanged. |
| `TokenTracker.UsageTable.SetUserTimezone` | lambda/services/tokenTracker.js:119-136 | On success only this user's item is overwritten, with the retimed item. On a read or write failure the table is unchanged. |
| `TokenTracker.CheckAfterCommit` | lambda/services/tokenTracker.js:109-113 | After a commit, a same-day admission check sees exactly the committed total. It blocks exactly when the commit reported the limit reached. |
| `TokenTracker.SameDayCommitsAccumulate` | lambda/services/tokenTracker.js:99-106 | Any sequence of same-day commits leaves carried usage equal to the prior carried usage plus the sum of all batches. |
| `TokenTracker.FreshUserCommits` | lambda/services/tokenTracker.js:102-106 | A fresh user committing T has used T, stored under the default zone. A second same-day commit of U gives T + U. |
| `TokenTracker.NearLimitExample` | lambda/services/tokenTracker.js:80-84 | At 9999 used the user is admitted. After committing 5 the total is at least the limit, and the next same-day check blocks. |
| `TokenTracker.RetimeOnSameDate` | lambda/services/tokenTracker.js:119-122 | Moving a user to a zone on the same calendar date leaves the admission decision unchanged, when the item has a reset date or there is no item. |
| `TokenTracker.RetimeRevivesUndatedUsage` | lambda/services/tokenTracker.js:119-122 | An item without a reset date is stale, so it is admitted with 0 used. After a timezone change it is dated today in the new zone, its stored usage counts again, and it is admitted only if that usage is under the limit. |
| `TokenTracker.RetimeBlocksUndatedOverLimit` | lambda/services/tokenTracker.js:119-122 | The item with 50000 used and no reset date or zone is admitted. After a change to the default zone the same user is blocked. |
| `OpenAIService.Chat` | lambda/services/openaiService.js:13-31 | A transport error is rethrown with the fixed prefix. Otherwise tokens used is the prompt count plus the completion count, each missing count read as 0. The answer is the completion text, or empty when there is none. |
| `ChatHandler.ChatIntentCanHandle` | lambda/handlers/chatHandler.js:5-8 | The handler claims only intent requests that carry an intent, which the handle step reads. |
| `ChatHandler.RepromptCanHandle` | lambda/handlers/chatHandler.js:47-52 | The reprompt handler claims every resumed session. It never claims a request the chat handler claims. |
| `ChatHandler.ChatIntentHandle` | lambda/handlers/chatHandler.js:9-43 | Missing question: reprompt, no calls, table unchanged. Quota read fails: apology. Over quota: the session ends, the model is not called and nothing is committed. Model call throws: apology, nothing committed. Answered: exactly one commit, of the reported tokens, and the answer is spoken with a reprompt. A failed commit gives an apology. Only the quota block ends the session. |
| `ChatHandler.RepromptStep` | lambda/handlers/chatHandler.js:53-77 | A count of 0 or absent goes to 1, and 1 goes to 2, each with a reprompt that repeats the speech. Any other count says goodbye, ends the session and keeps the count. Only that last case ends the session. |
| `ChatHandler.RepromptHandle` | lambda/handlers/chatHandler.js:54-76 | The session attributes' count and the response are those of one reprompt step, updated in place. |
| `ChatHandler.RepromptCountBounded` | lambda/handlers/chatHandler.js:55-76 | No number of reprompts raises the count above 2, or above where it already was. |
| `ChatHandler.GoodbyeIsAbsorbing` | lambda/handlers/chatHandler.js:71-75 | Once the count is neither 0 nor 1, every further reprompt keeps it and ends the session. |
| `ChatHandler.RepromptFromFresh` | lambda/handlers/chatHandler.js:55-76 | From a fresh session the counts run absent, 1, 2, 2, and so on. The first two reprompts keep the session open. The third and every later one end it. |

## Left out

- The DynamoDB client, the Get/Put command plumbing, console logging and the
  `lastUpdated` timestamp are not modelled. The table is a map. A store failure
  is a flag that makes the operation fail without changing the table.
- The real clock and timezone formatting (`toLocaleDateString` with a zone) are
  not modelled. "Today" is a caller-supplied function from zone to date string.
- `TokenTracker.UsageTable.SetUserTimezone`, `TokenTracker.UsageTable.CheckTokenLimit`,
  `TokenTracker.UsageTable.AddTokens`: formatting today's date throws for a zone
  name the platform does not know. "Today" is a total function here, so that
  failure is not modelled. In the source, a timezone change to an unknown zone
  throws and writes nothing when the item has no reset date. When the item has
  one, the unknown zone is stored unchecked, and every later check and commit
  for that user throws, so each chat turn gets the apology. The model's methods
  succeed in both cases.
- `ChatHandler.ChatIntentHandle`: one clock serves both the quota check and the
  commit of a turn. The source reads the clock separately in each, so a turn
  that straddles midnight is not modelled.
- The table name and the parsing of the limit and default zone from the
  environment are not modelled. The limit (10000) and zone
  (`America/Los_Angeles`) are constants.
- Concurrent turns for one user, and the lost update that the read-then-write
  commit allows between them, are not modelled. Calls are sequential.
- JavaScript numbers are unbounded integers here. Fractional or NaN counts and
  floating-point rounding of very large totals are not modelled.
- `ChatHandler.ChatIntentCanHandle`, `ChatHandler.RepromptCanHandle`: an intent
  request with no intent object makes the source throw. The model treats it as
  not claimed. The platform always sends an intent with an intent request.
- `ChatHandler.ChatIntentHandle`: a missing `slots.query` object makes the source
  throw before the `try` block. The model treats it like a missing slot value.
- The model transport and the OpenAI SDK are not modelled. The transport is an
  argument of the turn, and only the normalisation in `OpenAIService.Chat` is modelled.
- Registering handlers with the platform SDK (lambda/index.js) is not modelled.
  `RepromptHandle` is modelled standalone: lambda/index.js never registers it,
  so the deployed skill never reaches it.
- The help, launch, cancel/stop, fallback, session-ended and error handlers and
  the response helpers are not modelled. They return fixed texts.
- Conversation history, summarisation, model-call retries and answer truncation
  are not modelled. No file of this repository implements them. A turn sends
  the single user message.
