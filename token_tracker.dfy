/**
 * The per-user daily token quota. One record per user in a key-value table;
 * usage rolls over lazily: stored usage counts only while the record's reset
 * date is "today" in the record's own timezone.
 */
module TokenTracker {
  import opened Wrappers

  type UserId = string
  /** An IANA zone name such as "America/Los_Angeles". */
  type TimeZone = string
  /** A calendar date as the platform formats it (YYYY-MM-DD). */
  type Date = string

  const DAILY_LIMIT: nat := 10000
  const DEFAULT_TIMEZONE: TimeZone := "America/Los_Angeles"

  /**
   * A stored item. Every field may be missing in an item the table holds;
   * the writes below always fill all three.
   */
  datatype Record = Record(tokensUsed: Option<int>, resetDate: Option<Date>, timezone: Option<TimeZone>)

  /** What the admission check reports. */
  datatype LimitStatus = LimitStatus(allowed: bool, tokensUsed: int, tokensRemaining: nat)

  /** What a usage commit reports. */
  datatype AddResult = AddResult(tokensUsed: int, tokensRemaining: nat, limitReached: bool)

  /** A read (GetCommand) or a write (PutCommand) against the table failed. */
  datatype StoreError = ReadFailed | WriteFailed

  /** A string field counts only when present and non-empty (JavaScript truthiness). */
  predicate Truthy(s: Option<string>) {
    s.Some? && s.value != ""
  }

  /** Stored usage, a missing count read as zero. */
  function StoredUsage(rec: Record): int {
    rec.tokensUsed.GetOr(0)
  }

  /** Tokens left today for a given usage: never negative, zero exactly at or past the limit. */
  function Remaining(used: int): (r: nat)
    ensures r == 0 <==> used >= DAILY_LIMIT
    ensures used <= DAILY_LIMIT ==> used + r == DAILY_LIMIT
    ensures 0 <= used ==> r <= DAILY_LIMIT
  {
    if used < DAILY_LIMIT then DAILY_LIMIT - used else 0
  }

  /**
   * The zone in which "today" is computed for a user: the stored zone when
   * there is one, otherwise the default; never a zone a caller passes in.
   */
  function EffectiveTimezone(prior: Option<Record>): (tz: TimeZone)
    ensures tz != ""
    ensures tz == DEFAULT_TIMEZONE || (prior.Some? && prior.value.timezone == Some(tz))
    ensures prior.Some? && Truthy(prior.value.timezone) ==> tz == prior.value.timezone.value
  {
    if prior.Some? && Truthy(prior.value.timezone) then prior.value.timezone.value else DEFAULT_TIMEZONE
  }

  /** The record covers today: it exists and its reset date is today in its zone. */
  predicate IsCurrent(prior: Option<Record>, today: TimeZone -> Date) {
    prior.Some? && prior.value.resetDate == Some(today(EffectiveTimezone(prior)))
  }

  /** The rollover rule: usage carried into today. */
  function CarriedUsage(prior: Option<Record>, today: TimeZone -> Date): int {
    if IsCurrent(prior, today) then StoredUsage(prior.value) else 0
  }

  /** The admission decision on a fetched record. */
  function Admission(prior: Option<Record>, today: TimeZone -> Date): (s: LimitStatus)
    ensures !IsCurrent(prior, today) ==> s == LimitStatus(true, 0, DAILY_LIMIT)
    ensures s.tokensUsed == CarriedUsage(prior, today)
    ensures s.tokensRemaining == Remaining(s.tokensUsed)
    ensures s.allowed <==> s.tokensRemaining > 0
  {
    if !IsCurrent(prior, today) then
      LimitStatus(true, 0, DAILY_LIMIT)
    else
      var used := StoredUsage(prior.value);
      LimitStatus(used < DAILY_LIMIT, used, Remaining(used))
  }

  /** The item a usage commit writes. */
  function CommittedRecord(prior: Option<Record>, today: TimeZone -> Date, tokensToAdd: int): (rec: Record)
    ensures IsCurrent(Some(rec), today)
    ensures EffectiveTimezone(Some(rec)) == EffectiveTimezone(prior)
    ensures StoredUsage(rec) == CarriedUsage(prior, today) + tokensToAdd
  {
    var tz := EffectiveTimezone(prior);
    Record(Some(CarriedUsage(prior, today) + tokensToAdd), Some(today(tz)), Some(tz))
  }

  /** The item a timezone change writes: usage and reset date kept, zone replaced. */
  function RetimedRecord(prior: Option<Record>, timezone: TimeZone, today: TimeZone -> Date): (rec: Record)
    ensures rec.timezone == Some(timezone)
    ensures rec.tokensUsed.Some?
    ensures prior.Some? ==> StoredUsage(rec) == StoredUsage(prior.value)
    ensures prior.Some? && Truthy(prior.value.resetDate) ==> rec.resetDate == prior.value.resetDate
    ensures prior.Some? && !Truthy(prior.value.resetDate) ==> rec.resetDate == Some(today(timezone))
    ensures prior.None? ==> rec == Record(Some(0), Some(today(timezone)), Some(timezone))
  {
    var tokensUsed := if prior.Some? then StoredUsage(prior.value) else 0;
    var resetDate := if prior.Some? && Truthy(prior.value.resetDate) then prior.value.resetDate.value else today(timezone);
    Record(Some(tokensUsed), Some(resetDate), Some(timezone))
  }

  /** The quota table, keyed by user. Calls are sequential; each call reads the clock through `today`. */
  class UsageTable {
    var items: map<UserId, Record>

    constructor (initial: map<UserId, Record>)
      ensures items == initial
    {
      items := initial;
    }

    /** The stored item for a user, if any. */
    function Lookup(userId: UserId): (r: Option<Record>)
      reads this
      ensures r.Some? <==> userId in items
      ensures r.Some? ==> r.value == items[userId]
    {
      if userId in items then Some(items[userId]) else None
    }

    /** Fetches a user's item; a failing read throws. */
    method GetTokenUsage(userId: UserId, readFails: bool) returns (r: Result<Option<Record>, StoreError>)
      ensures readFails <==> r.Failure?
      ensures r.Failure? ==> r.error == ReadFailed
      ensures r.Success? ==> (r.value.Some? <==> userId in items)
      ensures r.Success? && r.value.Some? ==> r.value.value == items[userId]
    {
      if readFails {
        r := Failure(ReadFailed);
      } else {
        r := Success(Lookup(userId));
      }
    }

    /** Overwrites a user's item with a usage count dated today in `timezone` (the default when omitted). */
    method UpdateTokenUsage(userId: UserId, tokensUsed: int, timezone: Option<TimeZone>,
                            today: TimeZone -> Date, writeFails: bool)
      returns (r: Outcome<StoreError>)
      modifies this
      ensures writeFails ==> r == Fail(WriteFailed) && items == old(items)
      ensures !writeFails ==>
        var tz := timezone.GetOr(DEFAULT_TIMEZONE);
        r == Pass && items == old(items)[userId := Record(Some(tokensUsed), Some(today(tz)), Some(tz))]
    {
      var tz := timezone.GetOr(DEFAULT_TIMEZONE);
      if writeFails {
        r := Fail(WriteFailed);
      } else {
        items := items[userId := Record(Some(tokensUsed), Some(today(tz)), Some(tz))];
        r := Pass;
      }
    }

    /** May this user make a request today? Only reads the table. */
    method CheckTokenLimit(userId: UserId, today: TimeZone -> Date, readFails: bool)
      returns (r: Result<LimitStatus, StoreError>)
      ensures readFails ==> r == Failure(ReadFailed)
      ensures !readFails ==> r == Success(Admission(Lookup(userId), today))
      ensures !readFails && userId !in items ==> r == Success(LimitStatus(true, 0, DAILY_LIMIT))
    {
      var fetched := GetTokenUsage(userId, readFails);
      if fetched.Failure? {
        return Failure(fetched.error);
      }
      var prior := fetched.value;
      var timezone := EffectiveTimezone(prior);
      var todayDate := today(timezone);
      if prior.None? || prior.value.resetDate != Some(todayDate) {
        return Success(LimitStatus(true, 0, DAILY_LIMIT));
      }
      var tokensUsed := StoredUsage(prior.value);
      var tokensRemaining := if DAILY_LIMIT - tokensUsed > 0 then DAILY_LIMIT - tokensUsed else 0;
      r := Success(LimitStatus(tokensUsed < DAILY_LIMIT, tokensUsed, tokensRemaining));
    }

    /**
     * Adds a turn's tokens to today's usage, rolling over a stale record to
     * zero first, and overwrites the user's whole item.
     */
    method AddTokens(userId: UserId, tokensToAdd: int, today: TimeZone -> Date, readFails: bool, writeFails: bool)
      returns (r: Result<AddResult, StoreError>)
      modifies this
      ensures readFails ==> r == Failure(ReadFailed) && items == old(items)
      ensures !readFails && writeFails ==> r == Failure(WriteFailed) && items == old(items)
      ensures !readFails && !writeFails ==>
        var prior := old(Lookup(userId));
        var total := CarriedUsage(prior, today) + tokensToAdd;
        && r == Success(AddResult(total, Remaining(total), total >= DAILY_LIMIT))
        && items == old(items)[userId := CommittedRecord(prior, today, tokensToAdd)]
    {
      var fetched := GetTokenUsage(userId, readFails);
      if fetched.Failure? {
        return Failure(fetched.error);
      }
      var prior := fetched.value;
      var timezone := EffectiveTimezone(prior);
      var todayDate := today(timezone);
      var currentTokens := 0;
      if prior.Some? && prior.value.resetDate == Some(todayDate) {
        currentTokens := StoredUsage(prior.value);
      }
      var newTotal := currentTokens + tokensToAdd;
      var written := UpdateTokenUsage(userId, newTotal, Some(timezone), today, writeFails);
      if written.Fail? {
        return Failure(written.error);
      }
      var tokensRemaining := if DAILY_LIMIT - newTotal > 0 then DAILY_LIMIT - newTotal else 0;
      r := Success(AddResult(newTotal, tokensRemaining, newTotal >= DAILY_LIMIT));
    }

    /** Replaces a user's timezone, keeping usage and reset date. */
    method SetUserTimezone(userId: UserId, timezone: TimeZone, today: TimeZone -> Date, readFails: bool, writeFails: bool)
      returns (r: Outcome<StoreError>)
      modifies this
      ensures readFails ==> r == Fail(ReadFailed) && items == old(items)
      ensures !readFails && writeFails ==> r == Fail(WriteFailed) && items == old(items)
      ensures !readFails && !writeFails ==>
        r == Pass && items == old(items)[userId := RetimedRecord(old(Lookup(userId)), timezone, today)]
    {
      var fetched := GetTokenUsage(userId, readFails);
      if fetched.Failure? {
        return Fail(fetched.error);
      }
      var prior := fetched.value;
      var tokensUsed := if prior.Some? then StoredUsage(prior.value) else 0;
      var resetDate := if prior.Some? && Truthy(prior.value.resetDate) then prior.value.resetDate.value else today(timezone);
      if writeFails {
        return Fail(WriteFailed);
      }
      items := items[userId := Record(Some(tokensUsed), Some(resetDate), Some(timezone))];
      r := Pass;
    }
  }

  /**
   * After a commit, a check on the same day sees exactly the committed total,
   * and it blocks exactly when the commit reported the limit reached.
   */
  lemma CheckAfterCommit(prior: Option<Record>, today: TimeZone -> Date, tokensToAdd: int)
    ensures var total := CarriedUsage(prior, today) + tokensToAdd;
            var s := Admission(Some(CommittedRecord(prior, today, tokensToAdd)), today);
            && s.tokensUsed == total
            && s.tokensRemaining == Remaining(total)
            && (s.allowed <==> !(total >= DAILY_LIMIT))
  {
  }

  /** The record left by committing each of `batches` in turn on one day. */
  function CommitAll(prior: Option<Record>, today: TimeZone -> Date, batches: seq<int>): Option<Record>
    decreases |batches|
  {
    if batches == [] then prior
    else CommitAll(Some(CommittedRecord(prior, today, batches[0])), today, batches[1..])
  }

  function Sum(batches: seq<int>): int
    decreases |batches|
  {
    if batches == [] then 0 else batches[0] + Sum(batches[1..])
  }

  /** Same-day commits accumulate: the usage carried afterwards is the usage carried before plus every batch. */
  lemma {:induction false} SameDayCommitsAccumulate(prior: Option<Record>, today: TimeZone -> Date, batches: seq<int>)
    ensures CarriedUsage(CommitAll(prior, today, batches), today) == CarriedUsage(prior, today) + Sum(batches)
    decreases |batches|
  {
    if batches != [] {
      var next := Some(CommittedRecord(prior, today, batches[0]));
      SameDayCommitsAccumulate(next, today, batches[1..]);
    }
  }

  /** A fresh user committing `t` then `u` on one day has used `t` and then `t + u`. */
  lemma FreshUserCommits(today: TimeZone -> Date, t: int, u: int)
    ensures var first := CommittedRecord(None, today, t);
            && StoredUsage(first) == t
            && first.timezone == Some(DEFAULT_TIMEZONE)
            && StoredUsage(CommittedRecord(Some(first), today, u)) == t + u
  {
  }

  /** At 9999 of 10000 a user is admitted; committing 5 more reaches the limit and the next check blocks. */
  lemma NearLimitExample(today: TimeZone -> Date)
    ensures var rec := Record(Some(9999), Some(today(DEFAULT_TIMEZONE)), Some(DEFAULT_TIMEZONE));
            var after := CommittedRecord(Some(rec), today, 5);
            && Admission(Some(rec), today).allowed
            && StoredUsage(after) >= DAILY_LIMIT
            && !Admission(Some(after), today).allowed
  {
  }

  /**
   * Moving a user to a zone whose calendar date is the same as in the old zone
   * leaves the admission decision unchanged, provided the item has a reset date.
   */
  lemma RetimeOnSameDate(prior: Option<Record>, timezone: TimeZone, today: TimeZone -> Date)
    requires timezone != ""
    requires today(timezone) == today(EffectiveTimezone(prior))
    requires prior.Some? ==> Truthy(prior.value.resetDate)
    ensures Admission(Some(RetimedRecord(prior, timezone, today)), today) == Admission(prior, today)
  {
  }

  /**
   * An item without a reset date is stale, so its stored usage does not count.
   * A timezone change dates it today in the new zone, and the stored usage
   * counts again: a user admitted before may be blocked after.
   */
  lemma RetimeRevivesUndatedUsage(prior: Option<Record>, timezone: TimeZone, today: TimeZone -> Date)
    requires prior.Some? && prior.value.resetDate.None?
    requires timezone != ""
    ensures Admission(prior, today) == LimitStatus(true, 0, DAILY_LIMIT)
    ensures var after := Admission(Some(RetimedRecord(prior, timezone, today)), today);
            && after.tokensUsed == StoredUsage(prior.value)
            && (after.allowed <==> StoredUsage(prior.value) < DAILY_LIMIT)
  {
  }

  /** The item `Record(Some(50000), None, None)` is admitted; after a timezone change the same user is blocked. */
  lemma RetimeBlocksUndatedOverLimit(today: TimeZone -> Date)
    ensures var prior := Some(Record(Some(50000), None, None));
            && Admission(prior, today).allowed
            && !Admission(Some(RetimedRecord(prior, DEFAULT_TIMEZONE, today)), today).allowed
  {
    RetimeRevivesUndatedUsage(Some(Record(Some(50000), None, None)), DEFAULT_TIMEZONE, today);
  }

  /**
   * A client of the table: the 9999-then-5 scenario run through the methods,
   * which shows that their contracts determine what the next check reports.
   */
  method NearLimitScenario(userId: UserId)
  {
    var today: TimeZone -> Date := tz => "2026-10-18";
    var table := new UsageTable(map[userId := Record(Some(9999), Some("2026-10-18"), Some(DEFAULT_TIMEZONE))]);
    var before := table.CheckTokenLimit(userId, today, false);
    assert before == Success(LimitStatus(true, 9999, 1));
    var added := table.AddTokens(userId, 5, today, false, false);
    assert added == Success(AddResult(10004, 0, true));
    var after := table.CheckTokenLimit(userId, today, false);
    assert after == Success(LimitStatus(false, 10004, 0));
  }
}
