/**
 * What the database service's queries select (src/database/services/session.rs,
 * src/database/services/user.rs, src/database/services/cost.rs): the rows of one session, the
 * most recent conversation, a conversation's messages in time order, user lookups with
 * `.single()`, and the approval update. The tables themselves are fields of
 * `Database.DatabaseService`.
 */
module DatabaseQueries {

  import opened Wrappers
  import opened SessionTypes
  import opened CostTypes
  import opened CostService
  import opened Json

  /** A row of `conversations`. */
  datatype Conversation = Conversation(id: Uuid, userId: Uuid, createdAt: int, lastActivityAt: int)

  /** A row of `conversation_messages`. */
  datatype StoredMessage = StoredMessage(
    conversationId: Uuid,
    sessionId: Uuid,
    userQuery: string,
    structuredResponse: Option<StructuredResponse>,
    createdAt: int)

  // ---------------------------------------------------------------- cost events of a session

  /** The cost events recorded for one session, in table order. */
  function EventsOfSession(events: seq<CostEvent>, sessionId: Uuid): (r: seq<CostEvent>)
    ensures forall e :: e in r <==> e in events && e.querySessionId == sessionId
    decreases |events|
  {
    if |events| == 0 then []
    else
      var init := EventsOfSession(events[..|events| - 1], sessionId);
      var last := events[|events| - 1];
      assert forall e :: e in events <==> e in events[..|events| - 1] || e == last;
      if last.querySessionId == sessionId then init + [last] else init
  }

  /** `get_session_total_cost`: the sum of the session's cost amounts. */
  function SessionTotal(events: seq<CostEvent>, sessionId: Uuid): real
    decreases |events|
  {
    if |events| == 0 then 0.0
    else
      SessionTotal(events[..|events| - 1], sessionId)
      + (if events[|events| - 1].querySessionId == sessionId then events[|events| - 1].costAmount else 0.0)
  }

  lemma {:induction false} SumCostsAppend(a: seq<CostEvent>, b: seq<CostEvent>)
    ensures SumCosts(a + b) == SumCosts(a) + SumCosts(b)
    decreases |a|
  {
    if |a| > 0 {
      assert (a + b)[1..] == a[1..] + b;
      SumCostsAppend(a[1..], b);
    } else {
      assert a + b == b;
    }
  }

  /** The session total is the sum over the session's own events. */
  lemma {:induction false} SessionTotalIsSum(events: seq<CostEvent>, sessionId: Uuid)
    ensures SessionTotal(events, sessionId) == SumCosts(EventsOfSession(events, sessionId))
    decreases |events|
  {
    if |events| > 0 {
      var init := events[..|events| - 1];
      var last := events[|events| - 1];
      SessionTotalIsSum(init, sessionId);
      SumCostsAppend(EventsOfSession(init, sessionId), [last]);
      assert SumCosts([last]) == last.costAmount + SumCosts([]);
    }
  }

  /**
   * The cost notification's buckets plus the unbucketed events add up to exactly the total
   * recorded on the session.
   */
  lemma SessionTotalReconciles(events: seq<CostEvent>, sessionId: Uuid)
    ensures BucketTotal(AddEvents(NoCosts, EventsOfSession(events, sessionId)))
            + UnbucketedCosts(EventsOfSession(events, sessionId))
         == SessionTotal(events, sessionId)
  {
    SessionTotalIsSum(events, sessionId);
    BucketsReconcile(NoCosts, EventsOfSession(events, sessionId));
  }

  /** Logging an event of another session leaves a session's total as it was. */
  lemma OtherSessionsDoNotCount(events: seq<CostEvent>, e: CostEvent, sessionId: Uuid)
    ensures SessionTotal(events + [e], sessionId)
         == SessionTotal(events, sessionId) + (if e.querySessionId == sessionId then e.costAmount else 0.0)
  {
    assert (events + [e])[..|events|] == events;
  }

  // ---------------------------------------------------------------- conversations

  const DaySeconds := 86400

  predicate ActiveConversationOf(c: Conversation, userId: Uuid, now: int)
  {
    c.userId == userId && c.lastActivityAt >= now - DaySeconds
  }

  /**
   * The most recently active conversation of the user within the last day (later rows win
   * ties, which the server leaves unspecified).
   */
  function MostRecentConversation(conversations: seq<Conversation>, userId: Uuid, now: int): (r: Option<Conversation>)
    ensures r.Some? ==> r.value in conversations && ActiveConversationOf(r.value, userId, now)
    ensures r.Some? ==> forall c :: c in conversations && ActiveConversationOf(c, userId, now) ==>
                                      c.lastActivityAt <= r.value.lastActivityAt
    ensures r.None? <==> forall c :: c in conversations ==> !ActiveConversationOf(c, userId, now)
    decreases |conversations|
  {
    if |conversations| == 0 then None
    else
      var init := conversations[..|conversations| - 1];
      var last := conversations[|conversations| - 1];
      assert forall c :: c in conversations <==> c in init || c == last;
      var best := MostRecentConversation(init, userId, now);
      if ActiveConversationOf(last, userId, now) && (best.None? || last.lastActivityAt >= best.value.lastActivityAt)
      then Some(last)
      else best
  }

  predicate SortedByCreation(ms: seq<StoredMessage>)
  {
    forall i, j :: 0 <= i < j < |ms| ==> ms[i].createdAt <= ms[j].createdAt
  }

  /** Puts a message after every message created no later than it. */
  function InsertByCreation(ms: seq<StoredMessage>, m: StoredMessage): (r: seq<StoredMessage>)
    requires SortedByCreation(ms)
    ensures SortedByCreation(r)
    ensures multiset(r) == multiset(ms) + multiset{m}
    decreases |ms|
  {
    if |ms| == 0 || ms[|ms| - 1].createdAt <= m.createdAt then ms + [m]
    else
      var init := ms[..|ms| - 1];
      assert ms == init + [ms[|ms| - 1]];
      var r := InsertByCreation(init, m);
      AppendLater(init, ms[|ms| - 1], m, r);
      r + [ms[|ms| - 1]]
  }

  /** The step of the insertion: the displaced last message still comes after everything. */
  lemma AppendLater(init: seq<StoredMessage>, last: StoredMessage, m: StoredMessage, r: seq<StoredMessage>)
    requires SortedByCreation(init + [last]) && SortedByCreation(r)
    requires multiset(r) == multiset(init) + multiset{m}
    requires m.createdAt < last.createdAt
    ensures SortedByCreation(r + [last])
  {
    forall x | x in r
      ensures x.createdAt <= last.createdAt
    {
      assert x in multiset(r);
      assert x in multiset(init) || x == m;
      if x != m {
        var i :| 0 <= i < |init| && init[i] == x;
        assert (init + [last])[i] == x && (init + [last])[|init|] == last;
      }
    }
  }

  /** `order("created_at.asc")` over the rows that pass `keep`. */
  function MessagesInOrder(messages: seq<StoredMessage>, conversationId: Uuid): (r: seq<StoredMessage>)
    ensures SortedByCreation(r)
    ensures forall m :: m in r ==> m.conversationId == conversationId
    ensures multiset(r) == multiset(OfConversation(messages, conversationId))
    decreases |messages|
  {
    if |messages| == 0 then []
    else
      var init := MessagesInOrder(messages[..|messages| - 1], conversationId);
      var last := messages[|messages| - 1];
      if last.conversationId == conversationId then
        var r := InsertByCreation(init, last);
        assert forall x :: x in r ==> x in init || x == last by {
          forall x | x in r
            ensures x in init || x == last
          {
            assert x in multiset(r);
          }
        }
        r
      else init
  }

  /** The messages of one conversation, in table order. */
  function OfConversation(messages: seq<StoredMessage>, conversationId: Uuid): seq<StoredMessage>
    decreases |messages|
  {
    if |messages| == 0 then []
    else
      OfConversation(messages[..|messages| - 1], conversationId)
      + (if messages[|messages| - 1].conversationId == conversationId then [messages[|messages| - 1]] else [])
  }

  /** How a stored message reads back into the conversation context. */
  function AsConversationMessage(m: StoredMessage): ConversationMessage
  {
    ConversationMessage(m.userQuery, m.structuredResponse)
  }

  function AsConversationMessages(ms: seq<StoredMessage>): (r: seq<ConversationMessage>)
    ensures |r| == |ms|
    ensures forall i :: 0 <= i < |ms| ==> r[i] == AsConversationMessage(ms[i])
  {
    seq(|ms|, i requires 0 <= i < |ms| => AsConversationMessage(ms[i]))
  }

  /** A message is in its conversation's table-order list exactly when it is stored under that conversation. */
  lemma {:induction false} OfConversationMembers(messages: seq<StoredMessage>, conversationId: Uuid, m: StoredMessage)
    ensures m in OfConversation(messages, conversationId) <==> m in messages && m.conversationId == conversationId
    decreases |messages|
  {
    if |messages| > 0 {
      var init := messages[..|messages| - 1];
      OfConversationMembers(init, conversationId, m);
      assert m in messages <==> m in init || m == messages[|messages| - 1];
    }
  }

  /**
   * The messages a recent conversation's context carries: exactly the stored messages of that
   * conversation, as many as it has, oldest first, each read back as its query and structured
   * response.
   */
  lemma ConversationContextMessages(messages: seq<StoredMessage>, conversationId: Uuid, m: StoredMessage)
    ensures var ordered := MessagesInOrder(messages, conversationId);
            var context := AsConversationMessages(ordered);
      && |context| == |OfConversation(messages, conversationId)|
      && SortedByCreation(ordered)
      && (m in ordered <==> m in messages && m.conversationId == conversationId)
      && (m in messages && m.conversationId == conversationId ==> AsConversationMessage(m) in context)
  {
    var ordered := MessagesInOrder(messages, conversationId);
    OfConversationMembers(messages, conversationId, m);
    assert |multiset(ordered)| == |multiset(OfConversation(messages, conversationId))|;
    assert m in ordered <==> m in multiset(ordered);
    assert m in OfConversation(messages, conversationId) <==> m in multiset(OfConversation(messages, conversationId));
    if m in ordered {
      var i :| 0 <= i < |ordered| && ordered[i] == m;
      assert AsConversationMessages(ordered)[i] == AsConversationMessage(m);
    }
  }

  // ---------------------------------------------------------------- users

  /** `is_user_authorized`. */
  predicate IsAuthorized(u: User)
  {
    u.status == StatusActive
  }

  /** The user columns a lookup filters on with `eq`. */
  datatype UserKey = PhoneKey | TelegramKey

  function KeyOf(u: User, key: UserKey): Option<string>
  {
    match key
    case PhoneKey => u.phoneNumber
    case TelegramKey => u.telegramId
  }

  /** The rows whose `key` column equals `value`, in table order. */
  function UsersWith(users: seq<User>, key: UserKey, value: string): (r: seq<User>)
    ensures forall u :: u in r <==> u in users && KeyOf(u, key) == Some(value)
    decreases |users|
  {
    if |users| == 0 then []
    else
      var init := users[..|users| - 1];
      var last := users[|users| - 1];
      assert forall u :: u in users <==> u in init || u == last;
      UsersWith(init, key, value) + (if KeyOf(last, key) == Some(value) then [last] else [])
  }

  /** No row carries the value, so the filter keeps none. */
  lemma {:induction false} NoneWith(users: seq<User>, key: UserKey, value: string)
    requires forall u :: u in users ==> KeyOf(u, key) != Some(value)
    ensures UsersWith(users, key, value) == []
    decreases |users|
  {
    if |users| > 0 {
      NoneWith(users[..|users| - 1], key, value);
    }
  }

  function UsersWithPhone(users: seq<User>, phoneNumber: string): (r: seq<User>)
    ensures forall u :: u in r <==> u in users && u.phoneNumber == Some(phoneNumber)
  {
    UsersWith(users, PhoneKey, phoneNumber)
  }

  function UsersWithTelegramId(users: seq<User>, telegramId: string): (r: seq<User>)
    ensures forall u :: u in r <==> u in users && u.telegramId == Some(telegramId)
  {
    UsersWith(users, TelegramKey, telegramId)
  }

  function PendingUsers(users: seq<User>): (r: seq<User>)
    ensures forall u :: u in r <==> u in users && u.status == StatusPending
    decreases |users|
  {
    if |users| == 0 then []
    else
      var init := users[..|users| - 1];
      var last := users[|users| - 1];
      assert forall u :: u in users <==> u in init || u == last;
      PendingUsers(init) + (if last.status == StatusPending then [last] else [])
  }

  /** `.single()`: the row when exactly one matches; none or several read as "no row" (status 406). */
  function Single(rows: seq<User>): (r: Option<User>)
    ensures r.Some? <==> |rows| == 1
    ensures r.Some? ==> r.value == rows[0]
  {
    if |rows| == 1 then Some(rows[0]) else None
  }

  /** The approval update: pending rows with the Telegram id become active; no other row changes. */
  function ApproveRows(users: seq<User>, telegramId: string): (r: seq<User>)
    ensures |r| == |users|
    ensures forall i :: 0 <= i < |users| ==>
              if users[i].telegramId == Some(telegramId) && users[i].status == StatusPending
              then r[i] == users[i].(status := StatusActive)
              else r[i] == users[i]
  {
    seq(|users|, i requires 0 <= i < |users| =>
      if users[i].telegramId == Some(telegramId) && users[i].status == StatusPending
      then users[i].(status := StatusActive) else users[i])
  }

  /** After approval no user with that Telegram id is pending, and users of other ids are untouched. */
  lemma ApprovalClearsPending(users: seq<User>, telegramId: string)
    ensures forall u :: u in PendingUsers(ApproveRows(users, telegramId)) ==> u.telegramId != Some(telegramId)
    ensures forall i :: 0 <= i < |users| && users[i].telegramId != Some(telegramId) ==>
              ApproveRows(users, telegramId)[i] == users[i]
    ensures ApproveRows(ApproveRows(users, telegramId), telegramId) == ApproveRows(users, telegramId)
  {
    var r := ApproveRows(users, telegramId);
    forall u | u in PendingUsers(r)
      ensures u.telegramId != Some(telegramId)
    {
      var i :| 0 <= i < |r| && r[i] == u;
    }
  }

  /** Two users cannot both answer a `.single()` lookup: one new row for an unused key is found. */
  lemma {:induction false} FoundAfterInsert(users: seq<User>, u: User, phoneNumber: string)
    requires u.phoneNumber == Some(phoneNumber)
    requires forall v :: v in users ==> v.phoneNumber != Some(phoneNumber)
    ensures Single(UsersWithPhone(users + [u], phoneNumber)) == Some(u)
  {
    assert (users + [u])[..|users|] == users;
    NoneWith(users, PhoneKey, phoneNumber);
  }

  /** A second row with the same phone number makes the `.single()` lookup find nobody. */
  lemma {:induction false} DuplicateHidesBoth(users: seq<User>, u: User, phoneNumber: string)
    requires u.phoneNumber == Some(phoneNumber)
    requires |UsersWithPhone(users, phoneNumber)| == 1
    ensures Single(UsersWithPhone(users + [u], phoneNumber)).None?
  {
    assert (users + [u])[..|users|] == users;
  }

  // ---------------------------------------------------------------- row updates

  /** `update_session_result` on the rows with the session id. */
  function RecordResult(sessions: seq<QuerySession>, sessionId: Uuid, responseType: string,
                        errorMessage: Option<string>, totalCost: real, processingTime: int,
                        metadata: Option<Json>): (r: seq<QuerySession>)
    ensures |r| == |sessions|
    ensures forall i :: 0 <= i < |sessions| && sessions[i].id != sessionId ==> r[i] == sessions[i]
    ensures forall i :: 0 <= i < |sessions| && sessions[i].id == sessionId ==>
              && r[i].responseType == responseType && r[i].errorMessage == errorMessage
              && r[i].totalCost == totalCost && r[i].processingTimeMs == Some(processingTime)
              && r[i].metadata == metadata
              && r[i].(responseType := sessions[i].responseType, errorMessage := sessions[i].errorMessage,
                       totalCost := sessions[i].totalCost, processingTimeMs := sessions[i].processingTimeMs,
                       metadata := sessions[i].metadata) == sessions[i]
  {
    seq(|sessions|, i requires 0 <= i < |sessions| =>
      if sessions[i].id == sessionId
      then sessions[i].(responseType := responseType, errorMessage := errorMessage, totalCost := totalCost,
                        processingTimeMs := Some(processingTime), metadata := metadata)
      else sessions[i])
  }

  /** `update_session_query_type` on the rows with the session id. */
  function RecordQueryType(sessions: seq<QuerySession>, sessionId: Uuid, queryType: string): (r: seq<QuerySession>)
    ensures |r| == |sessions|
    ensures forall i :: 0 <= i < |sessions| ==>
              r[i] == if sessions[i].id == sessionId then sessions[i].(queryType := queryType) else sessions[i]
  {
    seq(|sessions|, i requires 0 <= i < |sessions| =>
      if sessions[i].id == sessionId then sessions[i].(queryType := queryType) else sessions[i])
  }

  /** Setting `last_activity_at` on the conversation with the id. */
  function TouchConversation(conversations: seq<Conversation>, conversationId: Uuid, now: int): (r: seq<Conversation>)
    ensures |r| == |conversations|
    ensures forall i :: 0 <= i < |conversations| ==>
              r[i] == if conversations[i].id == conversationId then conversations[i].(lastActivityAt := now)
                      else conversations[i]
  {
    seq(|conversations|, i requires 0 <= i < |conversations| =>
      if conversations[i].id == conversationId then conversations[i].(lastActivityAt := now) else conversations[i])
  }

  /**
   * A conversation of the user that has just been written to is the recent conversation found next
   * (when no other conversation of the user carries a later activity time).
   */
  lemma TouchedConversationIsRecent(conversations: seq<Conversation>, c: Conversation, userId: Uuid, now: int)
    requires c in conversations && c.userId == userId
    requires forall d :: d in conversations && d.userId == userId ==> d.lastActivityAt <= now
    ensures MostRecentConversation(TouchConversation(conversations, c.id, now), userId, now).Some?
    ensures MostRecentConversation(TouchConversation(conversations, c.id, now), userId, now).value.lastActivityAt == now
  {
    var t := TouchConversation(conversations, c.id, now);
    var i :| 0 <= i < |conversations| && conversations[i] == c;
    assert t[i] in t && ActiveConversationOf(t[i], userId, now);
    var r := MostRecentConversation(t, userId, now).value;
    var j :| 0 <= j < |t| && t[j] == r;
  }
}
