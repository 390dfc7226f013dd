/**
 * Stock queries relayed to the Tally client (`StockService`). A request is recorded as pending under
 * a fresh id and sent over the websocket; the reply that later comes back over the websocket is
 * matched to its pending request by id and handed to the waiting caller, who gives up after a timeout.
 *
 * `request_stock` awaits twice: once to send, once for the reply. It is modelled as two methods,
 * `SendStockRequest` and `AwaitStockReply`, so that `HandleTallyResponse` can run between them, as
 * the websocket task does. The one-shot channel of a request is modelled by the `delivered` map:
 * the value sent on it, once there is one.
 */
module Stock {

  import opened Wrappers
  import opened Json

  datatype StockRequest = StockRequest(id: string, query: string)

  datatype StockResponse = StockResponse(id: string, stockInfo: string, error: Option<string>)

  /** The websocket sender: none attached, or attached with its receiving side still open or closed. */
  datatype TallySender = NoSender | Sender(open: bool)

  const NotConnected := "Tally client not connected"
  const TallySendFailed := "Failed to send request to Tally"
  const Timeout := "Request timeout"

  /** The request as it is serialised for the Tally client. */
  function StockRequestJson(req: StockRequest): (j: Json)
    ensures Get(j, "id") == Some(JString(req.id)) && Get(j, "query") == Some(JString(req.query))
  {
    GetFindsFirstField([("id", JString(req.id)), ("query", JString(req.query))], "query", 1);
    JObject([("id", JString(req.id)), ("query", JString(req.query))])
  }

  /** An optional string field as serde reads it: missing or null is `None`, a string is `Some`. */
  function OptionalString(v: Option<Json>): (r: Option<Option<string>>)
    ensures r == Some(None) <==> v.None? || v == Some(JNull)
    ensures r.Some? && r.value.Some? <==> v.Some? && v.value.JString?
  {
    match v
    case None => Some(None)
    case Some(JNull) => Some(None)
    case Some(JString(s)) => Some(Some(s))
    case Some(_) => None
  }

  /** The Tally client's reply decoded as a `StockResponse`: `id` and `stock_info` are required strings. */
  function DecodeStockResponse(j: Json): (r: Option<StockResponse>)
    ensures r.Some? ==> Get(j, "id") == Some(JString(r.value.id))
    ensures r.Some? ==> Get(j, "stock_info") == Some(JString(r.value.stockInfo))
    ensures r.Some? ==> OptionalString(Get(j, "error")) == Some(r.value.error)
  {
    match j
    case JObject(fields) =>
      var id := Lookup(fields, "id");
      var info := Lookup(fields, "stock_info");
      var error := OptionalString(Lookup(fields, "error"));
      if id.Some? && id.value.JString? && info.Some? && info.value.JString? && error.Some? then
        Some(StockResponse(id.value.s, info.value.s, error.value))
      else None
    case _ => None
  }

  /** The reply as the Tally client writes it. */
  function StockResponseJson(resp: StockResponse): (j: Json)
  {
    JObject([("id", JString(resp.id)), ("stock_info", JString(resp.stockInfo)),
             ("error", if resp.error.Some? then JString(resp.error.value) else JNull)])
  }

  /** Decoding inverts the client's encoding. */
  lemma DecodeEncodedResponse(resp: StockResponse)
    ensures DecodeStockResponse(StockResponseJson(resp)) == Some(resp)
  {
    var fields := StockResponseJson(resp).fields;
    GetFindsFirstField(fields, "id", 0);
    GetFindsFirstField(fields, "stock_info", 1);
    GetFindsFirstField(fields, "error", 2);
  }

  /** What the waiting request receives: the error when the client reported one, the stock otherwise. */
  function ReplyText(resp: StockResponse): (s: string)
    ensures resp.error.Some? ==> s == resp.error.value
    ensures resp.error.None? ==> s == resp.stockInfo
  {
    resp.error.GetOr(resp.stockInfo)
  }

  /** The request table: ids still waiting for a reply, and the reply handed to each answered id. */
  datatype Table = Table(pending: set<string>, delivered: map<string, string>)

  /** An id is never both waiting and answered. */
  predicate TableValid(t: Table)
  {
    t.pending !! t.delivered.Keys
  }

  /** `handle_tally_response` on the table: a reply for a pending id answers it; anything else is dropped. */
  function Deliver(t: Table, reply: Option<StockResponse>): (t': Table)
  {
    if reply.Some? && reply.value.id in t.pending then
      Table(t.pending - {reply.value.id}, t.delivered[reply.value.id := ReplyText(reply.value)])
    else t
  }

  /** Replies handled one after the other, in arrival order. */
  function DeliverAll(t: Table, replies: seq<Option<StockResponse>>): (t': Table)
    decreases |replies|
  {
    if |replies| == 0 then t else DeliverAll(Deliver(t, replies[0]), replies[1..])
  }

  /** Whether some reply in the sequence names `id`. */
  predicate Answers(replies: seq<Option<StockResponse>>, id: string)
  {
    exists k :: 0 <= k < |replies| && Names(replies[k], id)
  }

  predicate Names(reply: Option<StockResponse>, id: string)
  {
    reply.Some? && reply.value.id == id
  }

  /** Reply `k` is the first one that names `id`. */
  predicate FirstNaming(replies: seq<Option<StockResponse>>, k: int, id: string)
  {
    0 <= k < |replies| && Names(replies[k], id) && forall j :: 0 <= j < k ==> !Names(replies[j], id)
  }

  /** Handling a reply keeps the table valid and never touches an id it does not name. */
  lemma DeliverKeepsOthers(t: Table, reply: Option<StockResponse>, other: string)
    requires TableValid(t)
    requires !Names(reply, other)
    ensures TableValid(Deliver(t, reply))
    ensures other in Deliver(t, reply).pending <==> other in t.pending
    ensures other in Deliver(t, reply).delivered <==> other in t.delivered
    ensures other in t.delivered ==> Deliver(t, reply).delivered[other] == t.delivered[other]
  {
  }

  /**
   * A waiting request is answered by the FIRST reply that names it; replies for other ids, and later
   * replies for the same id, leave its answer alone. With no reply naming it, it is still waiting.
   */
  lemma {:induction false} FirstReplyAnswers(t: Table, replies: seq<Option<StockResponse>>, id: string)
    requires TableValid(t) && id in t.pending
    ensures TableValid(DeliverAll(t, replies))
    ensures !Answers(replies, id) ==> id in DeliverAll(t, replies).pending
    ensures forall k :: FirstNaming(replies, k, id) ==>
      id in DeliverAll(t, replies).delivered && DeliverAll(t, replies).delivered[id] == ReplyText(replies[k].value)
    decreases |replies|
  {
    if |replies| > 0 {
      var head := replies[0];
      if Names(head, id) {
        var t1 := Deliver(t, head);
        assert id in t1.delivered && t1.delivered[id] == ReplyText(head.value);
        AnsweredStaysAnswered(t1, replies[1..], id);
        forall k | FirstNaming(replies, k, id) ensures k == 0 {
        }
      } else {
        DeliverKeepsOthers(t, head, id);
        FirstReplyAnswers(Deliver(t, head), replies[1..], id);
        forall k | FirstNaming(replies, k, id)
          ensures id in DeliverAll(t, replies).delivered && DeliverAll(t, replies).delivered[id] == ReplyText(replies[k].value)
        {
          assert k > 0;
          assert replies[1..][k - 1] == replies[k];
          assert forall j :: 0 <= j < k - 1 ==> replies[1..][j] == replies[j + 1];
          assert FirstNaming(replies[1..], k - 1, id);
        }
        forall k | 0 <= k < |replies[1..]| && Names(replies[1..][k], id) ensures Answers(replies, id) {
          assert replies[k + 1] == replies[1..][k];
        }
      }
    }
  }

  /** Once answered, a request keeps the answer it was given. */
  lemma {:induction false} AnsweredStaysAnswered(t: Table, replies: seq<Option<StockResponse>>, id: string)
    requires TableValid(t) && id in t.delivered
    ensures TableValid(DeliverAll(t, replies))
    ensures id in DeliverAll(t, replies).delivered && DeliverAll(t, replies).delivered[id] == t.delivered[id]
    decreases |replies|
  {
    if |replies| > 0 {
      var t1 := Deliver(t, replies[0]);
      assert TableValid(t1);
      assert id in t1.delivered && t1.delivered[id] == t.delivered[id];
      AnsweredStaysAnswered(t1, replies[1..], id);
    }
  }

  /** A websocket text as `handle_tally_response` reads it: parsed, then decoded. */
  function ParsedReply(text: string, parseJson: string -> Option<Json>): (r: Option<StockResponse>)
    ensures r.Some? ==> parseJson(text).Some? && DecodeStockResponse(parseJson(text).value) == r
  {
    if parseJson(text).Some? then DecodeStockResponse(parseJson(text).value) else None
  }

  function ParsedReplies(texts: seq<string>, parseJson: string -> Option<Json>): (r: seq<Option<StockResponse>>)
    ensures |r| == |texts| && forall i :: 0 <= i < |texts| ==> r[i] == ParsedReply(texts[i], parseJson)
  {
    seq(|texts|, i requires 0 <= i < |texts| => ParsedReply(texts[i], parseJson))
  }

  /**
   * What `request_stock` returns when the websocket task handles `replies` while it waits: the send
   * error, or the answer the request holds when the wait ends, or the timeout.
   */
  function StockOutcome(t: Table, sender: TallySender, id: string, replies: seq<Option<StockResponse>>): (r: Result<string, string>)
  {
    match sender
    case NoSender => Failure(NotConnected)
    case Sender(open) =>
      if !open then Failure(TallySendFailed)
      else
        var t' := DeliverAll(Table(t.pending + {id}, t.delivered), replies);
        if id in t'.delivered then Success(t'.delivered[id]) else Failure(Timeout)
  }

  /**
   * With the request sent, the caller gets the first reply naming its id, the error when that reply
   * carries one and the stock otherwise; with no such reply, the timeout.
   */
  lemma StockOutcomeIsFirstReply(t: Table, id: string, replies: seq<Option<StockResponse>>)
    requires TableValid(t) && id !in t.pending && id !in t.delivered
    ensures !Answers(replies, id) ==> StockOutcome(t, Sender(true), id, replies) == Failure(Timeout)
    ensures forall k :: FirstNaming(replies, k, id) ==>
              StockOutcome(t, Sender(true), id, replies) == Success(ReplyText(replies[k].value))
  {
    var t0 := Table(t.pending + {id}, t.delivered);
    FirstReplyAnswers(t0, replies, id);
  }

  class StockService {
    var tallySender: TallySender
    var pending: set<string>
    var delivered: map<string, string>
    /** The requests written to the Tally client's websocket, in order. */
    var sent: seq<StockRequest>

    function TableOf(): (t: Table)
      reads this
      ensures t.pending == pending && t.delivered == delivered
    {
      Table(pending, delivered)
    }

    predicate Valid()
      reads this
    {
      TableValid(TableOf())
    }

    /** `StockService::new`: no Tally client attached and nothing pending. */
    constructor ()
      ensures Valid()
      ensures tallySender == NoSender && pending == {} && delivered == map[] && sent == []
    {
      tallySender := NoSender;
      pending := {};
      delivered := map[];
      sent := [];
    }

    /**
     * The first half of `request_stock`: the request is recorded under `id` (a fresh UUID) and sent. The
     * entry is recorded before the sender is checked, so it stays pending when the send fails.
     */
    method SendStockRequest(id: string, query: string) returns (r: Result<(), string>)
      requires Valid() && id !in pending && id !in delivered
      modifies this
      ensures Valid()
      ensures pending == old(pending) + {id} && delivered == old(delivered) && tallySender == old(tallySender)
      ensures sent == old(sent) + (if tallySender == Sender(true) then [StockRequest(id, query)] else [])
      ensures r == match tallySender
                   case NoSender => Failure(NotConnected)
                   case Sender(open) => if open then Success(()) else Failure(TallySendFailed)
    {
      pending := pending + {id};
      match tallySender
      case NoSender =>
        r := Failure(NotConnected);
      case Sender(open) =>
        if open {
          sent := sent + [StockRequest(id, query)];
          r := Success(());
        } else {
          r := Failure(TallySendFailed);
        }
    }

    /** `handle_tally_response`: the text is parsed (`parseJson`) and decoded; a reply for a pending id answers it. */
    method HandleTallyResponse(responseJson: string, parseJson: string -> Option<Json>)
      requires Valid()
      modifies this
      ensures Valid()
      ensures TableOf() == Deliver(old(TableOf()), if parseJson(responseJson).Some? then DecodeStockResponse(parseJson(responseJson).value) else None)
      ensures tallySender == old(tallySender) && sent == old(sent)
    {
      var parsed := parseJson(responseJson);
      if parsed.Some? {
        var response := DecodeStockResponse(parsed.value);
        if response.Some? && response.value.id in pending {
          var reply := ReplyText(response.value);
          pending := pending - {response.value.id};
          delivered := delivered[response.value.id := reply];
        }
      }
    }

    /**
     * `request_stock` as a whole: the send, then the replies the websocket task handles (in arrival
     * order) while the caller waits, then the wait's end.
     */
    method RequestStock(id: string, query: string, arrivals: seq<string>, parseJson: string -> Option<Json>)
      returns (r: Result<string, string>)
      requires Valid() && id !in pending && id !in delivered
      modifies this
      ensures Valid()
      ensures r == StockOutcome(old(TableOf()), tallySender, id, ParsedReplies(arrivals, parseJson))
      ensures TableOf() == DeliverAll(Table(old(pending) + {id}, old(delivered)), ParsedReplies(arrivals, parseJson))
      ensures tallySender == old(tallySender)
      ensures sent == old(sent) + (if tallySender == Sender(true) then [StockRequest(id, query)] else [])
    {
      var start := TableOf();
      var sendResult := SendStockRequest(id, query);
      ghost var replies := ParsedReplies(arrivals, parseJson);
      for i := 0 to |arrivals|
        invariant Valid()
        invariant DeliverAll(TableOf(), replies[i..]) == DeliverAll(Table(start.pending + {id}, start.delivered), replies)
        invariant tallySender == old(tallySender)
        invariant sent == old(sent) + (if tallySender == Sender(true) then [StockRequest(id, query)] else [])
      {
        assert replies[i..][1..] == replies[i + 1..];
        HandleTallyResponse(arrivals[i], parseJson);
      }
      assert replies[|arrivals|..] == [];
      if sendResult.Failure? {
        r := Failure(sendResult.error);
      } else {
        r := AwaitStockReply(id);
      }
    }

    /** The second half of `request_stock`, when the wait ends: the reply handed over, or the timeout. */
    method AwaitStockReply(id: string) returns (r: Result<string, string>)
      ensures id in delivered ==> r == Success(delivered[id])
      ensures id !in delivered ==> r == Failure(Timeout)
    {
      if id in delivered {
        r := Success(delivered[id]);
      } else {
        r := Failure(Timeout);
      }
    }
  }
}
