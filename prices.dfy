/**
 * The metal-price service: cache-first price fetching and the twice-daily price alert
 * (src/prices/mod.rs). Fetching a web page and reading the price out of it are an oracle
 * `fetch` from URL to outcome; whether the HTTP client can be built is the input `clientBuilds`.
 */
module Prices {

  import opened Wrappers
  import opened Text

  datatype PriceError =
    | GetUrlError(message: string)
    | ClientError
    | InvalidMetalType
    | HTMLParseError(message: string)
    | PriceNotFoundError
    | PriceParseError

  /** The error's display text; a variant with a message ends with it. */
  function PriceErrorText(e: PriceError): (s: string)
    ensures e.GetUrlError? || e.HTMLParseError? ==> |e.message| <= |s| && s[|s| - |e.message|..] == e.message
  {
    match e
    case GetUrlError(m) => "Failed to get response:" + m
    case ClientError => "Failed to Build Client"
    case InvalidMetalType => "Invalid metal type"
    case HTMLParseError(m) => "HTML parsing error:" + m
    case PriceNotFoundError => "Price not found"
    case PriceParseError => "Failed to parse Price"
  }

  /**
   * The message `fetch_formatted_prices` builds: a header, the time stamp, then the copper and the
   * aluminium price, each printed by `money` (two decimals).
   */
  function PriceMessage(timestamp: string, copper: real, aluminium: real, money: real -> string): (s: string)
    ensures EndsWith(s, money(aluminium))
  {
    "\U{1F514} Metal Price Update\n\U{1F4C5} " + timestamp + "\n\n\U{1F7E4} Copper: Rs. " + money(copper)
    + "\n\U{26AA} Aluminium: Rs. " + money(aluminium)
  }

  // ---------------------------------------------------------------- alert window

  /** The alert decision of `run`: 11:50–11:52 and 15:00–15:10, once per window. */
  function ShouldSendAlert(hour: nat, minute: nat, lastAlertHour: Option<nat>): (r: bool)
  {
    if hour == 11 && 50 <= minute <= 52 then lastAlertHour != Some(11)
    else if hour == 15 && minute <= 10 then lastAlertHour != Some(15)
    else false
  }

  /**
   * An alert is due exactly inside one of the two windows, and only if the last alert was not
   * sent in the current hour; no other hour ever has one.
   */
  lemma AlertWindows(hour: nat, minute: nat, last: Option<nat>)
    ensures ShouldSendAlert(hour, minute, last)
      <==> ((hour == 11 && 50 <= minute <= 52) || (hour == 15 && minute <= 10)) && last != Some(hour)
    ensures hour != 11 && hour != 15 ==> !ShouldSendAlert(hour, minute, last)
  {
  }

  // ---------------------------------------------------------------- cache-first fetching

  /** The page to fetch for a metal: names match ignoring ASCII case; others have none. */
  function MetalUrl(metal: string, urlAl: string, urlCu: string): (r: Option<string>)
  {
    if Lower(metal) == "aluminium" then Some(urlAl)
    else if Lower(metal) == "copper" then Some(urlCu)
    else None
  }

  /** Only "aluminium" and "copper", in any ASCII case, select a page, and they select their own. */
  lemma MetalUrlSpec(metal: string, urlAl: string, urlCu: string)
    ensures MetalUrl(metal, urlAl, urlCu).Some? <==> Lower(metal) in {"aluminium", "copper"}
    ensures MetalUrl(metal, urlAl, urlCu) == MetalUrl(Lower(metal), urlAl, urlCu)
    ensures MetalUrl("Copper", urlAl, urlCu) == Some(urlCu)
    ensures MetalUrl("ALUMINIUM", urlAl, urlCu) == Some(urlAl)
  {
    LowerIdempotent(metal);
  }

  /** The outcome of `fetch_price` and the cache afterwards. */
  function FetchOutcome(cache: map<string, real>, metal: string, urlAl: string, urlCu: string,
                        clientBuilds: bool, fetch: string -> Result<real, PriceError>)
    : (r: (Result<real, PriceError>, map<string, real>))
  {
    if metal in cache then (Success(cache[metal]), cache)
    else if !clientBuilds then (Failure(ClientError), cache)
    else
      match MetalUrl(metal, urlAl, urlCu)
      case None => (Failure(InvalidMetalType), cache)
      case Some(url) =>
        var got := fetch(url);
        if got.Success? then (got, cache[metal := got.value]) else (got, cache)
  }

  /**
   * A cached metal is answered from the cache without building a client or fetching; a miss
   * fetches the metal's page and caches a successful price under the metal string as given; a
   * failure caches nothing. Asking again after a success answers the same price from the cache,
   * whatever the network would now say.
   */
  lemma FetchOutcomeSpec(cache: map<string, real>, metal: string, urlAl: string, urlCu: string,
                         clientBuilds: bool, fetch: string -> Result<real, PriceError>,
                         clientBuilds2: bool, fetch2: string -> Result<real, PriceError>)
    ensures var (r, cache') := FetchOutcome(cache, metal, urlAl, urlCu, clientBuilds, fetch);
      && (metal in cache ==> r == Success(cache[metal]) && cache' == cache)
      && (metal !in cache && clientBuilds && MetalUrl(metal, urlAl, urlCu).Some? ==>
            r == fetch(MetalUrl(metal, urlAl, urlCu).value))
      && (metal !in cache && !clientBuilds ==> r == Failure(ClientError))
      && (metal !in cache && clientBuilds && MetalUrl(metal, urlAl, urlCu).None? ==> r == Failure(InvalidMetalType))
      && (r.Success? ==> cache' == cache[metal := r.value])
      && (r.Failure? ==> cache' == cache)
      && (r.Success? ==> FetchOutcome(cache', metal, urlAl, urlCu, clientBuilds2, fetch2) == (r, cache'))
  {
  }

  /**
   * The two fetches of `fetch_formatted_prices`: copper first, then aluminium; the first failure
   * is the outcome and, when copper fails, aluminium is not fetched.
   */
  function BothPrices(cache: map<string, real>, urlAl: string, urlCu: string, clientBuilds: bool,
                      fetch: string -> Result<real, PriceError>): (r: (Result<(real, real), PriceError>, map<string, real>))
    ensures r.0.Success? ==> "copper" in r.1 && r.1["copper"] == r.0.value.0
    ensures r.0.Success? ==> "aluminium" in r.1 && r.1["aluminium"] == r.0.value.1
    ensures FetchOutcome(cache, "copper", urlAl, urlCu, clientBuilds, fetch).0.Failure? ==>
              r == (Failure(FetchOutcome(cache, "copper", urlAl, urlCu, clientBuilds, fetch).0.error), cache)
  {
    var (cu, afterCu) := FetchOutcome(cache, "copper", urlAl, urlCu, clientBuilds, fetch);
    if cu.Failure? then (Failure(cu.error), afterCu)
    else
      var (al, afterAl) := FetchOutcome(afterCu, "aluminium", urlAl, urlCu, clientBuilds, fetch);
      (if al.Failure? then Failure(al.error) else Success((cu.value, al.value)), afterAl)
  }

  /**
   * The two fetches of `send_price_alert`: aluminium first, then copper, then the message on the
   * channel when there is one (`channelAccepts` is whether it takes it). The alert succeeds when
   * every step does; the cache afterwards is the fetches' cache.
   */
  function AlertAttempt(cache: map<string, real>, urlAl: string, urlCu: string, hasChannel: bool, clientBuilds: bool,
                        fetch: string -> Result<real, PriceError>, channelAccepts: bool): (r: (bool, map<string, real>))
  {
    var (al, afterAl) := FetchOutcome(cache, "aluminium", urlAl, urlCu, clientBuilds, fetch);
    if al.Failure? then (false, afterAl)
    else
      var (cu, afterCu) := FetchOutcome(afterAl, "copper", urlAl, urlCu, clientBuilds, fetch);
      (cu.Success? && (hasChannel ==> channelAccepts), afterCu)
  }

  /**
   * A successful alert read both prices, and left the cache exactly as `fetch_formatted_prices`
   * would have, though it asks for the metals in the other order; a failed one caches no metal
   * but these two.
   */
  lemma AlertReadsBothPrices(cache: map<string, real>, urlAl: string, urlCu: string, hasChannel: bool,
                             clientBuilds: bool, fetch: string -> Result<real, PriceError>, channelAccepts: bool)
    ensures var (ok, cache') := AlertAttempt(cache, urlAl, urlCu, hasChannel, clientBuilds, fetch, channelAccepts);
      && (ok ==> BothPrices(cache, urlAl, urlCu, clientBuilds, fetch).0.Success?
                 && cache' == BothPrices(cache, urlAl, urlCu, clientBuilds, fetch).1)
      && (ok ==> hasChannel ==> channelAccepts)
      && (!ok ==> cache'.Keys <= cache.Keys + {"aluminium", "copper"})
  {
    var (al, afterAl) := FetchOutcome(cache, "aluminium", urlAl, urlCu, clientBuilds, fetch);
    var (cu0, afterCu0) := FetchOutcome(cache, "copper", urlAl, urlCu, clientBuilds, fetch);
    if al.Success? {
      var (cu, afterCu) := FetchOutcome(afterAl, "copper", urlAl, urlCu, clientBuilds, fetch);
      assert cu == cu0;
      if cu.Success? {
        var (al1, afterAl1) := FetchOutcome(afterCu0, "aluminium", urlAl, urlCu, clientBuilds, fetch);
        assert al1 == al;
        assert afterAl1 == afterCu;
      }
    }
  }

  /** One minute of `run`: the clock reading, and the network and channel as the alert would find them. */
  datatype Tick = Tick(hour: nat, minute: nat, clientBuilds: bool, fetch: string -> Result<real, PriceError>,
                       channelAccepts: bool)

  /** What `run` keeps between minutes: the hour of the last alert sent, and the price cache. */
  datatype AlertState = AlertState(lastAlertHour: Option<nat>, cache: map<string, real>)

  /** One minute: when an alert is due it is attempted, and the hour is recorded only after a successful one. */
  function AfterTick(s: AlertState, urlAl: string, urlCu: string, hasChannel: bool, t: Tick): AlertState
  {
    if !ShouldSendAlert(t.hour, t.minute, s.lastAlertHour) then s
    else
      var (ok, cache) := AlertAttempt(s.cache, urlAl, urlCu, hasChannel, t.clientBuilds, t.fetch, t.channelAccepts);
      AlertState(if ok then Some(t.hour) else s.lastAlertHour, cache)
  }

  /** Whether the tick's alert is due and goes out. */
  predicate AlertGoesOut(s: AlertState, urlAl: string, urlCu: string, hasChannel: bool, t: Tick)
  {
    ShouldSendAlert(t.hour, t.minute, s.lastAlertHour)
    && AlertAttempt(s.cache, urlAl, urlCu, hasChannel, t.clientBuilds, t.fetch, t.channelAccepts).0
  }

  function AfterTicks(s: AlertState, urlAl: string, urlCu: string, hasChannel: bool, ticks: seq<Tick>): AlertState
    decreases |ticks|
  {
    if |ticks| == 0 then s else AfterTicks(AfterTick(s, urlAl, urlCu, hasChannel, ticks[0]), urlAl, urlCu, hasChannel, ticks[1..])
  }

  /** How many alerts are delivered over the ticks. */
  function AlertsSent(s: AlertState, urlAl: string, urlCu: string, hasChannel: bool, ticks: seq<Tick>): nat
    decreases |ticks|
  {
    if |ticks| == 0 then 0
    else
      (if AlertGoesOut(s, urlAl, urlCu, hasChannel, ticks[0]) then 1 else 0)
      + AlertsSent(AfterTick(s, urlAl, urlCu, hasChannel, ticks[0]), urlAl, urlCu, hasChannel, ticks[1..])
  }

  /** A sent alert records its hour; a minute with no alert due leaves the state, cache included, alone. */
  lemma AfterTickSpec(s: AlertState, urlAl: string, urlCu: string, hasChannel: bool, t: Tick)
    ensures AlertGoesOut(s, urlAl, urlCu, hasChannel, t) ==>
              AfterTick(s, urlAl, urlCu, hasChannel, t).lastAlertHour == Some(t.hour)
    ensures !AlertGoesOut(s, urlAl, urlCu, hasChannel, t) ==>
              AfterTick(s, urlAl, urlCu, hasChannel, t).lastAlertHour == s.lastAlertHour
    ensures !ShouldSendAlert(t.hour, t.minute, s.lastAlertHour) ==> AfterTick(s, urlAl, urlCu, hasChannel, t) == s
  {
  }

  /**
   * Once an alert went out in hour `h`, no further alert goes out, and nothing is fetched, while
   * the clock stays in `h`.
   */
  lemma {:induction false} NoRepeatAfterAlert(s: AlertState, urlAl: string, urlCu: string, hasChannel: bool,
                                              h: nat, ticks: seq<Tick>)
    requires s.lastAlertHour == Some(h)
    requires forall i :: 0 <= i < |ticks| ==> ticks[i].hour == h
    ensures AlertsSent(s, urlAl, urlCu, hasChannel, ticks) == 0
    ensures AfterTicks(s, urlAl, urlCu, hasChannel, ticks) == s
    decreases |ticks|
  {
    if |ticks| > 0 {
      NoRepeatAfterAlert(s, urlAl, urlCu, hasChannel, h, ticks[1..]);
    }
  }

  /** Within one hour at most one alert is delivered, however many ticks and retries there are. */
  lemma {:induction false} AtMostOneAlertPerHour(s: AlertState, urlAl: string, urlCu: string, hasChannel: bool,
                                                 h: nat, ticks: seq<Tick>)
    requires forall i :: 0 <= i < |ticks| ==> ticks[i].hour == h
    ensures AlertsSent(s, urlAl, urlCu, hasChannel, ticks) <= 1
    decreases |ticks|
  {
    if |ticks| > 0 {
      var next := AfterTick(s, urlAl, urlCu, hasChannel, ticks[0]);
      if AlertGoesOut(s, urlAl, urlCu, hasChannel, ticks[0]) {
        NoRepeatAfterAlert(next, urlAl, urlCu, hasChannel, h, ticks[1..]);
      } else {
        AtMostOneAlertPerHour(next, urlAl, urlCu, hasChannel, h, ticks[1..]);
      }
    }
  }

  class PriceService {
    const urlAl: string
    const urlCu: string
    /** Whether a price channel is attached for alerts. */
    const hasChannel: bool
    var priceCache: map<string, real>
    var lastAlertHour: Option<nat>

    constructor(urlAl: string, urlCu: string, hasChannel: bool)
      ensures this.urlAl == urlAl && this.urlCu == urlCu && this.hasChannel == hasChannel
      ensures priceCache == map[] && lastAlertHour == None
    {
      this.urlAl := urlAl;
      this.urlCu := urlCu;
      this.hasChannel := hasChannel;
      priceCache := map[];
      lastAlertHour := None;
    }

    /** `fetch_price`: cache first, then client, metal selection, fetch, and caching. */
    method FetchPrice(metal: string, clientBuilds: bool, fetch: string -> Result<real, PriceError>)
      returns (r: Result<real, PriceError>)
      modifies this
      ensures (r, priceCache) == FetchOutcome(old(priceCache), metal, urlAl, urlCu, clientBuilds, fetch)
      ensures lastAlertHour == old(lastAlertHour)
    {
      if metal in priceCache {
        return Success(priceCache[metal]);
      }
      if !clientBuilds {
        return Failure(ClientError);
      }
      var url: string;
      var lower := Lower(metal);
      if lower == "aluminium" {
        url := urlAl;
      } else if lower == "copper" {
        url := urlCu;
      } else {
        return Failure(InvalidMetalType);
      }
      r := fetch(url);
      if r.Success? {
        priceCache := priceCache[metal := r.value];
      }
    }

    /**
     * `fetch_formatted_prices`, without the message text: copper first, then aluminium; the
     * first failure is returned and, when copper fails, aluminium is not fetched.
     */
    method FetchFormattedPrices(clientBuilds: bool, fetch: string -> Result<real, PriceError>)
      returns (r: Result<(real, real), PriceError>)
      modifies this
      ensures (r, priceCache) == BothPrices(old(priceCache), urlAl, urlCu, clientBuilds, fetch)
      ensures lastAlertHour == old(lastAlertHour)
    {
      var cu := FetchPrice("copper", clientBuilds, fetch);
      if cu.Failure? {
        return Failure(cu.error);
      }
      var al := FetchPrice("aluminium", clientBuilds, fetch);
      if al.Failure? {
        return Failure(al.error);
      }
      r := Success((cu.value, al.value));
    }

    /**
     * `send_price_alert`: aluminium first, then copper, then the message on the channel when
     * there is one (`channelAccepts` is whether the channel takes it). Succeeds iff every step does.
     */
    method SendPriceAlert(clientBuilds: bool, fetch: string -> Result<real, PriceError>, channelAccepts: bool)
      returns (ok: bool)
      modifies this
      ensures (ok, priceCache) == AlertAttempt(old(priceCache), urlAl, urlCu, hasChannel, clientBuilds, fetch, channelAccepts)
      ensures lastAlertHour == old(lastAlertHour)
    {
      var al := FetchPrice("aluminium", clientBuilds, fetch);
      if al.Failure? {
        return false;
      }
      var cu := FetchPrice("copper", clientBuilds, fetch);
      if cu.Failure? {
        return false;
      }
      ok := !hasChannel || channelAccepts;
    }

    /**
     * The loop of `run` over a finite stretch of minutes: when an alert is due, `send_price_alert`
     * runs with that minute's network and channel, and the hour is recorded only when the alert
     * went out. Returns how many alerts went out.
     */
    method Run(ticks: seq<Tick>) returns (sent: nat)
      modifies this
      ensures AlertState(lastAlertHour, priceCache)
              == AfterTicks(AlertState(old(lastAlertHour), old(priceCache)), urlAl, urlCu, hasChannel, ticks)
      ensures sent == AlertsSent(AlertState(old(lastAlertHour), old(priceCache)), urlAl, urlCu, hasChannel, ticks)
    {
      ghost var start := AlertState(lastAlertHour, priceCache);
      sent := 0;
      var i := 0;
      while i < |ticks|
        invariant 0 <= i <= |ticks|
        invariant AfterTicks(start, urlAl, urlCu, hasChannel, ticks)
                  == AfterTicks(AlertState(lastAlertHour, priceCache), urlAl, urlCu, hasChannel, ticks[i..])
        invariant AlertsSent(start, urlAl, urlCu, hasChannel, ticks)
                  == sent + AlertsSent(AlertState(lastAlertHour, priceCache), urlAl, urlCu, hasChannel, ticks[i..])
      {
        var t := ticks[i];
        assert ticks[i..][1..] == ticks[i + 1..];
        if ShouldSendAlert(t.hour, t.minute, lastAlertHour) {
          var ok := SendPriceAlert(t.clientBuilds, t.fetch, t.channelAccepts);
          if ok {
            lastAlertHour := Some(t.hour);
            sent := sent + 1;
          }
        }
        i := i + 1;
      }
    }
  }
}
