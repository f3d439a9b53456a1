/**
 * The NAS100 webhook handler: a POST stores a TradingView alert in memory after
 * checking its required fields and that its symbol is a NAS100 alias; a GET reads
 * the current signal, the history or a status summary, or clears the current
 * signal. The module-level `lastSignalId`, `currentSignal` and `signalHistory`
 * are the fields of `Store`; `Step` is the reference definition of one request.
 */
module ApiWebhook {
  import opened Wrappers
  import opened Js
  import History

  /** `signalHistory` is cut back to this many entries. */
  const HistoryCap: nat := 100
  /** The page size of `endpoint=history` when `limit` is missing, not a number or zero. */
  const DefaultLimit: int := 10
  const ValidSymbols: seq<string> := ["NAS100", "US100", "NASDAQ", "NDX"]
  const RequiredFields: seq<string> := ["action", "symbol", "timeframe"]
  const AvailableEndpoints: seq<string> := ["current", "history", "status", "clear"]

  /** `signalData`: the stored record. `price` is `parseFloat(price) || null`. */
  datatype Signal = Signal(
    signalId: nat,
    action: string,
    symbol: string,
    timeframe: string,
    price: Option<real>,
    strategy: string,
    timestamp: string,
    receivedAt: string,
    processed: bool,
    source: string,
    instrument: string)

  /** The `data` part of the reply to an accepted POST. */
  datatype Summary = Summary(action: string, symbol: string, timeframe: string, timestamp: string, instrument: string)

  /** The query parameters a GET reads; `via` is the `method` parameter (the delivery channel, "direct" by default). */
  datatype Query = Query(endpoint: Option<string>, via: Option<string>, limit: Option<string>)

  datatype Request = Request(httpMethod: string, query: Query, body: Body)

  /** The replies the handler writes, one constructor per `res.status(..).json(..)` / `end()` call. */
  datatype Response =
    | Preflight
    | Stored(signalId: nat, summary: Summary)
    | Filtered(symbol: string)
    | MissingFields(required: seq<string>, received: seq<string>)
    | Current(signal: Option<Signal>, via: string)
    | HistoryPage(entries: seq<Signal>, via: string)
    | Status(totalSignals: nat, lastSignal: Option<Signal>, serverTime: string, firebaseEnabled: bool, via: string)
    | Cleared
    | InvalidEndpoint(availableEndpoints: seq<string>)
    | MethodNotAllowed

  function StatusCode(r: Response): nat
  {
    match r
    case MissingFields(_, _) => 400
    case InvalidEndpoint(_) => 400
    case MethodNotAllowed => 405
    case _ => 200
  }

  /** `validSymbols.some(v => symbolUpper.includes(v))`. */
  predicate IsNas100Symbol(symbolUpper: string)
  {
    exists k :: 0 <= k < |ValidSymbols| && Contains(symbolUpper, ValidSymbols[k])
  }

  /** The filter ignores case and looks for the aliases anywhere in the symbol. */
  lemma NasdaqSymbolAccepted()
    ensures IsNas100Symbol(Upper("NASDAQ:NDX100"))
  {
    var s := "NASDAQ:NDX100";
    assert forall i :: 0 <= i < |s| ==> !IsLowerAscii(s[i]);
    UpperOfUpperIsIdentity(s);
    assert s[0..6] == ValidSymbols[2];
    assert OccursAt(s, ValidSymbols[2], 0);
  }

  lemma LowerCaseAliasAccepted()
    ensures IsNas100Symbol(Upper("us100"))
  {
    var u := Upper("us100");
    assert u == "US100";
    assert u[0..5] == ValidSymbols[1];
    assert OccursAt(u, ValidSymbols[1], 0);
  }

  lemma ForexSymbolFiltered()
    ensures !IsNas100Symbol(Upper("EURUSD"))
  {
    var s := "EURUSD";
    assert s == ['E', 'U', 'R', 'U', 'S', 'D'];
    assert forall i :: 0 <= i < |s| ==> !IsLowerAscii(s[i]) && s[i] != 'N' && s[i] != '1';
    UpperOfUpperIsIdentity(s);
    MissingCharNotContained(s, ValidSymbols[0], 'N');
    MissingCharNotContained(s, ValidSymbols[1], '1');
    MissingCharNotContained(s, ValidSymbols[2], 'N');
    MissingCharNotContained(s, ValidSymbols[3], 'N');
  }

  /** The in-memory store: `lastSignalId`, `currentSignal`, `signalHistory`. */
  datatype State = State(lastSignalId: nat, currentSignal: Option<Signal>, signalHistory: seq<Signal>)

  /** The store when the module is loaded. */
  const Empty: State := State(0, None, [])

  /** What every stored signal looks like once the handler has normalised it. */
  predicate Normalised(s: Signal)
  {
    s.signalId > 0 && s.action != "" && IsUpper(s.action) && IsUpper(s.symbol) && IsNas100Symbol(s.symbol)
    && s.timeframe != "" && s.strategy != "" && !s.processed
    && s.source == "tradingview" && s.instrument == "NAS100"
  }

  /**
   * The store's invariant: the history is within its cap, holds normalised signals
   * with ids strictly decreasing from the newest (whose id is the counter), and the
   * current signal, when set, is the newest entry of the history.
   */
  ghost predicate Inv(st: State)
  {
    var h := st.signalHistory;
    |h| <= HistoryCap
    && (forall i :: 0 <= i < |h| ==> Normalised(h[i]) && h[i].signalId <= st.lastSignalId)
    && (forall i, j :: 0 <= i < j < |h| ==> h[j].signalId < h[i].signalId)
    && (h != [] ==> h[0].signalId == st.lastSignalId)
    && (st.currentSignal.Some? ==> h != [] && st.currentSignal.value == h[0])
  }

  /** `parseFloat(price) || null`, where the float parsing is the caller's `parsePrice`. */
  function PriceOf(body: Body, parsePrice: string -> Option<real>): Option<real>
  {
    match Field(body, "price")
    case None => None
    case Some(raw) => parsePrice(raw)
  }

  /** The record built for an accepted POST with id `id`, at receive time `now`. */
  function SignalData(id: nat, action: string, symbolUpper: string, timeframe: string, body: Body,
                      now: string, parsePrice: string -> Option<real>): Signal
  {
    Signal(id, Upper(action), symbolUpper, timeframe, PriceOf(body, parsePrice),
           OrElse(Field(body, "strategy"), "default"), OrElse(Field(body, "timestamp"), now), now,
           false, "tradingview", "NAS100")
  }

  function Summarize(s: Signal): Summary
  {
    Summary(s.action, s.symbol, s.timeframe, s.timestamp, "NAS100")
  }

  /** All three of `action`, `symbol` and `timeframe` are truthy. */
  predicate HasRequiredFields(body: Body)
  {
    Truthy(Field(body, "action")) && Truthy(Field(body, "symbol")) && Truthy(Field(body, "timeframe"))
  }

  /** The POST branch of the handler, on the store `st`, at time `now`. */
  function PostStep(st: State, body: Body, now: string, parsePrice: string -> Option<real>): (State, Response)
  {
    if !HasRequiredFields(body) then (st, MissingFields(RequiredFields, Keys(body)))
    else
      var symbol := Field(body, "symbol").value;
      var symbolUpper := Upper(symbol);
      if !IsNas100Symbol(symbolUpper) then (st, Filtered(symbol))
      else
        var signal := SignalData(st.lastSignalId + 1, Field(body, "action").value, symbolUpper,
                                 Field(body, "timeframe").value, body, now, parsePrice);
        (Accept(st, signal), Stored(signal.signalId, Summarize(signal)))
  }

  /** The store after `signal` is accepted: it takes the counter, becomes current and heads the capped history. */
  function Accept(st: State, signal: Signal): State
  {
    State(signal.signalId, Some(signal), History.Prepend(st.signalHistory, signal, HistoryCap))
  }

  /** `parseInt(req.query.limit) || 10`. */
  function HistoryLimit(limit: Option<string>): int
  {
    var parsed := if limit.Some? then ParseInt(limit.value) else None;
    if parsed.None? || parsed.value == 0 then DefaultLimit else parsed.value
  }

  /** The GET branch of the handler: the `endpoint` switch. `now` is the server time. */
  function GetStep(st: State, q: Query, now: string, firebaseEnabled: bool): (State, Response)
  {
    var via := OrElse(q.via, "direct");
    if q.endpoint == Some("current") then (st, Current(st.currentSignal, via))
    else if q.endpoint == Some("history") then
      (st, HistoryPage(SliceTo(st.signalHistory, HistoryLimit(q.limit)), via))
    else if q.endpoint == Some("status") then
      (st, Status(|st.signalHistory|, st.currentSignal, now, firebaseEnabled, via))
    else if q.endpoint == Some("clear") then (st.(currentSignal := None), Cleared)
    else (st, InvalidEndpoint(AvailableEndpoints))
  }

  /** One request: preflight, POST, GET, or any other method. */
  function Step(st: State, req: Request, now: string, parsePrice: string -> Option<real>, firebaseEnabled: bool): (State, Response)
  {
    if req.httpMethod == "OPTIONS" then (st, Preflight)
    else if req.httpMethod == "POST" then PostStep(st, req.body, now, parsePrice)
    else if req.httpMethod == "GET" then GetStep(st, req.query, now, firebaseEnabled)
    else (st, MethodNotAllowed)
  }

  // ---------------------------------------------------------------------------
  // POST

  /**
   * A POST missing any of `action`, `symbol`, `timeframe` (or carrying an empty one)
   * is answered 400 with the three required names and the keys it did carry, and
   * leaves the store as it was.
   */
  lemma MissingFieldsRejected(st: State, body: Body, now: string, parsePrice: string -> Option<real>)
    ensures PostStep(st, body, now, parsePrice).1.MissingFields? <==> !HasRequiredFields(body)
    ensures !HasRequiredFields(body) ==>
      var (st', r) := PostStep(st, body, now, parsePrice);
      && st' == st && StatusCode(r) == 400
      && r.required == ["action", "symbol", "timeframe"]
      && |r.received| == |body| && (forall i :: 0 <= i < |body| ==> r.received[i] == body[i].key)
  {
  }

  /**
   * With the required fields present, the symbol is filtered out exactly when its
   * upper-case form contains none of the four aliases; a filtered POST is a 200
   * that echoes the symbol as sent and changes nothing; every other one is stored.
   */
  lemma SymbolFilter(st: State, body: Body, now: string, parsePrice: string -> Option<real>)
    requires HasRequiredFields(body)
    ensures var (st', r) := PostStep(st, body, now, parsePrice);
      && (r.Filtered? <==> forall k :: 0 <= k < |ValidSymbols| ==> !Contains(Upper(Field(body, "symbol").value), ValidSymbols[k]))
      && (r.Filtered? ==> st' == st && r.symbol == Field(body, "symbol").value && StatusCode(r) == 200)
      && (!r.Filtered? ==> r.Stored?)
  {
  }

  /**
   * An accepted POST takes the next id, which is newer than every id in the history;
   * the new signal becomes current and the head of the history; the history grows by
   * one up to 100, dropping only its oldest entry.
   */
  lemma AcceptedSignalStored(st: State, body: Body, now: string, parsePrice: string -> Option<real>)
    requires Inv(st)
    requires PostStep(st, body, now, parsePrice).1.Stored?
    ensures var (st', r) := PostStep(st, body, now, parsePrice);
      var h, h' := st.signalHistory, st'.signalHistory;
      && r.signalId == st'.lastSignalId == st.lastSignalId + 1
      && (forall i :: 0 <= i < |h| ==> h[i].signalId < r.signalId)
      && h' != [] && st'.currentSignal == Some(h'[0]) && h'[0].signalId == r.signalId
      && |h'| == Min(|h| + 1, HistoryCap)
      && h'[1..] == h[..|h'| - 1]
      && r.summary == Summarize(h'[0])
  {
  }

  /**
   * The stored signal: `action` and `symbol` upper-cased, `timeframe` as sent,
   * `strategy` defaulting to "default", `timestamp` defaulting to the receive time,
   * `receivedAt` the receive time, not yet processed.
   */
  lemma AcceptedSignalNormalised(st: State, body: Body, now: string, parsePrice: string -> Option<real>)
    requires PostStep(st, body, now, parsePrice).1.Stored?
    ensures var s := PostStep(st, body, now, parsePrice).0.currentSignal.value;
      && Normalised(s)
      && s.action == Upper(Field(body, "action").value)
      && s.symbol == Upper(Field(body, "symbol").value)
      && s.timeframe == Field(body, "timeframe").value
      && s.price == PriceOf(body, parsePrice)
      && (Truthy(Field(body, "strategy")) ==> s.strategy == Field(body, "strategy").value)
      && (!Truthy(Field(body, "strategy")) ==> s.strategy == "default")
      && (Truthy(Field(body, "timestamp")) ==> s.timestamp == Field(body, "timestamp").value)
      && (!Truthy(Field(body, "timestamp")) ==> s.timestamp == now)
      && s.receivedAt == now && !s.processed
  {
    var symbolUpper := Upper(Field(body, "symbol").value);
    assert IsNas100Symbol(symbolUpper);
  }

  lemma AcceptKeepsInv(st: State, signal: Signal)
    requires Inv(st) && Normalised(signal) && signal.signalId == st.lastSignalId + 1
    ensures Inv(Accept(st, signal))
  {
    var h, h' := st.signalHistory, Accept(st, signal).signalHistory;
    assert forall i :: 0 < i < |h'| ==> h'[i] == h[i - 1];
  }

  lemma PostKeepsInv(st: State, body: Body, now: string, parsePrice: string -> Option<real>)
    requires Inv(st)
    ensures Inv(PostStep(st, body, now, parsePrice).0)
  {
    if PostStep(st, body, now, parsePrice).1.Stored? {
      AcceptedSignalNormalised(st, body, now, parsePrice);
      AcceptKeepsInv(st, PostStep(st, body, now, parsePrice).0.currentSignal.value);
    }
  }

  // ---------------------------------------------------------------------------
  // GET

  /** `endpoint=clear` empties the current slot only, answers 200 whatever the store held, and a second clear changes nothing more. */
  lemma ClearTouchesOnlyCurrent(st: State, q: Query, now: string, firebaseEnabled: bool)
    requires q.endpoint == Some("clear")
    ensures var (st', r) := GetStep(st, q, now, firebaseEnabled);
      && r == Cleared && StatusCode(r) == 200
      && st'.currentSignal == None
      && st'.lastSignalId == st.lastSignalId && st'.signalHistory == st.signalHistory
      && GetStep(st', q, now, firebaseEnabled) == (st', Cleared)
  {
  }

  /** Every GET other than `clear` leaves the store as it was. */
  lemma ReadsChangeNothing(st: State, q: Query, now: string, firebaseEnabled: bool)
    requires q.endpoint != Some("clear")
    ensures GetStep(st, q, now, firebaseEnabled).0 == st
  {
  }

  /** `endpoint=current` returns the current signal, which is the most recently accepted one unless cleared. */
  lemma CurrentIsNewest(st: State, q: Query, now: string, firebaseEnabled: bool)
    requires Inv(st) && q.endpoint == Some("current")
    ensures var r := GetStep(st, q, now, firebaseEnabled).1;
      && r.Current? && r.signal == st.currentSignal
      && (r.signal.Some? ==> r.signal.value.signalId == st.lastSignalId && r.signal.value == st.signalHistory[0])
      && r.via == (if Truthy(q.via) then q.via.value else "direct")
  {
  }

  /** A `limit` that `parseInt` reads as `n > 0` returns the newest `min(n, |history|)` entries, newest first. */
  lemma HistoryPositiveLimit(st: State, q: Query, n: nat, now: string, firebaseEnabled: bool)
    requires q.endpoint == Some("history") && q.limit.Some? && ParseInt(q.limit.value) == Some(n) && n > 0
    ensures var r := GetStep(st, q, now, firebaseEnabled).1;
      r.HistoryPage? && r.entries == st.signalHistory[..Min(n, |st.signalHistory|)]
  {
  }

  /** A missing `limit`, or one that is not a number or is zero, gives the newest ten entries. */
  lemma HistoryDefaultLimit(st: State, q: Query, now: string, firebaseEnabled: bool)
    requires q.endpoint == Some("history")
    requires q.limit.None? || ParseInt(q.limit.value).None? || ParseInt(q.limit.value) == Some(0)
    ensures var r := GetStep(st, q, now, firebaseEnabled).1;
      r.HistoryPage? && r.entries == st.signalHistory[..Min(10, |st.signalHistory|)]
  {
  }

  /** A `limit` that `parseInt` reads as `-n` follows `slice(0, -n)`: everything but the oldest `n` entries. */
  lemma HistoryNegativeLimit(st: State, q: Query, n: nat, now: string, firebaseEnabled: bool)
    requires q.endpoint == Some("history") && q.limit.Some? && ParseInt(q.limit.value) == Some(-(n as int)) && n > 0
    ensures var r := GetStep(st, q, now, firebaseEnabled).1;
      r.HistoryPage? && r.entries == st.signalHistory[..Max(|st.signalHistory| - n, 0)]
  {
  }

  /** `endpoint=status` counts the history (at most 100) and reports the current signal. */
  lemma StatusReportsStore(st: State, q: Query, now: string, firebaseEnabled: bool)
    requires Inv(st) && q.endpoint == Some("status")
    ensures var r := GetStep(st, q, now, firebaseEnabled).1;
      && r.Status? && r.totalSignals == |st.signalHistory| <= HistoryCap
      && r.lastSignal == st.currentSignal && r.serverTime == now && r.firebaseEnabled == firebaseEnabled
      && (r.lastSignal.Some? ==> r.totalSignals > 0)
  {
  }

  /** Any endpoint but the four is a 400 that lists them. */
  lemma UnknownEndpointRejected(st: State, q: Query, now: string, firebaseEnabled: bool)
    requires q.endpoint.None? || q.endpoint.value !in AvailableEndpoints
    ensures GetStep(st, q, now, firebaseEnabled) == (st, InvalidEndpoint(["current", "history", "status", "clear"]))
    ensures StatusCode(GetStep(st, q, now, firebaseEnabled).1) == 400
  {
  }

  // ---------------------------------------------------------------------------
  // Whole requests

  /** OPTIONS is an empty 200, methods other than GET and POST a 405; neither touches the store. */
  lemma OtherMethodsChangeNothing(st: State, req: Request, now: string, parsePrice: string -> Option<real>, firebaseEnabled: bool)
    requires req.httpMethod != "GET" && req.httpMethod != "POST"
    ensures var (st', r) := Step(st, req, now, parsePrice, firebaseEnabled);
      st' == st && (if req.httpMethod == "OPTIONS" then r == Preflight else r == MethodNotAllowed && StatusCode(r) == 405)
  {
  }

  /** The counter moves by one exactly on an accepted POST, and an accepted POST reports the new counter. */
  lemma StepCounter(st: State, req: Request, now: string, parsePrice: string -> Option<real>, firebaseEnabled: bool)
    ensures var (st', r) := Step(st, req, now, parsePrice, firebaseEnabled);
      && st'.lastSignalId == st.lastSignalId + (if r.Stored? then 1 else 0)
      && (r.Stored? ==> r.signalId == st'.lastSignalId)
  {
  }

  lemma StepKeepsInv(st: State, req: Request, now: string, parsePrice: string -> Option<real>, firebaseEnabled: bool)
    requires Inv(st)
    ensures Inv(Step(st, req, now, parsePrice, firebaseEnabled).0)
  {
    if req.httpMethod == "POST" {
      PostKeepsInv(st, req.body, now, parsePrice);
    }
  }

  /** One request of a run, with the time at which it arrives. */
  datatype Event = Event(req: Request, now: string)

  /** The store and the replies after a run of requests, the first one first. */
  function Run(st: State, events: seq<Event>, parsePrice: string -> Option<real>, firebaseEnabled: bool): (State, seq<Response>)
    decreases |events|
  {
    if events == [] then (st, [])
    else
      var first := Step(st, events[0].req, events[0].now, parsePrice, firebaseEnabled);
      var rest := Run(first.0, events[1..], parsePrice, firebaseEnabled);
      (rest.0, [first.1] + rest.1)
  }

  /** The ids handed out in a run of replies, in order. */
  function StoredIds(rs: seq<Response>): seq<nat>
  {
    if rs == [] then []
    else if rs[0].Stored? then [rs[0].signalId] + StoredIds(rs[1..])
    else StoredIds(rs[1..])
  }

  /** A run of requests from a valid store leaves it valid. */
  lemma {:induction false} RunKeepsInv(st: State, events: seq<Event>, parsePrice: string -> Option<real>, firebaseEnabled: bool)
    requires Inv(st)
    ensures Inv(Run(st, events, parsePrice, firebaseEnabled).0)
    decreases |events|
  {
    if events != [] {
      var first := Step(st, events[0].req, events[0].now, parsePrice, firebaseEnabled);
      StepKeepsInv(st, events[0].req, events[0].now, parsePrice, firebaseEnabled);
      RunKeepsInv(first.0, events[1..], parsePrice, firebaseEnabled);
    }
  }

  /**
   * Over any run of requests, the ids handed to accepted signals strictly
   * increase, all exceed the counter at the start and none exceeds the counter
   * at the end: no id is handed out twice.
   */
  lemma {:induction false} RunIssuesIncreasingIds(st: State, events: seq<Event>, parsePrice: string -> Option<real>, firebaseEnabled: bool)
    ensures var run := Run(st, events, parsePrice, firebaseEnabled);
      st.lastSignalId <= run.0.lastSignalId && History.FreshIncreasing(StoredIds(run.1), st.lastSignalId, run.0.lastSignalId)
    decreases |events|
  {
    if events != [] {
      var first := Step(st, events[0].req, events[0].now, parsePrice, firebaseEnabled);
      StepCounter(st, events[0].req, events[0].now, parsePrice, firebaseEnabled);
      RunIssuesIncreasingIds(first.0, events[1..], parsePrice, firebaseEnabled);
      var rest := Run(first.0, events[1..], parsePrice, firebaseEnabled);
      assert Run(st, events, parsePrice, firebaseEnabled) == (rest.0, [first.1] + rest.1);
      StoredIdsCons(first.1, rest.1);
      var pre := if first.1.Stored? then [first.1.signalId] else [];
      History.FreshIncreasingPrepend(pre, StoredIds(rest.1), st.lastSignalId, first.0.lastSignalId, rest.0.lastSignalId);
    }
  }

  /** A request changes the history only by accepting one signal, which is then the current one. */
  lemma StepHistory(st: State, req: Request, now: string, parsePrice: string -> Option<real>, firebaseEnabled: bool)
    ensures var (st', r) := Step(st, req, now, parsePrice, firebaseEnabled);
      && (r.Stored? ==>
            st'.currentSignal.Some? && st'.signalHistory == History.Prepend(st.signalHistory, st'.currentSignal.value, HistoryCap))
      && (!r.Stored? ==> st'.signalHistory == st.signalHistory)
  {
  }

  /** The signals a run of requests accepts, the first one first. */
  function Accepted(st: State, events: seq<Event>, parsePrice: string -> Option<real>, firebaseEnabled: bool): seq<Signal>
    decreases |events|
  {
    if events == [] then []
    else
      var first := Step(st, events[0].req, events[0].now, parsePrice, firebaseEnabled);
      StepHistory(st, events[0].req, events[0].now, parsePrice, firebaseEnabled);
      (if first.1.Stored? then [first.0.currentSignal.value] else [])
      + Accepted(first.0, events[1..], parsePrice, firebaseEnabled)
  }

  /** After a run of requests the history is the old one with the accepted signals pushed on, one at a time, in order. */
  lemma {:induction false} RunHistory(st: State, events: seq<Event>, parsePrice: string -> Option<real>, firebaseEnabled: bool)
    ensures Run(st, events, parsePrice, firebaseEnabled).0.signalHistory
         == History.PrependAll(st.signalHistory, Accepted(st, events, parsePrice, firebaseEnabled), HistoryCap)
    decreases |events|
  {
    if events != [] {
      var first := Step(st, events[0].req, events[0].now, parsePrice, firebaseEnabled);
      StepHistory(st, events[0].req, events[0].now, parsePrice, firebaseEnabled);
      RunHistory(first.0, events[1..], parsePrice, firebaseEnabled);
      var xs := Accepted(st, events, parsePrice, firebaseEnabled);
      var ys := Accepted(first.0, events[1..], parsePrice, firebaseEnabled);
      if first.1.Stored? {
        assert xs[0] == first.0.currentSignal.value && xs[1..] == ys;
      } else {
        assert xs == ys;
      }
    }
  }

  /**
   * From a valid store, the history after a run is the accepted signals newest first
   * followed by the old history, cut to 100 entries; once 100 or more have been accepted
   * it holds exactly the newest 100 of them.
   */
  lemma RunKeepsNewest(st: State, events: seq<Event>, parsePrice: string -> Option<real>, firebaseEnabled: bool)
    requires Inv(st)
    ensures var h := Run(st, events, parsePrice, firebaseEnabled).0.signalHistory;
      var xs := Accepted(st, events, parsePrice, firebaseEnabled);
      && h == History.Take(History.Reverse(xs) + st.signalHistory, HistoryCap)
      && (|xs| >= HistoryCap ==> h == History.Reverse(xs)[..HistoryCap])
  {
    var xs := Accepted(st, events, parsePrice, firebaseEnabled);
    RunHistory(st, events, parsePrice, firebaseEnabled);
    History.PrependAllKeepsNewest(st.signalHistory, xs, HistoryCap);
    if |xs| >= HistoryCap {
      History.NewestCapSurvive(st.signalHistory, xs, HistoryCap);
    }
  }

  lemma StoredIdsCons(r: Response, rs: seq<Response>)
    ensures StoredIds([r] + rs) == (if r.Stored? then [r.signalId] else []) + StoredIds(rs)
  {
    assert ([r] + rs)[1..] == rs;
  }

  // ---------------------------------------------------------------------------
  // The handler's module-level state

  class Store {
    var lastSignalId: nat
    var currentSignal: Option<Signal>
    var signalHistory: seq<Signal>
    /** `!!database`: whether the Firebase client was created when the module loaded. */
    const firebaseEnabled: bool

    function Model(): State
      reads this
    {
      State(lastSignalId, currentSignal, signalHistory)
    }

    ghost predicate Valid()
      reads this
    {
      Inv(Model())
    }

    constructor (firebaseEnabled: bool)
      ensures Valid() && Model() == Empty && this.firebaseEnabled == firebaseEnabled
    {
      lastSignalId := 0;
      currentSignal := None;
      signalHistory := [];
      this.firebaseEnabled := firebaseEnabled;
    }

    /** The POST branch. */
    method Receive(body: Body, now: string, parsePrice: string -> Option<real>) returns (r: Response)
      requires Valid()
      modifies this
      ensures Valid()
      ensures (Model(), r) == PostStep(old(Model()), body, now, parsePrice)
    {
      var action := Field(body, "action");
      var symbol := Field(body, "symbol");
      var timeframe := Field(body, "timeframe");
      if !Truthy(action) || !Truthy(symbol) || !Truthy(timeframe) {
        return MissingFields(RequiredFields, Keys(body));
      }
      var symbolUpper := Upper(symbol.value);
      if !IsNas100Symbol(symbolUpper) {
        return Filtered(symbol.value);
      }
      ghost var before := Model();
      lastSignalId := lastSignalId + 1;
      var signal := SignalData(lastSignalId, action.value, symbolUpper, timeframe.value, body, now, parsePrice);
      currentSignal := Some(signal);
      signalHistory := [signal] + signalHistory;
      if |signalHistory| > HistoryCap {
        signalHistory := signalHistory[..HistoryCap];
      }
      r := Stored(signal.signalId, Summarize(signal));
      assert Model() == Accept(before, signal);
      AcceptKeepsInv(before, signal);
    }

    /** The GET branch: the `endpoint` switch; `now` is the server time. */
    method Query(q: Query, now: string) returns (r: Response)
      requires Valid()
      modifies this
      ensures Valid()
      ensures (Model(), r) == GetStep(old(Model()), q, now, firebaseEnabled)
    {
      var via := OrElse(q.via, "direct");
      if q.endpoint == Some("current") {
        r := Current(currentSignal, via);
      } else if q.endpoint == Some("history") {
        var limit := HistoryLimit(q.limit);
        r := HistoryPage(SliceTo(signalHistory, limit), via);
      } else if q.endpoint == Some("status") {
        r := Status(|signalHistory|, currentSignal, now, firebaseEnabled, via);
      } else if q.endpoint == Some("clear") {
        currentSignal := None;
        r := Cleared;
      } else {
        r := InvalidEndpoint(AvailableEndpoints);
      }
    }

    /** The whole handler for one request. */
    method Handle(req: Request, now: string, parsePrice: string -> Option<real>) returns (r: Response)
      requires Valid()
      modifies this
      ensures Valid()
      ensures (Model(), r) == Step(old(Model()), req, now, parsePrice, firebaseEnabled)
    {
      if req.httpMethod == "OPTIONS" {
        r := Preflight;
      } else if req.httpMethod == "POST" {
        r := Receive(req.body, now, parsePrice);
      } else if req.httpMethod == "GET" {
        r := Query(req.query, now);
      } else {
        r := MethodNotAllowed;
      }
    }
  }
}
