/**
 * The minimal webhook handler: the store lives on the process-wide `global`
 * object and is created by the first request that is not a preflight. A POST
 * needs only `action` and `symbol`, has no symbol filter and keeps the newest
 * 50 signals; a GET reports the status, the current signal or a short
 * description of the API. `Step` is the reference definition of one request and
 * `Global` holds the three properties the handler updates.
 */
module PagesWebhook {
  import opened Wrappers
  import opened Js
  import History

  /** `global.signals` is cut back to this many entries. */
  const HistoryCap: nat := 50
  /** `timeframe || '15m'`. */
  const DefaultTimeframe: string := "15m"
  const InfoEndpoints: seq<string> := ["?endpoint=status", "?endpoint=current"]
  const AllowedMethods: seq<string> := ["GET", "POST"]

  /** The stored record; `price` is `price || null`, kept as sent; `timestamp` is the receive time. */
  datatype Signal = Signal(id: nat, action: string, symbol: string, timeframe: string, price: Option<string>, timestamp: string)

  datatype Request = Request(httpMethod: string, endpoint: Option<string>, body: Body)

  /** The replies the handler writes. */
  datatype Response =
    | Preflight
    | Status(totalSignals: nat, currentSignal: Option<Signal>, timestamp: string)
    | Current(signal: Option<Signal>)
    | Info(endpoints: seq<string>, httpMethod: string)
    | Received(data: Signal)
    | MissingActionOrSymbol
    | MethodNotAllowed(allowed: seq<string>, received: string)

  function StatusCode(r: Response): nat
  {
    match r
    case MissingActionOrSymbol => 400
    case MethodNotAllowed(_, _) => 405
    case _ => 200
  }

  /**
   * `global.signals`, `global.currentSignal` and `global.signalId`. `signals` is
   * `None` while `global.signals` has not been created; the other two are then
   * whatever the process holds and are never read.
   */
  datatype State = State(signals: Option<seq<Signal>>, currentSignal: Option<Signal>, signalId: nat)

  /** The store right after its lazy creation. */
  const Fresh: State := State(Some([]), None, 0)

  /** `if (!global.signals) { ... }`: create the store unless it already exists. */
  function Init(st: State): State
  {
    if st.signals.None? then Fresh else st
  }

  predicate Normalised(s: Signal)
  {
    s.id > 0 && s.action != "" && IsUpper(s.action) && s.symbol != "" && IsUpper(s.symbol) && s.timeframe != ""
  }

  /**
   * Once created, the store keeps at most 50 normalised signals, ids strictly
   * decreasing from the newest (whose id is the counter), and the current signal
   * is set exactly when the list is not empty, and is then its head.
   */
  ghost predicate Inv(st: State)
  {
    st.signals.Some? ==>
      var h := st.signals.value;
      && |h| <= HistoryCap
      && (forall i :: 0 <= i < |h| ==> Normalised(h[i]) && h[i].id <= st.signalId)
      && (forall i, j :: 0 <= i < j < |h| ==> h[j].id < h[i].id)
      && (h != [] ==> h[0].id == st.signalId)
      && (st.currentSignal.Some? <==> h != [])
      && (st.currentSignal.Some? ==> st.currentSignal.value == h[0])
  }

  /** `price || null` for a string price. */
  function PriceOf(body: Body): Option<string>
  {
    if Truthy(Field(body, "price")) then Field(body, "price") else None
  }

  /** The record built for an accepted POST with id `id` at time `now`. */
  function NewSignal(id: nat, action: string, symbol: string, body: Body, now: string): Signal
  {
    Signal(id, Upper(action), Upper(symbol), OrElse(Field(body, "timeframe"), DefaultTimeframe), PriceOf(body), now)
  }

  /** The store after `signal` is accepted: it takes the counter, becomes current and heads the capped list. */
  function Accept(st: State, signal: Signal): State
    requires st.signals.Some?
  {
    State(Some(History.Prepend(st.signals.value, signal, HistoryCap)), Some(signal), signal.id)
  }

  /** The POST branch, on a created store. */
  function PostStep(st: State, body: Body, now: string): (State, Response)
    requires st.signals.Some?
  {
    var action, symbol := Field(body, "action"), Field(body, "symbol");
    if !Truthy(action) || !Truthy(symbol) then (st, MissingActionOrSymbol)
    else
      var signal := NewSignal(st.signalId + 1, action.value, symbol.value, body, now);
      (Accept(st, signal), Received(signal))
  }

  /** The GET branch, on a created store. */
  function GetStep(st: State, endpoint: Option<string>, now: string): Response
    requires st.signals.Some?
  {
    if endpoint == Some("status") then Status(|st.signals.value|, st.currentSignal, now)
    else if endpoint == Some("current") then Current(st.currentSignal)
    else Info(InfoEndpoints, "GET")
  }

  /** One request: a preflight returns before the store is touched; everything else creates it first. */
  function Step(st: State, req: Request, now: string): (State, Response)
  {
    if req.httpMethod == "OPTIONS" then (st, Preflight)
    else
      var st1 := Init(st);
      if req.httpMethod == "GET" then (st1, GetStep(st1, req.endpoint, now))
      else if req.httpMethod == "POST" then PostStep(st1, req.body, now)
      else (st1, MethodNotAllowed(AllowedMethods, req.httpMethod))
  }

  // ---------------------------------------------------------------------------
  // Lazy creation

  /** The store is created empty exactly when it is absent; an existing store is left alone, and creating twice is creating once. */
  lemma InitOnlyWhenAbsent(st: State)
    ensures st.signals.None? ==> Init(st) == State(Some([]), None, 0)
    ensures st.signals.Some? ==> Init(st) == st
    ensures Init(Init(st)) == Init(st) && Inv(Init(st)) == (st.signals.None? || Inv(st))
  {
  }

  /**
   * Once the store exists no request resets it: each one either leaves it as it
   * was or accepts one signal into it, and the counter never goes down.
   */
  lemma NeverReset(st: State, req: Request, now: string)
    requires st.signals.Some?
    ensures var (st', r) := Step(st, req, now);
      && st'.signals.Some? && st'.signalId >= st.signalId
      && (st' == st || (r.Received? && st' == Accept(st, r.data)))
  {
  }

  // ---------------------------------------------------------------------------
  // POST

  /** A POST with no (or an empty) `action` or `symbol` is a 400 that leaves the store as created; `timeframe` is not required. */
  lemma MissingActionOrSymbolRejected(st: State, body: Body, now: string)
    ensures var (st', r) := Step(st, Request("POST", None, body), now);
      && (r == MissingActionOrSymbol <==> !Truthy(Field(body, "action")) || !Truthy(Field(body, "symbol")))
      && (r == MissingActionOrSymbol ==> st' == Init(st) && StatusCode(r) == 400)
  {
  }

  /**
   * Every POST with `action` and `symbol` is accepted, whatever the symbol: it takes
   * the next id, becomes current and heads the list, which grows by one up to 50 and
   * drops only its oldest entry.
   */
  lemma AcceptedSignalStored(st: State, body: Body, now: string)
    requires Inv(st)
    requires Truthy(Field(body, "action")) && Truthy(Field(body, "symbol"))
    ensures var st0 := Init(st);
      var (st', r) := Step(st, Request("POST", None, body), now);
      var h, h' := st0.signals.value, st'.signals.value;
      && r.Received? && StatusCode(r) == 200
      && r.data.id == st'.signalId == st0.signalId + 1
      && (forall i :: 0 <= i < |h| ==> h[i].id < r.data.id)
      && st'.currentSignal == Some(r.data) && h'[0] == r.data
      && |h'| == Min(|h| + 1, HistoryCap)
      && h'[1..] == h[..|h'| - 1]
  {
  }

  /** The stored signal: `action` and `symbol` upper-cased, `timeframe` defaulting to "15m", the receive time as timestamp. */
  lemma AcceptedSignalNormalised(st: State, body: Body, now: string)
    requires Truthy(Field(body, "action")) && Truthy(Field(body, "symbol"))
    ensures var s := Step(st, Request("POST", None, body), now).1.data;
      && Normalised(s)
      && s.action == Upper(Field(body, "action").value)
      && s.symbol == Upper(Field(body, "symbol").value)
      && (Truthy(Field(body, "timeframe")) ==> s.timeframe == Field(body, "timeframe").value)
      && (!Truthy(Field(body, "timeframe")) ==> s.timeframe == "15m")
      && (Truthy(Field(body, "price")) ==> s.price == Field(body, "price"))
      && (!Truthy(Field(body, "price")) ==> s.price == None)
      && s.timestamp == now
  {
  }

  lemma AcceptKeepsInv(st: State, signal: Signal)
    requires st.signals.Some? && Inv(st) && Normalised(signal) && signal.id == st.signalId + 1
    ensures Inv(Accept(st, signal))
  {
    var h, h' := st.signals.value, Accept(st, signal).signals.value;
    assert forall i :: 0 < i < |h'| ==> h'[i] == h[i - 1];
  }

  // ---------------------------------------------------------------------------
  // GET and other methods

  /**
   * `endpoint=status` counts the list (at most 50) and reports the current signal;
   * `endpoint=current` returns the current signal, which is the newest one; any other
   * endpoint gets the API description. No GET changes the store beyond creating it.
   */
  lemma GetReportsStore(st: State, endpoint: Option<string>, body: Body, now: string)
    requires Inv(st)
    ensures var (st', r) := Step(st, Request("GET", endpoint, body), now);
      && st' == Init(st) && StatusCode(r) == 200
      && (endpoint == Some("status") ==>
            r == Status(|st'.signals.value|, st'.currentSignal, now) && r.totalSignals <= HistoryCap)
      && (endpoint == Some("current") ==>
            r == Current(st'.currentSignal)
            && (r.signal.Some? ==> r.signal.value == st'.signals.value[0] && r.signal.value.id == st'.signalId))
      && (endpoint != Some("status") && endpoint != Some("current") ==>
            r == Info(["?endpoint=status", "?endpoint=current"], "GET"))
  {
  }

  /** A method other than OPTIONS, GET and POST is a 405 naming GET and POST; it leaves the store as created. */
  lemma OtherMethodsRejected(st: State, req: Request, now: string)
    requires req.httpMethod !in {"OPTIONS", "GET", "POST"}
    ensures Step(st, req, now) == (Init(st), MethodNotAllowed(["GET", "POST"], req.httpMethod))
    ensures StatusCode(Step(st, req, now).1) == 405
  {
  }

  /** A preflight is answered before the store is looked at, so it does not even create it. */
  lemma PreflightTouchesNothing(st: State, req: Request, now: string)
    requires req.httpMethod == "OPTIONS"
    ensures Step(st, req, now) == (st, Preflight)
  {
  }

  // ---------------------------------------------------------------------------
  // Whole requests

  lemma StepKeepsInv(st: State, req: Request, now: string)
    requires Inv(st)
    ensures Inv(Step(st, req, now).0)
  {
    if req.httpMethod == "POST" {
      var st0 := Init(st);
      var r := Step(st, req, now).1;
      if r.Received? {
        AcceptedSignalNormalised(st, req.body, now);
        AcceptKeepsInv(st0, r.data);
      }
    }
  }

  /** The counter the next request works with: the existing one, or 0 once the store is created. */
  function Counter(st: State): nat
  {
    Init(st).signalId
  }

  /** The counter moves by one exactly on an accepted POST, and an accepted POST carries the new counter as its id. */
  lemma StepCounter(st: State, req: Request, now: string)
    ensures var (st', r) := Step(st, req, now);
      && Counter(st') == Counter(st) + (if r.Received? then 1 else 0)
      && (r.Received? ==> r.data.id == Counter(st'))
  {
  }

  datatype Event = Event(req: Request, now: string)

  function Run(st: State, events: seq<Event>): (State, seq<Response>)
    decreases |events|
  {
    if events == [] then (st, [])
    else
      var first := Step(st, events[0].req, events[0].now);
      var rest := Run(first.0, events[1..]);
      (rest.0, [first.1] + rest.1)
  }

  function ReceivedIds(rs: seq<Response>): seq<nat>
  {
    if rs == [] then []
    else if rs[0].Received? then [rs[0].data.id] + ReceivedIds(rs[1..])
    else ReceivedIds(rs[1..])
  }

  lemma ReceivedIdsCons(r: Response, rs: seq<Response>)
    ensures ReceivedIds([r] + rs) == (if r.Received? then [r.data.id] else []) + ReceivedIds(rs)
  {
    assert ([r] + rs)[1..] == rs;
  }

  /** The signals accepted in a run of replies, in order. */
  function ReceivedSignals(rs: seq<Response>): seq<Signal>
  {
    if rs == [] then []
    else if rs[0].Received? then [rs[0].data] + ReceivedSignals(rs[1..])
    else ReceivedSignals(rs[1..])
  }

  lemma ReceivedSignalsCons(r: Response, rs: seq<Response>)
    ensures ReceivedSignals([r] + rs) == (if r.Received? then [r.data] else []) + ReceivedSignals(rs)
  {
    assert ([r] + rs)[1..] == rs;
  }

  /**
   * Once a run has created the store, its list is the list the store started with
   * (empty when the run created it) with the accepted signals pushed on, one at a time, in order.
   */
  lemma {:induction false} RunHistory(st: State, events: seq<Event>)
    ensures var run := Run(st, events);
      run.0.signals.Some? ==>
        run.0.signals.value == History.PrependAll(Init(st).signals.value, ReceivedSignals(run.1), HistoryCap)
    decreases |events|
  {
    if events != [] {
      var first := Step(st, events[0].req, events[0].now);
      var rest := Run(first.0, events[1..]);
      RunHistory(first.0, events[1..]);
      ReceivedSignalsCons(first.1, rest.1);
      if events[0].req.httpMethod != "OPTIONS" {
        assert Step(Init(st), events[0].req, events[0].now) == first;
        NeverReset(Init(st), events[0].req, events[0].now);
        assert Init(first.0) == first.0;
        if first.1.Received? {
          var xs := ReceivedSignals(rest.1);
          assert ([first.1.data] + xs)[0] == first.1.data && ([first.1.data] + xs)[1..] == xs;
        }
      }
    }
  }

  /**
   * From a valid store, once a run has created it, the list is the accepted signals newest
   * first followed by the list it started with, cut to 50; once 50 or more have been
   * accepted it holds exactly the newest 50 of them.
   */
  lemma RunKeepsNewest(st: State, events: seq<Event>)
    requires Inv(st)
    ensures var run := Run(st, events);
      var xs := ReceivedSignals(run.1);
      run.0.signals.Some? ==>
        && run.0.signals.value == History.Take(History.Reverse(xs) + Init(st).signals.value, HistoryCap)
        && (|xs| >= HistoryCap ==> run.0.signals.value == History.Reverse(xs)[..HistoryCap])
  {
    var run := Run(st, events);
    var xs := ReceivedSignals(run.1);
    RunHistory(st, events);
    History.PrependAllKeepsNewest(Init(st).signals.value, xs, HistoryCap);
    if |xs| >= HistoryCap {
      History.NewestCapSurvive(Init(st).signals.value, xs, HistoryCap);
    }
  }

  /** Over any run of requests, accepted signals get strictly increasing ids, none of them reused. */
  lemma {:induction false} RunIssuesIncreasingIds(st: State, events: seq<Event>)
    ensures var run := Run(st, events);
      Counter(st) <= Counter(run.0) && History.FreshIncreasing(ReceivedIds(run.1), Counter(st), Counter(run.0))
    decreases |events|
  {
    if events != [] {
      var first := Step(st, events[0].req, events[0].now);
      StepCounter(st, events[0].req, events[0].now);
      RunIssuesIncreasingIds(first.0, events[1..]);
      var rest := Run(first.0, events[1..]);
      assert Run(st, events) == (rest.0, [first.1] + rest.1);
      ReceivedIdsCons(first.1, rest.1);
      var pre := if first.1.Received? then [first.1.data.id] else [];
      History.FreshIncreasingPrepend(pre, ReceivedIds(rest.1), Counter(st), Counter(first.0), Counter(rest.0));
    }
  }

  // ---------------------------------------------------------------------------
  // The process-wide `global` object

  class Global {
    var signals: Option<seq<Signal>>
    var currentSignal: Option<Signal>
    var signalId: nat

    function Model(): State
      reads this
    {
      State(signals, currentSignal, signalId)
    }

    ghost predicate Valid()
      reads this
    {
      Inv(Model())
    }

    /** A new process: `global.signals` does not exist yet. */
    constructor ()
      ensures Valid() && signals.None?
    {
      signals := None;
      currentSignal := None;
      signalId := 0;
    }

    /** `if (!global.signals) { global.signals = []; global.currentSignal = null; global.signalId = 0; }` */
    method EnsureCreated()
      requires Valid()
      modifies this
      ensures Valid() && signals.Some?
      ensures Model() == Init(old(Model()))
    {
      if signals.None? {
        signals := Some([]);
        currentSignal := None;
        signalId := 0;
      }
    }

    /** The whole handler for one request at time `now`. */
    method Handle(req: Request, now: string) returns (r: Response)
      requires Valid()
      modifies this
      ensures Valid()
      ensures (Model(), r) == Step(old(Model()), req, now)
    {
      if req.httpMethod == "OPTIONS" {
        return Preflight;
      }
      EnsureCreated();
      if req.httpMethod == "GET" {
        if req.endpoint == Some("status") {
          return Status(|signals.value|, currentSignal, now);
        }
        if req.endpoint == Some("current") {
          return Current(currentSignal);
        }
        return Info(InfoEndpoints, req.httpMethod);
      }
      if req.httpMethod == "POST" {
        var action := Field(req.body, "action");
        var symbol := Field(req.body, "symbol");
        if !Truthy(action) || !Truthy(symbol) {
          return MissingActionOrSymbol;
        }
        ghost var before := Model();
        signalId := signalId + 1;
        var signal := NewSignal(signalId, action.value, symbol.value, req.body, now);
        currentSignal := Some(signal);
        signals := Some([signal] + signals.value);
        if |signals.value| > HistoryCap {
          signals := Some(signals.value[..HistoryCap]);
        }
        assert Model() == Accept(before, signal);
        AcceptKeepsInv(before, signal);
        return Received(signal);
      }
      return MethodNotAllowed(AllowedMethods, req.httpMethod);
    }
  }
}
