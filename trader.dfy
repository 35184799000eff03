/**
 * The order execution engine (src/polymarket_execution/trader.py): the retry decorator,
 * the exception hierarchy, the token-id and order-parameter validators, and the trader,
 * whose `client` and `_is_initialized` fields are the state the operations check.
 *
 * The venue's client library is outside the model: `Venue` gives the outcome of each of
 * its calls (a returned value or a raised exception), and the trader records the calls
 * it makes on the order path in a trace.
 */
module Trader {
  import opened Wrappers
  import opened Patterns
  import opened Config

  const DefaultMaxRetries: int := 3
  const DefaultRetryDelay: real := 1.0

  /** `PolymarketTrader.MAX_PRICE`: prices are probabilities. */
  const MaxPrice: real := 1.0

  // ---------------------------------------------------------------------------------
  // Exceptions

  /** The seven numeric guards of `_validate_order_params`, in the order they run. */
  datatype ParamCheck =
    | PricePositive
    | SizePositive
    | PriceAtLeastMinimum
    | PriceAtMostMaximum
    | SizeAtLeastMinimum
    | SizeAtMostMaximum
    | TotalCostWithinLimit

  /** Why a `ValidationError` was raised. */
  datatype ValidationReason = InvalidTokenId | ParamCheckFailed(check: ParamCheck)

  /**
   * Every exception the core raises or catches: the `TradingError` hierarchy of the
   * source, the venue library's `PolyApiException`, the `RuntimeError` of the retry
   * decorator, the `ValueError` of `time.sleep`, the `AttributeError` of `.get` on a
   * response that is not a dict, and any other exception.
   */
  datatype Exception =
    | TradingError
    | ValidationError(reason: ValidationReason)
    | TradingConnectionError
    | OrderError
    | PolyApiException
    | RuntimeError
    | SleepValueError   // the `ValueError` `time.sleep` raises for a negative length
    | AttributeError    // `.get` called on a post response that is not a dict
    | OtherException

  /** `isinstance(e, TradingError)`: the base class and its three subclasses. */
  predicate IsTradingError(e: Exception)
    ensures !IsTradingError(e) <==>
              (e.PolyApiException? || e.RuntimeError? || e.SleepValueError? || e.AttributeError? || e.OtherException?)
  {
    e.TradingError? || e.ValidationError? || e.TradingConnectionError? || e.OrderError?
  }

  // ---------------------------------------------------------------------------------
  // retry_on_failure

  /** `2 ** n` as a real, the backoff factor. */
  function Pow2(n: nat): (r: real)
    ensures r >= 1.0
    ensures n > 0 ==> r >= 2.0
  {
    if n == 0 then 1.0 else 2.0 * Pow2(n - 1)
  }

  /** `delay * (2 ** attempt)`, the sleep after failed attempt `attempt`. */
  function BackoffDelay(delay: real, attempt: nat): (r: real)
    ensures delay >= 0.0 ==> r >= delay
    ensures delay < 0.0 ==> r <= delay < 0.0
  {
    ScaleAtLeastOne(delay, Pow2(attempt));
    delay * Pow2(attempt)
  }

  /** Scaling by a factor of at least one moves a value away from zero. */
  lemma ScaleAtLeastOne(a: real, b: real)
    ensures b >= 1.0 ==> (a >= 0.0 ==> a * b >= a) && (a < 0.0 ==> a * b <= a)
  {
    assert a * b - a == a * (b - 1.0);
  }

  /** Each backoff sleep is twice the one before it. */
  lemma BackoffDoubles(delay: real, attempt: nat)
    requires attempt > 0
    ensures BackoffDelay(delay, attempt) == 2.0 * BackoffDelay(delay, attempt - 1)
  {
    var q := Pow2(attempt - 1);
    assert Pow2(attempt) == 2.0 * q;
    assert delay * (2.0 * q) == 2.0 * (delay * q);
  }

  /** The sleeps taken after the first `k` failed attempts, in order. */
  function Backoff(delay: real, k: nat): (r: seq<real>)
    ensures |r| == k
    ensures forall i :: 0 <= i < k ==> r[i] == BackoffDelay(delay, i)
  {
    if k == 0 then [] else Backoff(delay, k - 1) + [BackoffDelay(delay, k - 1)]
  }

  /** The first `k` attempts of `op` all raise. */
  predicate FailsBefore<T>(op: nat -> Result<T, Exception>, k: nat) {
    forall j :: 0 <= j < k ==> op(j).Failure?
  }

  /**
   * The wrapper built by `retry_on_failure(max_retries, delay)`. `op(i)` is what the
   * wrapped call does on its `i`-th attempt. The wrapper returns the first value returned
   * within `maxRetries` attempts; after a failed attempt that is not the last it sleeps
   * `delay * 2 ** attempt`; when every attempt fails it re-raises the last exception, and
   * with no attempt at all it raises `RuntimeError`. A negative delay makes `time.sleep`
   * raise `ValueError` out of the handler at the first sleep. `attempts` counts the calls
   * of `op`, `sleeps` lists the sleep durations in order.
   */
  method RetryOnFailure<T>(maxRetries: int, delay: real, op: nat -> Result<T, Exception>)
    returns (r: Result<T, Exception>, attempts: nat, sleeps: seq<real>)
    ensures maxRetries <= 0 ==> r == Failure(RuntimeError) && attempts == 0 && sleeps == []
    ensures forall k :: 0 <= k < maxRetries && FailsBefore(op, k) && op(k).Success? && (delay >= 0.0 || k == 0) ==>
              r == op(k) && attempts == k + 1 && sleeps == Backoff(delay, k)
    ensures 0 < maxRetries && FailsBefore(op, maxRetries) && (delay >= 0.0 || maxRetries == 1) ==>
              r == op(maxRetries - 1) && attempts == maxRetries && sleeps == Backoff(delay, maxRetries - 1)
    ensures delay < 0.0 && 1 < maxRetries && op(0).Failure? ==>
              r == Failure(SleepValueError) && attempts == 1 && sleeps == []
  {
    var lastException: Option<Exception> := None;
    var attempt: nat := 0;
    attempts, sleeps := 0, [];
    while attempt < maxRetries
      invariant 0 <= attempt && (0 < maxRetries ==> attempt < maxRetries) && (maxRetries <= 0 ==> attempt == 0)
      invariant attempts == attempt
      invariant FailsBefore(op, attempt)
      invariant sleeps == Backoff(delay, attempt)
      invariant lastException == if attempt == 0 then None else Some(op(attempt - 1).error)
      invariant delay < 0.0 ==> attempt == 0
      decreases maxRetries - attempt
    {
      var outcome := op(attempt);
      attempts := attempts + 1;
      if outcome.Success? {
        return outcome, attempts, sleeps;
      }
      lastException := Some(outcome.error);
      if attempt < maxRetries - 1 {
        var pause := BackoffDelay(delay, attempt);
        if pause < 0.0 {
          return Failure(SleepValueError), attempts, sleeps;
        }
        sleeps := sleeps + [pause];
        attempt := attempt + 1;
        continue;
      }
      break;
    }
    if lastException.Some? {
      r := Failure(lastException.value);
    } else {
      r := Failure(RuntimeError);
    }
  }

  // ---------------------------------------------------------------------------------
  // Validators

  /** `_validate_token_id`: non-empty and matching `^[a-zA-Z0-9_-]+$`. */
  predicate ValidTokenId(tokenId: string)
    ensures ValidTokenId(tokenId) ==> forall k :: 0 <= k < |tokenId| ==> tokenId[k] != ' ' && tokenId[k] != '/'
  {
    tokenId != "" && MatchesAnchored(TokenChars, tokenId)
  }

  /** A token id is accepted iff it is non-empty and made of `[A-Za-z0-9_-]`, optionally
      followed by the one newline Python's `$` lets through. */
  lemma TokenIdFormat(tokenId: string)
    ensures ValidTokenId(tokenId) <==>
              (tokenId != "" && AllIn(TokenChars, tokenId))
              || (|tokenId| >= 2 && tokenId[|tokenId| - 1] == '\n' && AllIn(TokenChars, tokenId[..|tokenId| - 1]))
  {
    MatchesAnchoredIff(TokenChars, tokenId);
  }

  /** A space or a slash anywhere in the id, or an empty id, is rejected. */
  lemma TokenIdRejectsSeparators(tokenId: string, i: nat)
    requires i < |tokenId| && (tokenId[i] == ' ' || tokenId[i] == '/')
    ensures !ValidTokenId(tokenId)
  {
    TokenIdFormat(tokenId);
    var body := tokenId[..|tokenId| - 1];
    if i < |body| {
      assert body[i] == tokenId[i];
    }
  }

  /** The condition each guard of `_validate_order_params` requires. */
  predicate Holds(c: ParamCheck, limits: TradingLimits, price: real, size: real) {
    match c
    case PricePositive => price > 0.0
    case SizePositive => size > 0.0
    case PriceAtLeastMinimum => price >= limits.minPrice
    case PriceAtMostMaximum => price <= MaxPrice
    case SizeAtLeastMinimum => size >= limits.minOrderSize
    case SizeAtMostMaximum => size <= limits.maxOrderSize
    case TotalCostWithinLimit => price * size <= MaxPrice * limits.maxOrderSize
  }

  /** The position of each guard in the chain. */
  function Rank(c: ParamCheck): nat {
    match c
    case PricePositive => 0
    case SizePositive => 1
    case PriceAtLeastMinimum => 2
    case PriceAtMostMaximum => 3
    case SizeAtLeastMinimum => 4
    case SizeAtMostMaximum => 5
    case TotalCostWithinLimit => 6
  }

  /** The parameters an order must have: positive, within the price range, within the size
      range, and a total cost no larger than `MAX_PRICE * max_order_size`. */
  predicate OrderParamsAcceptable(limits: TradingLimits, price: real, size: real) {
    && price > 0.0 && size > 0.0
    && limits.minPrice <= price <= MaxPrice
    && limits.minOrderSize <= size <= limits.maxOrderSize
    && price * size <= MaxPrice * limits.maxOrderSize
  }

  /** Order side; the constants `BUY` and `SELL` of the venue library. */
  datatype Side = Buy | Sell

  /** Either `_validate_order_params` returns, or it raises for the first guard that fails. */
  datatype Verdict = Accepted | Rejected(failed: ParamCheck)

  /**
   * `_validate_order_params(price, size, side)` against `limits` (the trader's
   * `_trading_limits`). The side is not consulted.
   */
  function ValidateOrderParams(limits: TradingLimits, price: real, size: real, side: Side): (v: Verdict)
    ensures v.Accepted? <==> OrderParamsAcceptable(limits, price, size)
    ensures v.Rejected? ==> !Holds(v.failed, limits, price, size)
  {
    if price <= 0.0 then Rejected(PricePositive)
    else if size <= 0.0 then Rejected(SizePositive)
    else if price < limits.minPrice then Rejected(PriceAtLeastMinimum)
    else if price > MaxPrice then Rejected(PriceAtMostMaximum)
    else if size < limits.minOrderSize then Rejected(SizeAtLeastMinimum)
    else if size > limits.maxOrderSize then Rejected(SizeAtMostMaximum)
    else if price * size > MaxPrice * limits.maxOrderSize then Rejected(TotalCostWithinLimit)
    else Accepted
  }

  /** The first failing guard decides: every guard before the reported one holds. */
  lemma FirstFailureDecides(limits: TradingLimits, price: real, size: real, side: Side, c: ParamCheck)
    requires ValidateOrderParams(limits, price, size, side).Rejected?
    requires Rank(c) < Rank(ValidateOrderParams(limits, price, size, side).failed)
    ensures Holds(c, limits, price, size)
  {
    match c
    case PricePositive =>
    case SizePositive =>
    case PriceAtLeastMinimum =>
    case PriceAtMostMaximum =>
    case SizeAtLeastMinimum =>
    case SizeAtMostMaximum =>
    case TotalCostWithinLimit =>
  }

  /** The side has no effect on the verdict. */
  lemma SideIrrelevant(limits: TradingLimits, price: real, size: real)
    ensures ValidateOrderParams(limits, price, size, Buy) == ValidateOrderParams(limits, price, size, Sell)
  {
  }

  /** Once the price and size ranges hold, the total cost is within the limit. */
  lemma TotalCostBounded(limits: TradingLimits, price: real, size: real)
    requires 0.0 < price <= MaxPrice && 0.0 < size <= limits.maxOrderSize
    ensures price * size <= MaxPrice * limits.maxOrderSize
  {
    calc {
      price * size;
    <= { assert (MaxPrice - price) * size >= 0.0; }
      MaxPrice * size;
    <= { assert MaxPrice * (limits.maxOrderSize - size) >= 0.0; }
      MaxPrice * limits.maxOrderSize;
    }
  }

  /** So over the reals the total-cost guard is never the one that rejects an order. */
  lemma TotalCostCheckRedundant(limits: TradingLimits, price: real, size: real, side: Side)
    ensures ValidateOrderParams(limits, price, size, side) != Rejected(TotalCostWithinLimit)
  {
    if 0.0 < price <= MaxPrice && 0.0 < size <= limits.maxOrderSize {
      TotalCostBounded(limits, price, size);
    }
  }

  /** Limits whose maximum size is below the minimum size reject every order; nothing in
      the configuration prevents such limits. */
  lemma InvertedSizeLimitsRejectAll(limits: TradingLimits, price: real, size: real, side: Side)
    requires limits.maxOrderSize < limits.minOrderSize
    ensures ValidateOrderParams(limits, price, size, side).Rejected?
  {
  }

  /** The limits of the default configuration. */
  function DefaultLimits(): TradingLimits {
    TradingLimits(1000.0, 0.01, 0.1)
  }

  /** The sample orders of tests/test_trader.py:75-135, plus one above the default size limit. */
  lemma SampleOrders()
    ensures ValidateOrderParams(DefaultLimits(), 0.60, 10.0, Buy) == Accepted
    ensures ValidateOrderParams(DefaultLimits(), 0.0, 10.0, Buy) == Rejected(PricePositive)
    ensures ValidateOrderParams(DefaultLimits(), 1.5, 10.0, Buy) == Rejected(PriceAtMostMaximum)
    ensures ValidateOrderParams(DefaultLimits(), 0.60, 0.0, Buy) == Rejected(SizePositive)
    ensures ValidateOrderParams(DefaultLimits(), 0.5, -1.0, Buy) == Rejected(SizePositive)
    ensures ValidateOrderParams(DefaultLimits(), 0.60, 2000.0, Buy) == Rejected(SizeAtMostMaximum)
  {
  }

  /** Plain alphanumeric ids are accepted; empty ids and ids with a space are rejected. */
  lemma SampleTokenIds()
    ensures ValidTokenId("token123") && ValidTokenId("12345")
    ensures !ValidTokenId("") && !ValidTokenId("token 123")
  {
    TokenIdRejectsSeparators("token 123", 5);
  }

  // ---------------------------------------------------------------------------------
  // The venue client, as seen by the trader

  /** The keyword arguments of `ClobClient(...)`. */
  datatype ClientParams = ClientParams(host: string, key: Option<string>, chainId: int,
                                       signatureType: int, funder: Option<string>)

  /** Opaque values produced by the venue library. */
  datatype ClientHandle = ClientHandle(id: nat)
  datatype ApiCreds = ApiCreds(id: nat)
  datatype SignedOrder = SignedOrder(id: nat)

  /** What `post_order` returned: a dict, which has `.get`, or any other value (None, a string). */
  datatype PostResponse =
    | OrderDict(orderId: Option<string>)
    | NotADict

  /** `OrderArgs(price=, size=, side=, token_id=)`. */
  datatype OrderArgs = OrderArgs(price: real, size: real, side: Side, tokenId: string)

  /** `OrderType.GTC`, good till cancelled. */
  datatype OrderType = GTC

  /**
   * What each call into the venue library does: construct a client, create or derive API
   * credentials, install them, create and sign an order, post it. Each returns a value or raises.
   */
  datatype Venue = Venue(
    connect: ClientParams -> Result<ClientHandle, Exception>,
    deriveCreds: ClientHandle -> Result<ApiCreds, Exception>,
    setCreds: (ClientHandle, ApiCreds) -> Result<(), Exception>,
    createOrder: (ClientHandle, OrderArgs) -> Result<SignedOrder, Exception>,
    postOrder: (ClientHandle, SignedOrder, OrderType) -> Result<PostResponse, Exception>)

  /** The order calls the trader makes on a client. */
  datatype ClientCall =
    | CreateOrder(client: ClientHandle, args: OrderArgs)
    | PostOrder(client: ClientHandle, order: SignedOrder, orderType: OrderType)

  /** The client a configuration asks for. */
  function ClientParamsOf(config: PolymarketConfig): (p: ClientParams)
    ensures p.host == config.host && p.chainId == config.chainId && p.signatureType == config.signatureType
    ensures p.key == config.privateKey && p.funder == config.proxyAddress
  {
    ClientParams(config.host, config.privateKey, config.chainId, config.signatureType, config.proxyAddress)
  }

  /** Constructing the client, deriving the credentials and installing them all return. */
  predicate InitSucceeds(venue: Venue, params: ClientParams) {
    && venue.connect(params).Success?
    && venue.deriveCreds(venue.connect(params).value).Success?
    && venue.setCreds(venue.connect(params).value, venue.deriveCreds(venue.connect(params).value).value).Success?
  }

  /** Creating the order and posting it as GTC both return, and the post returns a dict. */
  predicate VenueAccepts(venue: Venue, client: ClientHandle, args: OrderArgs) {
    && venue.createOrder(client, args).Success?
    && venue.postOrder(client, venue.createOrder(client, args).value, GTC).Success?
    && venue.postOrder(client, venue.createOrder(client, args).value, GTC).value.OrderDict?
  }

  /**
   * One call of `_place_order`: either the `TradingConnectionError` of the readiness check,
   * or a boolean; `calls` are the client calls made, and `caught` the exception logged on
   * the way to `False`.
   */
  datatype PlaceOutcome = PlaceOutcome(result: Result<bool, Exception>, calls: seq<ClientCall>,
                                       caught: Option<Exception>)

  /** The placeholder `get_order_status` returns. */
  datatype OrderStatus = OrderStatus(orderId: string, status: string)

  // ---------------------------------------------------------------------------------
  // PolymarketTrader

  class PolymarketTrader {
    const config: PolymarketConfig
    const tradingLimits: TradingLimits
    var client: Option<ClientHandle>
    var isInitialized: bool

    constructor (config: PolymarketConfig)
      ensures this.config == config && tradingLimits == config.GetTradingLimits()
      ensures client == None && !isInitialized
    {
      this.config := config;
      this.client := None;
      this.tradingLimits := config.GetTradingLimits();
      this.isInitialized := false;
    }

    /** The readiness check `_is_initialized and client` of the order, status and cancel operations. */
    predicate Ready()
      reads this
      ensures !isInitialized ==> !Ready()
      ensures client.None? ==> !Ready()
    {
      isInitialized && client.Some?
    }

    /**
     * `initialize_client()`, decorated with `retry_on_failure(3, 1.0)`. The body constructs
     * the client (assigning `client` at once), derives and installs the credentials, and
     * sets `_is_initialized`; it catches every exception itself, returning False and
     * clearing `_is_initialized`. Since the body never raises, the wrapper's first attempt
     * returns: one attempt, no sleep.
     */
    method InitializeClient(venue: Venue) returns (ok: bool, attempts: nat, sleeps: seq<real>)
      modifies this
      ensures ok <==> InitSucceeds(venue, ClientParamsOf(config))
      ensures isInitialized == ok
      ensures ok ==> Ready()
      ensures client == if venue.connect(ClientParamsOf(config)).Success?
                        then Some(venue.connect(ClientParamsOf(config)).value) else old(client)
      ensures attempts == 1 && sleeps == []
    {
      var body := InitializeAttempt(venue);
      var wrapped := (_: nat) => Success(body);
      assert FailsBefore(wrapped, 0);
      var r;
      r, attempts, sleeps := RetryOnFailure(DefaultMaxRetries, DefaultRetryDelay, wrapped);
      ok := r.value;
    }

    /** The body of `initialize_client`. */
    method InitializeAttempt(venue: Venue) returns (ok: bool)
      modifies this
      ensures ok <==> InitSucceeds(venue, ClientParamsOf(config))
      ensures isInitialized == ok
      ensures client == if venue.connect(ClientParamsOf(config)).Success?
                        then Some(venue.connect(ClientParamsOf(config)).value) else old(client)
    {
      var connected := venue.connect(ClientParamsOf(config));
      if connected.Failure? {
        isInitialized := false;
        return false;
      }
      client := Some(connected.value);
      var creds := venue.deriveCreds(connected.value);
      if creds.Failure? {
        isInitialized := false;
        return false;
      }
      var installed := venue.setCreds(connected.value, creds.value);
      if installed.Failure? {
        isInitialized := false;
        return false;
      }
      isInitialized := true;
      ok := true;
    }

    /**
     * `_place_order(token_id, price, size, side)`. Not ready: `TradingConnectionError` and
     * no client call. Ready: every failure becomes False; the order is created only for a
     * valid token id and valid parameters, from exactly those fields, and posted as GTC.
     */
    function PlaceOrder(venue: Venue, tokenId: string, price: real, size: real, side: Side): (r: PlaceOutcome)
      reads this
      ensures !Ready() ==> r.result == Failure(TradingConnectionError) && r.calls == []
      ensures Ready() ==> r.result.Success?
      ensures r.result.Failure? ==> IsTradingError(r.result.error)
      ensures Ready() ==>
                (r.result == Success(true) <==>
                   && ValidTokenId(tokenId)
                   && OrderParamsAcceptable(tradingLimits, price, size)
                   && VenueAccepts(venue, client.value, OrderArgs(price, size, side, tokenId)))
      ensures !(ValidTokenId(tokenId) && OrderParamsAcceptable(tradingLimits, price, size)) ==> r.calls == []
      ensures Ready() && ValidTokenId(tokenId) && OrderParamsAcceptable(tradingLimits, price, size) ==>
                var args := OrderArgs(price, size, side, tokenId);
                var created := venue.createOrder(client.value, args);
                r.calls == [CreateOrder(client.value, args)]
                           + (if created.Success? then [PostOrder(client.value, created.value, GTC)] else [])
      ensures r.result == Success(false) ==> r.caught.Some?
    {
      if !Ready() then
        PlaceOutcome(Failure(TradingConnectionError), [], None)
      else
        var handle := client.value;
        if !ValidTokenId(tokenId) then
          PlaceOutcome(Success(false), [], Some(ValidationError(InvalidTokenId)))
        else
          match ValidateOrderParams(tradingLimits, price, size, side)
          case Rejected(c) =>
            PlaceOutcome(Success(false), [], Some(ValidationError(ParamCheckFailed(c))))
          case Accepted =>
            var args := OrderArgs(price, size, side, tokenId);
            match venue.createOrder(handle, args)
            case Failure(e) =>
              PlaceOutcome(Success(false), [CreateOrder(handle, args)], Some(e))
            case Success(signed) =>
              var calls := [CreateOrder(handle, args), PostOrder(handle, signed, GTC)];
              match venue.postOrder(handle, signed, GTC)
              case Failure(e) => PlaceOutcome(Success(false), calls, Some(e))
              case Success(response) =>
                if response.OrderDict? then PlaceOutcome(Success(true), calls, None)
                else PlaceOutcome(Success(false), calls, Some(AttributeError))
    }

    /** `place_buy_order`: `_place_order` with side `BUY`. */
    function PlaceBuyOrder(venue: Venue, tokenId: string, price: real, size: real): (r: PlaceOutcome)
      reads this
      ensures r == PlaceOrder(venue, tokenId, price, size, Buy)
    {
      PlaceOrder(venue, tokenId, price, size, Buy)
    }

    /** `place_sell_order`: `_place_order` with side `SELL`. */
    function PlaceSellOrder(venue: Venue, tokenId: string, price: real, size: real): (r: PlaceOutcome)
      reads this
      ensures r == PlaceOrder(venue, tokenId, price, size, Sell)
    {
      PlaceOrder(venue, tokenId, price, size, Sell)
    }

    /** `get_order_status`: raises when not ready, otherwise the placeholder status. */
    function GetOrderStatus(orderId: string): (r: Result<Option<OrderStatus>, Exception>)
      reads this
      ensures !Ready() ==> r == Failure(TradingConnectionError)
      ensures Ready() ==> r == Success(Some(OrderStatus(orderId, "unknown")))
    {
      if !Ready() then Failure(TradingConnectionError)
      else Success(Some(OrderStatus(orderId, "unknown")))
    }

    /** `cancel_order`: raises when not ready, otherwise reports the (unimplemented) cancel as done. */
    function CancelOrder(orderId: string): (r: Result<bool, Exception>)
      reads this
      ensures !Ready() ==> r == Failure(TradingConnectionError)
      ensures Ready() ==> r == Success(true)
    {
      if !Ready() then Failure(TradingConnectionError) else Success(true)
    }
  }

  /**
   * For callers of `PlaceOrder` on a ready trader: its success condition in terms of the
   * verdict of `ValidateOrderParams`, and which exception is logged on the way to False at
   * each stage (the invalid token id, the first failing guard, the venue's create or post
   * exception, or the `AttributeError` of `.get` on a response that is not a dict).
   */
  lemma PlaceOrderSucceedsIff(trader: PolymarketTrader, venue: Venue, tokenId: string,
                              price: real, size: real, side: Side)
    requires trader.Ready()
    ensures var r := trader.PlaceOrder(venue, tokenId, price, size, side);
            var verdict := ValidateOrderParams(trader.tradingLimits, price, size, side);
            var client := trader.client.value;
            var args := OrderArgs(price, size, side, tokenId);
            var created := venue.createOrder(client, args);
            && (r.result == Success(true) <==>
                  ValidTokenId(tokenId) && verdict == Accepted && VenueAccepts(venue, client, args))
            && (r.calls != [] ==> ValidTokenId(tokenId) && verdict == Accepted)
            && (!ValidTokenId(tokenId) ==> r.caught == Some(ValidationError(InvalidTokenId)))
            && (ValidTokenId(tokenId) && verdict.Rejected? ==>
                  r.caught == Some(ValidationError(ParamCheckFailed(verdict.failed))))
            && (ValidTokenId(tokenId) && verdict == Accepted && created.Failure? ==>
                  r.caught == Some(created.error))
            && (ValidTokenId(tokenId) && verdict == Accepted && created.Success? ==>
                  var posted := venue.postOrder(client, created.value, GTC);
                  && (posted.Failure? ==> r.caught == Some(posted.error))
                  && (posted.Success? && posted.value.NotADict? ==>
                        r.result == Success(false) && r.caught == Some(AttributeError)))
  {
  }
}
