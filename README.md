# polymarket-execution, modelled in Dafny

A command-line client that places one order on the Polymarket prediction-market venue.
It loads and checks its configuration from the environment, connects a venue client,
checks the trade's token id, price and size against safety limits, and submits a signed
good-till-cancelled order. This project models the decision logic of that pipeline and
proves what it promises:

- `wrappers.dfy`: module `Wrappers`, with `Option` and `Result`.
- `patterns.dfy`: module `Patterns`. It models `re.match(r"^[C]+$", s)`, including Python's
  `$` that also matches before one final newline.
- `config.dfy`: module `Config`, for `config.py`. `PolymarketConfig` is a class with
  constant fields. The static method `Load` models `__init__`, including the `ValueError`
  an unparsable number raises.
- `trader.dfy`: module `Trader`, for `trader.py`. It holds the exceptions, the retry
  decorator as a method with a loop, and the token-id and order-parameter validators as
  functions. `PolymarketTrader` is a class whose `client` and `isInitialized` fields are
  updated by `InitializeClient`.
- `cli.py` is modelled in module `Cli` (`cli.dfy`): the argument check, the trade routing,
  and the exit code of the entry point.

The venue library is a value `Venue`. Each of its calls (construct the client, derive the
credentials, install them, create an order, post it) is a function that returns a value
or raises. The trader records the order calls it makes in a trace `calls`. Environment
variables are inputs: a setting is unset, or holds what `int()`/`float()` made of its text.
Prices and sizes are `real`.

Behaviour of the code that the model keeps as written:

- Nothing enforces `min_order_size <= max_order_size`. A valid configuration with
  `POLYMARKET_MAX_ORDER_SIZE=0.05` gives limits that reject every order
  (`Trader.InvertedSizeLimitsRejectAll`).
- `initialize_client` is documented "with retry logic" (src/polymarket_execution/trader.py:108),
  but its body catches every exception itself. So the retry decorator makes exactly one
  attempt and never sleeps.
- The comment at src/polymarket_execution/config.py:79 says "Remove 0x prefix if present",
  but `replace` removes every `"0x"` anywhere in the string.
- Because of `$`, 63 hex digits followed by a newline pass as a private key
  (`Config.PrivateKeyTrailingNewline`). The same holds for token ids and addresses.
- The configuration loads `POLYMARKET_MAX_RETRIES`, but the retry decorator uses the
  constant 3.
- On a trader that is not ready, placing an order raises `TradingConnectionError`. It
  does not return False.

## Model

| member | source | states |
|---|---|---|
| `Patterns.InClass` | src/polymarket_execution/trader.py:150 | the bracket classes `[a-zA-Z0-9_-]` (trader.py:150) and `[0-9a-fA-F]` (config.py:83, :95); neither holds a newline or a space |
| `Patterns.ScanClass` | src/polymarket_execution/trader.py:150 | the greedy run of class characters from a position: all of them are in the class, and the next character is not |
| `Patterns.MatchesAnchored` | src/polymarket_execution/config.py:83 | a match is non-empty, and every character is in the class except possibly a final newline |
| `Patterns.MatchesAnchoredIff` | src/polymarket_execution/config.py:83 | `re.match("^[C]+$", s)` holds iff s is a non-empty string of class characters, optionally followed by one final newline |
| `Config.RemoveAll0x` | src/polymarket_execution/config.py:80 | `replace("0x", "")` never lengthens the string and removes characters in pairs |
| `Config.RemoveAll0xWithoutX` | src/polymarket_execution/config.py:79-80 | `replace("0x", "")` leaves a string without the letter `x` unchanged |
| `Config.RemoveAll0xInterior` | src/polymarket_execution/config.py:90-91 | an occurrence of `"0x"` after any x-free prefix is removed as well, not only a leading one |
| `Config.RemoveAll0xLoneX` | src/polymarket_execution/config.py:80 | an `x` after an x-free prefix that does not end in `0` is kept, and replacing goes on after it; with the two lemmas above this fixes `replace("0x", "")` on every string |
| `Config.IsHexOfWidth` | src/polymarket_execution/config.py:74-96 | a value of the shared key/address shape is at least `width` characters long, and `width` is positive |
| `Config.IsValidPrivateKey` | src/polymarket_execution/config.py:74-83 | a valid private key has at least 64 characters |
| `Config.IsValidEthereumAddress` | src/polymarket_execution/config.py:85-96 | a valid address has at least 40 characters |
| `Config.HexOfWidthIff` | src/polymarket_execution/config.py:74-96 | the shared key/address rule: non-empty, and with every `"0x"` removed, exactly `width` characters that match the anchored hex pattern |
| `Config.PrivateKeyFormat` | src/polymarket_execution/config.py:74-83 | a private key is valid iff non-empty and with every `"0x"` removed has length 64 and is all hex (or 63 hex digits and a final newline) |
| `Config.EthereumAddressFormat` | src/polymarket_execution/config.py:85-96 | the same rule for the proxy address, with length 40 |
| `Config.HexDigitsAccepted` | src/polymarket_execution/config.py:79-83 | `width` hex digits are accepted bare and behind a `"0x"` prefix |
| `Config.PrefixedKeyAndAddressAccepted` | tests/test_config.py:43-47 | `"0x"` + 64 hex digits is a valid key and `"0x"` + 40 hex digits a valid address |
| `Config.PrivateKeyTrailingNewline` | src/polymarket_execution/config.py:83 | 63 hex digits followed by a newline are accepted as a private key |
| `Config.ShortValuesRejected` | tests/test_config.py:88-103 | values shorter than the digit count (such as `"invalid_key"`) are rejected |
| `Config.Setting` | src/polymarket_execution/config.py:27-40 | `int(os.getenv(name, default))` and `float(…)`: the default when unset, the parsed value when it parses, and a raise exactly when the text is unparsable |
| `Config.ResolveSignatureType` | src/polymarket_execution/config.py:60-72 | the result is always 1 or 2. Unset gives 1 with no warning. A parsed 1 or 2 is kept. Any other value gives 1 with a "not supported" warning, and unparsable text gives 1 with a "format" warning |
| `Config.PolymarketConfig.constructor` | src/polymarket_execution/config.py:23-40 | stores each field as given |
| `Config.PolymarketConfig.Load` | src/polymarket_execution/config.py:23-58 | loading succeeds iff every uncaught `int()`/`float()` parses (an unparsable signature type is caught and falls back to 1); an unparsable chain id raises before any warning; unset settings take the defaults (host `https://clob.polymarket.com`, chain 137, signature type 1, max size 1000.0); key and address are kept unchanged even when malformed; once the chain id parses, the warnings are exactly, in logging order, one for a present malformed key, one for a present malformed address, then the signature type's warning if any |
| `Config.Present` | src/polymarket_execution/config.py:46 | Python truthiness of an optional string (also config.py:55, :109, :114 and cli.py:183): a present value is set, and the empty string is not present |
| `Config.PolymarketConfig.PrivateKeyError` | src/polymarket_execution/config.py:109-112 | exactly one error for the key: "required" iff missing or empty, "invalid format" iff present and malformed, none iff well-formed |
| `Config.PolymarketConfig.ProxyAddressError` | src/polymarket_execution/config.py:114-117 | the same for the proxy address |
| `Config.PolymarketConfig.IsValid` | src/polymarket_execution/config.py:108-124 | a configuration is valid iff neither the key nor the address yields an error and max_order_size > 0 |
| `Config.PolymarketConfig.Validate` | src/polymarket_execution/config.py:98-139 | returns True iff no error was collected, iff key and address are well-formed and max_order_size > 0; the error list is the per-field errors in order; a chain id outside {137, 80001} adds only a warning |
| `Config.PolymarketConfig.GetTradingLimits` | src/polymarket_execution/config.py:154-160 | max_order_size unchanged, min_price 0.01, min_order_size 0.1; positive max size for a valid configuration |
| `Trader.IsTradingError` | src/polymarket_execution/trader.py:60-81 | `isinstance(e, TradingError)`: true for the base class and its three subclasses, and false exactly for the venue's `PolyApiException`, `RuntimeError`, the `ValueError` of `time.sleep`, `AttributeError` and any other exception |
| `Trader.Pow2` | src/polymarket_execution/trader.py:45 | `2 ** attempt` as a real: at least 1, and at least 2 after the first attempt |
| `Trader.BackoffDelay` | src/polymarket_execution/trader.py:45 | a non-negative base delay never shrinks: every sleep is at least `delay`; a negative delay gives a negative sleep length |
| `Trader.BackoffDoubles` | src/polymarket_execution/trader.py:45 | each sleep is twice the one before (exponential backoff) |
| `Trader.Backoff` | src/polymarket_execution/trader.py:44-45 | k sleeps, the i-th being `delay * 2 ** i` |
| `Trader.RetryOnFailure` | src/polymarket_execution/trader.py:29-57 | with no attempts allowed: RuntimeError, no call. If attempts 0..k-1 fail and attempt k < max_retries returns, that value is returned after k+1 calls and k backoff sleeps. If every attempt fails, the last exception is re-raised after max_retries calls and max_retries-1 sleeps. These two hold for a non-negative delay (or a single attempt): with a negative delay and a first attempt that fails with more attempts allowed, `time.sleep` raises `ValueError` after one call and no sleep |
| `Trader.ValidTokenId` | src/polymarket_execution/trader.py:144-150 | an accepted token id contains no space and no slash |
| `Trader.TokenIdFormat` | src/polymarket_execution/trader.py:144-150 | a token id is accepted iff non-empty and all of `[A-Za-z0-9_-]`, optionally with one final newline |
| `Trader.TokenIdRejectsSeparators` | src/polymarket_execution/trader.py:146-150 | an id containing a space or a slash is rejected |
| `Trader.SampleTokenIds` | src/polymarket_execution/trader.py:144-150 | `"token123"` and `"12345"` are accepted; `""` and `"token 123"` are rejected |
| `Trader.ValidateOrderParams` | src/polymarket_execution/trader.py:152-199 | accepts iff price > 0, size > 0, min_price <= price <= 1.0, min_order_size <= size <= max_order_size and price*size <= 1.0*max_order_size; a rejection names a guard that fails |
| `Trader.FirstFailureDecides` | src/polymarket_execution/trader.py:168-199 | every guard ranked before the reported one holds: the first failing guard decides |
| `Trader.SideIrrelevant` | src/polymarket_execution/trader.py:152-154 | Buy and Sell get the same verdict |
| `Trader.TotalCostBounded` | src/polymarket_execution/trader.py:193-196 | 0 < price <= 1.0 and 0 < size <= max_order_size imply price*size <= 1.0*max_order_size |
| `Trader.TotalCostCheckRedundant` | src/polymarket_execution/trader.py:193-199 | the total-cost guard never rejects an order |
| `Trader.InvertedSizeLimitsRejectAll` | src/polymarket_execution/trader.py:183-191 | with max_order_size below min_order_size every order is rejected |
| `Trader.SampleOrders` | tests/test_trader.py:75-135 | with the default limits: 0.60×10 passes; price 0, price 1.5, size 0, size -1 and size 2000 are rejected by the right guard |
| `Trader.PolymarketTrader.constructor` | src/polymarket_execution/trader.py:91-103 | no client, not initialized, limits taken from the configuration |
| `Trader.ClientParamsOf` | src/polymarket_execution/trader.py:117-123 | the `ClobClient(...)` keyword arguments: host, key = private key, chain id, signature type, funder = proxy address |
| `Trader.PolymarketTrader.Ready` | src/polymarket_execution/trader.py:238 | the readiness check `_is_initialized and client` (also trader.py:304, :325): a trader without the flag or without a client is not ready |
| `Trader.PolymarketTrader.InitializeClient` | src/polymarket_execution/trader.py:105-142 | returns True iff constructing the client, deriving and installing the credentials all return. `_is_initialized` equals the result. `client` is set as soon as construction returns and is unchanged otherwise. Exactly one attempt and no sleep |
| `Trader.PolymarketTrader.InitializeAttempt` | src/polymarket_execution/trader.py:113-142 | the decorated body: the same outcome and state, with every exception caught |
| `Trader.PolymarketTrader.PlaceOrder` | src/polymarket_execution/trader.py:234-292 | not ready: TradingConnectionError and no client call. Ready: never raises, and returns True iff the token and parameters are valid, create and post both return, and the post response is a dict (`.get` on any other response raises `AttributeError`, which is caught). Invalid input makes no client call. Valid input creates the order from exactly (price, size, side, token_id), and then posts the signed order it got back as GTC, if creating it returned. Every False has a logged exception |
| `Trader.PolymarketTrader.PlaceBuyOrder` | src/polymarket_execution/trader.py:201-218 | `_place_order` with side BUY |
| `Trader.PolymarketTrader.PlaceSellOrder` | src/polymarket_execution/trader.py:220-232 | `_place_order` with side SELL |
| `Trader.PolymarketTrader.GetOrderStatus` | src/polymarket_execution/trader.py:294-313 | raises TradingConnectionError when not ready; otherwise the placeholder status "unknown" for the id |
| `Trader.PolymarketTrader.CancelOrder` | src/polymarket_execution/trader.py:315-334 | raises TradingConnectionError when not ready; otherwise True |
| `Trader.PlaceOrderSucceedsIff` | src/polymarket_execution/trader.py:244-292 | on a ready trader: success iff the token id and every numeric guard pass and the venue accepts; a client call happens only after both validations passed; the exception logged on the way to False is the stage's own (invalid-token `ValidationError`, the first failing guard, the venue's create or post exception, or `AttributeError` for a response that is not a dict) |
| `Cli.ValidateTradeArgs` | src/polymarket_execution/cli.py:80-102 | accepts iff the token id is non-empty, price and size are present, 0.01 <= price <= 1.0 and size > 0. The first failing check is the one reported |
| `Cli.ArgsWithinPriceBounds` | src/polymarket_execution/cli.py:94-100 | accepted arguments lie within the trader's price bounds and have a positive size |
| `Cli.ArgsCheckWeakerThanTrader` | src/polymarket_execution/cli.py:98-100 | a size of 0.05 passes the argument check but the trader rejects it as below the minimum |
| `Cli.SideOf` | src/polymarket_execution/cli.py:148-151 | a live trade buys iff the side is exactly `"buy"`; any other side sells |
| `Cli.HandleTradeCommand` | src/polymarket_execution/cli.py:123-168 | dry run: no client call, True iff the parameters are acceptable. Live run: side "buy" buys and any other side sells, with the trader's calls, and True iff the trader returned True. A live run on a trader that is not ready gives False |
| `Cli.RunCli` | src/polymarket_execution/cli.py:171-224 | no command (absent or empty, as `not args.command` tests): status 0 and no configuration built. Otherwise status 0 iff the command is "trade", loading and `validate()` succeed, initialization succeeds, the arguments pass and the trade succeeds; status 1 on every other path. A dry run still fails when initialization fails |

## Left out

- The venue library (`ClobClient`, credentials, `OrderArgs`, `create_order`, `post_order`,
  `PolyApiException`) is foreign. Each call is a function in `Venue` that returns or raises.
- Logging, `print`, `time.time` and `time.sleep` are not performed. Sleep durations are
  returned as a list; the `ValueError` that `time.sleep` raises for a negative length is
  modelled. Logged warnings and errors are returned as values (`warnings`,
  `errors`, `caught`). The help text `_print_config_help` prints is not modelled.
- `POLYMARKET_MAX_ORDER_SIZE=nan` or `inf` passes `validate()`, because both `nan <= 0` and
  `inf <= 0` are false at src/polymarket_execution/config.py:123. Such a limit then switches
  off the size cap and the total-cost cap at src/polymarket_execution/trader.py:188 and :196.
  A model over `real` cannot express either value.
- Floating point: prices and sizes are `real`. An IEEE NaN price or size makes every
  comparison at src/polymarket_execution/trader.py:169-196 false, so the source accepts it
  and the model cannot express it. The `isinstance` checks are covered by the types.
- Environment reading, `int()` and `float()` are inputs (`Settings`, `Parsed`). Parsing
  text is not modelled.
- `create_parser`, `setup_logging`, `src/polymarket_execution/utils/logging.py` and
  `src/polymarket_execution/__init__.py` hold argument-parser set-up, logging set-up,
  formatting and re-exports, with no decisions.
- Trader.RetryOnFailure: the wrapped call is given as the outcome of each attempt
  (`op(i)`), so its arguments and its side effects are not part of the model.
- Trader.PolymarketTrader.InitializeClient: the body runs once and its value is the outcome
  of every attempt given to the retry wrapper. This matches the source because the body
  never raises, so the wrapper stops after its first attempt.
- Cli.HandleTradeCommand: requires price and size to be present, which its one caller
  establishes. A missing price in a dry run would raise `TypeError` in the source; that is
  not modelled.
- Cli.HandleTradeCommand: the dry run passes `side.upper()` to the validator; the model
  passes a `Side` value. The validator ignores it either way.
- Cli.RunCli: `KeyboardInterrupt` (status 0) is not modelled.
- `OrderError` and the base `TradingError` are in the `Exception` type, but the core never
  raises them.
- The order id in the post response is only logged.
- The `try`/`except` blocks of `get_order_status` and `cancel_order` wrap only logging.
  The model has no failing path there.
