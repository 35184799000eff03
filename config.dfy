/**
 * Configuration of the execution client (src/polymarket_execution/config.py): the values
 * read from the environment with their defaults, the format checks on the private key and
 * the proxy address, the signature-type fallback, `validate` and the trading limits.
 *
 * Environment lookups and Python's `int()` / `float()` are inputs: a setting is `None` when
 * the variable is unset and otherwise carries what parsing its text produced.
 */
module Config {
  import opened Wrappers
  import opened Patterns

  const DefaultHost: string := "https://clob.polymarket.com"
  const PolygonMainnet: int := 137
  const PolygonTestnet: int := 80001
  const ValidSignatureTypes: set<int> := {1, 2}
  const DefaultSignatureType: int := 1
  const DefaultMaxOrderSize: real := 1000.0
  const DefaultConnectionTimeout: int := 30
  const DefaultRequestTimeout: int := 10
  const DefaultConfigMaxRetries: int := 3

  /** The limits `get_trading_limits` hands to the order validator. */
  const MinPrice: real := 0.01
  const MinOrderSize: real := 0.1

  /** What `int(text)` or `float(text)` made of a setting's text. */
  datatype Parsed<T> = Parsed(value: T) | Unparsable

  /** The environment as the configuration sees it; `None` is an unset variable. */
  datatype Settings = Settings(
    host: Option<string>,                   // POLYMARKET_HOST
    chainId: Option<Parsed<int>>,           // POLYMARKET_CHAIN_ID
    privateKey: Option<string>,             // POLYMARKET_PRIVATE_KEY
    proxyAddress: Option<string>,           // POLYMARKET_PROXY_ADDRESS
    signatureType: Option<Parsed<int>>,     // POLYMARKET_SIGNATURE_TYPE
    maxOrderSize: Option<Parsed<real>>,     // POLYMARKET_MAX_ORDER_SIZE
    connectionTimeout: Option<Parsed<int>>, // POLYMARKET_CONNECTION_TIMEOUT
    requestTimeout: Option<Parsed<int>>,    // POLYMARKET_REQUEST_TIMEOUT
    maxRetries: Option<Parsed<int>>)        // POLYMARKET_MAX_RETRIES

  /** The `ValueError` an uncaught `int()` / `float()` raises, naming the setting. */
  datatype LoadError = ValueError(setting: string)

  /** The warnings logged while loading; the loaded values are kept regardless. */
  datatype LoadWarning =
    | PrivateKeyFormatInvalid
    | ProxyAddressFormatInvalid
    | SignatureTypeNotSupported(value: int)
    | SignatureTypeFormatInvalid

  /** The errors `validate` collects. */
  datatype ConfigError =
    | PrivateKeyRequired
    | PrivateKeyInvalidFormat
    | ProxyAddressRequired
    | ProxyAddressInvalidFormat
    | MaxOrderSizeNotPositive

  /** The warnings `validate` collects; they never change its answer. */
  datatype ConfigWarning = UnusualChainId(chainId: int)

  /** The dictionary `get_trading_limits` returns. */
  datatype TradingLimits = TradingLimits(maxOrderSize: real, minPrice: real, minOrderSize: real)

  /** A signature type together with the warning logged while choosing it, if any. */
  datatype SignatureResolution = SignatureResolution(value: int, warning: Option<LoadWarning>)

  /** Python truthiness of an optional string: present and non-empty. */
  predicate Present(v: Option<string>)
    ensures Present(v) ==> v.Some?
    ensures v == Some("") ==> !Present(v)
  {
    v.Some? && v.value != ""
  }

  /** `int(os.getenv(name, str(default)))` or `float(…)` of a setting: `None` when the
      conversion raises. */
  function Setting<T>(setting: Option<Parsed<T>>, default: T): (r: Option<T>)
    ensures r.None? <==> setting == Some(Unparsable)
    ensures setting.None? ==> r == Some(default)
    ensures setting.Some? && setting.value.Parsed? ==> r == Some(setting.value.value)
  {
    match setting
    case None => Some(default)
    case Some(Parsed(v)) => Some(v)
    case Some(Unparsable) => None
  }

  /** `s.replace("0x", "")`: every non-overlapping occurrence, scanning left to right. */
  function RemoveAll0x(s: string): (r: string)
    ensures |r| <= |s| && (|s| - |r|) % 2 == 0
  {
    if |s| >= 2 && s[0] == '0' && s[1] == 'x' then RemoveAll0x(s[2..])
    else if s == [] then []
    else [s[0]] + RemoveAll0x(s[1..])
  }

  /** A string without the letter `x` contains no `"0x"`, so replacing leaves it as it is. */
  lemma {:induction false} RemoveAll0xWithoutX(s: string)
    requires 'x' !in s
    ensures RemoveAll0x(s) == s
  {
    if s != [] {
      assert s[1..] == s[|[s[0]]|..];
      assert 'x' !in s[1..] by { assert forall c :: c in s[1..] ==> c in s; }
      RemoveAll0xWithoutX(s[1..]);
      assert s == [s[0]] + s[1..];
    }
  }

  /** Occurrences after the first character are removed too, not only a leading prefix. */
  lemma {:induction false} RemoveAll0xInterior(a: string, b: string)
    requires 'x' !in a
    ensures RemoveAll0x(a + "0x" + b) == a + RemoveAll0x(b)
  {
    if a == [] {
      assert a + "0x" + b == "0x" + b;
      assert ("0x" + b)[2..] == b;
    } else {
      var s := a + "0x" + b;
      assert s[0] == a[0];
      assert s[1] != 'x' by {
        if |a| >= 2 { assert s[1] == a[1]; } else { assert s[1] == '0'; }
      }
      assert s[1..] == a[1..] + "0x" + b;
      assert 'x' !in a[1..] by { assert forall c :: c in a[1..] ==> c in a; }
      RemoveAll0xInterior(a[1..], b);
      assert a == [a[0]] + a[1..];
    }
  }

  /** An `x` that does not follow a `0` stays, and replacing goes on after it. */
  lemma {:induction false} RemoveAll0xLoneX(a: string, b: string)
    requires 'x' !in a && (a == [] || a[|a| - 1] != '0')
    ensures RemoveAll0x(a + "x" + b) == a + "x" + RemoveAll0x(b)
  {
    var s := a + "x" + b;
    if a == [] {
      assert s == "x" + b && s[1..] == b;
    } else {
      assert s[0] == a[0];
      assert !(s[0] == '0' && s[1] == 'x') by {
        if |a| >= 2 { assert s[1] == a[1]; } else { assert s[0] != '0'; }
      }
      assert s[1..] == a[1..] + "x" + b;
      assert 'x' !in a[1..] by { assert forall c :: c in a[1..] ==> c in a; }
      assert a[1..] == [] || a[1..][|a[1..]| - 1] == a[|a| - 1];
      RemoveAll0xLoneX(a[1..], b);
      assert a == [a[0]] + a[1..];
    }
  }

  /**
   * The shared shape of `_is_valid_private_key` and `_is_valid_ethereum_address`: a
   * non-empty string which, with every `"0x"` removed, has `width` characters and matches
   * `^[0-9a-fA-F]+$`.
   */
  predicate IsHexOfWidth(s: string, width: nat)
    ensures IsHexOfWidth(s, width) ==> 0 < width <= |s|
  {
    s != "" && |RemoveAll0x(s)| == width && MatchesAnchored(HexDigits, RemoveAll0x(s))
  }

  /** `_is_valid_private_key`: 64 hex digits once every `"0x"` is removed. */
  predicate IsValidPrivateKey(key: string)
    ensures IsValidPrivateKey(key) ==> |key| >= 64
  {
    IsHexOfWidth(key, 64)
  }

  /** `_is_valid_ethereum_address`: 40 hex digits once every `"0x"` is removed. */
  predicate IsValidEthereumAddress(address: string)
    ensures IsValidEthereumAddress(address) ==> |address| >= 40
  {
    IsHexOfWidth(address, 40)
  }

  lemma HexOfWidthIff(s: string, width: nat)
    ensures IsHexOfWidth(s, width) <==>
              var clean := RemoveAll0x(s);
              s != "" && |clean| == width && 0 < width
              && (AllIn(HexDigits, clean)
                  || (width >= 2 && clean[width - 1] == '\n' && AllIn(HexDigits, clean[..width - 1])))
  {
    MatchesAnchoredIff(HexDigits, RemoveAll0x(s));
  }

  /** A private key is valid iff it is non-empty and, with every `"0x"` removed, is 64 hex
      digits, or 63 hex digits and the final newline Python's `$` lets through. */
  lemma PrivateKeyFormat(key: string)
    ensures IsValidPrivateKey(key) <==>
              var clean := RemoveAll0x(key);
              key != "" && |clean| == 64
              && (AllIn(HexDigits, clean) || (clean[63] == '\n' && AllIn(HexDigits, clean[..63])))
  {
    HexOfWidthIff(key, 64);
  }

  /** The same rule for the proxy address, with 40 digits. */
  lemma EthereumAddressFormat(address: string)
    ensures IsValidEthereumAddress(address) <==>
              var clean := RemoveAll0x(address);
              address != "" && |clean| == 40
              && (AllIn(HexDigits, clean) || (clean[39] == '\n' && AllIn(HexDigits, clean[..39])))
  {
    HexOfWidthIff(address, 40);
  }

  /** `width` hex digits are accepted both bare and behind a `"0x"` prefix. */
  lemma HexDigitsAccepted(t: string, width: nat)
    requires |t| == width > 0 && AllIn(HexDigits, t)
    ensures IsHexOfWidth(t, width) && IsHexOfWidth("0x" + t, width)
  {
    assert 'x' !in t by {
      forall i | 0 <= i < |t| ensures t[i] != 'x' { assert InClass(HexDigits, t[i]); }
    }
    RemoveAll0xWithoutX(t);
    RemoveAll0xInterior("", t);
    assert "" + "0x" + t == "0x" + t;
    MatchesAnchoredIff(HexDigits, t);
  }

  /** `"0x" + 64 hex digits` is a valid private key, and 40 digits a valid address. */
  lemma PrefixedKeyAndAddressAccepted(key: string, address: string)
    requires |key| == 64 && AllIn(HexDigits, key)
    requires |address| == 40 && AllIn(HexDigits, address)
    ensures IsValidPrivateKey("0x" + key) && IsValidPrivateKey(key)
    ensures IsValidEthereumAddress("0x" + address) && IsValidEthereumAddress(address)
  {
    HexDigitsAccepted(key, 64);
    HexDigitsAccepted(address, 40);
  }

  /** Because of `$`, 63 hex digits followed by a newline also pass as a private key. */
  lemma PrivateKeyTrailingNewline(t: string)
    requires |t| == 63 && AllIn(HexDigits, t)
    ensures IsValidPrivateKey(t + "\n")
  {
    var s := t + "\n";
    assert 'x' !in s by {
      forall i | 0 <= i < |s| ensures s[i] != 'x' {
        if i < 63 { assert InClass(HexDigits, t[i]); }
      }
    }
    RemoveAll0xWithoutX(s);
    assert s[..63] == t;
    MatchesAnchoredIff(HexDigits, s);
  }

  /** Strings that are too short to hold the digits are rejected, e.g. the tests' `"invalid_key"`. */
  lemma ShortValuesRejected(s: string, width: nat)
    requires |s| < width
    ensures !IsHexOfWidth(s, width)
  {
  }

  /** `_get_signature_type`: the parsed value when it is 1 or 2, otherwise 1 with a warning. */
  function ResolveSignatureType(setting: Option<Parsed<int>>): (r: SignatureResolution)
    ensures r.value in ValidSignatureTypes
    ensures setting.None? ==> r == SignatureResolution(DefaultSignatureType, None)
    ensures setting == Some(Unparsable) ==> r == SignatureResolution(1, Some(SignatureTypeFormatInvalid))
    ensures setting.Some? && setting.value.Parsed? ==>
              var v := setting.value.value;
              if v in ValidSignatureTypes then r == SignatureResolution(v, None)
              else r == SignatureResolution(1, Some(SignatureTypeNotSupported(v)))
  {
    match Setting(setting, 1)
    case None => SignatureResolution(1, Some(SignatureTypeFormatInvalid))
    case Some(v) =>
      if v !in ValidSignatureTypes then SignatureResolution(1, Some(SignatureTypeNotSupported(v)))
      else SignatureResolution(v, None)
  }

  /** What the configuration must load before any value is kept: every `int()` / `float()` succeeds. */
  predicate Loadable(s: Settings) {
    && Setting(s.chainId, PolygonMainnet).Some?
    && Setting(s.maxOrderSize, DefaultMaxOrderSize).Some?
    && Setting(s.connectionTimeout, DefaultConnectionTimeout).Some?
    && Setting(s.requestTimeout, DefaultRequestTimeout).Some?
    && Setting(s.maxRetries, DefaultConfigMaxRetries).Some?
  }

  /** The environment with nothing set. */
  function Unset(): Settings {
    Settings(None, None, None, None, None, None, None, None, None)
  }

  /** `PolymarketConfig`: the loaded values, never changed afterwards. */
  class PolymarketConfig {
    const host: string
    const chainId: int
    const privateKey: Option<string>
    const proxyAddress: Option<string>
    const signatureType: int
    const maxOrderSize: real
    const connectionTimeout: int
    const requestTimeout: int
    const maxRetries: int

    constructor (host: string, chainId: int, privateKey: Option<string>, proxyAddress: Option<string>,
                 signatureType: int, maxOrderSize: real,
                 connectionTimeout: int, requestTimeout: int, maxRetries: int)
      ensures this.host == host && this.chainId == chainId
      ensures this.privateKey == privateKey && this.proxyAddress == proxyAddress
      ensures this.signatureType == signatureType && this.maxOrderSize == maxOrderSize
      ensures this.connectionTimeout == connectionTimeout && this.requestTimeout == requestTimeout
      ensures this.maxRetries == maxRetries
    {
      this.host := host;
      this.chainId := chainId;
      this.privateKey := privateKey;
      this.proxyAddress := proxyAddress;
      this.signatureType := signatureType;
      this.maxOrderSize := maxOrderSize;
      this.connectionTimeout := connectionTimeout;
      this.requestTimeout := requestTimeout;
      this.maxRetries := maxRetries;
    }

    /**
     * `PolymarketConfig()`: reads every setting in the order of `__init__`. An unparsable
     * number raises `ValueError` (only the signature type catches it); a malformed key or
     * address is kept as it is and only logged. `warnings` are the warnings logged before
     * the constructor returned or raised.
     */
    static method Load(s: Settings) returns (r: Result<PolymarketConfig, LoadError>, warnings: seq<LoadWarning>)
      ensures r.Success? <==> Loadable(s)
      ensures s.chainId == Some(Unparsable) ==> r == Failure(ValueError("POLYMARKET_CHAIN_ID")) && warnings == []
      ensures r.Success? ==>
                && r.value.host == s.host.GetOr(DefaultHost)
                && r.value.chainId == Setting(s.chainId, PolygonMainnet).value
                && r.value.privateKey == s.privateKey
                && r.value.proxyAddress == s.proxyAddress
                && r.value.signatureType == ResolveSignatureType(s.signatureType).value
                && r.value.maxOrderSize == Setting(s.maxOrderSize, DefaultMaxOrderSize).value
                && r.value.connectionTimeout == Setting(s.connectionTimeout, DefaultConnectionTimeout).value
                && r.value.requestTimeout == Setting(s.requestTimeout, DefaultRequestTimeout).value
                && r.value.maxRetries == Setting(s.maxRetries, DefaultConfigMaxRetries).value
      ensures s == Unset() ==>
                && r.Success? && warnings == []
                && r.value.host == "https://clob.polymarket.com" && r.value.chainId == 137
                && r.value.signatureType == 1 && r.value.maxOrderSize == 1000.0
      ensures Setting(s.chainId, PolygonMainnet).Some? ==>
                warnings == (if Present(s.privateKey) && !IsValidPrivateKey(s.privateKey.value)
                             then [PrivateKeyFormatInvalid] else [])
                            + (if Present(s.proxyAddress) && !IsValidEthereumAddress(s.proxyAddress.value)
                               then [ProxyAddressFormatInvalid] else [])
                            + AsSeq(ResolveSignatureType(s.signatureType).warning)
      ensures |warnings| <= 3
    {
      warnings := [];
      var host := s.host.GetOr(DefaultHost);
      var chainId := Setting(s.chainId, PolygonMainnet);
      if chainId.None? {
        return Failure(ValueError("POLYMARKET_CHAIN_ID")), warnings;
      }
      // _get_private_key
      if Present(s.privateKey) && !IsValidPrivateKey(s.privateKey.value) {
        warnings := warnings + [PrivateKeyFormatInvalid];
      }
      // _get_proxy_address
      if Present(s.proxyAddress) && !IsValidEthereumAddress(s.proxyAddress.value) {
        warnings := warnings + [ProxyAddressFormatInvalid];
      }
      // _get_signature_type
      var signature := ResolveSignatureType(s.signatureType);
      if signature.warning.Some? {
        warnings := warnings + [signature.warning.value];
      }
      var maxOrderSize := Setting(s.maxOrderSize, DefaultMaxOrderSize);
      if maxOrderSize.None? {
        return Failure(ValueError("POLYMARKET_MAX_ORDER_SIZE")), warnings;
      }
      var connectionTimeout := Setting(s.connectionTimeout, DefaultConnectionTimeout);
      if connectionTimeout.None? {
        return Failure(ValueError("POLYMARKET_CONNECTION_TIMEOUT")), warnings;
      }
      var requestTimeout := Setting(s.requestTimeout, DefaultRequestTimeout);
      if requestTimeout.None? {
        return Failure(ValueError("POLYMARKET_REQUEST_TIMEOUT")), warnings;
      }
      var maxRetries := Setting(s.maxRetries, DefaultConfigMaxRetries);
      if maxRetries.None? {
        return Failure(ValueError("POLYMARKET_MAX_RETRIES")), warnings;
      }
      var config := new PolymarketConfig(host, chainId.value, s.privateKey, s.proxyAddress,
                                         signature.value, maxOrderSize.value,
                                         connectionTimeout.value, requestTimeout.value, maxRetries.value);
      r := Success(config);
    }

    /** The one error `validate` reports about the private key, if any. */
    function PrivateKeyError(): (e: Option<ConfigError>)
      ensures e.None? <==> privateKey.Some? && IsValidPrivateKey(privateKey.value)
      ensures e == Some(PrivateKeyRequired) <==> !Present(privateKey)
      ensures e == Some(PrivateKeyInvalidFormat) <==> Present(privateKey) && !IsValidPrivateKey(privateKey.value)
    {
      if !Present(privateKey) then Some(PrivateKeyRequired)
      else if !IsValidPrivateKey(privateKey.value) then Some(PrivateKeyInvalidFormat)
      else None
    }

    /** The one error `validate` reports about the proxy address, if any. */
    function ProxyAddressError(): (e: Option<ConfigError>)
      ensures e.None? <==> proxyAddress.Some? && IsValidEthereumAddress(proxyAddress.value)
      ensures e == Some(ProxyAddressRequired) <==> !Present(proxyAddress)
      ensures e == Some(ProxyAddressInvalidFormat) <==> Present(proxyAddress) && !IsValidEthereumAddress(proxyAddress.value)
    {
      if !Present(proxyAddress) then Some(ProxyAddressRequired)
      else if !IsValidEthereumAddress(proxyAddress.value) then Some(ProxyAddressInvalidFormat)
      else None
    }

    /** The configuration `validate` accepts: a well-formed key and address and a positive size limit. */
    predicate IsValid()
      ensures IsValid() <==> PrivateKeyError().None? && ProxyAddressError().None? && maxOrderSize > 0.0
    {
      && privateKey.Some? && IsValidPrivateKey(privateKey.value)
      && proxyAddress.Some? && IsValidEthereumAddress(proxyAddress.value)
      && maxOrderSize > 0.0
    }

    /**
     * `validate()`: collects the errors field by field and the warnings, and answers true
     * exactly when no error was collected. The chain id only ever adds a warning.
     */
    method Validate() returns (ok: bool, errors: seq<ConfigError>, warnings: seq<ConfigWarning>)
      ensures ok <==> errors == []
      ensures ok <==> IsValid()
      ensures errors == AsSeq(PrivateKeyError()) + AsSeq(ProxyAddressError())
                        + (if maxOrderSize <= 0.0 then [MaxOrderSizeNotPositive] else [])
      ensures warnings == if chainId in {PolygonMainnet, PolygonTestnet} then [] else [UnusualChainId(chainId)]
    {
      errors, warnings := [], [];
      if !Present(privateKey) {
        errors := errors + [PrivateKeyRequired];
      } else if !IsValidPrivateKey(privateKey.value) {
        errors := errors + [PrivateKeyInvalidFormat];
      }
      if !Present(proxyAddress) {
        errors := errors + [ProxyAddressRequired];
      } else if !IsValidEthereumAddress(proxyAddress.value) {
        errors := errors + [ProxyAddressInvalidFormat];
      }
      if chainId !in {PolygonMainnet, PolygonTestnet} {
        warnings := warnings + [UnusualChainId(chainId)];
      }
      if maxOrderSize <= 0.0 {
        errors := errors + [MaxOrderSizeNotPositive];
      }
      ok := errors == [];
    }

    /** `get_trading_limits()`: the configured maximum size and the two fixed minimums. */
    function GetTradingLimits(): (l: TradingLimits)
      ensures l.maxOrderSize == maxOrderSize
      ensures l.minPrice == 0.01 && l.minOrderSize == 0.1
      ensures IsValid() ==> l.maxOrderSize > 0.0
    {
      TradingLimits(maxOrderSize, MinPrice, MinOrderSize)
    }
  }

  function AsSeq<T>(o: Option<T>): seq<T> {
    if o.Some? then [o.value] else []
  }
}
