/**
  marketdata/datasource.py: a data source checks its configuration dictionary
  (writing defaults back into it), keeps the name, token and base URL, builds
  request URLs, and adds its credential to the query parameters before handing
  the request to the HTTP client. The three Python classes DataSource,
  IEXCloud and AlphaVantage become one class tagged with a `Kind`; each
  overridden method dispatches on it.
 */
module Datasource {
  import opened Wrappers
  import opened PyValues
  import opened Util

  /** The exceptions the code raises or lets escape. */
  datatype Error =
    | TypeError(message: string)
    | ValueError(message: string)
    | KeyError(key: Value)
    | AttributeError(message: string)
    | DataSourceException(message: string, cause: Error)

  const EMPTY_CONFIG_MSG := "Configuration object is empty or not a required type"
  const BASE_URL_REQUIRED_MSG := "Base Url is required when data source is not a library"
  const AUTH_TOKEN_REQUIRED_MSG := "API Authentication token is a required field and is missing in configuration"
  const IEX_BASE_URL_MSG := "IEX Cloud API base url is required and should be a dict"
  const IEX_TOKEN_MSG := "Authentication token is required to connect with IEX Cloud API"
  const AV_PARAMS_MSG := "Parameters: function and symbol is required"
  const INIT_FAILED_MSG := "Error occurred while validating the configuration to initialize the data source"

  const IEX_ENVIRONMENTS: seq<string> := ["sandbox", "production"]
  const IEX_VALID_VERSIONS: seq<string> := ["stable", "latest", "v1"]

  // Query-parameter names the providers authenticate with or require.
  const TOKEN_PARAM := "token"
  const APIKEY_PARAM := "apikey"
  const FUNCTION_PARAM := "function"
  const SYMBOL_PARAM := "symbol"

  /** Which of the three Python classes an object is. */
  datatype Kind = Generic | IEXCloud | AlphaVantage

  /** A validator's outcome and the configuration's contents after it ran. */
  datatype Validation = Validation(outcome: Outcome<Error>, config: map<string, Value>)

  /** The request handed to the HTTP client: `requests.get(url=..., params=..., headers=...)`. */
  datatype Request = Request(url: string, params: Option<map<string, Value>>, headers: Value)

  /** What `call_api` returns or raises, and the caller's `params` dictionary afterwards. */
  datatype ApiCall = ApiCall(result: Result<Request, Error>, params: Option<map<string, Value>>)

  /** `__init__` turns TypeError and ValueError from validation into DataSourceException; anything else escapes. */
  function WrapInitError(e: Error): Error {
    if e.TypeError? || e.ValueError? then DataSourceException(INIT_FAILED_MSG, e) else e
  }

  // ---------------------------------------------------------------------------
  // Validation of DataSource and AlphaVantage configurations
  // ---------------------------------------------------------------------------

  /** An authentication token the base validator accepts: a non-empty string. */
  predicate HasStringToken(m: map<string, Value>) {
    Get(m, AUTH_TOKEN).PyStr? && Get(m, AUTH_TOKEN).s != ""
  }

  /** The configurations the base validator lets through, stated rule by rule. */
  predicate BaseAccepts(m: map<string, Value>) {
    && m != map[]
    && (Truthy(Get(m, IS_LIBRARY)) || Truthy(Get(m, API_BASE_URL)))
    && (Truthy(Get(m, IS_AUTHENTICATED)) ==> HasStringToken(m))
  }

  /** `DataSource._validate_config` on a dictionary. */
  function ValidateBase(m: map<string, Value>): (v: Validation)
    ensures v.outcome.Pass? <==> BaseAccepts(m)
    ensures m == map[] ==> v == Validation(Fail(TypeError(EMPTY_CONFIG_MSG)), m)
    ensures m != map[] && !Truthy(Get(m, IS_LIBRARY)) && !Truthy(Get(m, API_BASE_URL)) ==>
              v == Validation(Fail(TypeError(BASE_URL_REQUIRED_MSG)), m)
    ensures m != map[] && (Truthy(Get(m, IS_LIBRARY)) || Truthy(Get(m, API_BASE_URL))) && !BaseAccepts(m) ==>
              v.outcome == Fail(ValueError(AUTH_TOKEN_REQUIRED_MSG))
    // Once the base-URL rule is passed the token-variable default is written,
    // even if the token rule then fails; no other entry is ever touched.
    ensures m != map[] && (Truthy(Get(m, IS_LIBRARY)) || Truthy(Get(m, API_BASE_URL))) ==>
              Get(v.config, TOKEN_ENV) == (if Truthy(Get(m, TOKEN_ENV)) then Get(m, TOKEN_ENV) else PyStr(DEFAULT_TOKEN_ENV))
              && TOKEN_ENV in v.config
    ensures v.config - {TOKEN_ENV} == m - {TOKEN_ENV}
  {
    if m == map[] then
      Validation(Fail(TypeError(EMPTY_CONFIG_MSG)), m)
    else if !Truthy(Get(m, IS_LIBRARY)) && !Truthy(Get(m, API_BASE_URL)) then
      Validation(Fail(TypeError(BASE_URL_REQUIRED_MSG)), m)
    else
      var m' := if !Truthy(Get(m, TOKEN_ENV)) then m[TOKEN_ENV := PyStr(DEFAULT_TOKEN_ENV)] else m;
      if Truthy(Get(m', IS_AUTHENTICATED)) && !(Truthy(Get(m', AUTH_TOKEN)) && Get(m', AUTH_TOKEN).PyStr?) then
        Validation(Fail(ValueError(AUTH_TOKEN_REQUIRED_MSG)), m')
      else
        Validation(Pass, m')
  }

  // ---------------------------------------------------------------------------
  // Validation of IEXCloud configurations (replaces the base validator)
  // ---------------------------------------------------------------------------

  /** An environment value IEX keeps as it is. */
  predicate ValidEnvironment(env: Value) {
    env.PyStr? && env.s in IEX_ENVIRONMENTS
  }

  /** The configurations the IEX validator lets through, stated rule by rule. */
  predicate IEXAccepts(m: map<string, Value>) {
    && m != map[]
    && Get(m, API_BASE_URL) != PyDict(map[])
    && Truthy(Get(m, AUTH_TOKEN))
  }

  /** `IEXCloud._validate_config` on a dictionary. */
  function ValidateIEX(m: map<string, Value>): (v: Validation)
    ensures v.outcome.Pass? <==> IEXAccepts(m)
    ensures m == map[] ==> v.outcome == Fail(TypeError(EMPTY_CONFIG_MSG))
    ensures m != map[] && Get(m, API_BASE_URL) == PyDict(map[]) ==> v.outcome == Fail(TypeError(IEX_BASE_URL_MSG))
    ensures m != map[] && Get(m, API_BASE_URL) != PyDict(map[]) && !Truthy(Get(m, AUTH_TOKEN)) ==>
              v.outcome == Fail(ValueError(IEX_TOKEN_MSG))
    ensures v.outcome.Fail? ==> v.config == m
    // On success the environment is always one IEX knows, a valid one is kept,
    // and a version is present: the configured one if truthy, else "stable".
    ensures v.outcome.Pass? ==> API_ENVIRONMENT in v.config && ValidEnvironment(v.config[API_ENVIRONMENT])
    ensures v.outcome.Pass? && ValidEnvironment(Get(m, API_ENVIRONMENT)) ==> v.config[API_ENVIRONMENT] == m[API_ENVIRONMENT]
    ensures v.outcome.Pass? && !ValidEnvironment(Get(m, API_ENVIRONMENT)) ==> v.config[API_ENVIRONMENT] == PyStr(IEX_ENVIRONMENTS[0])
    ensures v.outcome.Pass? ==> API_VERSION in v.config && Truthy(v.config[API_VERSION])
    ensures v.outcome.Pass? && Truthy(Get(m, API_VERSION)) ==> v.config[API_VERSION] == m[API_VERSION]
    ensures v.outcome.Pass? && !Truthy(Get(m, API_VERSION)) ==> v.config[API_VERSION] == PyStr(IEX_VALID_VERSIONS[0])
    ensures v.config - {API_ENVIRONMENT, API_VERSION} == m - {API_ENVIRONMENT, API_VERSION}
  {
    if m == map[] then
      Validation(Fail(TypeError(EMPTY_CONFIG_MSG)), m)
    else if !Truthy(Get(m, API_BASE_URL)) && Get(m, API_BASE_URL).PyDict? then
      Validation(Fail(TypeError(IEX_BASE_URL_MSG)), m)
    else if !Truthy(Get(m, AUTH_TOKEN)) then
      Validation(Fail(ValueError(IEX_TOKEN_MSG)), m)
    else
      var env := Get(m, API_ENVIRONMENT);
      var m1 := if !Truthy(env) || !(env.PyStr? && env.s in IEX_ENVIRONMENTS)
                then m[API_ENVIRONMENT := PyStr(IEX_ENVIRONMENTS[0])] else m;
      var m2 := if !Truthy(Get(m1, API_VERSION)) then m1[API_VERSION := PyStr(IEX_VALID_VERSIONS[0])] else m1;
      Validation(Pass, m2)
  }

  /** `self._validate_config(config)` as dispatched from `__init__`. */
  function Validate(kind: Kind, m: map<string, Value>): Validation {
    if kind.IEXCloud? then ValidateIEX(m) else ValidateBase(m)
  }

  /**
    Every rejection by either validator reaches the caller of `__init__` as a
    DataSourceException carrying the validator's error, and that error is one
    of the documented ones for the kind.
   */
  lemma RejectionsAreWrapped(kind: Kind, m: map<string, Value>)
    requires Validate(kind, m).outcome.Fail?
    ensures var cause := Validate(kind, m).outcome.error;
            && WrapInitError(cause) == DataSourceException(INIT_FAILED_MSG, cause)
            && (!kind.IEXCloud? ==>
                  cause in {TypeError(EMPTY_CONFIG_MSG), TypeError(BASE_URL_REQUIRED_MSG), ValueError(AUTH_TOKEN_REQUIRED_MSG)})
            && (kind.IEXCloud? ==>
                  cause in {TypeError(EMPTY_CONFIG_MSG), TypeError(IEX_BASE_URL_MSG), ValueError(IEX_TOKEN_MSG)})
  {
  }

  /** Validation writes only defaults: the name, token and base URL it leaves as given. */
  lemma ValidationKeepsIdentity(kind: Kind, m: map<string, Value>)
    ensures Get(Validate(kind, m).config, NAME) == Get(m, NAME)
    ensures Get(Validate(kind, m).config, AUTH_TOKEN) == Get(m, AUTH_TOKEN)
    ensures Get(Validate(kind, m).config, API_BASE_URL) == Get(m, API_BASE_URL)
  {
    var c := Validate(kind, m).config;
    var written := if kind.IEXCloud? then {API_ENVIRONMENT, API_VERSION} else {TOKEN_ENV};
    assert c - written == m - written;
    forall k | k in {NAME, AUTH_TOKEN, API_BASE_URL} ensures Get(c, k) == Get(m, k) {
      assert k !in written;
      assert k in c <==> k in c - written;
      assert k in m <==> k in m - written;
    }
  }

  /** Validating a configuration a second time changes nothing and gives the same verdict. */
  lemma ValidationIdempotent(kind: Kind, m: map<string, Value>)
    ensures Validate(kind, Validate(kind, m).config) == Validate(kind, m)
  {
    var v := Validate(kind, m);
    if kind.IEXCloud? {
      if v.outcome.Pass? {
        var c := v.config;
        ValidationKeepsIdentity(kind, m);
        assert IEXAccepts(c);
        var w := ValidateIEX(c);
        assert w.config - {API_ENVIRONMENT, API_VERSION} == c - {API_ENVIRONMENT, API_VERSION};
        assert w.config == c;
      }
    } else {
      if m != map[] && (Truthy(Get(m, IS_LIBRARY)) || Truthy(Get(m, API_BASE_URL))) {
        var c := v.config;
        assert Get(c, IS_LIBRARY) == Get(m, IS_LIBRARY) && Get(c, API_BASE_URL) == Get(m, API_BASE_URL)
          && Get(c, IS_AUTHENTICATED) == Get(m, IS_AUTHENTICATED) && Get(c, AUTH_TOKEN) == Get(m, AUTH_TOKEN) by {
          ValidationKeepsIdentity(kind, m);
          assert IS_LIBRARY in c <==> IS_LIBRARY in c - {TOKEN_ENV};
          assert IS_LIBRARY in m <==> IS_LIBRARY in m - {TOKEN_ENV};
          assert IS_AUTHENTICATED in c <==> IS_AUTHENTICATED in c - {TOKEN_ENV};
          assert IS_AUTHENTICATED in m <==> IS_AUTHENTICATED in m - {TOKEN_ENV};
        }
        var w := ValidateBase(c);
        assert w.config - {TOKEN_ENV} == c - {TOKEN_ENV};
        assert w.config == c;
      }
    }
  }

  /**
    The IEX validator replaces the base one rather than extending it: a
    configuration with a token but no base URL, not marked as a library, is
    accepted for IEX, gets no token-variable default, and is rejected by the
    base validator.
   */
  lemma IEXSkipsBaseRules(m: map<string, Value>)
    requires API_BASE_URL !in m && Truthy(Get(m, AUTH_TOKEN)) && !Truthy(Get(m, IS_LIBRARY))
    ensures ValidateIEX(m).outcome.Pass?
    ensures Get(ValidateIEX(m).config, TOKEN_ENV) == Get(m, TOKEN_ENV)
    ensures ValidateBase(m).outcome == Fail(TypeError(BASE_URL_REQUIRED_MSG))
  {
    var c := ValidateIEX(m).config;
    assert TOKEN_ENV in c <==> TOKEN_ENV in c - {API_ENVIRONMENT, API_VERSION};
    assert TOKEN_ENV in m <==> TOKEN_ENV in m - {API_ENVIRONMENT, API_VERSION};
  }

  // ---------------------------------------------------------------------------
  // The base validator as written (see the README's findings)
  // ---------------------------------------------------------------------------

  const MISSING_CONSTANT_MSG := "type object 'DataSourceConstants' has no attribute 'TOKEN_ENV_VARIABLE'"

  /**
    `DataSource._validate_config` as written against marketdata/util.py:
    reading `DataSourceConstants.TOKEN_ENV_VARIABLE` raises AttributeError,
    since that class defines no such attribute.
   */
  function ValidateBaseAsWritten(m: map<string, Value>): (v: Validation)
    ensures v.outcome.Fail? && v.config == m
    ensures m == map[] ==> v.outcome == Fail(TypeError(EMPTY_CONFIG_MSG))
    ensures m != map[] && !Truthy(Get(m, IS_LIBRARY)) && !Truthy(Get(m, API_BASE_URL)) ==>
              v.outcome == Fail(TypeError(BASE_URL_REQUIRED_MSG))
    ensures m != map[] && (Truthy(Get(m, IS_LIBRARY)) || Truthy(Get(m, API_BASE_URL))) ==>
              v.outcome == Fail(AttributeError(MISSING_CONSTANT_MSG))
  {
    if m == map[] then
      Validation(Fail(TypeError(EMPTY_CONFIG_MSG)), m)
    else if !Truthy(Get(m, IS_LIBRARY)) && !Truthy(Get(m, API_BASE_URL)) then
      Validation(Fail(TypeError(BASE_URL_REQUIRED_MSG)), m)
    else
      Validation(Fail(AttributeError(MISSING_CONSTANT_MSG)), m)
  }

  /**
    As written, every configuration the intended validator accepts raises
    AttributeError instead, and `__init__` does not wrap it, so no generic or
    AlphaVantage data source can be built at all.
   */
  lemma AsWrittenRejectsEveryValidConfig(m: map<string, Value>)
    requires BaseAccepts(m)
    ensures ValidateBase(m).outcome.Pass?
    ensures ValidateBaseAsWritten(m).outcome == Fail(AttributeError(MISSING_CONSTANT_MSG))
    ensures WrapInitError(ValidateBaseAsWritten(m).outcome.error) == AttributeError(MISSING_CONSTANT_MSG)
  {
  }

  /**
    As written, an authenticated configuration without a token never reaches
    the token rule: the missing constant is read first, so the caller gets an
    unwrapped AttributeError instead of the wrapped "API Authentication token"
    ValueError the intended validator gives.
   */
  lemma AsWrittenTokenRuleUnreachable(m: map<string, Value>)
    requires m != map[] && Truthy(Get(m, API_BASE_URL)) && Truthy(Get(m, IS_AUTHENTICATED)) && AUTH_TOKEN !in m
    ensures WrapInitError(ValidateBase(m).outcome.error) == DataSourceException(INIT_FAILED_MSG, ValueError(AUTH_TOKEN_REQUIRED_MSG))
    ensures WrapInitError(ValidateBaseAsWritten(m).outcome.error) == AttributeError(MISSING_CONSTANT_MSG)
  {
  }

  /** A concrete configuration shaped like the ones the constructor tests expect to succeed. */
  lemma AsWrittenCounterexample()
    ensures var m := map[NAME := PyStr("SampleDataSource1"), API_BASE_URL := PyStr("https://example.com/")];
            ValidateBase(m).outcome.Pass? && ValidateBaseAsWritten(m).outcome.Fail?
  {
    var m := map[NAME := PyStr("SampleDataSource1"), API_BASE_URL := PyStr("https://example.com/")];
    assert API_BASE_URL in m;
    assert BaseAccepts(m);
  }

  // ---------------------------------------------------------------------------
  // URL building
  // ---------------------------------------------------------------------------

  /** `"{}{}".format(base_url, resource)`: the base URL rendered by `str()`, then the resource. */
  function JoinBase(baseUrl: Value, resource: string): string {
    Str(baseUrl) + resource
  }

  /** The name Python reports for a value's type in "object is not subscriptable". */
  function TypeName(v: Value): string {
    match v
    case PyNone => "NoneType"
    case PyBool(_) => "bool"
    case PyInt(_) => "int"
    case PyStr(_) => "str"
    case PyDict(_) => "dict"
    case PyList(_) => "list"
  }

  /**
    `"{}/{}{}".format(base_url[env], version, resource)`. Indexing succeeds
    only on a dict holding `env`; a dict without it raises KeyError, any other
    base URL raises TypeError.
   */
  function IEXUrl(baseUrl: Value, env: string, version: Value, resource: string): (r: Result<string, Error>)
    ensures r.Ok? <==> baseUrl.PyDict? && env in baseUrl.entries
    ensures r.Ok? ==> r.value == Str(baseUrl.entries[env]) + "/" + Str(version) + resource
    ensures baseUrl.PyDict? && env !in baseUrl.entries ==> r == Err(KeyError(PyStr(env)))
    ensures !baseUrl.PyDict? ==> r.Err? && r.error.TypeError?
  {
    match baseUrl
    case PyDict(d) =>
      if env in d then Ok(Str(d[env]) + "/" + Str(version) + resource) else Err(KeyError(PyStr(env)))
    case PyStr(_) => Err(TypeError("string indices must be integers"))
    case PyList(_) => Err(TypeError("list indices must be integers or slices, not str"))
    case _ => Err(TypeError("'" + TypeName(baseUrl) + "' object is not subscriptable"))
  }

  /** Every entry of `before` (or none when absent) kept, plus `key` set to `value`. */
  predicate Injected(before: Option<map<string, Value>>, key: string, value: Value, after: map<string, Value>) {
    var b := if before.Some? then before.value else map[];
    && after.Keys == b.Keys + {key}
    && after[key] == value
    && (forall k :: k in b && k != key ==> after[k] == b[k])
  }

  // ---------------------------------------------------------------------------
  // The data source object
  // ---------------------------------------------------------------------------

  class DataSource {
    const kind: Kind
    var name: Value
    const authToken: Value
    const baseUrl: Value
    /** The caller's configuration dictionary, shared, not copied. */
    const config: Dict
    /** IEX only: the configured version. */
    const version: Value
    /** IEX only: the configured environment. */
    const defaultEnv: string

    /** What IEX construction guarantees about the environment and version it keeps. */
    ghost predicate Valid()
      reads this
    {
      kind.IEXCloud? ==> defaultEnv in IEX_ENVIRONMENTS && Truthy(version)
    }

    constructor Init(kind: Kind, config: Dict, name: Value, authToken: Value, baseUrl: Value,
                     version: Value, defaultEnv: string)
      requires kind.IEXCloud? ==> defaultEnv in IEX_ENVIRONMENTS && Truthy(version)
      ensures Valid()
      ensures this.kind == kind && this.config == config && this.name == name && this.authToken == authToken
      ensures this.baseUrl == baseUrl && this.version == version && this.defaultEnv == defaultEnv
    {
      this.kind := kind;
      this.config := config;
      this.name := name;
      this.authToken := authToken;
      this.baseUrl := baseUrl;
      this.version := version;
      this.defaultEnv := defaultEnv;
    }

    /**
      `self._validate_config(config)` run on the caller's dictionary (null
      stands for any value that is not a dict): defaults are written into it
      in place, step by step, as they are in Python.
     */
    static method ValidateConfig(kind: Kind, config: Dict?) returns (outcome: Outcome<Error>)
      modifies config
      ensures config == null ==> outcome == Fail(TypeError(EMPTY_CONFIG_MSG))
      ensures config != null ==> Validation(outcome, config.items) == Validate(kind, old(config.items))
    {
      if config == null || config.items == map[] {
        return Fail(TypeError(EMPTY_CONFIG_MSG));
      }
      if kind.IEXCloud? {
        var base := Get(config.items, API_BASE_URL);
        if !Truthy(base) && base.PyDict? {
          return Fail(TypeError(IEX_BASE_URL_MSG));
        }
        if !Truthy(Get(config.items, AUTH_TOKEN)) {
          return Fail(ValueError(IEX_TOKEN_MSG));
        }
        var env := Get(config.items, API_ENVIRONMENT);
        if !Truthy(env) || !(env.PyStr? && env.s in IEX_ENVIRONMENTS) {
          config.Set(API_ENVIRONMENT, PyStr(IEX_ENVIRONMENTS[0]));
        }
        if !Truthy(Get(config.items, API_VERSION)) {
          config.Set(API_VERSION, PyStr(IEX_VALID_VERSIONS[0]));
        }
        return Pass;
      }
      if !Truthy(Get(config.items, IS_LIBRARY)) && !Truthy(Get(config.items, API_BASE_URL)) {
        return Fail(TypeError(BASE_URL_REQUIRED_MSG));
      }
      if !Truthy(Get(config.items, TOKEN_ENV)) {
        config.Set(TOKEN_ENV, PyStr(DEFAULT_TOKEN_ENV));
      }
      var token := Get(config.items, AUTH_TOKEN);
      if Truthy(Get(config.items, IS_AUTHENTICATED)) && !(Truthy(token) && token.PyStr?) {
        return Fail(ValueError(AUTH_TOKEN_REQUIRED_MSG));
      }
      return Pass;
    }

    /**
      `DataSource(config)`, `IEXCloud(config)` or `AlphaVantage(config)`:
      validate, then keep the name, token and base URL (and for IEX the
      version and environment). A failed validation raises and builds nothing.
     */
    static method Create(kind: Kind, config: Dict?) returns (r: Result<DataSource, Error>)
      modifies config
      ensures config == null ==> r == Err(DataSourceException(INIT_FAILED_MSG, TypeError(EMPTY_CONFIG_MSG)))
      ensures config != null ==> config.items == Validate(kind, old(config.items)).config
      ensures config != null && Validate(kind, old(config.items)).outcome.Fail? ==>
                r == Err(WrapInitError(Validate(kind, old(config.items)).outcome.error))
      ensures config != null && Validate(kind, old(config.items)).outcome.Pass? ==>
                && r.Ok? && fresh(r.value) && r.value.Valid()
                && r.value.kind == kind && r.value.config == config
                && r.value.name == Get(old(config.items), NAME)
                && r.value.authToken == Get(old(config.items), AUTH_TOKEN)
                && r.value.baseUrl == Get(old(config.items), API_BASE_URL)
                && (kind.IEXCloud? ==>
                      r.value.version == Get(config.items, API_VERSION)
                      && PyStr(r.value.defaultEnv) == config.items[API_ENVIRONMENT])
    {
      var outcome := ValidateConfig(kind, config);
      if outcome.Fail? {
        return Err(WrapInitError(outcome.error));
      }
      ValidationKeepsIdentity(kind, old(config.items));
      var version := PyNone;
      var env := "";
      if kind.IEXCloud? {
        version := Get(config.items, API_VERSION);
        env := config.items[API_ENVIRONMENT].s;
      }
      var source := new DataSource.Init(kind, config, Get(config.items, NAME), Get(config.items, AUTH_TOKEN),
                                        Get(config.items, API_BASE_URL), version, env);
      return Ok(source);
    }

    /** The `name` property setter: only the name changes. */
    method SetName(newName: Value)
      requires Valid()
      modifies this
      ensures Valid() && name == newName
    {
      name := newName;
    }

    /**
      `self._prepare_url(resource, **kwargs)`. The generic and AlphaVantage
      forms ignore the keyword arguments; IEX takes `environment` and
      `version` from them, or else from its configuration.
     */
    function PrepareUrl(resource: string, envOverride: Option<string>, versionOverride: Option<Value>): (r: Result<string, Error>)
      reads this
      // DataSource and AlphaVantage (which delegates to the base form): never fails, keyword arguments unused.
      ensures !kind.IEXCloud? ==> r == Ok(Str(baseUrl) + resource)
      // IEX: succeeds exactly when the base URL is a dict holding the chosen environment.
      ensures kind.IEXCloud? ==>
                (r.Ok? <==> baseUrl.PyDict? && (if envOverride.Some? then envOverride.value else defaultEnv) in baseUrl.entries)
    {
      if kind.IEXCloud? then
        var env := if envOverride.Some? then envOverride.value else defaultEnv;
        var ver := if versionOverride.Some? then versionOverride.value else version;
        IEXUrl(baseUrl, env, ver, resource)
      else
        Ok(JoinBase(baseUrl, resource))
    }

    /**
      Only IEX looks at the keyword arguments: the other kinds build the same URL
      whatever is passed, and without them IEX uses its configured environment
      and version.
     */
    lemma KeywordArgumentsOnlyMatterForIEX(resource: string, envOverride: Option<string>, versionOverride: Option<Value>)
      ensures !kind.IEXCloud? ==> PrepareUrl(resource, envOverride, versionOverride) == PrepareUrl(resource, None, None)
      ensures kind.IEXCloud? ==> PrepareUrl(resource, None, None) == IEXUrl(baseUrl, defaultEnv, version, resource)
      ensures kind.IEXCloud? && envOverride.Some? && versionOverride.Some? ==>
                PrepareUrl(resource, envOverride, versionOverride)
                  == IEXUrl(baseUrl, envOverride.value, versionOverride.value, resource)
      ensures kind.IEXCloud? && envOverride.Some? && versionOverride.None? ==>
                PrepareUrl(resource, envOverride, versionOverride) == IEXUrl(baseUrl, envOverride.value, version, resource)
      ensures kind.IEXCloud? && envOverride.None? && versionOverride.Some? ==>
                PrepareUrl(resource, envOverride, versionOverride) == IEXUrl(baseUrl, defaultEnv, versionOverride.value, resource)
    {
    }

    /**
      The base `call_api`: prepare the URL with no keyword arguments and hand the
      request over. Through it IEX always uses its configured environment and version.
     */
    function Send(resource: string, params: Option<map<string, Value>>, headers: Value): (r: Result<Request, Error>)
      reads this
      ensures r.Ok? ==> r.value.params == params && r.value.headers == headers
      ensures !kind.IEXCloud? ==> r == Ok(Request(Str(baseUrl) + resource, params, headers))
      ensures kind.IEXCloud? ==> (r.Ok? <==> baseUrl.PyDict? && defaultEnv in baseUrl.entries)
      ensures kind.IEXCloud? && r.Ok? ==>
                r.value.url == Str(baseUrl.entries[defaultEnv]) + "/" + Str(version) + resource
      ensures kind.IEXCloud? && baseUrl.PyDict? && defaultEnv !in baseUrl.entries ==>
                r == Err(KeyError(PyStr(defaultEnv)))
      ensures kind.IEXCloud? && !baseUrl.PyDict? ==> r.Err? && r.error.TypeError?
    {
      match PrepareUrl(resource, None, None)
      case Ok(url) => Ok(Request(url, params, headers))
      case Err(e) => Err(e)
    }

    /** What `call_api(resource, params, headers)` returns or raises, and the caller's `params` afterwards. */
    function CallOutcome(resource: string, params: Option<map<string, Value>>, headers: Value): (c: ApiCall)
      reads this
      ensures c.result.Ok? ==> c.result.value.headers == headers
      // Generic: the URL is the base URL followed by the resource; params pass through untouched.
      ensures kind.Generic? ==>
                c.result == Ok(Request(JoinBase(baseUrl, resource), params, headers)) && c.params == params
      // IEX: the token is added to the caller's params (a fresh dict when None),
      // even when preparing the URL then fails; env and version are the configured ones.
      ensures kind.IEXCloud? ==> (c.params.Some? <==> params.Some?)
      ensures kind.IEXCloud? && params.Some? ==> Injected(params, TOKEN_PARAM, authToken, c.params.value)
      ensures kind.IEXCloud? ==> (c.result.Ok? <==> baseUrl.PyDict? && defaultEnv in baseUrl.entries)
      ensures kind.IEXCloud? && c.result.Ok? ==>
                && c.result.value.url == Str(baseUrl.entries[defaultEnv]) + "/" + Str(version) + resource
                && c.result.value.params.Some?
                && Injected(params, TOKEN_PARAM, authToken, c.result.value.params.value)
      ensures kind.IEXCloud? && params.None? && c.result.Ok? ==>
                c.result.value.params == Some(map[TOKEN_PARAM := authToken])
      // AlphaVantage: function and symbol are required; the key is added and the URL is the bare base URL.
      ensures kind.AlphaVantage? ==>
                (c.result.Err? <==>
                   params.None? || !Truthy(Get(params.value, FUNCTION_PARAM)) || !Truthy(Get(params.value, SYMBOL_PARAM)))
      ensures kind.AlphaVantage? && c.result.Err? ==> c.result.error == ValueError(AV_PARAMS_MSG) && c.params == params
      ensures kind.AlphaVantage? && c.result.Ok? ==>
                && c.result.value.url == Str(baseUrl)
                && c.params.Some? && params.Some?
                && Injected(params, APIKEY_PARAM, authToken, c.params.value)
                && c.result.value.params == c.params
    {
      match kind
      case Generic =>
        ApiCall(Send(resource, params, headers), params)
      case IEXCloud =>
        var sent := (if params.Some? then params.value else map[])[TOKEN_PARAM := authToken];
        ApiCall(Send(resource, Some(sent), headers), if params.Some? then Some(sent) else None)
      case AlphaVantage =>
        if params.None? || !(Truthy(Get(params.value, FUNCTION_PARAM)) && Truthy(Get(params.value, SYMBOL_PARAM))) then
          ApiCall(Err(ValueError(AV_PARAMS_MSG)), params)
        else
          var sent := params.value[APIKEY_PARAM := authToken];
          ApiCall(Send("", Some(sent), headers), Some(sent))
    }

    /**
      `call_api(resource, params, headers)`: updates the caller's `params`
      dictionary in place and returns the request handed to the HTTP client.
     */
    method CallApi(resource: string, params: Dict?, headers: Value) returns (r: Result<Request, Error>)
      modifies params
      ensures var c := CallOutcome(resource, if params == null then None else Some(old(params.items)), headers);
              r == c.result && (params != null ==> c.params == Some(params.items))
    {
      match kind
      case Generic =>
        var url := PrepareUrl(resource, None, None);
        r := if url.Ok? then Ok(Request(url.value, if params == null then None else Some(params.items), headers))
             else Err(url.error);
      case IEXCloud =>
        var p: Dict;
        if params == null {
          p := new Dict(map[]);
        } else {
          p := params;
        }
        p.Set(TOKEN_PARAM, authToken);
        var url := PrepareUrl(resource, None, None);
        r := if url.Ok? then Ok(Request(url.value, Some(p.items), headers)) else Err(url.error);
      case AlphaVantage =>
        if params == null || !(Truthy(Get(params.items, FUNCTION_PARAM)) && Truthy(Get(params.items, SYMBOL_PARAM))) {
          return Err(ValueError(AV_PARAMS_MSG));
        }
        params.Set(APIKEY_PARAM, authToken);
        // AlphaVantage's URL preparation is the base one, which cannot fail.
        r := Ok(Request(PrepareUrl("", None, None).value, Some(params.items), headers));
    }
  }
}
