# Market-data data sources, modelled in Dafny

This project models the data-source layer of the `market-analysis` client
library (`marketdata/datasource.py`) and the class-keyed instance table of its
`Singleton` metaclass (`marketdata/util.py`).

A data source is built from a configuration dictionary. Building it does three
things in order:

1. It validates the dictionary. `DataSource` and `AlphaVantage` use the base
   rules. `IEXCloud` uses its own rules, which replace the base ones.
2. It writes defaults back into the caller's dictionary in place. The base
   rules are meant to default the token-variable key (as written they fail
   there instead; see "## Findings"); the IEX rules default the environment
   and version.
3. It keeps the name, the authentication token and the base URL.

A `TypeError` or `ValueError` raised by the validator reaches the caller
wrapped in a `DataSourceException`. `call_api` builds a URL and adds the
provider's credential to the caller's query-parameter dictionary (`token` for
IEX, `apikey` for AlphaVantage), then hands the request to the HTTP client.
The model stops at that hand-off and returns the request as a
`(url, params, headers)` record.

Files:

- `wrappers.dfy`: `Option`, `Result` and `Outcome`.
- `pyvalues.dfy`: configuration values (`None`, bools, ints, strings, dicts,
  lists), Python truthiness, `dict.get`, `str()` for formatting, and a `Dict`
  class. A `Dict` stands for a dictionary object that the caller and the data
  source share.
- `util.dfy`: the configuration key names, and the `Singleton` table. The
  table is modelled twice: as a class whose `Call` method looks an instance up
  or creates it, and as values, where lemmas cover any sequence of calls.
- `datasource.dfy`: one `DataSource` class whose `Kind` tag (`Generic`,
  `IEXCloud`, `AlphaVantage`) picks among the three Python classes. Each
  overridden method dispatches on the tag. The validators and `call_api` are
  pure specification functions. The imperative methods `ValidateConfig`,
  `Create` and `CallApi` update the shared dictionaries step by step, and
  their postconditions tie them to those functions.

Three points of the code worth knowing:

- An IEX version is defaulted to "stable" only when it is falsy; any other
  value, recognised or not, is kept (marketdata/datasource.py:135-136).
- A missing `function` or `symbol` query parameter makes AlphaVantage raise
  `ValueError` (marketdata/datasource.py:158-159).
- No token is read from the process environment. The base rules are meant
  only to default the name of the token variable
  (marketdata/datasource.py:86-87); as written they raise there (see
  "## Findings").

## Model

| member | source | states |
|---|---|---|
| `Datasource.ValidateBase` | marketdata/datasource.py:71-93 | accepted exactly when `BaseAccepts` holds: the config is non-empty, it is a library or has a truthy `baseUrl`, and if it is authenticated its `authToken` is a non-empty string. An empty config fails with "Configuration object is empty…" and is left untouched. A non-library config with a falsy base URL fails with "Base Url is required…". A missing token fails with ValueError. Once the base-URL rule is passed, `authTokenEnv` is set to "DATASOURCE_TOKEN" if it was falsy, even when the token rule then fails. No other entry changes |
| `Datasource.RejectionsAreWrapped` | marketdata/datasource.py:36-40 | every rejection by either validator reaches the constructor's caller as a DataSourceException with the fixed message whose cause is the validator's error; for the base rules that cause is one of the empty-config, base-URL or token errors, for IEX one of the empty-config, empty-dict base URL or token errors |
| `Datasource.ValidateIEX` | marketdata/datasource.py:111-136 | accepted exactly when the config is non-empty, `baseUrl` is not an empty dict (a missing or other-typed `baseUrl` passes) and `authToken` is truthy. Each failure has its own error, and a failure leaves the config unchanged. On success `environment` is "sandbox" or "production": a valid value is kept and anything else becomes "sandbox". `version` is kept when truthy and becomes "stable" otherwise. No other entry changes |
| `Datasource.IEXSkipsBaseRules` | marketdata/datasource.py:111-127 | an IEX config with a token, no base URL and no library flag is accepted, and gets no token-variable default. The base validator rejects the same config for its missing base URL |
| `Datasource.ValidationKeepsIdentity` | marketdata/datasource.py:42-44 | neither validator changes the `name`, `authToken` or `baseUrl` entries from which the constructor reads its fields |
| `Datasource.ValidationIdempotent` | marketdata/datasource.py:79-136 | validating the resulting config again gives the same verdict and changes nothing further |
| `Datasource.ValidateBaseAsWritten` | marketdata/datasource.py:79-87 | as written, the validator never passes and leaves the config unchanged: an empty config fails with the empty-config TypeError, a non-library config with a falsy base URL with the base-URL TypeError, and every other config with an AttributeError for the missing constant |
| `Datasource.AsWrittenTokenRuleUnreachable` | marketdata/datasource.py:86-93 | an authenticated config with a base URL and no token gets, as intended, the wrapped "API Authentication token" ValueError, but as written an unwrapped AttributeError, since line 86 runs before the token rule |
| `Datasource.AsWrittenRejectsEveryValidConfig` | marketdata/datasource.py:86-87 | every config the intended validator accepts raises AttributeError as written, and `__init__` does not wrap that error |
| `Datasource.AsWrittenCounterexample` | tests/unit/test_datasource.py:38-50 | a config holding only a name and a base URL is accepted by the intended validator and rejected as written |
| `Datasource.IEXUrl` | marketdata/datasource.py:138-141 | succeeds exactly when the base URL is a dict holding the environment, and then gives `baseUrl[env] + "/" + version + resource`. A dict without the environment raises KeyError; any other base URL raises TypeError |
| `Datasource.DataSource.PrepareUrl` | marketdata/datasource.py:55-56 | `_prepare_url` of all three classes: for DataSource and AlphaVantage (which delegates to the base form, lines 154-155) it never fails and gives `str(baseUrl) + resource`; for IEX it succeeds exactly when the base URL is a dict holding the chosen environment (the `environment` keyword if given, else the configured one) |
| `Datasource.DataSource.KeywordArgumentsOnlyMatterForIEX` | marketdata/datasource.py:138-155 | generic and AlphaVantage URLs ignore keyword arguments. For IEX each of `environment` and `version` independently comes from its keyword when given and from the configuration otherwise (no keyword, either one alone, or both) |
| `Datasource.DataSource.Send` | marketdata/datasource.py:68-69 | the base `call_api` passes params and headers through unchanged. For DataSource and AlphaVantage it never fails and the URL is `str(baseUrl) + resource`. For IEX it always uses the configured environment and version, since it passes no keyword arguments: it succeeds exactly when the base URL is a dict holding the configured environment, and then the URL is `baseUrl[env] + "/" + version + resource`. A dict without the environment raises KeyError; any other base URL raises TypeError |
| `Datasource.DataSource.CallOutcome` | marketdata/datasource.py:143-161 | Generic: URL = base URL + resource, and params and headers pass through unchanged. IEX: the caller's params, or a fresh dict when None, gain `token = authToken` and keep every other entry, even when the URL then fails. The URL uses the configured environment and version, and a None params gives request params `{"token": authToken}`. AlphaVantage: it raises ValueError and leaves params alone exactly when params is None or `function`/`symbol` is falsy. Otherwise params gain `apikey = authToken` and the URL is exactly the base URL |
| `Datasource.DataSource.CallApi` | marketdata/datasource.py:58-69 | the request returned or the error raised, and the caller's params dictionary afterwards, are those `CallOutcome` gives for the old params |
| `Datasource.DataSource.ValidateConfig` | marketdata/datasource.py:71-136 | the in-place validator dispatched by kind: a non-dict config fails with "Configuration object is empty…", and for a dict the outcome and the dict's new contents are those of `ValidateBase` or `ValidateIEX` |
| `Datasource.DataSource.Create` | marketdata/datasource.py:35-45 | a null config, or a config that fails validation, gives the wrapped error and builds no object. Either way the dict keeps the defaults written so far. On success it gives a fresh object whose name, token and base URL are the config's `name`, `authToken` and `baseUrl`, and which shares the caller's dict. An IEX object also keeps the configured version and a valid environment (lines 106-109) |
| `Datasource.DataSource.SetName` | marketdata/datasource.py:51-53 | the `name` setter sets the name; the other fields are constants and cannot change |
| `PyValues.Str` | marketdata/datasource.py:56 | `str()` as `format` renders a value: a string is itself, None is "None", a bool is "True"/"False". An int is its decimal text: a "-" exactly for negatives, then non-empty digits with no leading zero (only "0" starts with '0'), which read back as the int's absolute value |
| `PyValues.NatString` | marketdata/datasource.py:141 | `str()` of a non-negative int is a non-empty string of digits with no leading zero (only "0" starts with '0'), and it reads back as the same number |
| `PyValues.DecimalString` | marketdata/datasource.py:141 | `str()` of any int starts with "-" exactly when the int is negative. The digits after it are non-empty, have no leading zero (it starts with '0' only for 0, and a negative's first digit is not '0'), and read back as the int's absolute value |
| `PyValues.CanonicalDigitsUnique` | marketdata/datasource.py:141 | two digit strings with no leading zero that denote the same number are the same string |
| `PyValues.DecimalTextUnique` | marketdata/datasource.py:141 | an int has exactly one decimal text of the form `Str` and `DecimalString` promise, so their contracts fix the text Python prints |
| `Util.Record` | marketdata/util.py:48-51 | one call returns the recorded instance when the class is present and the new candidate otherwise. After the call the class is recorded, the keys grow only by that class, and every earlier entry is unchanged |
| `Util.ReplayOnlyGrows` | marketdata/util.py:46-51 | after any sequence of calls, no entry is removed or replaced |
| `Util.ReplayFirstCallWins` | marketdata/util.py:48-51 | after any sequence of calls, a class is recorded exactly when it already was or was called. Its instance is the earlier entry, or else the one built by its first call; later calls and their arguments change nothing |
| `Util.Singleton.constructor` | marketdata/util.py:46 | the shared table starts empty |
| `Util.Singleton.Call` | marketdata/util.py:48-51 | on the first call for a class, a fresh instance is built from these arguments and recorded, and the table gains only that entry. On every later call, the recorded instance is returned and the table is unchanged, whatever the arguments |

## Findings

| source | as written | input that shows it | evidently intended | confidence | as-written member | corrected member |
|---|---|---|---|---|---|---|
| marketdata/datasource.py:86-87 | reads `DataSourceConstants.TOKEN_ENV_VARIABLE` and `DEFAULT_TOKEN_ENV`, which `DataSourceConstants` in marketdata/util.py:54-78 does not define. The AttributeError is not caught by the `(TypeError, ValueError)` handler | `{"name": "SampleDataSource1", "baseUrl": "https://example.com/"}` given to `DataSource(...)` | default the key `authTokenEnv` to `DATASOURCE_TOKEN` when it is falsy (util/constants.py:15,21), so the construction tests succeed | not executed; high for the code as it stands | `Datasource.ValidateBaseAsWritten` | `Datasource.ValidateBase` |

## Left out

- `requests.get` (marketdata/datasource.py:69) is network I/O. `call_api` returns the request it would send; responses and status codes are not modelled.
- `logger.warning` (marketdata/datasource.py:131) is logging only; it has no effect beyond the defaulting that follows it.
- `read_app_config` (marketdata/util.py:22-42) reads a YAML file and sets a global. It is file I/O and a foreign parser.
- marketdata/ticker.py is not part of this model: it is a non-working stub. Its property recurses on itself, `get_summary` is empty, and it depends on `create_datasource`.
- `create_datasource`, `YahooFinance`, the time-bounded LRU cache and the fallback flow do not appear in the modelled files.
- marketdata/exceptions.py is not part of this model. `DataSourceException` is modelled as an error variant that carries a message and a cause, after util/exceptions.py.
- The constant-only files carry no behaviour: util/constants.py, marketdata/constants.py and util/exceptions.py. The same holds for the `DataSourceConstants` keys that the data sources never read.
- PyValues.Str: `str()` of a dict or list value is rendered as a fixed placeholder (`<dict>`, `<list>`) rather than Python's repr text. The model's maps carry no insertion order, so that text cannot be reproduced. Scalars are rendered as Python renders them.
- Floating-point configuration values and dictionaries with non-string keys are not modelled.
- Datasource.DataSource.PrepareUrl: the keyword `environment` override is modelled only as a string. Python would also accept other values, with other indexing errors.
- Datasource.IEXUrl: the wording of the errors the interpreter raises itself (indexing a non-dict base URL) is approximate, because it differs between Python 3 releases. The error type is exact.
- Datasource.DataSource.CallApi: `resource` is a string, and `params` is a dict or None. A non-dict `params` (the integration tests pass a string) would fail inside Python, on item assignment or `.get`; that failure is not modelled.
- Datasource.DataSource: Python lets any attribute be reassigned. The model makes every field except `name` a constant, because no code shown reassigns them.
- Util.Singleton.Call: an exception raised by the class's own constructor, which would propagate and record nothing, is not modelled. Construction always succeeds.
