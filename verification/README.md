# Bright Data profile normalisation, modelled in Dafny

This project models the pure core of `fetch_instagram_profile` in
`app/services/brightdata.py`. That function asks the Bright Data "scrape"
endpoint for an Instagram profile and turns the provider's answer into an
`InstagramProfile`. The model covers four things:

- the check that the API token and the dataset id are configured;
- the request it builds: the URL with the dataset id, the body
  `{"input": [{"user_name": ...}]}` and the bearer header;
- the check that the decoded reply is a non-empty list, and the choice of its
  first element;
- the projection of that record onto the profile fields. This goes through
  Python `or` chains over `dict.get` and through `_to_int`.

Files:

- `json.dfy` (module `Json`): decoded JSON values. It holds Python truthiness
  (`Truthy`), `dict.get` (`Get`, `GetOr`), `a or b` (`Or`) and the chain
  `a or b or ... or z` (`OrChain`), with lemmas on which operand a chain yields.
- `py_int.dfy` (module `PyInt`): `_to_int` (`ToInt`) and the part of Python's
  `int()` it relies on (`ParseInt`). `int()` turns a bool into 0 or 1, keeps an
  int and parses a str. Parsing skips white space at both ends: the six ASCII
  white space characters and the non-ASCII ones `str.isspace()` accepts, but
  not the separators U+001C to U+001F. It accepts one optional sign and ASCII
  digits with single underscores between digits, and enforces CPython's
  4300-digit limit. A list or a dict makes `int()` raise
  `TypeError`, and `_to_int` then gives None. `IntToString` models Python's
  `str(int)` and is the partner for the round-trip lemma.
- `brightdata.py`'s own logic lives in `brightdata.dfy` (module `BrightData`):
  - settings, `BrightDataError` with its two messages, and the request;
  - `BuildRequest`, `Project`, `Normalize` and `FetchProfile`;
  - one lemma per profile field.
- `wrappers.dfy`: the `Option` type.

`FetchProfile` takes the provider as a function from the built `Request` to the
decoded JSON reply. The HTTP exchange is therefore a parameter, and the result
for unconfigured settings cannot depend on it.

The profile fields hold the values the code passes to `InstagramProfile(...)`.
Pydantic validation of those values is not modelled.

The definitions that model the Python behaviour the code relies on have no
contract of their own and so no row in the table below. They are stated by
the lemmas about them: `Json.Truthy` (`bool(v)`), `Json.Or` (`a or b`),
`Json.Get` and `Json.GetOr` (`dict.get`), `PyInt.ParseInt` (`int()` on a str,
app/services/brightdata.py:85), `PyInt.Strip` (the white space `int()` skips)
and `BrightData.Configured` (the condition at app/services/brightdata.py:25).

Two consequences of the code that are easy to miss:

- When no alias is truthy, an `or` chain yields its last operand. So
  `full_name` is `""` when `name` is `""`, and None only when `name` is absent
  or None (`FullNameResolution`).
- Integer fields go through `int(value)`, not through a float, so `"42.0"`
  gives None, not 42 (`ToIntRejectsDecimalPoint`).

## Model

| member | source | states |
|---|---|---|
| Json.OrChain | app/services/brightdata.py:58-63 | an `or` chain yields one of its operands unchanged, and the result is truthy exactly when some operand is truthy |
| Json.OrChainFirstTruthy | app/services/brightdata.py:58-62 | an `or` chain yields its first truthy operand, whatever follows it |
| Json.OrChainAllFalsy | app/services/brightdata.py:67 | when no operand is truthy, the chain yields its last operand, falsy as it is |
| Json.OrChainLeftNested | app/services/brightdata.py:67 | Python's left-nested reading `(a or b) or c` gives the same value as the right-nested chain, for every length |
| BrightData.BuildRequest | app/services/brightdata.py:25-42 | fails with the "not configured" BrightDataError exactly when the token or the dataset id is None or empty; otherwise the body asks for exactly the requested user name in a one-element `input` batch, the URL carries exactly the dataset id between the endpoint prefix and the fixed query, `Authorization` is `Bearer ` plus exactly the token, and `Content-Type` is `application/json` |
| BrightData.Normalize | app/services/brightdata.py:53-56 | rejects with the "empty or invalid response" BrightDataError exactly when the reply is not a list or is an empty list; otherwise `raw` is the reply's first element |
| BrightData.Project | app/services/brightdata.py:65-76 | the profile's `raw` is the selected record, unmodified |
| BrightData.FetchProfile | app/services/brightdata.py:25-56 | unconfigured settings give the "not configured" error whatever the provider would answer; configured settings give the normalisation of the provider's answer to the built request |
| BrightData.LaterElementsIgnored | app/services/brightdata.py:56 | only the first element of the reply affects the result; later elements are ignored |
| BrightData.UsernameResolution | app/services/brightdata.py:58-62 | `username` is `account` if truthy, else `username` if truthy, else the requested name; a non-empty request always gives a truthy username |
| BrightData.TwoAliases | app/services/brightdata.py:63 | a two-alias chain `rec.get(k0) or rec.get(k1)` yields the first value if truthy, else the second |
| BrightData.FullNameResolution | app/services/brightdata.py:67 | `full_name` is the first truthy of `profile_name`, `full_name`, `name`; otherwise it is the value of `name`, which is None when all three keys are absent |
| BrightData.BioAndUrlResolution | app/services/brightdata.py:63-68 | `bio` prefers `bio` over `biography`; `profile_url` prefers `profile_url` over `url` |
| BrightData.PostsCountResolution | app/services/brightdata.py:71 | `posts_count` is converted from `posts_count` only when that value is truthy, so a stored 0 falls through to `posts` |
| BrightData.FlagResolution | app/services/brightdata.py:72-73 | `is_verified` is the stored value, or False when the key is absent; `is_business` is `is_business_account` (default False) when that is truthy, otherwise `is_professional_account` (default False) as it is, e.g. None for a stored null; so it is truthy exactly when either flag is, and False when both keys are absent |
| BrightData.CountsFromDecimalStrings | app/services/brightdata.py:69-70 | `followers` and `following` sent as Python's decimal string of n are read as n |
| BrightData.AliceProjection | app/services/brightdata.py:58-69 | the record `{"account": "alice", "followers": "100"}` gives username "alice" and 100 followers |
| BrightData.AliceExample | app/services/brightdata.py:53-76 | the reply `[{"account": "alice", "followers": "100"}]` gives username "alice", 100 followers and that record as `raw` |
| PyInt.ToInt | app/services/brightdata.py:81-87 | `_to_int` is total: an int gives itself, and only a bool, an int or a str can give a number |
| PyInt.ParseIntRoundTrip | app/services/brightdata.py:85 | `_to_int(str(n)) == n` for every int within CPython's digit limit |
| PyInt.ParseIntSignedDigits | app/services/brightdata.py:85 | an optionally signed string of ASCII digits (leading zeros allowed) gives its decimal value, negated after "-" |
| PyInt.ParseIntIgnoresSurroundingSpace | app/services/brightdata.py:85 | white space that `int()` skips (ASCII white space and non-ASCII `str.isspace()` characters) around a string does not change what `int()` gives |
| PyInt.ParseIntOnlyNumerals | app/services/brightdata.py:85-87 | a string `int()` accepts is white space, an optional sign, a digit run within the digit limit, then white space; its value is that of the stripped middle, so a misplaced sign or underscore gives None |
| PyInt.ToIntUnderscoreExample | app/services/brightdata.py:85 | `_to_int("1_000") == 1000` |
| PyInt.ToIntDoubleUnderscoreExample | app/services/brightdata.py:85-87 | `_to_int("1__0")` is None |
| PyInt.ToIntKeepsAsciiSeparators | app/services/brightdata.py:85-87 | `_to_int("\x1c42")` is None, because `int()` does not skip U+001C although `str.isspace()` accepts it |
| PyInt.StripBounds | app/services/brightdata.py:85 | the stripped string is a contiguous stretch of the input with only white space outside it, and neither of its ends is white space |
| PyInt.ParseIntRejectsForeignChar | app/services/brightdata.py:85-87 | any character that is not white space, a digit, a sign or an underscore makes `_to_int` give None |
| PyInt.ParseIntNeedsDigit | app/services/brightdata.py:85-87 | a string without a digit makes `_to_int` give None |
| PyInt.ToIntDecimalExamples | app/services/brightdata.py:85 | `_to_int("42") == 42` and `_to_int("100") == 100` |
| PyInt.ToIntRejectsDecimalPoint | app/services/brightdata.py:85-87 | `_to_int("42.0")` is None |
| PyInt.ToIntRejectsNonNumeric | app/services/brightdata.py:85-87 | `_to_int("abc")` and `_to_int("")` are None |
| PyInt.ToIntNonStringExamples | app/services/brightdata.py:82-87 | None gives None, True gives 1, False gives 0, and a list or a dict gives None |

## Left out

- The HTTP POST, `raise_for_status` and `resp.json()` (app/services/brightdata.py:44-51) are network I/O. The decoded reply is the result of the `provider` parameter, so an HTTP error status, and the BrightDataError it causes, is not modelled.
- A first reply element that is not a dict makes `.get` raise AttributeError, not BrightDataError. `Normalize` and `FetchProfile` require the first element to be an object instead.
- Pydantic validation and coercion in `InstagramProfile(...)` (app/models/instagram.py:5-15) is foreign library code. For example, it rejects a non-string username and turns "yes" into True for a bool field. The model keeps the values as they are passed in.
- JSON numbers with a fraction or an exponent are not part of the `Json` type. Python would decode them to floats, whose truthiness and `int()` truncation are not modelled.
- PyInt.ParseInt accepts only ASCII digits. Python's `int()` also accepts other Unicode decimal digits, such as Arabic-Indic digits.
- PyInt.ParseInt enforces the 4300-digit limit of CPython 3.11 and later. On older Pythons such strings would parse.
- Settings loading (app/core/config.py), the FastAPI route (app/api/routes/instagram.py), the app setup (app/main.py) and the LLM agent (app/agents/instagram_analyzer.py) are not part of this model. The two settings are plain optional-string inputs.
