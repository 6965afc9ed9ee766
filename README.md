# Proof-of-work gate of the company-facts API, in Dafny

This project models the proof-of-work (PoW) gate of a small company-facts
data API, and the pure helpers around it.

- **Issuing a challenge.** `GET /challenge` builds the text `"datafeed" + str(int(time.time()))`. Its id is the SHA-256 hex digest of that text. The id maps to the text in a Redis store for 60 seconds. The reply holds the id, the text and difficulty 4.
- **Solving it.** The client searches nonces 0, 1, 2, … for the first whose digest of `challenge + str(nonce)` starts with `difficulty` zeros.
- **Verifying it.** `POST /data` runs a fixed decision ladder: request shape, stored text, digest prefix at the difficulty the client submitted. Then it scans the data directory for records whose `entityName` equals the requested name.
- **Envelopes.** `EntityFactory` builds the response envelopes.

Modules, one per component:

| file | module | models |
|---|---|---|
| wrappers.dfy | `Wrappers` | Option and Result |
| pyjson.dfy | `PyJson` | decoded JSON values; `d.get`, truthiness, `in`, `len` |
| decimal.dfy | `Decimal` | `str()` of an int, `int()` of a float, and their inverses |
| pow.dfy | `Pow` | `"0" * d`, `startswith`, what a solution and the first solution are |
| entities.dfy | `Entities` | `server/entities.py` |
| store.dfy | `Store` | the Redis store as a class over a map with expiry times |
| datasource.dfy | `Datasource` | the directory scan inside `verify_pow` |
| server.dfy | `Server` | `get_challenge` and `verify_pow` in `server/app.py` |
| client.dfy | `Client` | `get_challenge`, `solve_pow`, `fetch_data` and the unit count of `main` in `client/api_client.py` |
| protocol.dfy | `Protocol` | properties joining client and server |

Inputs the model takes as parameters:

- the SHA-256 hex digest, as `digest: string -> string`, never interpreted;
- the clock, as `now: real` seconds;
- the directory listing, as `Option<seq<DataFile>>`. Each file carries what `json.load` made of it and the rows the CSV reader delivered, with string keys only;
- the ISO timestamps of the built matches, as `stamp: nat -> string`. The k-th match reads `stamp(k)`.

Behaviours of the code that the model keeps, although a stricter protocol would change them:

- The difficulty is not stored. The verifier enforces the difficulty the client submits, so a difficulty of 0 or less lets any nonce through.
- A verified challenge is not deleted. It can be replayed until its entry expires.
- Two challenges issued in the same second are identical, ids included. Only challenges issued in different seconds differ.
- A submitted difficulty outside [-2^63, 2^63-1] makes `"0" * difficulty` raise OverflowError. This happens outside the `try` of the lookup, so the handler answers 500, not 400.
- A store exception is not turned into a rejection. An un-encodable `challenge_id` makes the store client raise, and the handler lets that escape as a 500.

## Model

| member | source | states |
|---|---|---|
| `PyJson.GetIffKey` | server/app.py:67-71 | `d.get(key)` finds a value exactly when key is one of the dict's keys, so a missing field reads as None |
| `PyJson.Contains` | client/api_client.py:41 | `k in d` is key membership for a dict; `in` is defined for dicts, lists and strings and raises TypeError on anything else |
| `Decimal.NatToString` | server/app.py:52 | `str(n)` is a non-empty string of digits that starts with '0' only for 0 |
| `Decimal.IntToString` | server/app.py:52 | `str(i)` starts with '-' exactly when i < 0 and is the plain numeral otherwise |
| `Decimal.ParseIntToString` | server/app.py:52 | reading `str(i)` back as a decimal gives i, so no information is lost |
| `Decimal.IntToStringInjective` | server/app.py:52 | two ints print alike exactly when they are equal |
| `Decimal.Truncate` | server/app.py:52 | `int(x)` truncates toward zero: for x >= 0 the largest integer not above x, for x < 0 the smallest integer not below x |
| `Pow.ZeroPrefix` | client/api_client.py:51 | `"0" * k` raises OverflowError exactly when k lies outside the signed 64-bit index range [-2^63, 2^63-1]. Otherwise it is k zeros, and empty when k <= 0 |
| `Pow.LeadingZerosIff` | server/app.py:85-86 | `h.startswith("0" * d)` raises exactly when d is outside the index range. It is True exactly when d is inside that range and either d <= 0, or h has at least d characters and the first d are all '0' |
| `Pow.NoDifficultyAlwaysPasses` | server/app.py:86 | with d <= 0 every digest passes exactly when d >= -2^63; below that, building the prefix raises |
| `Pow.LeadingZerosMonotone` | client/api_client.py:51-55 | a digest that meets a difficulty meets every lower one inside the index range; for a lower one outside it, the test raises |
| `Pow.FirstSolutionUnique` | client/api_client.py:49-57 | at most one nonce is the first solution, so the search is deterministic |
| `Pow.NoDifficultyFirstSolutionIsZero` | client/api_client.py:50-56 | with a difficulty <= 0, nonce 0 is the first solution exactly when the difficulty is >= -2^63 |
| `Entities.CreateResponse` | server/entities.py:11-18 | the keys are exactly status, message, data, in that order; status and message pass through verbatim; data is the argument when truthy and `{}` otherwise (None, `{}`, any falsy value) |
| `Entities.CreateCompanyFacts` | server/entities.py:20-27 | the keys are exactly company_name, facts, timestamp; name and facts pass through verbatim; timestamp is the given clock reading |
| `Entities.CreateResponseWithCompanyFacts` | server/entities.py:29-32 | the data field is the company-facts record as built: it is never empty, so `data or {}` never replaces it |
| `Store.ChallengeStore.constructor` | server/app.py:28 | the connection sees whatever entries the shared, persistent database already holds |
| `Store.ChallengeStore.SetEx` | server/app.py:57 | `SETEX` maps the key to the value until now + ttl; no other key's reading changes |
| `Store.ChallengeStore.Get` | server/app.py:79 | `GET` answers the value last written under the key while now is before its expiry, and nothing otherwise |
| `Store.ChallengeStore.Delete` | tests/test_server.py:114 | `DELETE` removes the key and nothing else |
| `Datasource.SelectMembers` | server/app.py:97-115 | a record is among the selected ones exactly when it was scanned and its entityName equals the requested name |
| `Datasource.SelectShorter` | server/app.py:95-115 | the selection is never longer than the scan, and is the whole scan exactly when every record carries the name |
| `Datasource.MatchesCarryEntity` | server/app.py:103-115 | every match built carries the requested name as its company_name |
| `Datasource.ScanFile` | server/app.py:97-119 | one file: a `.json` dict gives one record, with its entityName and its facts (default `{}`); a `.csv` file gives one record per row, with the row as facts; other or unreadable files give none. Matching records are appended in order |
| `Datasource.CollectMatches` | server/app.py:95-119 | the matches are the company-facts records of exactly the scanned records whose entityName equals the requested name, in listing and row order, the k-th stamped with the k-th clock reading |
| `Server.ChallengePayload` | server/app.py:52 | the challenge starts with "datafeed", and the rest reads back as the truncated clock |
| `Server.SameSecondSameChallenge` | server/app.py:52-53 | two challenges are equal exactly when issued in the same whole second |
| `Server.GetChallenge` | server/app.py:47-59 | answers 200 with id = digest(challenge), the challenge and difficulty 4. The store afterwards maps that id to the challenge, expiring 60 s later. Every other key is untouched, and no difficulty is stored |
| `Server.VerifyPow` | server/app.py:62-139 | the ladder. A falsy id or challenge, or a nonce or difficulty that is not an int, gives 400 "Invalid request format." before any store read. An id the store client cannot encode escapes as an exception. An absent or expired id, or a stored text other than the challenge, gives 400 "Challenge expired or invalid" whatever the nonce. A submitted difficulty outside the index range makes the prefix build raise, outside the handler's `try`, so it escapes as an exception. A digest without the submitted difficulty's prefix gives 400 "Invalid PoW solution.". Past the gate, the lookup answer is returned. There is no modifies clause, so the store is unchanged on every outcome |
| `Server.LookupFindsExactlyNamedRecords` | server/app.py:89-131 | for a non-empty listing the answer is 200 or 404, and it is 200 exactly when some scanned record carries the requested name |
| `Server.ZeroNonceWellFormed` | server/app.py:73-76 | nonce 0 passes the format check, because the check is `isinstance`, not truthiness |
| `Server.StaleChallengeRejected` | server/app.py:78-82 | an id that is absent or expired, or whose stored text differs, never passes the gate, whatever the nonce |
| `Server.DeletedChallengeRejected` | server/app.py:78-82 | after the id's entry is deleted, no request with that id passes the gate |
| `Server.SubmittedDifficultyTrusted` | server/app.py:70-86 | with a live, matching challenge and a submitted difficulty <= 0, every nonce passes exactly when the difficulty is >= -2^63; below that, rung 3 raises |
| `Server.ReplayUntilExpiry` | server/app.py:78-86 | a request that passed the gate once passes it again at any time before its entry expires |
| `Client.CheckChallengeResponse` | client/api_client.py:40-44 | the reply is returned unchanged exactly when it holds challenge_id, challenge and difficulty. Otherwise "Malformed response: missing keys" is raised, or TypeError for a value `in` does not apply to |
| `Client.SolvePow` | client/api_client.py:49-57 | OverflowError is raised exactly when the difficulty is outside the index range. Otherwise the nonce returned solves the challenge, and every smaller non-negative nonce does not |
| `Client.FetchDataPayload` | client/api_client.py:60-67 | the body has exactly the keys challenge_id, challenge, nonce, difficulty, entity_name, each bound to its argument |
| `Client.SumOptNoneSticks` | client/api_client.py:104-107 | once one term of the count raises, the whole count raises |
| `Client.AddCategoryUnits` | client/api_client.py:105-107 | adds `len(units)` of every subcategory dict that has "units" to the running count, or raises TypeError |
| `Client.NumMatches` | client/api_client.py:99-109 | the count equals the sum of `len(units)` over all subcategories under `data["data"]["facts"]`. It is 0 when that path is absent, and it raises where Python would |
| `Protocol.IssuedChallengePassesClientCheck` | server/app.py:52-59 | the body `GET /challenge` returns passes the client's key check unchanged |
| `Protocol.PayloadDecodesToRequest` | server/app.py:66-71 | the server reads back exactly the five values `fetch_data` sent |
| `Protocol.LiveSolvedPassesGate` | server/app.py:73-86 | a live entry, its own text and a solving nonce pass all three rungs. A solving nonce exists only for a difficulty inside the index range |
| `Protocol.SolvedChallengePassesGate` | server/app.py:47-86 | a challenge issued, still unexpired, and answered with a nonce solving it at difficulty 4 passes the gate |
| `Protocol.ServerAnswerCountsNoUnits` | client/api_client.py:99-109 | on every 200 answer of the server, the client's count as written is 0 |
| `Protocol.EnvelopeUnits` | client/api_client.py:104-107 | counting over the built matches equals counting over the selected records' facts |
| `Protocol.CorrectedCountSumsMatches` | client/api_client.py:97-107 | on a 200 answer, the count read under `data["matches"]` is the sum of the units of every selected record's facts |
| `Protocol.OneFactCountedOnlyWhenCorrected` | client/api_client.py:99-109 | one matching company with one fact that has units: the count as written is 0, the corrected count is 1 |

## Findings

| source | as written | input that shows it | evidently intended | confidence | as-written member | corrected member |
|---|---|---|---|---|---|---|
| client/api_client.py:99-107 | the unit count reads `data["data"]["facts"]`, but the server puts its matches under `data["data"]["matches"]`, so the count is 0 on every 200 answer | a 200 answer with one match whose facts hold `dei → EntityCommonStockSharesOutstanding → units {"shares": []}` | count the units of the facts of every returned match (the comment at lines 97-98; the TODO at line 101) | medium, not executed | `Protocol.ServerAnswerCountsNoUnits` | `Protocol.CorrectedCountSumsMatches` |

`Client.NumMatches` models the count as written. `Client.CorrectedMatchCount` is the corrected reading.

## Left out

- HTTP routing, `request.json` decoding and `jsonify` are not modelled. Requests and replies are decoded JSON values. The health endpoint is trivial and is left out too.
- The order of keys in serialized replies is not modelled. The insertion order of the Python dicts the code builds is stated, but the order `jsonify` writes them in is not. For string keys, its key sorting changes only that order.
- The rate limiter (`flask_limiter`) is not modelled. It is an external collaborator with no visible logic.
- The Redis connection and its failures are not modelled. An unreachable store raising on `SETEX` or `GET` is outside the model. The store's encoding of keys is modelled only as far as the handler sees it: strings as they are, numbers by their repr, anything else raising.
- SHA-256 is a parameter. Properties that need real digest values are not stated, such as a concrete nonce for "datafeed12345".
- File listing, opening and JSON/CSV parsing are inputs, and logging is not modelled. Each file carries what its reader produced, with CSV rows keyed by strings only.
- `Datasource.ScanFile`: a CSV row longer than its header is not modelled. `csv.DictReader` files its extra fields under the key `None`, and a matching row then puts that key into the match. `jsonify` sorts keys, so comparing `None` with a string raises TypeError. The lookup's `try` catches it, and the source answers 500 "Failed to fetch data.". The model's rows carry string keys only, so it has no such input. Modelling it would need a key type mixing strings and `None`, and an exception from serialization.
- `Datasource.SelectMembers`: entityName equality is Dafny's structural equality on JSON values. Python's `True == 1`, `1 == 1.0` and dict equality that ignores key order are not modelled.
- JSON objects are assumed to carry each key once. `Get` finds the first binding.
- `len()` of a string counts Dafny characters, not Python code points.
- A float is carried as its Python repr. Its truthiness is read from that repr.
- `Pow.ZeroPrefix`: a count inside the index range but too large to allocate makes CPython raise MemoryError. The model treats every such repeat as succeeding, because the limit depends on the machine's memory.
- `Server.VerifyPow`: a submitted difficulty inside the index range but too large to allocate as a prefix raises MemoryError, and the handler answers 500. The model gives 400 "Invalid PoW solution." there instead, for the same reason.
- `Client.SolvePow`: a difficulty inside the index range but too large to allocate raises MemoryError. The model searches instead, for the same reason.
- `Client.SolvePow` requires that some nonce solves the challenge when the difficulty is inside the index range. The source loops forever when none does, and that non-termination is not modelled.
- The client's HTTP session, retries, the transport errors that `get_challenge` and `fetch_data` wrap in RuntimeError, the POST itself, signal handlers and printing are not modelled. `fetch_data` is modelled as the body it sends.
- `main` is modelled only for its unit count.
- `res/json_tools.py` (pandas transformations) and `client/load_data.py` (a file-loading script) are not part of this model.
- The stale test expectations are not taken as properties: `price`/`volume` fields the server never returns, and `fetch_data` called with five arguments.
