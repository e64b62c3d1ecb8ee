# Privacy-cash gateway: request handling model

A Dafny model of the request-handling logic of the gateway's Express server
(`src/server.ts`). The server takes custodial-wallet operations over HTTP,
which are transfer, deposit, withdraw and balance. For each one it fetches
the wallet's private key from the Privy custody service and runs the
operation through the PrivacyCash privacy pool on Solana.

The model is a pure function, `Handlers.Handle(cfg, req, oracles)`. It maps
the configuration, the parsed request and the outcomes of the external
collaborators to an `Exchange`: the HTTP response (status and JSON body)
together with the ordered trace of the collaborator calls the request made.
The collaborators are the `PublicKey` parse of the recipient, the Privy
export, the PrivacyCash constructor, and the pool's deposit, withdraw and
balance operations. Each is called at most once per request, so its outcome
(a returned value or a thrown value) is supplied as data in `Oracles`.

Modules:

- `Js`: JSON values, `undefined`, JavaScript truthiness, thrown values, and the
  `catch` message rule (`error.message`, or `'Unexpected error'` for a
  non-`Error` throw).
- `Env`: the configuration, read once from the environment.
- `Token`: `parseTokenSymbol` and the upper-casing it relies on.
- `Lamports`: `toLamports` and BigNumber's ROUND_HALF_UP rounding.
- `Http`: routes, headers, requests, response bodies and their exact strings.
- `Collaborators`: the call trace, the oracles and the USDC mint.
- `Auth`: `requireApiKey`.
- `Privy`: `exportPrivyWallet`.
- `Handlers`: the validation ladder, the call sequence after it, and the
  dispatcher.
- `Properties`, `Scenarios`: whole-request properties and the repository's
  test cases.

Three facts about the code shape the model:

- The wallet export, including any decryption of a key envelope, happens
  inside the Privy SDK. The server only checks that a non-empty key came
  back, so no decryption logic is modelled.
- On `/transfer`, a withdraw that throws after a successful deposit gives a
  plain 500 `{error}` and drops the deposit result
  (`Properties.WithdrawFailureHidesDeposit`).
- A SOL amount that rounds to 0 lamports is refused only after the wallet
  export and the client construction (`Properties.SubLamportSolAmount`).

Two more behaviours of the code are worth knowing:

- A truthy `token` that is not a string (a number, `true`, an array or an
  object) makes `raw.toUpperCase()` throw a TypeError. That happens before the
  missing-field check, so the request gets a 500 with V8's message, not the 400
  (`Scenarios.NumericTokenThrows`).
- Header values are modelled as `requireApiKey` receives them. `Auth.EmptyBearerRefused`
  shows that the value `'Bearer '` (an empty bearer token) is refused whatever
  `x-api-key` holds. Over HTTP, Node trims trailing whitespace from header
  values, so such a header arrives as `'Bearer'`. That does not start with
  `'Bearer '`, so the gate falls back to `x-api-key`. The empty-token case
  therefore only arises for a caller that invokes the middleware directly.

## Model

| member | source | states |
|---|---|---|
| `Js.Truthy` | src/server.ts:32 | a possibly-undefined value is truthy exactly when it is present and is not one of null, false, 0, NaN and "" (the `!x` tests also at lines 47, 54, 62, 72, 101) |
| `Properties.LastThrowIsReported` | src/server.ts:157-159 | when the last collaborator call a request made threw (the recipient parse, the export including its no-key error, the constructor or a pool operation), the response is 500 with the thrown Error's own message, or 'Unexpected error' for any other thrown value (the same catch at lines 214-216, 277-279, 316-318) |
| `Env.SetIsTruthy` | src/server.ts:47 | a configuration value counts as set exactly when its JavaScript value is truthy, so an empty string is unset (the same tests at lines 21, 62, 107) |
| `Env.PrivyClientBuilt` | src/server.ts:21-26 | the Privy client exists exactly when PRIVY_APP_ID and PRIVY_APP_SECRET are both truthy as JavaScript strings |
| `Env.PrivyExportConfigured` | src/server.ts:62 | export is possible exactly when PRIVY_APP_ID, PRIVY_APP_SECRET and PRIVY_AUTHORIZATION_KEY are all truthy |
| `Http.FieldsRequiredListsFields` | src/server.ts:104 | each POST route's missing-fields message lists walletId, then amount if the route reads one, then recipient if it reads one, then the token with its two spellings (also lines 176, 234, 293) |
| `Token.Upper` | src/server.ts:33 | upper-casing keeps the length and maps each character by the single-character upper-case rule |
| `Token.UpperIdempotent` | src/server.ts:33 | upper-casing twice equals upper-casing once |
| `Token.ParseTokenSymbol` | src/server.ts:31-38 | the result is symbol t exactly when the input is present and its upper case is t's spelling; absent, empty and every other string give null |
| `Token.ParseName` | src/server.ts:31-38 | parsing a symbol's own spelling gives that symbol |
| `Token.ParseIdempotent` | src/server.ts:31-38 | re-parsing the spelling of any parse result gives the same result |
| `Token.ParseSpellings` | src/server.ts:31-38 | without reference to upper-casing: SOL is accepted exactly for the spellings s/S/long-s, o/O, l/L, USDC exactly for u/U, s/S/long-s, d/D, c/C, and nothing else is accepted |
| `Token.TokenOf` | src/server.ts:31-33 | a falsy token field gives no symbol, a string is parsed, and any other truthy value throws a TypeError (the only throwing case) |
| `Lamports.RoundHalfUp` | src/server.ts:43 | the result is within one half of the input, with ties going away from zero |
| `Lamports.RoundHalfUpUnique` | src/server.ts:43 | any integer within those bounds is the rounded value, so the bounds define ROUND_HALF_UP |
| `Lamports.ToLamports` | src/server.ts:40-44 | for a non-negative amount, lamports are within half a lamport of amount x 10^9, never negative, and positive exactly when amount x 10^9 >= 1/2 |
| `Lamports.ToLamportsExact` | src/server.ts:40-44 | an amount with at most nine decimals converts exactly |
| `Lamports.ToLamportsMonotone` | src/server.ts:40-44 | a larger amount never converts to fewer lamports |
| `Lamports.OneAndAHalfSol` | src/server.ts:40-44 | 1.5 SOL is 1 500 000 000 lamports |
| `Lamports.BelowHalfLamport` | src/server.ts:126-130 | a positive amount below 5e-10 SOL converts to 0 lamports, which the handlers reject |
| `Auth.PresentedToken` | src/server.ts:51-52 | with a "Bearer " authorization header, the header is "Bearer " followed by the token; otherwise the token is the x-api-key header |
| `Auth.BearerRoundTrip` | src/server.ts:52 | any key sent as "Bearer " + key is presented as exactly that key |
| `Auth.RequireApiKey` | src/server.ts:46-59 | an unset API key gives 500 'API key not configured'; with a key set, the request passes exactly when the presented token equals it, and otherwise gets 401 'Unauthorized' |
| `Auth.EmptyBearerRefused` | src/server.ts:51-56 | an empty bearer token is refused with 401 even when x-api-key is correct |
| `Privy.ExportPrivyWallet` | src/server.ts:61-77 | without the Privy client or authorization key: throws 'Privy export not configured' and makes no SDK call; otherwise one SDK call; an SDK throw propagates; an empty key throws 'Privy export returned no private key'; a key is returned exactly when the SDK returned a non-empty one |
| `Handlers.Validate` | src/server.ts:99-113 | the ladder shared by all POST routes (also lines 171-185, 229-243, 290-298): a token throw gives 500 with its message; then missing fields or an unknown token give 400 with the route's message; then an unset RPC URL gives 500; then a non-finite or non-positive amount gives 400 'amount must be > 0'; acceptance holds exactly when all checks pass, and carries the request's fields |
| `Handlers.Operate` | src/server.ts:124-156 | the pool calls are a prefix of the route's operations (deposit before withdraw on /transfer); 200 exactly when the rounded SOL amount is positive and every operation returns, with the pool results as the body; a SOL amount below one lamport gives 400 'amount must be > 0' before any pool call, and a 400 arises only that way; a throwing balance, deposit or withdraw gives 500 with its own message, with that operation as the last call; the withdraw of a transfer is reached only after the deposit returned |
| `Handlers.BuildClient` | src/server.ts:119-122 | the client is built first, from the RPC URL and the key; a constructor throw gives 500 with its message, and the construction is the only call; 200 exactly when the client is built and the operations succeed, with the whole sequence made |
| `Handlers.Connect` | src/server.ts:117-122 | the calls are a prefix of export, client, operations; 200 exactly when the key was exported, the client built and the operations succeeded; any call after the export implies the export yielded a key; after an export that yields a key, a constructor throw ends with 500 and its message after export and construction, and a built client makes the export and construction followed by exactly what the pool stage does |
| `Handlers.Execute` | src/server.ts:115-160 | the calls made are a prefix of the route's plan (recipient parse, export, client, then deposit before withdraw); the status is 200 exactly when every step succeeds, and then the whole plan ran and the body carries the pool results; every other response is an error body; a 400 only comes from a SOL amount that rounds to zero lamports, after export and client construction but before any pool operation; an invalid recipient gives 500 with the parse error after the parse call alone; a constructor throw after a good recipient and export gives 500 with its message and ends the calls at the construction; once connected, the response and the remaining calls are the pool stage's |
| `Handlers.Handle` | src/server.ts:79-90 | /health is always 200 {status:'ok'} and / is the app info, with no calls; with no API key every POST route is 500 'API key not configured' with no calls; a wrong token is 401 with no calls; a request that validation rejects gets exactly that rejection with no calls, and an accepted one runs its route; any call at all implies the gate and validation passed and follows the route's plan |
| `Properties.TraceFollowsPlan` | src/server.ts:115-150 | every call a request makes equals the call at the same position of its route's plan, and calls happen only after the gate and validation |
| `Properties.PlanShape` | src/server.ts:115-150 | in a plan the recipient parse comes first, the export and client construction precede every pool operation, /transfer ends with deposit then withdraw, /deposit never withdraws, /withdraw never deposits and /balance does neither |
| `Properties.WithdrawOnlyAfterDeposit` | src/server.ts:132-150 | on /transfer every withdraw call comes right after a deposit call, and only when the deposit returned |
| `Properties.DepositFailureSkipsWithdraw` | src/server.ts:132-160 | on /transfer a throwing deposit means no withdraw call and a 500 carrying the deposit's message |
| `Properties.WithdrawFailureHidesDeposit` | src/server.ts:141-160 | on /transfer a withdraw that throws after a successful deposit gives 500 with the withdraw's message and no deposit result |
| `Properties.InvalidRecipientSkipsExport` | src/server.ts:115-159 | on /transfer and /withdraw, once the gate and validation pass, an invalid recipient ends the request after the parse call alone, with a 500 carrying the parse error |
| `Properties.ExportPrecedesPoolOperations` | src/server.ts:115-122 | the recipient parse is the first call, and every client construction or pool operation is preceded by a wallet export |
| `Properties.ExportFailureEndsRequest` | src/server.ts:61-77 | once validated, a request whose export yields no key ends with 500: 'Privy export not configured' (and no SDK call) without the Privy client or authorization key, the SDK's message when the SDK throws, 'Privy export returned no private key' when it returns none; the trace ends with the export, so no client or pool call follows |
| `Properties.ClientThrowEndsRequest` | src/server.ts:119-122 | after a good recipient and an export that yields a key, a throwing PrivacyCash constructor gives 500 with its message, and the calls end with the export and the construction from the configured RPC URL and the exported key |
| `Properties.PoolThrowIsReported` | src/server.ts:132-159 | once connected, with a SOL amount of at least one lamport, a throwing balance, deposit or withdraw gives 500 with that operation's own message, and the calls are the route's plan up to and including the one that threw (also lines 200-216, 262-279, 307-318) |
| `Properties.TokenRouting` | src/server.ts:124-150 | every pool operation is the one the token selects: for SOL, lamport operations with the converted amount; for USDC, SPL operations with the raw amount and the USDC mint; a withdraw of either kind pays the address the recipient parse returned (also lines 200-207, 254-271, 307-310) |
| `Properties.WithdrawPaysRecipient` | src/server.ts:124-150 | every withdraw a request makes follows a successful parse of its own recipient field, and pays exactly the address that parse returned (also lines 254-271) |
| `Properties.ClientUsesExportedKey` | src/server.ts:117-122 | a client is built only from the configured RPC URL and the non-empty key the export returned |
| `Properties.SubLamportSolAmount` | src/server.ts:124-130 | a positive SOL amount below half a lamport gets 400 'amount must be > 0' after the wallet was exported, with no pool operation |
| `Scenarios.HealthIsOk` | tests/server.test.ts:11-16 | GET /health is 200 {status:'ok'} whatever the configuration |
| `Scenarios.TransferWithoutApiKey` | tests/server.test.ts:18-27 | POST /transfer without API_KEY is 500 'API key not configured' |
| `Scenarios.TestKeyAdmitted` | tests/server.test.ts:30-34 | the tests' key sent as "Bearer test-key" passes the gate when API_KEY is 'test-key' |
| `Scenarios.TransferMissingFields` | tests/server.test.ts:29-41 | POST /transfer without walletId gets 400 with its exact message and makes no calls, whether or not the RPC URL is set |
| `Scenarios.DepositMissingFields` | tests/server.test.ts:43-55 | POST /deposit with only an amount gets 400 with its exact message and makes no calls |
| `Scenarios.WithdrawMissingFields` | tests/server.test.ts:57-69 | POST /withdraw without recipient and token gets 400 with its exact message and makes no calls |
| `Scenarios.BalanceMissingFields` | tests/server.test.ts:71-83 | POST /balance without token gets 400 with its exact message and makes no calls |
| `Scenarios.DepositOneAndAHalfSol` | src/server.ts:187-213 | a 1.5 'sol' deposit exports the wallet, builds the client and deposits 1 500 000 000 lamports, then returns the pool's result |
| `Scenarios.LowerCaseSolParses` | src/server.ts:31-38 | the token field "sol" parses to SOL |
| `Scenarios.DepositRunsOneAndAHalfSol` | src/server.ts:187-213 | after validation, a 1.5 SOL deposit makes the export, client and 1 500 000 000-lamport deposit calls, in that order, and returns the pool's result |
| `Scenarios.NumericTokenThrows` | src/server.ts:31-33 | a numeric token makes /balance answer 500 with the TypeError message |

## Left out

- Express plumbing is not modelled: middleware chaining, `dotenv`, reading
  `process.env` and `app.listen`. The configuration is an immutable record.
- JSON body parsing is not modelled. Malformed JSON is answered by the body
  parser before any handler runs. An array body (which `express.json()`
  accepts in its default strict mode), or a request that is not JSON at all
  when the parser leaves an empty object, reaches the handler with every
  field `undefined`. That is the empty body map, which the model covers.
  A parser that leaves `req.body` undefined makes the destructuring throw a
  TypeError, and that case is not modelled. Unknown routes get Express's 404.
- The `PublicKey` constructor is an oracle outcome, not a model of base58
  parsing. `toBase58` is taken to be the address string the oracle returns.
- The Privy SDK export is an oracle: a key (empty for none) or a throw. This
  includes any envelope decryption it performs.
- The Privy export's `authorization_context` is always the configured
  PRIVY_AUTHORIZATION_KEY, so the recorded export call carries only the
  wallet id.
- The PrivacyCash constructor and its deposit, withdraw and balance
  operations are oracles, and so is the Solana RPC behind them.
- Async execution and concurrency between requests are not modelled. Each
  request is sequential and shares no mutable state.
- Lamports.ToLamports: the amount is an exact real number, so IEEE-754
  doubles, BigNumber's conversion from a double, and the loss of precision
  in `toNumber()` above 2^53 lamports are not modelled.
- Token.Upper maps only 'a' to 'z', long s and dotless i, and keeps the
  length. JavaScript's `toUpperCase` has other mappings, some of them
  multi-character ("ß" to "SS", "ﬆ" to "ST"). None of them yields "SOL" or
  "USDC", and the only single characters whose upper case is S, O, L, U, D or
  C are the ones modelled, so the token parse is exact.
- `scripts/generate-privy-hpke-keys.js` only generates and prints a key pair,
  so it is not modelled.
