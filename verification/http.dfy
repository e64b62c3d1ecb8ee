/** The HTTP surface: routes, the headers the gate reads, the parsed request,
    and the JSON responses with their exact strings. */
module Http {
  import opened Js

  /** The routes the application defines. */
  datatype Endpoint =
    | Root       // GET /
    | Health     // GET /health
    | Transfer   // POST /transfer
    | Deposit    // POST /deposit
    | Withdraw   // POST /withdraw
    | Balance    // POST /balance

  /** The POST routes sit behind the API-key gate. */
  predicate Protected(e: Endpoint) {
    e.Transfer? || e.Deposit? || e.Withdraw? || e.Balance?
  }

  /** `/transfer` and `/withdraw` read a recipient. */
  predicate NeedsRecipient(e: Endpoint) {
    e.Transfer? || e.Withdraw?
  }

  /** Every POST route except `/balance` reads an amount. */
  predicate NeedsAmount(e: Endpoint) {
    e.Transfer? || e.Deposit? || e.Withdraw?
  }

  datatype Headers = Headers(authorization: Option<string>, xApiKey: Option<string>)

  /** A request after JSON body parsing; the body is the parsed object. */
  datatype Request = Request(endpoint: Endpoint, headers: Headers, body: map<string, Json>)

  /** Destructuring a field out of the body: `undefined` when absent. */
  function Field(req: Request, name: string): Option<Json> {
    if name in req.body then Some(req.body[name]) else None
  }

  /** The JSON bodies the application sends. */
  datatype Body =
    | ErrorBody(error: string)                   // {error}
    | AppInfo(name: string)                      // {name, status: 'ok'}
    | StatusOk                                   // {status: 'ok'}
    | DepositOk(deposit: Json)                   // {status: 'ok', deposit}
    | WithdrawOk(withdraw: Json)                 // {status: 'ok', withdraw}
    | TransferOk(deposit: Json, withdraw: Json)  // {status: 'ok', deposit, withdraw}
    | BalanceOk(balance: Json)                   // {status: 'ok', balance}

  datatype Response = Response(status: int, body: Body)

  function Error(status: int, message: string): Response {
    Response(status, ErrorBody(message))
  }

  function Ok(body: Body): Response {
    Response(200, body)
  }

  const AppName: string := "express-typescript-app"
  const ApiKeyNotConfigured: string := "API key not configured"
  const Unauthorized: string := "Unauthorized"
  const RpcNotConfigured: string := "SOLANA_RPC_URL not configured"
  const AmountNotPositive: string := "amount must be > 0"

  /** The 400 message each POST route gives for missing fields. */
  function FieldsRequired(e: Endpoint): string {
    match e
    case Transfer => "walletId, amount, recipient, token ('SOL' | 'USDC') required"
    case Withdraw => "walletId, amount, recipient, token ('SOL' | 'USDC') required"
    case Deposit => "walletId, amount, token ('SOL' | 'USDC') required"
    case _ => "walletId, token ('SOL' | 'USDC') required"
  }

  const FieldsTail: string := "token ('SOL' | 'USDC') required"

  /** Each POST route's missing-fields message lists exactly the fields that
      route reads, in the order walletId, amount, recipient, token. */
  lemma FieldsRequiredListsFields(e: Endpoint)
    requires Protected(e)
    ensures FieldsRequired(e) == "walletId, " + (if NeedsAmount(e) then "amount, " else "")
                                 + (if NeedsRecipient(e) then "recipient, " else "") + FieldsTail
  {
    match e
    case Transfer => RecipientFields(); RecipientMessage();
    case Withdraw => RecipientFields(); RecipientMessage();
    case Deposit => DepositMessage();
    case Balance => BalanceMessage();
  }

  // The lemmas below only split the equality of string literals into steps
  // the solver can take one at a time; they state nothing beyond the messages.

  lemma RecipientFields()
    ensures "walletId, amount, recipient, " == "walletId, " + "amount, " + "recipient, "
  {
  }

  lemma RecipientMessage()
    ensures FieldsRequired(Transfer) == "walletId, amount, recipient, " + FieldsTail
  {
    RecipientLiteral();
  }

  lemma RecipientLiteral()
    ensures "walletId, amount, recipient, token ('SOL' | 'USDC') required" == "walletId, amount, recipient, " + "token ('SOL' | 'USDC') required"
  {
  }

  lemma DepositMessage()
    ensures FieldsRequired(Deposit) == "walletId, " + "amount, " + FieldsTail
  {
    DepositLiteral();
  }

  lemma DepositLiteral()
    ensures "walletId, amount, token ('SOL' | 'USDC') required" == "walletId, " + "amount, " + "token ('SOL' | 'USDC') required"
  {
  }

  lemma BalanceMessage()
    ensures FieldsRequired(Balance) == "walletId, " + FieldsTail
  {
    BalanceLiteral();
  }

  lemma BalanceLiteral()
    ensures "walletId, token ('SOL' | 'USDC') required" == "walletId, " + "token ('SOL' | 'USDC') required"
  {
  }
}
