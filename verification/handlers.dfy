/** The route handlers: the validation ladder each POST route runs, the
    collaborator sequence that follows it, and the dispatcher that puts the
    API-key gate in front. */
module Handlers {
  import opened Js
  import opened Env
  import opened Token
  import opened Lamports
  import opened Http
  import opened Collaborators
  import opened Auth
  import opened Privy

  /** A request that passed validation: the fields its route reads, and the
      RPC URL found configured. `amount` and `recipient` are present exactly
      for the routes that read them. */
  datatype Order = Order(
    walletId: Json,
    token: Symbol,
    amount: Option<real>,
    recipient: Option<Json>,
    rpcUrl: string)

  predicate WellFormed(e: Endpoint, v: Order) {
    && Protected(e)
    && (v.amount.Some? <==> NeedsAmount(e))
    && (v.recipient.Some? <==> NeedsRecipient(e))
    && (v.amount.Some? ==> v.amount.value > 0.0)
  }

  datatype Checked = Accepted(order: Order) | Rejected(response: Response)

  /** What a request sends back, with every collaborator call it made, in order. */
  datatype Exchange = Exchange(response: Response, trace: seq<Call>)

  /** The required fields are present and the token names a known symbol. */
  predicate FieldsPresent(req: Request, token: Option<Symbol>) {
    var e := req.endpoint;
    && Truthy(Field(req, "walletId"))
    && (NeedsRecipient(e) ==> Truthy(Field(req, "recipient")))
    && (NeedsAmount(e) ==> IsNumber(Field(req, "amount")))
    && token.Some?
  }

  /** The checks every POST handler runs before calling anything, in order:
      parse the token (which throws on a non-string), missing fields (400),
      unset RPC URL (500), then an amount that is not finite and positive (400). */
  function Validate(cfg: Config, req: Request): (c: Checked)
    requires Protected(req.endpoint)
    ensures TokenOf(Field(req, "token")).Threw? ==>
              c == Rejected(Error(500, CaughtMessage(TokenOf(Field(req, "token")).thrown)))
    ensures TokenOf(Field(req, "token")).Returned? && !FieldsPresent(req, TokenOf(Field(req, "token")).value) ==>
              c == Rejected(Error(400, FieldsRequired(req.endpoint)))
    ensures TokenOf(Field(req, "token")).Returned? && FieldsPresent(req, TokenOf(Field(req, "token")).value)
            && !IsSet(cfg.solanaRpcUrl) ==>
              c == Rejected(Error(500, RpcNotConfigured))
    ensures c.Rejected? && c.response.status == 400 ==>
              c.response.body == ErrorBody(FieldsRequired(req.endpoint)) || c.response.body == ErrorBody(AmountNotPositive)
    ensures TokenOf(Field(req, "token")).Returned? && FieldsPresent(req, TokenOf(Field(req, "token")).value)
            && IsSet(cfg.solanaRpcUrl) && NeedsAmount(req.endpoint) && !IsPositiveFinite(Field(req, "amount")) ==>
              c == Rejected(Error(400, AmountNotPositive))
    ensures c.Rejected? && c.response == Error(400, AmountNotPositive) ==>
              NeedsAmount(req.endpoint) && IsSet(cfg.solanaRpcUrl) && !IsPositiveFinite(Field(req, "amount"))
    ensures c.Accepted? <==>
              && TokenOf(Field(req, "token")).Returned?
              && FieldsPresent(req, TokenOf(Field(req, "token")).value)
              && IsSet(cfg.solanaRpcUrl)
              && (NeedsAmount(req.endpoint) ==> IsPositiveFinite(Field(req, "amount")))
    ensures c.Accepted? ==>
              && WellFormed(req.endpoint, c.order)
              && Some(c.order.walletId) == Field(req, "walletId")
              && Some(c.order.token) == TokenOf(Field(req, "token")).value
              && Some(c.order.rpcUrl) == cfg.solanaRpcUrl
              && (c.order.recipient.Some? ==> c.order.recipient == Field(req, "recipient"))
              && (c.order.amount.Some? ==> Field(req, "amount") == Some(JNum(Finite(c.order.amount.value))))
  {
    var e := req.endpoint;
    var walletId := Field(req, "walletId");
    var amount := Field(req, "amount");
    var recipient := Field(req, "recipient");
    match TokenOf(Field(req, "token"))
    case Threw(thrown) => Rejected(Error(500, CaughtMessage(thrown)))
    case Returned(token) =>
      if !Truthy(walletId) || (NeedsRecipient(e) && !Truthy(recipient))
         || (NeedsAmount(e) && !IsNumber(amount)) || token.None? then
        Rejected(Error(400, FieldsRequired(e)))
      else if !IsSet(cfg.solanaRpcUrl) then
        Rejected(Error(500, RpcNotConfigured))
      else if NeedsAmount(e) && !IsPositiveFinite(amount) then
        Rejected(Error(400, AmountNotPositive))
      else
        Accepted(Order(
          walletId.value,
          token.value,
          if NeedsAmount(e) then Some(amount.value.n.value) else None,
          if NeedsRecipient(e) then Some(recipient.value) else None,
          cfg.solanaRpcUrl.value))
  }

  /** The deposit call for the order's token: lamports for SOL, the raw amount
      and the USDC mint for USDC. */
  function DepositCall(v: Order): Call
    requires v.amount.Some?
  {
    match v.token
    case SOL => DepositLamports(ToLamports(v.amount.value))
    case USDC => DepositSpl(v.amount.value, UsdcMint)
  }

  /** The withdraw call for the order's token, paying `address`. */
  function WithdrawCall(v: Order, address: string): Call
    requires v.amount.Some?
  {
    match v.token
    case SOL => WithdrawLamports(ToLamports(v.amount.value), address)
    case USDC => WithdrawSpl(v.amount.value, UsdcMint, address)
  }

  function BalanceCall(t: Symbol): Call {
    match t
    case SOL => GetBalance
    case USDC => GetBalanceSpl(UsdcMint)
  }

  function Failed(e: Thrown, trace: seq<Call>): Exchange {
    Exchange(Error(500, CaughtMessage(e)), trace)
  }

  /** The pool operations a route performs once it holds a client. */
  function Operations(e: Endpoint, v: Order, address: string): seq<Call>
    requires WellFormed(e, v)
  {
    match e
    case Balance => [BalanceCall(v.token)]
    case Deposit => [DepositCall(v)]
    case Withdraw => [WithdrawCall(v, address)]
    case Transfer => [DepositCall(v), WithdrawCall(v, address)]
  }

  function AddressOf(o: Oracles): string {
    if o.recipientKey.Returned? then o.recipientKey.value else ""
  }

  function KeyOf(o: Oracles): string {
    if o.privyExport.Returned? then o.privyExport.value else ""
  }

  /** The complete call sequence of a route: parse the recipient (if it has
      one), export the key, build the client, then the pool operations. Every
      run of the route makes a prefix of it. */
  function Plan(e: Endpoint, v: Order, o: Oracles): seq<Call>
    requires WellFormed(e, v)
  {
    (if v.recipient.Some? then [ParseRecipient(v.recipient.value)] else [])
    + [PrivyExport(v.walletId), NewClient(v.rpcUrl, KeyOf(o))]
    + Operations(e, v, AddressOf(o))
  }

  /** A SOL amount is at least one lamport after rounding (nothing to check
      for USDC or for /balance). */
  predicate AmountInLamports(e: Endpoint, v: Order)
    requires WellFormed(e, v)
  {
    NeedsAmount(e) && v.token == SOL ==> ToLamports(v.amount.value) > 0
  }

  /** The pool operations of a route all return normally, and a SOL amount
      is at least one lamport after rounding. */
  predicate OperationsSucceed(e: Endpoint, v: Order, o: Oracles)
    requires WellFormed(e, v)
  {
    && AmountInLamports(e, v)
    && (e.Transfer? || e.Deposit? ==> o.deposit.Returned?)
    && (e.Transfer? || e.Withdraw? ==> o.withdraw.Returned?)
    && (e.Balance? ==> o.balance.Returned?)
  }

  /** Every collaborator returns normally, the export yields a key, and the
      pool operations succeed. */
  predicate Succeeds(e: Endpoint, cfg: Config, v: Order, o: Oracles)
    requires WellFormed(e, v)
  {
    Connected(e, cfg, v, o) && OperationsSucceed(e, v, o)
  }

  /** Every step before the pool operations returned normally: the recipient
      parsed, the export yielded a key and the client was built. */
  predicate Connected(e: Endpoint, cfg: Config, v: Order, o: Oracles) {
    && (NeedsRecipient(e) ==> o.recipientKey.Returned?)
    && KeyExported(cfg, o)
    && o.client.Returned?
  }

  /** The body a successful run sends: the pool's own results. */
  function SuccessBody(e: Endpoint, o: Oracles): Body
    requires Protected(e)
    requires e.Transfer? || e.Deposit? ==> o.deposit.Returned?
    requires e.Transfer? || e.Withdraw? ==> o.withdraw.Returned?
    requires e.Balance? ==> o.balance.Returned?
  {
    match e
    case Transfer => TransferOk(o.deposit.value, o.withdraw.value)
    case Deposit => DepositOk(o.deposit.value)
    case Withdraw => WithdrawOk(o.withdraw.value)
    case Balance => BalanceOk(o.balance.value)
  }

  /** The exchange `x`, preceded by `calls` made before it. */
  function After(calls: seq<Call>, x: Exchange): Exchange {
    Exchange(x.response, calls + x.trace)
  }

  /** The pool operations of a route, once the client exists. */
  function Operate(e: Endpoint, v: Order, address: string, o: Oracles): (x: Exchange)
    requires WellFormed(e, v)
    ensures x.trace <= Operations(e, v, address)
    ensures x.response.status == 200 <==> OperationsSucceed(e, v, o)
    ensures OperationsSucceed(e, v, o) ==>
              x.trace == Operations(e, v, address) && x.response.body == SuccessBody(e, o)
    ensures x.response.status == 400 ==>
              && x == Exchange(Error(400, AmountNotPositive), [])
              && v.token == SOL && v.amount.Some? && ToLamports(v.amount.value) <= 0
    ensures !AmountInLamports(e, v) ==> x == Exchange(Error(400, AmountNotPositive), [])
    ensures e.Balance? && o.balance.Threw? ==> x == Failed(o.balance.thrown, [BalanceCall(v.token)])
    ensures AmountInLamports(e, v) && (e.Deposit? || e.Transfer?) && o.deposit.Threw? ==>
              x == Failed(o.deposit.thrown, [DepositCall(v)])
    ensures AmountInLamports(e, v) && e.Withdraw? && o.withdraw.Threw? ==>
              x == Failed(o.withdraw.thrown, [WithdrawCall(v, address)])
    ensures AmountInLamports(e, v) && e.Transfer? && o.deposit.Returned? && o.withdraw.Threw? ==>
              x == Failed(o.withdraw.thrown, Operations(e, v, address))
    ensures e.Transfer? && |x.trace| == 2 ==> o.deposit.Returned?
    ensures x.response.status != 200 ==> x.response.body.ErrorBody?
    ensures x.response.status == 500 || x.response.status == 400 || x.response.status == 200
  {
    if e.Balance? then
      var t := [BalanceCall(v.token)];
      match o.balance
      case Threw(thrown) => Failed(thrown, t)
      case Returned(b) => Exchange(Ok(BalanceOk(b)), t)
    else if v.token == SOL && ToLamports(v.amount.value) <= 0 then
      Exchange(Error(400, AmountNotPositive), [])
    else if e.Withdraw? then
      var t := [WithdrawCall(v, address)];
      match o.withdraw
      case Threw(thrown) => Failed(thrown, t)
      case Returned(w) => Exchange(Ok(WithdrawOk(w)), t)
    else
      var t := [DepositCall(v)];
      match o.deposit
      case Threw(thrown) => Failed(thrown, t)
      case Returned(d) =>
        if e.Deposit? then Exchange(Ok(DepositOk(d)), t)
        else
          var t := t + [WithdrawCall(v, address)];
          match o.withdraw
          case Threw(thrown) => Failed(thrown, t)
          case Returned(w) => Exchange(Ok(TransferOk(d, w)), t)
  }

  /** Builds the PrivacyCash client from the exported key, then operates. */
  function BuildClient(e: Endpoint, v: Order, key: string, address: string, o: Oracles): (x: Exchange)
    requires WellFormed(e, v)
    ensures x.trace <= [NewClient(v.rpcUrl, key)] + Operations(e, v, address)
    ensures x.response.status == 200 <==> o.client.Returned? && OperationsSucceed(e, v, o)
    ensures o.client.Returned? && OperationsSucceed(e, v, o) ==>
              x.trace == [NewClient(v.rpcUrl, key)] + Operations(e, v, address)
              && x.response.body == SuccessBody(e, o)
    ensures x.response.status == 400 ==>
              && x == Exchange(Error(400, AmountNotPositive), [NewClient(v.rpcUrl, key)])
              && o.client.Returned? && v.token == SOL && v.amount.Some? && ToLamports(v.amount.value) <= 0
    ensures o.client.Threw? ==> x == Failed(o.client.thrown, [NewClient(v.rpcUrl, key)])
    ensures e.Transfer? && |x.trace| == 3 ==> o.deposit.Returned?
    ensures x.response.status != 200 ==> x.response.body.ErrorBody?
    ensures x.response.status == 500 || x.response.status == 400 || x.response.status == 200
  {
    var t := [NewClient(v.rpcUrl, key)];
    match o.client
    case Threw(thrown) => Failed(thrown, t)
    case Returned(_) => After(t, Operate(e, v, address, o))
  }

  /** The export yielded a key. */
  predicate KeyExported(cfg: Config, o: Oracles) {
    PrivyExportConfigured(cfg) && o.privyExport.Returned? && o.privyExport.value != ""
  }

  /** The calls from the export up to the pool operations. */
  function Setup(v: Order, o: Oracles): seq<Call> {
    [PrivyExport(v.walletId), NewClient(v.rpcUrl, KeyOf(o))]
  }

  /** Exports the wallet's key, then builds the client and operates. */
  function Connect(e: Endpoint, cfg: Config, v: Order, address: string, o: Oracles): (x: Exchange)
    requires WellFormed(e, v)
    ensures x.trace <= Setup(v, o) + Operations(e, v, address)
    ensures x.response.status == 200 <==> KeyExported(cfg, o) && o.client.Returned? && OperationsSucceed(e, v, o)
    ensures KeyExported(cfg, o) && o.client.Returned? && OperationsSucceed(e, v, o) ==>
              x.trace == Setup(v, o) + Operations(e, v, address) && x.response.body == SuccessBody(e, o)
    ensures x.response.status == 400 ==>
              && x == Exchange(Error(400, AmountNotPositive), Setup(v, o))
              && KeyExported(cfg, o) && o.client.Returned?
              && v.token == SOL && v.amount.Some? && ToLamports(v.amount.value) <= 0
    ensures KeyExported(cfg, o) && o.client.Threw? ==> x == Failed(o.client.thrown, Setup(v, o))
    ensures KeyExported(cfg, o) && o.client.Returned? ==> x == After(Setup(v, o), Operate(e, v, address, o))
    ensures |x.trace| >= 2 ==> KeyExported(cfg, o)
    ensures e.Transfer? && |x.trace| == 4 ==> o.deposit.Returned?
    ensures x.response.status != 200 ==> x.response.body.ErrorBody?
    ensures x.response.status == 500 || x.response.status == 400 || x.response.status == 200
  {
    var exported := ExportPrivyWallet(cfg, v.walletId, o.privyExport);
    match exported.outcome
    case Threw(thrown) => Failed(thrown, exported.calls)
    case Returned(key) => After(exported.calls, BuildClient(e, v, key, address, o))
  }

  /** Everything a POST handler does after validation, up to its response.
      The calls made are always a prefix of the route's plan; the response is
      200 exactly when every step succeeds, and then the whole plan ran and
      the body carries the pool's results; any other response is an error
      body, so no partial result is ever sent. */
  function Execute(e: Endpoint, cfg: Config, v: Order, o: Oracles): (x: Exchange)
    requires WellFormed(e, v)
    ensures x.trace <= Plan(e, v, o)
    ensures x.response.status == 200 <==> Succeeds(e, cfg, v, o)
    ensures Succeeds(e, cfg, v, o) ==> x.trace == Plan(e, v, o) && x.response.body == SuccessBody(e, o)
    ensures x.response.status != 200 ==> x.response.body.ErrorBody?
    ensures x.response.status == 400 ==>
              && x.response == Error(400, AmountNotPositive)
              && v.token == SOL && v.amount.Some? && ToLamports(v.amount.value) <= 0
              && x.trace == Plan(e, v, o)[..|Plan(e, v, o)| - |Operations(e, v, AddressOf(o))|]
    ensures x.response.status == 500 || x.response.status == 400 || x.response.status == 200
    ensures |x.trace| >= |Plan(e, v, o)| - |Operations(e, v, AddressOf(o))| ==> KeyExported(cfg, o)
    ensures v.recipient.Some? && o.recipientKey.Threw? ==>
              x == Failed(o.recipientKey.thrown, [ParseRecipient(v.recipient.value)])
    ensures (NeedsRecipient(e) ==> o.recipientKey.Returned?) && KeyExported(cfg, o) && o.client.Threw? ==>
              x == Failed(o.client.thrown, Plan(e, v, o)[..|Plan(e, v, o)| - |Operations(e, v, AddressOf(o))|])
    ensures Connected(e, cfg, v, o) ==>
              x == After(Plan(e, v, o)[..|Plan(e, v, o)| - |Operations(e, v, AddressOf(o))|],
                         Operate(e, v, AddressOf(o), o))
    ensures e.Transfer? && x.trace == Plan(e, v, o) ==> o.deposit.Returned?
  {
    if v.recipient.Some? then
      var t := [ParseRecipient(v.recipient.value)];
      match o.recipientKey
      case Threw(thrown) => Failed(thrown, t)
      case Returned(address) => After(t, Connect(e, cfg, v, address, o))
    else
      Connect(e, cfg, v, "", o)
  }

  /** The whole application: `/` and `/health` answer directly; the POST
      routes pass the API-key gate, then validation, then run. */
  function Handle(cfg: Config, req: Request, o: Oracles): (x: Exchange)
    ensures req.endpoint.Health? ==> x == Exchange(Ok(StatusOk), [])
    ensures req.endpoint.Root? ==> x == Exchange(Ok(AppInfo(AppName)), [])
    ensures Protected(req.endpoint) && !IsSet(cfg.apiKey) ==>
              x == Exchange(Error(500, ApiKeyNotConfigured), [])
    ensures Protected(req.endpoint) && IsSet(cfg.apiKey) && PresentedToken(req.headers) != cfg.apiKey ==>
              x == Exchange(Error(401, Unauthorized), [])
    ensures Protected(req.endpoint) && RequireApiKey(cfg, req.headers) == None && Validate(cfg, req).Rejected? ==>
              x == Exchange(Validate(cfg, req).response, [])
    ensures Protected(req.endpoint) && RequireApiKey(cfg, req.headers) == None && Validate(cfg, req).Accepted? ==>
              x == Execute(req.endpoint, cfg, Validate(cfg, req).order, o)
    ensures x.trace != [] ==>
              && Protected(req.endpoint)
              && RequireApiKey(cfg, req.headers) == None
              && Validate(cfg, req).Accepted?
              && x.trace <= Plan(req.endpoint, Validate(cfg, req).order, o)
  {
    match req.endpoint
    case Root => Exchange(Ok(AppInfo(AppName)), [])
    case Health => Exchange(Ok(StatusOk), [])
    case _ =>
      match RequireApiKey(cfg, req.headers)
      case Some(denied) => Exchange(denied, [])
      case None =>
        match Validate(cfg, req)
        case Rejected(response) => Exchange(response, [])
        case Accepted(v) => Execute(req.endpoint, cfg, v, o)
  }
}
