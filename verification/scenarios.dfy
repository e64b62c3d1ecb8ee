/** The repository's request tests and a 1.5 SOL deposit, as statements
    about the model. */
module Scenarios {
  import opened Js
  import opened Env
  import opened Token
  import opened Lamports
  import opened Http
  import opened Collaborators
  import opened Auth
  import opened Handlers

  const TestKey: string := "test-key"

  function TestConfig(rpcUrl: Option<string>): Config {
    Config(Some(TestKey), None, None, None, rpcUrl)
  }

  const BearerTestKey: Headers := Headers(Some("Bearer test-key"), None)

  /** GET /health answers 200 {status:'ok'} whatever the configuration and headers. */
  lemma HealthIsOk(cfg: Config, h: Headers, body: map<string, Json>, o: Oracles)
    ensures Handle(cfg, Request(Health, h, body), o) == Exchange(Ok(StatusOk), [])
  {
  }

  /** POST /transfer without API_KEY answers 500 'API key not configured'. */
  lemma TransferWithoutApiKey(cfg: Config, o: Oracles)
    requires cfg.apiKey.None?
    ensures var body := map["walletId" := JStr("test"), "amount" := JNum(Finite(1.0)), "recipient" := JStr("test")];
            Handle(cfg, Request(Transfer, Headers(None, None), body), o)
              == Exchange(Error(500, "API key not configured"), [])
  {
  }

  /** The test key, sent as a bearer token, passes the gate. */
  lemma TestKeyAdmitted(rpcUrl: Option<string>)
    ensures RequireApiKey(TestConfig(rpcUrl), BearerTestKey) == None
  {
    BearerRoundTrip(TestKey, None);
    assert BearerPrefix + TestKey == "Bearer test-key";
  }

  /** POST /transfer without walletId is refused with its route's message
      and nothing is called, whether or not the RPC URL is set. */
  lemma TransferMissingFields(rpcUrl: Option<string>, o: Oracles)
    ensures Handle(TestConfig(rpcUrl),
                   Request(Transfer, BearerTestKey, map["amount" := JNum(Finite(1.0)), "recipient" := JStr("test")]), o)
              == Exchange(Error(400, "walletId, amount, recipient, token ('SOL' | 'USDC') required"), [])
  {
    TestKeyAdmitted(rpcUrl);
  }

  /** POST /deposit with only an amount is refused. */
  lemma DepositMissingFields(rpcUrl: Option<string>, o: Oracles)
    ensures Handle(TestConfig(rpcUrl), Request(Deposit, BearerTestKey, map["amount" := JNum(Finite(1.0))]), o)
              == Exchange(Error(400, "walletId, amount, token ('SOL' | 'USDC') required"), [])
  {
    TestKeyAdmitted(rpcUrl);
  }

  /** POST /withdraw without recipient and token is refused. */
  lemma WithdrawMissingFields(rpcUrl: Option<string>, o: Oracles)
    ensures Handle(TestConfig(rpcUrl),
                   Request(Withdraw, BearerTestKey, map["walletId" := JStr("test"), "amount" := JNum(Finite(1.0))]), o)
              == Exchange(Error(400, "walletId, amount, recipient, token ('SOL' | 'USDC') required"), [])
  {
    TestKeyAdmitted(rpcUrl);
  }

  /** POST /balance without token is refused. */
  lemma BalanceMissingFields(rpcUrl: Option<string>, o: Oracles)
    ensures Handle(TestConfig(rpcUrl), Request(Balance, BearerTestKey, map["walletId" := JStr("test")]), o)
              == Exchange(Error(400, "walletId, token ('SOL' | 'USDC') required"), [])
  {
    TestKeyAdmitted(rpcUrl);
  }

  /** A fully configured deployment. */
  function LiveConfig(): Config {
    Config(Some(TestKey), Some("app"), Some("secret"), Some("auth-key"), Some("https://rpc"))
  }

  /** POST /deposit {walletId:'w1', amount:1.5, token:'sol'} deposits
      1 500 000 000 lamports and returns the pool's result. */
  lemma DepositOneAndAHalfSol(receipt: Json)
    ensures var body := map["walletId" := JStr("w1"), "amount" := JNum(Finite(1.5)), "token" := JStr("sol")];
            var o := Oracles(Threw(NonError), Returned("key"), Returned(()), Returned(receipt),
                             Threw(NonError), Threw(NonError));
            Handle(LiveConfig(), Request(Deposit, BearerTestKey, body), o)
              == Exchange(Ok(DepositOk(receipt)),
                          [PrivyExport(JStr("w1")), NewClient("https://rpc", "key"), DepositLamports(1_500_000_000)])
  {
    var body := map["walletId" := JStr("w1"), "amount" := JNum(Finite(1.5)), "token" := JStr("sol")];
    var req := Request(Deposit, BearerTestKey, body);
    var o := Oracles(Threw(NonError), Returned("key"), Returned(()), Returned(receipt),
                     Threw(NonError), Threw(NonError));
    TestKeyAdmitted(LiveConfig().solanaRpcUrl);
    assert RequireApiKey(LiveConfig(), BearerTestKey) == None;
    LowerCaseSolParses();
    var v := Order(JStr("w1"), SOL, Some(1.5), None, "https://rpc");
    assert Validate(LiveConfig(), req) == Accepted(v);
    DepositRunsOneAndAHalfSol(v, o);
  }

  lemma LowerCaseSolParses()
    ensures TokenOf(Some(JStr("sol"))) == Returned(Some(SOL))
  {
    ParseSpellings("sol");
  }

  lemma DepositRunsOneAndAHalfSol(v: Order, o: Oracles)
    requires v == Order(JStr("w1"), SOL, Some(1.5), None, "https://rpc")
    requires o.privyExport == Returned("key") && o.client == Returned(()) && o.deposit.Returned?
    ensures Execute(Deposit, LiveConfig(), v, o)
              == Exchange(Ok(DepositOk(o.deposit.value)),
                          [PrivyExport(JStr("w1")), NewClient("https://rpc", "key"), DepositLamports(1_500_000_000)])
  {
    OneAndAHalfSol();
  }

  /** A truthy token that is not a string (here the number 1) makes
      `toUpperCase` throw before the field check, so the request gets a 500
      with the TypeError's message rather than the 400. */
  lemma NumericTokenThrows(rpcUrl: Option<string>, o: Oracles)
    ensures Handle(TestConfig(rpcUrl), Request(Balance, BearerTestKey, map["token" := JNum(Finite(1.0))]), o)
              == Exchange(Error(500, "raw.toUpperCase is not a function"), [])
  {
  }
}
