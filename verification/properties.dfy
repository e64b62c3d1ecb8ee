/** Properties of whole requests, stated over the response and the trace of
    collaborator calls. */
module Properties {
  import opened Js
  import opened Env
  import opened Token
  import opened Lamports
  import opened Http
  import opened Collaborators
  import opened Auth
  import opened Privy
  import opened Handlers

  /** The request reached the collaborators: it passed the gate and validation. */
  predicate Admitted(cfg: Config, req: Request) {
    && Protected(req.endpoint)
    && RequireApiKey(cfg, req.headers) == None
    && Validate(cfg, req).Accepted?
  }

  /** Which pool operation a token selects: SOL uses the lamport operations
      with the converted amount, USDC the SPL operations with the raw amount
      and the USDC mint; a withdraw of either kind pays `address`. */
  predicate RoutedBy(c: Call, t: Symbol, amount: real, address: string) {
    match t
    case SOL =>
      || c == DepositLamports(ToLamports(amount))
      || c == WithdrawLamports(ToLamports(amount), address)
      || c == GetBalance
    case USDC =>
      || c == DepositSpl(amount, UsdcMint)
      || c == WithdrawSpl(amount, UsdcMint, address)
      || c == GetBalanceSpl(UsdcMint)
  }

  /** A request that makes any call at all passed the gate and validation and
      ran its route; every call it makes is the call at the same position of
      the route's plan. */
  lemma TraceFollowsPlan(cfg: Config, req: Request, o: Oracles)
    ensures var x := Handle(cfg, req, o);
            x.trace != [] ==>
              && Admitted(cfg, req)
              && x == Execute(req.endpoint, cfg, Validate(cfg, req).order, o)
              && forall j :: 0 <= j < |x.trace| ==> x.trace[j] == Plan(req.endpoint, Validate(cfg, req).order, o)[j]
  {
  }

  /** In the plan, the only deposit and withdraw calls are the route's pool
      operations, and on /transfer the deposit comes right before the withdraw,
      at the end. */
  lemma PlanShape(e: Endpoint, v: Order, o: Oracles)
    requires WellFormed(e, v)
    ensures var p := Plan(e, v, o);
            var k := |p| - |Operations(e, v, AddressOf(o))|;
            && (forall j :: 0 <= j < k ==> !IsPoolOperation(p[j]))
            && (forall j :: k <= j < |p| ==> IsPoolOperation(p[j]) && RoutedBy(p[j], v.token, if v.amount.Some? then v.amount.value else 0.0, AddressOf(o)))
            && (e.Transfer? ==> |p| >= 2 && IsDeposit(p[|p| - 2]) && IsWithdraw(p[|p| - 1]))
            && (e.Deposit? ==> forall j :: 0 <= j < |p| ==> !IsWithdraw(p[j]))
            && (e.Withdraw? ==> forall j :: 0 <= j < |p| ==> !IsDeposit(p[j]))
            && (e.Balance? ==> forall j :: 0 <= j < |p| ==> !IsDeposit(p[j]) && !IsWithdraw(p[j]))
            && k >= 2 && p[k - 2] == PrivyExport(v.walletId) && p[k - 1].NewClient?
            && (v.recipient.Some? ==> p[0] == ParseRecipient(v.recipient.value))
  {
  }

  /** On /transfer a withdraw is only ever made after a deposit that returned. */
  lemma WithdrawOnlyAfterDeposit(cfg: Config, req: Request, o: Oracles)
    requires req.endpoint.Transfer?
    ensures var t := Handle(cfg, req, o).trace;
            forall j :: 0 <= j < |t| && IsWithdraw(t[j]) ==>
              o.deposit.Returned? && 0 < j && IsDeposit(t[j - 1])
  {
    var x := Handle(cfg, req, o);
    TraceFollowsPlan(cfg, req, o);
    if x.trace != [] {
      var v := Validate(cfg, req).order;
      PlanShape(req.endpoint, v, o);
      var p := Plan(req.endpoint, v, o);
      assert x.trace <= p;
      forall j | 0 <= j < |x.trace| && IsWithdraw(x.trace[j])
        ensures o.deposit.Returned? && 0 < j && IsDeposit(x.trace[j - 1])
      {
        assert x.trace[j] == p[j];
        assert j == |p| - 1;
        assert x.trace == p;
      }
    }
  }

  /** When the deposit throws, /transfer never withdraws and answers 500 with
      the deposit's message; nothing of the deposit is returned. */
  lemma DepositFailureSkipsWithdraw(cfg: Config, req: Request, o: Oracles)
    requires req.endpoint.Transfer? && o.deposit.Threw?
    ensures var x := Handle(cfg, req, o);
            && (forall j :: 0 <= j < |x.trace| ==> !IsWithdraw(x.trace[j]))
            && ((exists j :: 0 <= j < |x.trace| && IsDeposit(x.trace[j])) ==>
                  x.response == Error(500, CaughtMessage(o.deposit.thrown)))
  {
    var x := Handle(cfg, req, o);
    TraceFollowsPlan(cfg, req, o);
    WithdrawOnlyAfterDeposit(cfg, req, o);
    if x.trace != [] {
      PlanShape(req.endpoint, Validate(cfg, req).order, o);
    }
  }

  /** When the withdraw of a /transfer throws after the deposit succeeded, the
      response is 500 with the withdraw's message: the deposit's result is not
      reported. */
  lemma WithdrawFailureHidesDeposit(cfg: Config, req: Request, o: Oracles)
    requires req.endpoint.Transfer? && o.deposit.Returned? && o.withdraw.Threw?
    ensures var x := Handle(cfg, req, o);
            (exists j :: 0 <= j < |x.trace| && IsWithdraw(x.trace[j])) ==>
              x.response == Error(500, CaughtMessage(o.withdraw.thrown))
  {
    var x := Handle(cfg, req, o);
    TraceFollowsPlan(cfg, req, o);
    if x.trace != [] {
      PlanShape(req.endpoint, Validate(cfg, req).order, o);
    }
  }

  /** On /transfer and /withdraw the recipient is parsed before anything else;
      an invalid recipient ends the request with a 500 and no export. */
  lemma InvalidRecipientSkipsExport(cfg: Config, req: Request, o: Oracles)
    requires Admitted(cfg, req)
    requires NeedsRecipient(req.endpoint) && o.recipientKey.Threw?
    ensures var x := Handle(cfg, req, o);
            && x.trace == [ParseRecipient(req.body["recipient"])]
            && x.response == Error(500, CaughtMessage(o.recipientKey.thrown))
  {
  }

  /** Any request that reaches a collaborator has its recipient parsed first
      (on the routes that have one) and its wallet exported before any client
      is built or any pool operation runs. */
  lemma ExportPrecedesPoolOperations(cfg: Config, req: Request, o: Oracles)
    ensures var t := Handle(cfg, req, o).trace;
            && (NeedsRecipient(req.endpoint) && t != [] ==> t[0].ParseRecipient?)
            && forall j :: 0 <= j < |t| && (IsPoolOperation(t[j]) || t[j].NewClient?) ==>
                 exists i :: 0 <= i < j && t[i].PrivyExport?
  {
    var x := Handle(cfg, req, o);
    if x.trace != [] {
      PrefixExportsFirst(req.endpoint, Validate(cfg, req).order, o, x.trace);
    }
  }

  /** The same order holds in every prefix of a plan. */
  lemma PrefixExportsFirst(e: Endpoint, v: Order, o: Oracles, t: seq<Call>)
    requires WellFormed(e, v) && t <= Plan(e, v, o)
    ensures && (NeedsRecipient(e) && t != [] ==> t[0].ParseRecipient?)
            && forall j :: 0 <= j < |t| && (IsPoolOperation(t[j]) || t[j].NewClient?) ==>
                 exists i :: 0 <= i < j && t[i].PrivyExport?
  {
    PlanShape(e, v, o);
    var p := Plan(e, v, o);
    var k := |p| - |Operations(e, v, AddressOf(o))|;
    forall j | 0 <= j < |t| && (IsPoolOperation(t[j]) || t[j].NewClient?)
      ensures exists i :: 0 <= i < j && t[i].PrivyExport?
    {
      assert t[j] == p[j];
      assert t[k - 2].PrivyExport?;
    }
  }

  /** When the export yields no key, the request ends right there with a 500
      carrying the export's error: 'Privy export not configured' without the
      Privy client or authorization key (and no SDK call), the SDK's own
      message when it throws, 'Privy export returned no private key' when it
      returns none. No client is built and no pool operation runs. */
  lemma ExportFailureEndsRequest(cfg: Config, req: Request, o: Oracles)
    requires Admitted(cfg, req)
    requires NeedsRecipient(req.endpoint) ==> o.recipientKey.Returned?
    requires !KeyExported(cfg, o)
    ensures var x := Handle(cfg, req, o);
            && (!PrivyExportConfigured(cfg) ==> x.response == Error(500, NotConfigured))
            && (PrivyExportConfigured(cfg) && o.privyExport.Threw? ==>
                  x.response == Error(500, CaughtMessage(o.privyExport.thrown)))
            && (PrivyExportConfigured(cfg) && o.privyExport == Returned("") ==>
                  x.response == Error(500, NoPrivateKey))
            && x.trace == (if NeedsRecipient(req.endpoint) then [ParseRecipient(req.body["recipient"])] else [])
                          + (if PrivyExportConfigured(cfg) then [PrivyExport(req.body["walletId"])] else [])
  {
    var x := Handle(cfg, req, o);
    var v := Validate(cfg, req).order;
    var address := AddressOf(o);
    assert x == After(if NeedsRecipient(req.endpoint) then [ParseRecipient(v.recipient.value)] else [],
                      Connect(req.endpoint, cfg, v, address, o));
  }

  /** When the PrivacyCash constructor throws after the export yielded a key,
      the request ends with a 500 carrying the constructor's message; the
      last call is the construction and no pool operation runs. */
  lemma ClientThrowEndsRequest(cfg: Config, req: Request, o: Oracles)
    requires Admitted(cfg, req)
    requires NeedsRecipient(req.endpoint) ==> o.recipientKey.Returned?
    requires KeyExported(cfg, o) && o.client.Threw?
    ensures var x := Handle(cfg, req, o);
            && x.response == Error(500, CaughtMessage(o.client.thrown))
            && x.trace == (if NeedsRecipient(req.endpoint) then [ParseRecipient(req.body["recipient"])] else [])
                          + [PrivyExport(req.body["walletId"]), NewClient(cfg.solanaRpcUrl.value, o.privyExport.value)]
  {
    var v := Validate(cfg, req).order;
    assert Handle(cfg, req, o) == Execute(req.endpoint, cfg, v, o);
  }

  /** Once the client exists and a SOL amount is at least one lamport, a pool
      operation that throws ends the request with a 500 carrying its own
      message, and the calls made are the route's plan up to and including
      the one that threw. */
  lemma PoolThrowIsReported(cfg: Config, req: Request, o: Oracles)
    requires Admitted(cfg, req)
    requires Connected(req.endpoint, cfg, Validate(cfg, req).order, o)
    requires AmountInLamports(req.endpoint, Validate(cfg, req).order)
    ensures var x := Handle(cfg, req, o);
            var p := Plan(req.endpoint, Validate(cfg, req).order, o);
            && (req.endpoint.Balance? && o.balance.Threw? ==> x == Failed(o.balance.thrown, p))
            && (req.endpoint.Deposit? && o.deposit.Threw? ==> x == Failed(o.deposit.thrown, p))
            && (req.endpoint.Withdraw? && o.withdraw.Threw? ==> x == Failed(o.withdraw.thrown, p))
            && (req.endpoint.Transfer? && o.deposit.Threw? ==> x == Failed(o.deposit.thrown, p[..|p| - 1]))
            && (req.endpoint.Transfer? && o.deposit.Returned? && o.withdraw.Threw? ==>
                  x == Failed(o.withdraw.thrown, p))
  {
    var v := Validate(cfg, req).order;
    assert Handle(cfg, req, o) == Execute(req.endpoint, cfg, v, o);
  }

  /** Token routing: every pool operation a request makes is the one its token
      selects, with the amount in the unit that operation expects. */
  lemma TokenRouting(cfg: Config, req: Request, o: Oracles)
    ensures var t := Handle(cfg, req, o).trace;
            t != [] ==>
              var v := Validate(cfg, req).order;
              forall j :: 0 <= j < |t| && IsPoolOperation(t[j]) ==>
                RoutedBy(t[j], v.token, if v.amount.Some? then v.amount.value else 0.0, AddressOf(o))
  {
    var x := Handle(cfg, req, o);
    TraceFollowsPlan(cfg, req, o);
    if x.trace != [] {
      PlanShape(req.endpoint, Validate(cfg, req).order, o);
    }
  }

  /** Every withdraw pays the recipient the request named: the address the
      `PublicKey` parse of its `recipient` field returned. */
  lemma WithdrawPaysRecipient(cfg: Config, req: Request, o: Oracles)
    ensures var t := Handle(cfg, req, o).trace;
            forall j :: 0 <= j < |t| && IsWithdraw(t[j]) ==>
              && o.recipientKey.Returned?
              && t[j].recipientAddress == o.recipientKey.value
              && 0 < j && t[0] == ParseRecipient(req.body["recipient"])
  {
    var x := Handle(cfg, req, o);
    TraceFollowsPlan(cfg, req, o);
    if x.trace != [] {
      ExecuteWithdrawAddress(req.endpoint, cfg, Validate(cfg, req).order, o);
    }
  }

  /** The route-level half of `WithdrawPaysRecipient`. */
  lemma ExecuteWithdrawAddress(e: Endpoint, cfg: Config, v: Order, o: Oracles)
    requires WellFormed(e, v)
    ensures var t := Execute(e, cfg, v, o).trace;
            forall j :: 0 <= j < |t| && IsWithdraw(t[j]) ==>
              && o.recipientKey.Returned?
              && t[j].recipientAddress == o.recipientKey.value
              && 0 < j && v.recipient.Some? && t[0] == ParseRecipient(v.recipient.value)
  {
    var t := Execute(e, cfg, v, o).trace;
    var p := Plan(e, v, o);
    PlanWithdraw(e, v, o);
    if o.recipientKey.Threw? && v.recipient.Some? {
      assert t == [ParseRecipient(v.recipient.value)];
    }
    forall j | 0 <= j < |t| && IsWithdraw(t[j])
      ensures && o.recipientKey.Returned?
              && t[j].recipientAddress == o.recipientKey.value
              && 0 < j && v.recipient.Some? && t[0] == ParseRecipient(v.recipient.value)
    {
      assert t[j] == p[j];
      assert t[0] == p[0];
    }
  }

  /** In a plan every withdraw pays the parsed address and comes after the
      recipient parse, which is the first call. */
  lemma PlanWithdraw(e: Endpoint, v: Order, o: Oracles)
    requires WellFormed(e, v)
    ensures var p := Plan(e, v, o);
            forall j :: 0 <= j < |p| && IsWithdraw(p[j]) ==>
              && p[j].recipientAddress == AddressOf(o)
              && 0 < j && v.recipient.Some? && p[0] == ParseRecipient(v.recipient.value)
  {
  }

  /** The client is built from the configured RPC URL and exactly the key the
      export returned, which is never empty. */
  lemma ClientUsesExportedKey(cfg: Config, req: Request, o: Oracles)
    ensures var t := Handle(cfg, req, o).trace;
            forall j :: 0 <= j < |t| && t[j].NewClient? ==>
              && o.privyExport == Returned(t[j].owner) && t[j].owner != ""
              && PrivyExportConfigured(cfg)
              && Some(t[j].rpcUrl) == cfg.solanaRpcUrl
  {
    var x := Handle(cfg, req, o);
    TraceFollowsPlan(cfg, req, o);
    if x.trace != [] {
      ExecuteClientKey(req.endpoint, cfg, Validate(cfg, req).order, o);
    }
  }

  /** The route-level half of `ClientUsesExportedKey`: the client a route
      builds gets the order's RPC URL and the exported key. */
  lemma ExecuteClientKey(e: Endpoint, cfg: Config, v: Order, o: Oracles)
    requires WellFormed(e, v)
    ensures var t := Execute(e, cfg, v, o).trace;
            forall j :: 0 <= j < |t| && t[j].NewClient? ==>
              && o.privyExport == Returned(t[j].owner) && t[j].owner != ""
              && PrivyExportConfigured(cfg)
              && t[j].rpcUrl == v.rpcUrl
  {
    var t := Execute(e, cfg, v, o).trace;
    var p := Plan(e, v, o);
    var k := |p| - |Operations(e, v, AddressOf(o))|;
    PlanClient(e, v, o);
    forall j | 0 <= j < |t| && t[j].NewClient?
      ensures && o.privyExport == Returned(t[j].owner) && t[j].owner != ""
              && PrivyExportConfigured(cfg)
              && t[j].rpcUrl == v.rpcUrl
    {
      assert t[j] == p[j];
      assert |t| >= k;
    }
  }

  /** A plan builds exactly one client, just before the pool operations. */
  lemma PlanClient(e: Endpoint, v: Order, o: Oracles)
    requires WellFormed(e, v)
    ensures var p := Plan(e, v, o);
            var k := |p| - |Operations(e, v, AddressOf(o))|;
            && k >= 1 && p[k - 1] == NewClient(v.rpcUrl, KeyOf(o))
            && forall j :: 0 <= j < |p| && p[j].NewClient? ==> j == k - 1
  {
  }

  /** A SOL amount that is positive but rounds to zero lamports is refused
      with 400, after the wallet has already been exported and the client
      built, and without any pool operation. */
  lemma SubLamportSolAmount(cfg: Config, req: Request, o: Oracles)
    requires Admitted(cfg, req) && NeedsAmount(req.endpoint)
    requires Validate(cfg, req).order.token == SOL
    requires Validate(cfg, req).order.amount.value * LamportsPerSol as real < 0.5
    requires NeedsRecipient(req.endpoint) ==> o.recipientKey.Returned?
    requires PrivyExportConfigured(cfg) && o.privyExport.Returned? && o.privyExport.value != ""
    requires o.client.Returned?
    ensures var x := Handle(cfg, req, o);
            && x.response == Error(400, AmountNotPositive)
            && (exists j :: 0 <= j < |x.trace| && x.trace[j].PrivyExport?)
            && (forall j :: 0 <= j < |x.trace| ==> !IsPoolOperation(x.trace[j]))
  {
    var x := Handle(cfg, req, o);
    var v := Validate(cfg, req).order;
    TraceFollowsPlan(cfg, req, o);
    PlanShape(req.endpoint, v, o);
    var p := Plan(req.endpoint, v, o);
    assert x.trace[|x.trace| - 2] == p[|x.trace| - 2];
  }

  /** What a recorded call threw during this request, if anything. An export
      call throws the SDK's own error, or 'Privy export returned no private
      key' when the SDK returned none. */
  function ThrownBy(c: Call, cfg: Config, o: Oracles): Option<Thrown> {
    match c
    case ParseRecipient(_) => if o.recipientKey.Threw? then Some(o.recipientKey.thrown) else None
    case PrivyExport(w) =>
      var r := ExportPrivyWallet(cfg, w, o.privyExport).outcome;
      if r.Threw? then Some(r.thrown) else None
    case NewClient(_, _) => if o.client.Threw? then Some(o.client.thrown) else None
    case DepositLamports(_) => if o.deposit.Threw? then Some(o.deposit.thrown) else None
    case DepositSpl(_, _) => if o.deposit.Threw? then Some(o.deposit.thrown) else None
    case WithdrawLamports(_, _) => if o.withdraw.Threw? then Some(o.withdraw.thrown) else None
    case WithdrawSpl(_, _, _) => if o.withdraw.Threw? then Some(o.withdraw.thrown) else None
    case GetBalance => if o.balance.Threw? then Some(o.balance.thrown) else None
    case GetBalanceSpl(_) => if o.balance.Threw? then Some(o.balance.thrown) else None
  }

  /** The catch rule seen from outside: when the last call an exchange made
      threw, its response is 500 carrying `CaughtMessage` of what was thrown. */
  predicate ReportsLastThrow(x: Exchange, cfg: Config, o: Oracles) {
    x.trace != [] && ThrownBy(x.trace[|x.trace| - 1], cfg, o).Some? ==>
      x.response == Error(500, CaughtMessage(ThrownBy(x.trace[|x.trace| - 1], cfg, o).value))
  }

  /** Calls made before an exchange that itself made a call do not change
      which call was last. */
  lemma AfterKeepsLastThrow(calls: seq<Call>, x: Exchange, cfg: Config, o: Oracles)
    requires x.trace != [] && ReportsLastThrow(x, cfg, o)
    ensures ReportsLastThrow(After(calls, x), cfg, o)
  {
    var t := After(calls, x).trace;
    assert t[|t| - 1] == x.trace[|x.trace| - 1];
  }

  /** The catch rule for the pool stage. */
  lemma OperateReportsThrow(e: Endpoint, v: Order, address: string, cfg: Config, o: Oracles)
    requires WellFormed(e, v)
    ensures ReportsLastThrow(Operate(e, v, address, o), cfg, o)
  {
  }

  /** The catch rule from the export on. */
  lemma ConnectReportsThrow(e: Endpoint, cfg: Config, v: Order, address: string, o: Oracles)
    requires WellFormed(e, v)
    ensures ReportsLastThrow(Connect(e, cfg, v, address, o), cfg, o)
  {
    var x := Operate(e, v, address, o);
    OperateReportsThrow(e, v, address, cfg, o);
    if KeyExported(cfg, o) && o.client.Returned? && x.trace != [] {
      AfterKeepsLastThrow(Setup(v, o), x, cfg, o);
    }
  }

  /** The catch rule from the recipient parse on. */
  lemma ExecuteReportsThrow(e: Endpoint, cfg: Config, v: Order, o: Oracles)
    requires WellFormed(e, v)
    ensures ReportsLastThrow(Execute(e, cfg, v, o), cfg, o)
  {
    if v.recipient.Some? && o.recipientKey.Returned? {
      var x := Connect(e, cfg, v, o.recipientKey.value, o);
      ConnectReportsThrow(e, cfg, v, o.recipientKey.value, o);
      if x.trace != [] {
        AfterKeepsLastThrow([ParseRecipient(v.recipient.value)], x, cfg, o);
      }
    } else if v.recipient.None? {
      ConnectReportsThrow(e, cfg, v, "", o);
    }
  }

  /** The catch rule for whole requests: when the last collaborator call a
      request made threw, the response is 500 with that error's message, or
      'Unexpected error' for a thrown value that is not an `Error`. */
  lemma LastThrowIsReported(cfg: Config, req: Request, o: Oracles)
    ensures ReportsLastThrow(Handle(cfg, req, o), cfg, o)
  {
    var x := Handle(cfg, req, o);
    if x.trace != [] {
      ExecuteReportsThrow(req.endpoint, cfg, Validate(cfg, req).order, o);
    }
  }
}
