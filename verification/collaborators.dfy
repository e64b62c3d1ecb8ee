/** The external collaborators a request may call, as the trace records them,
    and their outcomes for one request, supplied as data. */
module Collaborators {
  import opened Js

  /** The USDC mint address every SPL operation is given. */
  const UsdcMint: string := "EPjFWdd5AufqSSqeM2qN1xzybapC8G4wEGGkZwyTDt1v"

  /** One call into a collaborator, with the arguments that depend on the
      request. The Privy export's authorization context is always the
      configured PRIVY_AUTHORIZATION_KEY and is not recorded. */
  datatype Call =
    | ParseRecipient(input: Json)                                        // new PublicKey(recipient)
    | PrivyExport(walletId: Json)                                        // privyClient.wallets().export
    | NewClient(rpcUrl: string, owner: string)                           // new PrivacyCash({RPC_url, owner})
    | DepositLamports(lamports: int)                                     // client.deposit
    | DepositSpl(amount: real, mint: string)                             // client.depositSPL
    | WithdrawLamports(lamports: int, recipientAddress: string)          // client.withdraw
    | WithdrawSpl(amount: real, mint: string, recipientAddress: string)  // client.withdrawSPL
    | GetBalance                                                         // client.getPrivateBalance
    | GetBalanceSpl(mint: string)                                        // client.getPrivateBalanceSpl

  predicate IsDeposit(c: Call) {
    c.DepositLamports? || c.DepositSpl?
  }

  predicate IsWithdraw(c: Call) {
    c.WithdrawLamports? || c.WithdrawSpl?
  }

  predicate IsBalance(c: Call) {
    c.GetBalance? || c.GetBalanceSpl?
  }

  /** A call that moves or reads funds in the privacy pool. */
  predicate IsPoolOperation(c: Call) {
    IsDeposit(c) || IsWithdraw(c) || IsBalance(c)
  }

  /** What each collaborator does when called during this request. Each is
      called at most once per request, so one outcome apiece suffices. */
  datatype Oracles = Oracles(
    recipientKey: Attempt<string>,  // new PublicKey(recipient), then toBase58()
    privyExport: Attempt<string>,   // the Privy SDK export; "" when it returned no key
    client: Attempt<()>,            // the PrivacyCash constructor
    deposit: Attempt<Json>,         // deposit or depositSPL
    withdraw: Attempt<Json>,        // withdraw or withdrawSPL
    balance: Attempt<Json>)         // getPrivateBalance or getPrivateBalanceSpl

}
