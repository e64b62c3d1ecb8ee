/** `exportPrivyWallet`: fetch a wallet's private key from the Privy custody
    service. The SDK call, including any envelope decryption it performs, is
    an oracle. */
module Privy {
  import opened Js
  import opened Env
  import opened Collaborators

  const NotConfigured: string := "Privy export not configured"
  const NoPrivateKey: string := "Privy export returned no private key"

  /** The key or the thrown error, and the SDK call made (if any). */
  datatype Export = Export(outcome: Attempt<string>, calls: seq<Call>)

  /** `sdk` is what the Privy SDK's export returns for `walletId`: a key
      (empty when it returned none) or a thrown value. */
  function ExportPrivyWallet(cfg: Config, walletId: Json, sdk: Attempt<string>): (r: Export)
    ensures r.calls == (if PrivyExportConfigured(cfg) then [PrivyExport(walletId)] else [])
    ensures !PrivyExportConfigured(cfg) ==> r.outcome == Threw(ErrorObject(NotConfigured))
    ensures r.outcome.Returned? <==> PrivyExportConfigured(cfg) && sdk.Returned? && sdk.value != ""
    ensures r.outcome.Returned? ==> r.outcome == sdk
    ensures PrivyExportConfigured(cfg) && sdk.Threw? ==> r.outcome == sdk
    ensures PrivyExportConfigured(cfg) && sdk == Returned("") ==> r.outcome == Threw(ErrorObject(NoPrivateKey))
  {
    if !PrivyExportConfigured(cfg) then Export(Threw(ErrorObject(NotConfigured)), [])
    else
      var calls := [PrivyExport(walletId)];
      match sdk
      case Threw(e) => Export(Threw(e), calls)
      case Returned(key) =>
        if key == "" then Export(Threw(ErrorObject(NoPrivateKey)), calls)
        else Export(Returned(key), calls)
  }
}
