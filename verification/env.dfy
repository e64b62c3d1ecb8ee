/** The process configuration, read once from the environment at start-up and
    immutable afterwards. */
module Env {
  import opened Js

  datatype Config = Config(
    apiKey: Option<string>,                 // API_KEY
    privyAppId: Option<string>,             // PRIVY_APP_ID
    privyAppSecret: Option<string>,         // PRIVY_APP_SECRET
    privyAuthorizationKey: Option<string>,  // PRIVY_AUTHORIZATION_KEY
    solanaRpcUrl: Option<string>)           // SOLANA_RPC_URL

  /** An environment variable counts as set when it is present and non-empty
      (an empty string is falsy). */
  predicate IsSet(v: Option<string>) {
    v.Some? && v.value != ""
  }

  /** An environment variable as JavaScript sees it: a string, or `undefined`. */
  function EnvValue(v: Option<string>): Option<Json> {
    if v.Some? then Some(JStr(v.value)) else None
  }

  /** Being set is JavaScript truthiness of the variable's value, the test the
      server writes as `!privyAppId` and the like. */
  lemma SetIsTruthy(v: Option<string>)
    ensures IsSet(v) <==> Truthy(EnvValue(v))
  {
  }

  /** The Privy client is constructed at start-up only when both the app id
      and the app secret are set. */
  predicate PrivyClientBuilt(c: Config): (r: bool)
    ensures r <==> Truthy(EnvValue(c.privyAppId)) && Truthy(EnvValue(c.privyAppSecret))
  {
    SetIsTruthy(c.privyAppId);
    SetIsTruthy(c.privyAppSecret);
    IsSet(c.privyAppId) && IsSet(c.privyAppSecret)
  }

  /** Wallet export needs the Privy client and the authorization key. */
  predicate PrivyExportConfigured(c: Config): (r: bool)
    ensures r <==> && Truthy(EnvValue(c.privyAppId)) && Truthy(EnvValue(c.privyAppSecret))
                   && Truthy(EnvValue(c.privyAuthorizationKey))
  {
    SetIsTruthy(c.privyAuthorizationKey);
    PrivyClientBuilt(c) && IsSet(c.privyAuthorizationKey)
  }
}
