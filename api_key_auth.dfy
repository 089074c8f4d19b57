/** The `authenticateApiKey` middleware of the external API. */
module ApiKeyAuth {
  import opened Common

  const MISSING_KEY: string := "API key manquante. Veuillez fournir un x-api-key dans les headers."
  const INVALID_KEY: string := "API key invalide."

  /** The decision for an `x-api-key` header (none when absent) against the
      configured key (none when the environment variable is unset, which
      then refuses every key). The comparison is exact: no trimming, no
      case folding. */
  function AuthenticateApiKey(header: Option<string>, configured: Option<string>): (d: Decision)
    ensures d == Next <==> header.Some? && header.value != "" && configured == Some(header.value)
    ensures (header.None? || header.value == "") ==> d == Reject(401, MISSING_KEY)
    ensures d.Reject? ==> d.status == 401
    ensures header.Some? && header.value != "" && configured != Some(header.value) ==> d == Reject(401, INVALID_KEY)
  {
    if header.None? || header.value == "" then Reject(401, MISSING_KEY)
    else if configured.None? || header.value != configured.value then Reject(401, INVALID_KEY)
    else Next
  }
}
