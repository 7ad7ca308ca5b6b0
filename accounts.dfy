/**
 * The alias part of `get_account_metadata` and the effective alias of an
 * account: the registered alias when there is one, otherwise the configured hint.
 */
module Accounts {
  import opened Options

  /**
   * What `iam.list_account_aliases()` gave: a response, whose `AccountAliases`
   * key may be missing, or an exception.
   */
  datatype AliasLookup = Answered(accountAliases: Option<seq<string>>) | Raised

  /** The aliases of a lookup, with a missing key or an exception read as no aliases. */
  function Aliases(lookup: AliasLookup): seq<string>
  {
    match lookup
    case Answered(aliases) => aliases.GetOr([])
    case Raised => []
  }

  /** The registered alias: the first one listed, or `""` when none is listed or the lookup raised. */
  function RegisteredAlias(lookup: AliasLookup): (alias: string)
    ensures lookup.Raised? ==> alias == ""
    ensures Aliases(lookup) == [] ==> alias == ""
    ensures Aliases(lookup) != [] ==> alias == Aliases(lookup)[0]
  {
    match lookup
    case Raised => ""
    case Answered(aliases) =>
      var listed := aliases.GetOr([]);
      if |listed| > 0 then listed[0] else ""
  }

  /** `account_alias or alias_hint`: a non-empty registered alias wins, otherwise the hint. */
  function EffectiveAlias(registered: string, hint: string): (alias: string)
    ensures registered != "" ==> alias == registered
    ensures registered == "" ==> alias == hint
  {
    if registered != "" then registered else hint
  }

  /**
   * Fallback in full: a lookup that raised or listed no alias (or an empty
   * first alias) leaves the hint; a non-empty first alias beats any hint.
   */
  lemma AliasFallback(lookup: AliasLookup, hint: string)
    ensures lookup.Raised? ==> EffectiveAlias(RegisteredAlias(lookup), hint) == hint
    ensures EffectiveAlias(RegisteredAlias(lookup), hint)
         == if Aliases(lookup) != [] && Aliases(lookup)[0] != "" then Aliases(lookup)[0] else hint
  {
  }
}
