/** The command line's network selector (src/cli.rs). */
module Cli {
  import opened Results
  import opened Text
  import opened Networks
  import opened Errors

  /** The value the `--network` option takes when it is not given. */
  const DEFAULT_NETWORK: string := "testnet"

  /** Case-insensitive lookup of a network name, with "mainnet" as an alias of "bitcoin". */
  function ParseNetwork(name: string): (r: Result<Network, AppError>)
    ensures r.Ok? ==> r.value != Signet
    ensures r.Err? ==> r.error == InputValidation(UnknownNetwork(Lower(name)))
  {
    var s := Lower(name);
    if s == "bitcoin" || s == "mainnet" then Ok(Bitcoin)
    else if s == "testnet" then Ok(Testnet)
    else if s == "regtest" then Ok(Regtest)
    else Err(InputValidation(UnknownNetwork(s)))
  }

  /** `name` spells `word` up to the case of its ASCII letters (`word` is lower case). */
  predicate SpellsIgnoringCase(name: string, word: string) {
    |name| == |word| && forall i :: 0 <= i < |name| ==> LowerChar(name[i]) == word[i]
  }

  lemma LowerMatches(name: string, word: string)
    ensures Lower(name) == word <==> SpellsIgnoringCase(name, word)
  {
    if SpellsIgnoringCase(name, word) {
      assert Lower(name) == word;
    }
  }

  /** Each network is selected by exactly its names, in any mix of cases, and by nothing else. */
  lemma ParseNetworkNames(name: string)
    ensures ParseNetwork(name) == Ok(Bitcoin) <==>
              SpellsIgnoringCase(name, "bitcoin") || SpellsIgnoringCase(name, "mainnet")
    ensures ParseNetwork(name) == Ok(Testnet) <==> SpellsIgnoringCase(name, "testnet")
    ensures ParseNetwork(name) == Ok(Regtest) <==> SpellsIgnoringCase(name, "regtest")
    ensures ParseNetwork(name).Err? <==>
              !SpellsIgnoringCase(name, "bitcoin") && !SpellsIgnoringCase(name, "mainnet") &&
              !SpellsIgnoringCase(name, "testnet") && !SpellsIgnoringCase(name, "regtest")
  {
    LowerMatches(name, "bitcoin");
    LowerMatches(name, "mainnet");
    LowerMatches(name, "testnet");
    LowerMatches(name, "regtest");
  }

  /** Lower-casing the argument first never changes the outcome. */
  lemma ParseNetworkCaseInsensitive(name: string)
    ensures ParseNetwork(name) == ParseNetwork(Lower(name))
  {
    LowerIdempotent(name);
  }

  /** The default option value is accepted and selects testnet. */
  lemma DefaultNetworkIsTestnet()
    ensures ParseNetwork(DEFAULT_NETWORK) == Ok(Testnet)
  {
    assert Lower(DEFAULT_NETWORK) == "testnet";
  }

  lemma ParseNetworkExamples()
    ensures ParseNetwork("MAINNET") == Ok(Bitcoin)
    ensures ParseNetwork("RegTest") == Ok(Regtest)
    ensures ParseNetwork("Signet") == Err(InputValidation(UnknownNetwork("signet")))
  {
    assert Lower("MAINNET") == "mainnet";
    assert Lower("RegTest") == "regtest";
    assert Lower("Signet") == "signet";
  }
}
