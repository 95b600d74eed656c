/**
 * The token details modal opened from the holdings table: a user's tokens
 * grouped by chain, per-chain summaries, and the user's spam tokens fetched
 * when the modal opens.
 */
module TokenModal {
  import opened Common
  import opened Listing
  import AnalyticsHolding

  /** A token holding as the holdings service returns it; balances stay the strings the service sends. */
  datatype Token = Token(tokenAddress: string, chain: string, name: Option<string>, symbol: Option<string>,
                         balanceFormatted: string, usdBalanceFormatted: string)

  /** The tokens of a user, by chain, in the object's entry order. */
  type ChainTokens = seq<(string, seq<Token>)>

  const ChainNameMap: map<string, string> := map["base-mainnet" := "Base", "solana-mainnet" := "Solana", "worldchain-mainnet" := "WLD"]

  /** `CHAIN_NAME_MAP[chain] || chain` */
  function FormatChainName(chain: string): string {
    if chain in ChainNameMap && ChainNameMap[chain] != "" then ChainNameMap[chain] else chain
  }

  /** The modal and the holdings table name every chain the same way. */
  lemma ChainNamesAgree(chain: string)
    ensures FormatChainName(chain) == AnalyticsHolding.FormatChainName(chain)
  {
    if chain !in {"base-mainnet", "solana-mainnet", "worldchain-mainnet"} {
      assert chain !in ChainNameMap;
    }
  }

  /**
   * An address cell: empty for an empty address, otherwise the first four and
   * the last four characters around "...". There is no length guard, so an
   * address of at most four characters appears twice.
   */
  function TruncateAddress(address: string): (r: string)
    ensures address == "" ==> r == ""
    ensures address != "" ==> var n := if |address| < 4 then |address| else 4;
      && |r| == 2 * n + 3
      && r[..n] == address[..n]
      && r[n..n + 3] == "..."
      && r[n + 3..] == address[|address| - n..]
  {
    if address == "" then "" else Slice(address, 0, 4) + "..." + Slice(address, -4, |address|)
  }

  /** A short address is shown whole on both sides of the dots. */
  lemma ShortAddressRepeated(address: string)
    requires 0 < |address| <= 4
    ensures TruncateAddress(address) == address + "..." + address
  {
    var r := TruncateAddress(address);
    assert r[..|address|] == address;
    assert r[|address| + 3..] == address;
    assert r == r[..|address|] + r[|address|..|address| + 3] + r[|address| + 3..];
  }

  /** `Object.values(tokens).reduce((sum, t) => sum + t.length, 0)` */
  function TotalTokenCount(entries: ChainTokens): nat
    decreases |entries|
  {
    if entries == [] then 0
    else TotalTokenCount(entries[..|entries| - 1]) + |entries[|entries| - 1].1|
  }

  /** The summary card of one chain; the USD total and the sorted list are left out. */
  datatype ChainSummary = ChainSummary(chain: string, tokenCount: nat)

  /** One summary per chain, in entry order, counting that chain's tokens. */
  function ChainSummaries(entries: ChainTokens): (r: seq<ChainSummary>)
    ensures |r| == |entries|
    ensures forall k :: 0 <= k < |entries| ==> r[k].chain == entries[k].0 && r[k].tokenCount == |entries[k].1|
  {
    seq(|entries|, k requires 0 <= k < |entries| => ChainSummary(entries[k].0, |entries[k].1|))
  }

  function SumCounts(summaries: seq<ChainSummary>): nat
    decreases |summaries|
  {
    if summaries == [] then 0
    else SumCounts(summaries[..|summaries| - 1]) + summaries[|summaries| - 1].tokenCount
  }

  /** The cards' token counts add up to the total the modal shows. */
  lemma {:induction false} SummariesAddUp(entries: ChainTokens)
    ensures SumCounts(ChainSummaries(entries)) == TotalTokenCount(entries)
    decreases |entries|
  {
    if entries != [] {
      var init := entries[..|entries| - 1];
      SummariesAddUp(init);
      assert ChainSummaries(entries)[..|entries| - 1] == ChainSummaries(init);
    }
  }

  /** `{ ...token, chain }` for every token of one chain. */
  function Tagged(chain: string, tokens: seq<Token>): (r: seq<Token>)
    ensures |r| == |tokens|
    ensures forall k :: 0 <= k < |tokens| ==> r[k] == tokens[k].(chain := chain)
  {
    seq(|tokens|, k requires 0 <= k < |tokens| => tokens[k].(chain := chain))
  }

  /** All tokens of all chains, chain by chain in entry order, each tagged with its chain's key. */
  function Flatten(entries: ChainTokens): seq<Token>
    decreases |entries|
  {
    if entries == [] then []
    else Flatten(entries[..|entries| - 1]) + Tagged(entries[|entries| - 1].0, entries[|entries| - 1].1)
  }

  /** The table has as many rows as the modal counts tokens. */
  lemma {:induction false} FlattenLength(entries: ChainTokens)
    ensures |Flatten(entries)| == TotalTokenCount(entries)
    decreases |entries|
  {
    if entries != [] {
      FlattenLength(entries[..|entries| - 1]);
    }
  }

  /**
   * Token j of chain i sits right after the tokens of the chains before it,
   * tagged with chain i's key.
   */
  lemma {:induction false} FlattenIndex(entries: ChainTokens, i: nat, j: nat)
    requires i < |entries| && j < |entries[i].1|
    ensures TotalTokenCount(entries[..i]) + j < |Flatten(entries)|
    ensures Flatten(entries)[TotalTokenCount(entries[..i]) + j] == entries[i].1[j].(chain := entries[i].0)
    decreases |entries|
  {
    var n := |entries| - 1;
    var init := entries[..n];
    FlattenLength(entries);
    FlattenLength(init);
    if i == n {
      assert entries[..i] == init;
    } else {
      assert init[..i] == entries[..i];
      assert init[i] == entries[i];
      FlattenIndex(init, i, j);
    }
  }

  /** `activeTokensData`: the nested `forEach` loops that push every tagged token. */
  method FlattenTokens(entries: ChainTokens) returns (all: seq<Token>)
    ensures all == Flatten(entries)
    ensures |all| == TotalTokenCount(entries)
  {
    all := [];
    var i := 0;
    while i < |entries|
      invariant 0 <= i <= |entries|
      invariant all == Flatten(entries[..i])
    {
      var chain := entries[i].0;
      var chainTokens := entries[i].1;
      var j := 0;
      while j < |chainTokens|
        invariant 0 <= j <= |chainTokens|
        invariant all == Flatten(entries[..i]) + Tagged(chain, chainTokens[..j])
      {
        all := all + [chainTokens[j].(chain := chain)];
        assert Tagged(chain, chainTokens[..j + 1]) == Tagged(chain, chainTokens[..j]) + [chainTokens[j].(chain := chain)];
        j := j + 1;
      }
      assert chainTokens[..j] == chainTokens;
      assert entries[..i + 1][..i] == entries[..i];
      i := i + 1;
    }
    assert entries[..i] == entries;
    FlattenLength(entries);
  }

  /** The spam tokens answer: tokens by chain, or the error text the modal stores on failure. */
  datatype SpamTokensResponse = SpamTokensResponse(spamTokens: Option<ChainTokens>, error: Option<string>)

  /** `spamTokensData`: nothing without a response carrying tokens, otherwise the same flattening. */
  method SpamTokensData(response: Option<SpamTokensResponse>) returns (all: seq<Token>)
    ensures response.None? || response.value.spamTokens.None? ==> all == []
    ensures response.Some? && response.value.spamTokens.Some? ==> all == Flatten(response.value.spamTokens.value)
  {
    if response.None? || response.value.spamTokens.None? {
      return [];
    }
    all := FlattenTokens(response.value.spamTokens.value);
  }

  /** The spam fetch's query: always the address, and the Solana address only when it is non-empty. */
  function SpamFetchParams(address: string, solanaAddress: string): (r: seq<(string, string)>)
    ensures 1 <= |r| <= 2 && r[0] == ("address", address)
    ensures (exists v :: ("solana", v) in r) <==> solanaAddress != ""
    ensures forall v :: ("solana", v) in r ==> v == solanaAddress
  {
    [("address", address)] + (if solanaAddress != "" then [("solana", solanaAddress)] else [])
  }

  const SpamFetchFailed: string := "Failed to fetch spam tokens"

  /** The modal's spam-token state. */
  class TokenModalView {
    var spamTokens: Option<SpamTokensResponse>
    var spamLoading: bool

    constructor ()
      ensures spamTokens == None && !spamLoading
    {
      spamTokens := None;
      spamLoading := false;
    }

    /** The fetch starts: the spinner runs and the previous answer is dropped. */
    method BeginSpamFetch(address: string, solanaAddress: string) returns (params: seq<(string, string)>)
      modifies this
      ensures spamLoading && spamTokens == None
      ensures params == SpamFetchParams(address, solanaAddress)
    {
      spamLoading := true;
      spamTokens := None;
      params := SpamFetchParams(address, solanaAddress);
    }

    /** The fetch ended: the answer, or the fixed error text, is stored and the spinner stops. */
    method EndSpamFetch(result: Outcome<SpamTokensResponse>)
      modifies this
      ensures !spamLoading
      ensures result.Ok? ==> spamTokens == Some(result.value)
      ensures result.Failed? ==> spamTokens == Some(SpamTokensResponse(None, Some(SpamFetchFailed)))
    {
      spamTokens := match result
        case Ok(res) => Some(res)
        case Failed(_) => Some(SpamTokensResponse(None, Some(SpamFetchFailed)));
      spamLoading := false;
    }

    /**
     * The effect run when the modal opens, closes or its addresses change:
     * an open modal with an address fetches; a closed one drops the answer
     * and stops the spinner.
     */
    method OnOpenChange(isOpen: bool, address: string, solanaAddress: string) returns (request: Option<seq<(string, string)>>)
      modifies this
      ensures isOpen && address != "" ==> request == Some(SpamFetchParams(address, solanaAddress)) && spamLoading && spamTokens == None
      ensures isOpen && address == "" ==> request == None && spamLoading == old(spamLoading) && spamTokens == old(spamTokens)
      ensures !isOpen ==> request == None && !spamLoading && spamTokens == None
    {
      request := None;
      if isOpen && address != "" {
        var params := BeginSpamFetch(address, solanaAddress);
        request := Some(params);
      }
      if !isOpen {
        spamTokens := None;
        spamLoading := false;
      }
    }
  }
}
