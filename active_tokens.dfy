/**
 * The "Active Tokens" tab: the vault's unique token list for one chain,
 * searched and paged in the browser. Rows can be ticked and saved to the
 * spam list in bulk, or moved there one at a time.
 */
module ActiveTokens {
  import opened Common
  import opened Text
  import opened Listing
  import opened ChainLabels

  /** A listed token; `name` and `symbol` may be missing. */
  datatype ActiveToken = ActiveToken(
    tokenAddress: string,
    chain: string,
    symbol: Option<string>,
    name: Option<string>)

  /** One entry of a save request: `{ token_address, chain }`. */
  datatype SaveEntry = SaveEntry(tokenAddress: string, chain: string)

  /** The chain the tab opens on. */
  const InitialChain: string := "solana-mainnet"

  /** The chains the chain menu offers. */
  const ChainOptions: seq<string> := ["solana-mainnet", "base-mainnet", "worldchain-mainnet", "sui-mainnet"]

  // ------------------------------------------------------------ list pipeline

  /** `[name, symbol, token_address, chain]`, each lowered, joined with spaces; a missing name or symbol is "". */
  function SearchableText(t: ActiveToken): string {
    Join([Lower(t.name.GetOr("")), Lower(t.symbol.GetOr("")), Lower(t.tokenAddress), Lower(t.chain)], " ")
  }

  /** A blank search returns the list itself; otherwise the tokens matching every term. */
  function FilteredTokens(tokens: seq<ActiveToken>, searchText: string): seq<ActiveToken> {
    Search(tokens, searchText, SearchableText)
  }

  /** Whether one token survives the search. */
  predicate Kept(t: ActiveToken, searchText: string) {
    SearchKeeps(searchText, SearchableText(t))
  }

  /** The search keeps, in order, exactly the tokens whose name, symbol, address or chain text contains every term. */
  lemma FilteredTokensSpec(tokens: seq<ActiveToken>, searchText: string)
    ensures Trim(searchText) == "" ==> FilteredTokens(tokens, searchText) == tokens
    ensures IsSubsequence(FilteredTokens(tokens, searchText), tokens)
    ensures forall t :: t in FilteredTokens(tokens, searchText) <==> t in tokens && Kept(t, searchText)
  {
    SearchSpec(tokens, searchText, SearchableText);
  }

  /** The rows of the current page. */
  function PaginatedTokens(tokens: seq<ActiveToken>, searchText: string, current: int, pageSize: int): seq<ActiveToken> {
    Page(FilteredTokens(tokens, searchText), current, pageSize)
  }

  /** A page holds at most `pageSize` rows, all of them kept, and is empty past the end of the filtered list. */
  lemma PaginatedTokensSpec(tokens: seq<ActiveToken>, searchText: string, current: int, pageSize: int)
    requires current >= 1 && pageSize >= 0
    ensures var page := PaginatedTokens(tokens, searchText, current, pageSize);
      && |page| <= pageSize
      && (PageStart(current, pageSize) >= |FilteredTokens(tokens, searchText)| ==> page == [])
      && (forall t :: t in page ==> t in tokens && Kept(t, searchText))
  {
    PageWindow(FilteredTokens(tokens, searchText), current, pageSize);
    PageWithin(FilteredTokens(tokens, searchText), current, pageSize);
    FilteredTokensSpec(tokens, searchText);
  }

  /** The Chain column shows the chain label of the row's chain. */
  function ChainCell(t: ActiveToken): string {
    ChainTitle(t.chain)
  }

  // ------------------------------------------------------------ selection

  /** A JavaScript `Set` of addresses: its members in insertion order, each once. */
  predicate NoDuplicates(s: seq<string>) {
    forall i, j :: 0 <= i < j < |s| ==> s[i] != s[j]
  }

  function Without(s: seq<string>, x: string): seq<string> {
    Filter(s, (y: string) => y != x)
  }

  /** The selection after a checkbox change: `add` appends a new member, `delete` removes it. */
  function ToggledSelection(selected: seq<string>, address: string, checked: bool): seq<string> {
    if checked then (if address in selected then selected else selected + [address])
    else Without(selected, address)
  }

  lemma {:induction false} FilterKeepsDistinct(s: seq<string>, keep: string -> bool)
    requires NoDuplicates(s)
    ensures NoDuplicates(Filter(s, keep))
  {
    if s != [] {
      FilterKeepsDistinct(s[1..], keep);
      FilterCounts(s[1..], keep, s[0]);
      assert s[0] !in s[1..] by {
        forall k | 0 <= k < |s[1..]|
          ensures s[1..][k] != s[0]
        {
          assert s[1..][k] == s[k + 1];
        }
      }
      var r := Filter(s, keep);
      var rest := Filter(s[1..], keep);
      assert r == (if keep(s[0]) then [s[0]] else []) + rest;
    }
  }

  lemma WithoutSpec(s: seq<string>, x: string)
    requires NoDuplicates(s)
    ensures NoDuplicates(Without(s, x))
    ensures forall y :: y in Without(s, x) <==> y in s && y != x
  {
    var keep := (y: string) => y != x;
    forall y
      ensures y in Without(s, x) <==> y in s && y != x
    {
      FilterCounts(s, keep, y);
    }
    FilterKeepsDistinct(s, keep);
  }

  /**
   * A checkbox change touches only its own address: when checked the address
   * is a member, when unchecked it is not, every other address keeps its
   * membership, and the selection stays a set.
   */
  lemma ToggledSelectionSpec(selected: seq<string>, address: string, checked: bool)
    requires NoDuplicates(selected)
    ensures NoDuplicates(ToggledSelection(selected, address, checked))
    ensures address in ToggledSelection(selected, address, checked) <==> checked
    ensures forall y :: y != address ==> (y in ToggledSelection(selected, address, checked) <==> y in selected)
  {
    if !checked {
      WithoutSpec(selected, address);
    }
  }

  /** The bulk-save payload: one entry per selected address, in selection order, all on the chosen chain. */
  function SavePayload(selected: seq<string>, selectedChain: string): (r: seq<SaveEntry>)
    ensures |r| == |selected|
    ensures forall k :: 0 <= k < |r| ==> r[k] == SaveEntry(selected[k], selectedChain)
  {
    seq(|selected|, k requires 0 <= k < |selected| => SaveEntry(selected[k], selectedChain))
  }

  /** Moving one row sends a one-entry list with that row's own address and chain. */
  function MoveSinglePayload(tokenAddress: string, chain: string): (r: seq<SaveEntry>)
    ensures |r| == 1 && r[0].tokenAddress == tokenAddress && r[0].chain == chain
  {
    [SaveEntry(tokenAddress, chain)]
  }

  /** The list request's parameters, or nothing when no chain is chosen. */
  function FetchParams(selectedChain: string): (r: Option<seq<(string, string)>>)
    ensures r.None? <==> selectedChain == ""
    ensures r.Some? ==> r.value == [("chain", selectedChain)]
  {
    if selectedChain == "" then None else Some([("chain", selectedChain)])
  }

  /** The tab's state. */
  class ActiveTokensView {
    var selectedChain: string
    var loading: bool
    var saveLoading: bool
    var moveLoading: map<string, bool>
    var tokens: seq<ActiveToken>
    var searchText: string
    var selectedTokens: seq<string>
    var error: Option<ViewError>
    var isMoveModalVisible: bool
    var selectedToken: Option<ActiveToken>
    var current: int
    var pageSize: int
    var total: int

    /** The pager points at a real page and the selection is a set. */
    predicate Valid()
      reads this
    {
      current >= 1 && pageSize >= 1 && NoDuplicates(selectedTokens)
    }

    constructor ()
      ensures Valid()
      ensures selectedChain == InitialChain
      ensures !loading && !saveLoading && moveLoading == map[] && tokens == []
      ensures searchText == "" && selectedTokens == [] && error == None
      ensures !isMoveModalVisible && selectedToken == None
      ensures current == 1 && pageSize == 15 && total == 0
    {
      selectedChain := InitialChain;
      loading := false;
      saveLoading := false;
      moveLoading := map[];
      tokens := [];
      searchText := "";
      selectedTokens := [];
      error := None;
      isMoveModalVisible := false;
      selectedToken := None;
      current := 1;
      pageSize := 15;
      total := 0;
    }

    /** The rows on screen. */
    function Rows(): (r: seq<ActiveToken>)
      reads this
      requires Valid()
      ensures |r| <= pageSize
      ensures forall t :: t in r ==> t in tokens && Kept(t, searchText)
    {
      PaginatedTokensSpec(tokens, searchText, current, pageSize);
      PaginatedTokens(tokens, searchText, current, pageSize)
    }

    /** Whether a row's checkbox is ticked. */
    predicate IsSelected(address: string)
      reads this
    {
      address in selectedTokens
    }

    /** A fetch starts only when a chain is chosen; otherwise nothing changes. */
    method BeginFetch() returns (params: Option<seq<(string, string)>>)
      modifies this`loading, this`error
      ensures params == FetchParams(selectedChain)
      ensures params.Some? ==> loading && error == None
      ensures params.None? ==> loading == old(loading) && error == old(error)
    {
      params := FetchParams(selectedChain);
      if params.Some? {
        loading := true;
        error := None;
      }
    }

    method FetchSucceeded(response: Option<seq<ActiveToken>>)
      modifies this`tokens, this`total, this`loading
      ensures tokens == ResponseList(response) && total == |tokens| && !loading
    {
      tokens := ResponseList(response);
      total := |tokens|;
      loading := false;
    }

    method FetchFailed(err: Thrown) returns (toast: Option<string>)
      modifies this`error, this`tokens, this`loading
      ensures error == Some(NormalizeError(err, "Failed to fetch tokens"))
      ensures tokens == [] && !loading
      ensures toast == Toast(error.value)
    {
      var e := NormalizeError(err, "Failed to fetch tokens");
      error := Some(e);
      tokens := [];
      loading := false;
      toast := Toast(e);
    }

    /**
     * The effect that runs when the tab or the chain changes: on the active
     * tab it goes back to page 1 and then starts a fetch.
     */
    method OnTabOrChain(activeTab: string) returns (params: Option<seq<(string, string)>>)
      requires Valid()
      modifies this`current, this`loading, this`error
      ensures Valid()
      ensures activeTab == "active" ==> current == 1 && params == FetchParams(selectedChain)
      ensures activeTab == "active" && params.Some? ==> loading && error == None
      ensures activeTab != "active" ==> params == None && current == old(current) && loading == old(loading) && error == old(error)
    {
      params := None;
      if activeTab == "active" {
        current := 1;
        params := BeginFetch();
      }
    }

    /** The chain menu only records the chain; the effect above does the rest. */
    method SelectChain(chain: string)
      modifies this`selectedChain
      ensures selectedChain == chain
    {
      selectedChain := chain;
    }

    /** Typing in the search box stores the text and goes back to page 1. */
    method SetSearch(text: string)
      requires Valid()
      modifies this`searchText, this`current
      ensures Valid()
      ensures searchText == text && current == 1
    {
      searchText := text;
      current := 1;
    }

    /** The pager moves to a page; a missing page size (0) falls back to 20. */
    method ChangePage(page: int, size: int)
      requires Valid()
      requires page >= 1 && size >= 0
      modifies this`current, this`pageSize
      ensures Valid()
      ensures current == page && pageSize == PageSizeOr(size, 20)
    {
      current := page;
      pageSize := PageSizeOr(size, 20);
    }

    /** A checkbox changed: the selection is copied and the address added or deleted. */
    method Toggle(address: string, checked: bool)
      requires Valid()
      modifies this`selectedTokens
      ensures Valid()
      ensures selectedTokens == ToggledSelection(old(selectedTokens), address, checked)
      ensures IsSelected(address) <==> checked
      ensures forall y :: y != address ==> (IsSelected(y) <==> y in old(selectedTokens))
    {
      ToggledSelectionSpec(selectedTokens, address, checked);
      var copy := selectedTokens;
      if checked {
        if address !in copy {
          copy := copy + [address];
        }
      } else {
        copy := Without(copy, address);
      }
      selectedTokens := copy;
    }

    /**
     * The save button: with nothing selected it only warns and sends nothing;
     * otherwise it starts the request and yields its payload.
     */
    method BeginSave() returns (payload: Option<seq<SaveEntry>>, warning: Option<string>)
      modifies this`saveLoading, this`error
      ensures |selectedTokens| == 0 ==> payload == None && warning == Some("Please select at least one token")
      ensures |selectedTokens| == 0 ==> saveLoading == old(saveLoading) && error == old(error)
      ensures |selectedTokens| > 0 ==> payload == Some(SavePayload(selectedTokens, selectedChain)) && warning == None
      ensures |selectedTokens| > 0 ==> saveLoading && error == None
    {
      if |selectedTokens| == 0 {
        payload := None;
        warning := Some("Please select at least one token");
        return;
      }
      saveLoading := true;
      error := None;
      payload := Some(SavePayload(selectedTokens, selectedChain));
      warning := None;
    }

    /**
     * The save ended. Success toasts, clears the selection and asks for the
     * list to be fetched again (`refetch`); failure keeps the selection and
     * stores the error. The spinner stops either way.
     */
    method EndSave(failure: Option<Thrown>) returns (toast: Option<string>, refetch: bool)
      requires Valid()
      modifies this`selectedTokens, this`error, this`saveLoading
      ensures Valid()
      ensures failure.None? ==> selectedTokens == [] && error == old(error) && toast == Some("Tokens moved to spam successfully")
      ensures refetch <==> failure.None?
      ensures failure.Some? ==> selectedTokens == old(selectedTokens)
      ensures failure.Some? ==> error == Some(NormalizeError(failure.value, "Failed to save tokens")) && toast == Toast(error.value)
      ensures !saveLoading
    {
      toast, refetch := Some("Tokens moved to spam successfully"), true;
      if failure.None? {
        selectedTokens := [];
      } else {
        var e := NormalizeError(failure.value, "Failed to save tokens");
        error := Some(e);
        toast := Toast(e);
        refetch := false;
      }
      saveLoading := false;
    }

    /** Moving one row starts: its key is busy, and the one-entry payload is sent. */
    method BeginMove(tokenAddress: string, chain: string) returns (payload: seq<SaveEntry>)
      modifies this`moveLoading, this`error
      ensures moveLoading == old(moveLoading)[RowKey(tokenAddress, chain) := true]
      ensures error == None
      ensures payload == MoveSinglePayload(tokenAddress, chain)
    {
      moveLoading := moveLoading[RowKey(tokenAddress, chain) := true];
      error := None;
      payload := MoveSinglePayload(tokenAddress, chain);
    }

    /**
     * Moving one row ended: its key is released whether or not it failed.
     * Success toasts and asks for the list to be fetched again.
     */
    method EndMove(tokenAddress: string, chain: string, failure: Option<Thrown>) returns (toast: Option<string>, refetch: bool)
      modifies this`moveLoading, this`error
      ensures moveLoading == old(moveLoading)[RowKey(tokenAddress, chain) := false]
      ensures failure.Some? ==> error == Some(NormalizeError(failure.value, "Failed to move token")) && toast == Toast(error.value)
      ensures failure.None? ==> error == old(error) && toast == Some("Token moved to spam successfully")
      ensures refetch <==> failure.None?
    {
      toast, refetch := Some("Token moved to spam successfully"), true;
      if failure.Some? {
        var e := NormalizeError(failure.value, "Failed to move token");
        error := Some(e);
        toast := Toast(e);
        refetch := false;
      }
      moveLoading := moveLoading[RowKey(tokenAddress, chain) := false];
    }

    method ShowMoveConfirm(t: ActiveToken)
      modifies this`selectedToken, this`isMoveModalVisible
      ensures selectedToken == Some(t) && isMoveModalVisible
    {
      selectedToken := Some(t);
      isMoveModalVisible := true;
    }

    /** Confirming closes the dialog and yields the row to move, if one was selected. */
    method MoveConfirm() returns (target: Option<(string, string)>)
      modifies this`selectedToken, this`isMoveModalVisible
      ensures old(selectedToken).Some? ==> target == Some((old(selectedToken).value.tokenAddress, old(selectedToken).value.chain))
      ensures old(selectedToken).None? ==> target == None
      ensures selectedToken == None && !isMoveModalVisible
    {
      target := if selectedToken.Some? then Some((selectedToken.value.tokenAddress, selectedToken.value.chain)) else None;
      isMoveModalVisible := false;
      selectedToken := None;
    }

    method MoveCancel()
      modifies this`selectedToken, this`isMoveModalVisible
      ensures selectedToken == None && !isMoveModalVisible
    {
      isMoveModalVisible := false;
      selectedToken := None;
    }
  }
}
