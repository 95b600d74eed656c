/**
 * The "Spam Tokens" tab: the vault's unique spam list, narrowed in the
 * browser by the "automated" flag and the search box and shown one page at
 * a time; each row can be removed from the list or moved back to the active
 * tokens.
 */
module SpamTokens {
  import opened Common
  import opened Text
  import opened Listing
  import opened ChainLabels

  /**
   * A spam-listed token. `name` and `symbol` may be missing; `isAutomated`
   * is `true`, `false`, or missing (null or undefined).
   */
  datatype SpamToken = SpamToken(
    tokenAddress: string,
    chain: string,
    symbol: Option<string>,
    name: Option<string>,
    isAutomated: Option<bool>)

  /** A string field that is present and non-empty, i.e. truthy. */
  predicate Truthy(s: Option<string>) {
    s.Some? && s.value != ""
  }

  // ------------------------------------------------------------ automated filter

  /** "all" keeps every token, "true" and "false" keep the tokens whose flag is exactly that value, any other choice keeps everything. */
  predicate AutomatedKeeps(automatedFilter: string, flag: Option<bool>) {
    if automatedFilter == "all" then true
    else if automatedFilter == "true" then flag == Some(true)
    else if automatedFilter == "false" then flag == Some(false)
    else true
  }

  /** The Automated column: "N/A" for a missing flag, else "True" or "False". */
  function AutomatedCell(flag: Option<bool>): string {
    match flag
    case None => "N/A"
    case Some(b) => if b then "True" else "False"
  }

  /**
   * The filter and the column agree: "true" keeps exactly the rows shown as
   * "True", "false" exactly those shown as "False", so a row shown as "N/A"
   * survives neither.
   */
  lemma AutomatedFilterMatchesCell(flag: Option<bool>)
    ensures AutomatedKeeps("true", flag) <==> AutomatedCell(flag) == "True"
    ensures AutomatedKeeps("false", flag) <==> AutomatedCell(flag) == "False"
    ensures AutomatedCell(flag) == "N/A" <==> flag.None?
    ensures flag.None? ==> !AutomatedKeeps("true", flag) && !AutomatedKeeps("false", flag)
    ensures AutomatedKeeps("all", flag)
  {
  }

  // ------------------------------------------------------------ name column

  /** The Name column: the name, else the symbol, else "N/A". */
  function NameCell(t: SpamToken): string {
    if Truthy(t.name) then t.name.value
    else if Truthy(t.symbol) then t.symbol.value
    else "N/A"
  }

  /** The Name column's sort key: the same fallback, ending in "". */
  function NameSortKey(t: SpamToken): string {
    if Truthy(t.name) then t.name.value
    else if Truthy(t.symbol) then t.symbol.value
    else ""
  }

  /** The cell shows the sort key, except that a row with neither name nor symbol shows "N/A" and sorts as "". */
  lemma NameCellSortKey(t: SpamToken)
    ensures NameCell(t) != ""
    ensures NameSortKey(t) != "" ==> NameCell(t) == NameSortKey(t)
    ensures NameSortKey(t) == "" <==> !Truthy(t.name) && !Truthy(t.symbol)
    ensures NameSortKey(t) == "" ==> NameCell(t) == "N/A"
  {
  }

  // ------------------------------------------------------------ list pipeline

  /** `[name, symbol, token_address, chain]`, each lowered, joined with spaces; a missing name or symbol is "". */
  function SearchableText(t: SpamToken): string {
    Join([Lower(t.name.GetOr("")), Lower(t.symbol.GetOr("")), Lower(t.tokenAddress), Lower(t.chain)], " ")
  }

  /** The per-token test of the automated filter. */
  function AutomatedMatcher(automatedFilter: string): SpamToken -> bool {
    (t: SpamToken) => AutomatedKeeps(automatedFilter, t.isAutomated)
  }

  /** The automated filter (only for "true" and "false"), then the search. */
  function FilteredTokens(tokens: seq<SpamToken>, automatedFilter: string, searchText: string): seq<SpamToken> {
    var byFlag :=
      if automatedFilter != "all" && (automatedFilter == "true" || automatedFilter == "false")
      then Filter(tokens, AutomatedMatcher(automatedFilter))
      else tokens;
    Search(byFlag, searchText, SearchableText)
  }

  /** Whether one token survives both stages. */
  predicate Kept(t: SpamToken, automatedFilter: string, searchText: string) {
    AutomatedKeeps(automatedFilter, t.isAutomated) && SearchKeeps(searchText, SearchableText(t))
  }

  function KeptBy(automatedFilter: string, searchText: string): SpamToken -> bool {
    (t: SpamToken) => Kept(t, automatedFilter, searchText)
  }

  /** The two stages together are one filter by `Kept`. */
  lemma FilteredIsOneFilter(tokens: seq<SpamToken>, automatedFilter: string, searchText: string)
    ensures FilteredTokens(tokens, automatedFilter, searchText) == Filter(tokens, KeptBy(automatedFilter, searchText))
  {
    var byFlag := AutomatedMatcher(automatedFilter);
    var bySearch := (t: SpamToken) => SearchKeeps(searchText, SearchableText(t));
    var kept := KeptBy(automatedFilter, searchText);
    if automatedFilter == "true" || automatedFilter == "false" {
      SearchAsFilter(Filter(tokens, byFlag), searchText, SearchableText, bySearch);
      FilterFuse(tokens, byFlag, bySearch, kept);
    } else {
      SearchAsFilter(tokens, searchText, SearchableText, kept);
    }
  }

  /**
   * The result is the tokens, in their order, whose flag passes the automated
   * filter and whose name, symbol, address or chain text contains every
   * search term; "all" with a blank search passes every token through.
   */
  lemma FilteredTokensSpec(tokens: seq<SpamToken>, automatedFilter: string, searchText: string)
    ensures IsSubsequence(FilteredTokens(tokens, automatedFilter, searchText), tokens)
    ensures forall t :: t in FilteredTokens(tokens, automatedFilter, searchText) <==> t in tokens && Kept(t, automatedFilter, searchText)
    ensures automatedFilter == "all" && Trim(searchText) == "" ==> FilteredTokens(tokens, automatedFilter, searchText) == tokens
  {
    var kept := KeptBy(automatedFilter, searchText);
    FilteredIsOneFilter(tokens, automatedFilter, searchText);
    FilterIsSubsequence(tokens, kept);
    forall t
      ensures t in FilteredTokens(tokens, automatedFilter, searchText) <==> t in tokens && Kept(t, automatedFilter, searchText)
    {
      FilterCounts(tokens, kept, t);
    }
  }

  /** The rows of the current page. */
  function PaginatedTokens(tokens: seq<SpamToken>, automatedFilter: string, searchText: string, current: int, pageSize: int): seq<SpamToken> {
    Page(FilteredTokens(tokens, automatedFilter, searchText), current, pageSize)
  }

  /** A page holds at most `pageSize` rows, all of them kept, and is empty past the end of the filtered list. */
  lemma PaginatedTokensSpec(tokens: seq<SpamToken>, automatedFilter: string, searchText: string, current: int, pageSize: int)
    requires current >= 1 && pageSize >= 0
    ensures var page := PaginatedTokens(tokens, automatedFilter, searchText, current, pageSize);
      && |page| <= pageSize
      && (PageStart(current, pageSize) >= |FilteredTokens(tokens, automatedFilter, searchText)| ==> page == [])
      && (forall t :: t in page ==> t in tokens && Kept(t, automatedFilter, searchText))
  {
    PageWindow(FilteredTokens(tokens, automatedFilter, searchText), current, pageSize);
    PageWithin(FilteredTokens(tokens, automatedFilter, searchText), current, pageSize);
    FilteredTokensSpec(tokens, automatedFilter, searchText);
  }

  /** The Chain column shows the chain label of the row's chain. */
  function ChainCell(t: SpamToken): string {
    ChainTitle(t.chain)
  }

  /** The removal request's URL: `${vaultURL}spam-tokens/${tokenAddress}/${chain}`. */
  function DeleteUrl(vaultUrl: string, tokenAddress: string, chain: string): string {
    vaultUrl + "spam-tokens/" + tokenAddress + "/" + chain
  }

  /** The tab's state. */
  class SpamTokensView {
    var loading: bool
    var deleteLoading: map<string, bool>
    var moveLoading: map<string, bool>
    var tokens: seq<SpamToken>
    var searchText: string
    var automatedFilter: string
    var error: Option<ViewError>
    var isDeleteModalVisible: bool
    var isMoveModalVisible: bool
    var selectedToken: Option<SpamToken>
    var current: int
    var pageSize: int
    var total: int

    /** The pager always points at a real page of a positive size. */
    predicate Valid()
      reads this
    {
      current >= 1 && pageSize >= 1
    }

    constructor ()
      ensures Valid()
      ensures !loading && deleteLoading == map[] && moveLoading == map[] && tokens == []
      ensures searchText == "" && automatedFilter == "all" && error == None
      ensures !isDeleteModalVisible && !isMoveModalVisible && selectedToken == None
      ensures current == 1 && pageSize == 15 && total == 0
    {
      loading := false;
      deleteLoading := map[];
      moveLoading := map[];
      tokens := [];
      searchText := "";
      automatedFilter := "all";
      error := None;
      isDeleteModalVisible := false;
      isMoveModalVisible := false;
      selectedToken := None;
      current := 1;
      pageSize := 15;
      total := 0;
    }

    /** The rows on screen. */
    function Rows(): (r: seq<SpamToken>)
      reads this
      requires Valid()
      ensures |r| <= pageSize
      ensures forall t :: t in r ==> t in tokens && Kept(t, automatedFilter, searchText)
    {
      PaginatedTokensSpec(tokens, automatedFilter, searchText, current, pageSize);
      PaginatedTokens(tokens, automatedFilter, searchText, current, pageSize)
    }

    /** The "Total Spam Tokens" badge counts the filtered list, not the page. */
    function TotalBadge(): (n: nat)
      reads this
      ensures n <= |tokens|
    {
      |FilteredTokens(tokens, automatedFilter, searchText)|
    }

    /** Both action buttons of a row are disabled while either of its operations runs. */
    predicate RowBusy(key: string)
      reads this
    {
      (key in deleteLoading && deleteLoading[key]) || (key in moveLoading && moveLoading[key])
    }

    method BeginFetch()
      modifies this`loading, this`error
      ensures loading && error == None
    {
      loading := true;
      error := None;
    }

    method FetchSucceeded(response: Option<seq<SpamToken>>)
      modifies this`tokens, this`total, this`loading
      ensures tokens == ResponseList(response) && total == |tokens| && !loading
    {
      tokens := ResponseList(response);
      total := |tokens|;
      loading := false;
    }

    method FetchFailed(err: Thrown) returns (toast: Option<string>)
      modifies this`error, this`tokens, this`loading
      ensures error == Some(NormalizeError(err, "Failed to fetch spam tokens"))
      ensures tokens == [] && !loading
      ensures toast == Toast(error.value)
    {
      var e := NormalizeError(err, "Failed to fetch spam tokens");
      error := Some(e);
      tokens := [];
      loading := false;
      toast := Toast(e);
    }

    /** A removal starts: the row is busy. */
    method BeginDelete(tokenAddress: string, chain: string)
      modifies this`deleteLoading, this`error
      ensures deleteLoading == old(deleteLoading)[RowKey(tokenAddress, chain) := true]
      ensures RowBusy(RowKey(tokenAddress, chain))
      ensures error == None
    {
      deleteLoading := deleteLoading[RowKey(tokenAddress, chain) := true];
      error := None;
    }

    /**
     * A removal ended: its flag is released whether or not it failed. Success
     * toasts and asks for the list to be fetched again.
     */
    method EndDelete(tokenAddress: string, chain: string, failure: Option<Thrown>) returns (toast: Option<string>, refetch: bool)
      modifies this`deleteLoading, this`error
      ensures deleteLoading == old(deleteLoading)[RowKey(tokenAddress, chain) := false]
      ensures failure.Some? ==> error == Some(NormalizeError(failure.value, "Failed to remove token from spam list")) && toast == Toast(error.value)
      ensures failure.None? ==> error == old(error) && toast == Some("Token removed from spam list")
      ensures refetch <==> failure.None?
      ensures RowBusy(RowKey(tokenAddress, chain)) <==> RowKey(tokenAddress, chain) in moveLoading && moveLoading[RowKey(tokenAddress, chain)]
    {
      toast, refetch := Some("Token removed from spam list"), true;
      if failure.Some? {
        var e := NormalizeError(failure.value, "Failed to remove token from spam list");
        error := Some(e);
        toast := Toast(e);
        refetch := false;
      }
      deleteLoading := deleteLoading[RowKey(tokenAddress, chain) := false];
    }

    /** A move starts: the row is busy. */
    method BeginMove(tokenAddress: string, chain: string)
      modifies this`moveLoading, this`error
      ensures moveLoading == old(moveLoading)[RowKey(tokenAddress, chain) := true]
      ensures RowBusy(RowKey(tokenAddress, chain))
      ensures error == None
    {
      moveLoading := moveLoading[RowKey(tokenAddress, chain) := true];
      error := None;
    }

    /**
     * A move ended: its flag is released whether or not it failed. Success
     * toasts and asks for the list to be fetched again.
     */
    method EndMove(tokenAddress: string, chain: string, failure: Option<Thrown>) returns (toast: Option<string>, refetch: bool)
      modifies this`moveLoading, this`error
      ensures moveLoading == old(moveLoading)[RowKey(tokenAddress, chain) := false]
      ensures failure.Some? ==> error == Some(NormalizeError(failure.value, "Failed to move token")) && toast == Toast(error.value)
      ensures failure.None? ==> error == old(error) && toast == Some("Token moved successfully")
      ensures refetch <==> failure.None?
      ensures RowBusy(RowKey(tokenAddress, chain)) <==> RowKey(tokenAddress, chain) in deleteLoading && deleteLoading[RowKey(tokenAddress, chain)]
    {
      toast, refetch := Some("Token moved successfully"), true;
      if failure.Some? {
        var e := NormalizeError(failure.value, "Failed to move token");
        error := Some(e);
        toast := Toast(e);
        refetch := false;
      }
      moveLoading := moveLoading[RowKey(tokenAddress, chain) := false];
    }

    method ShowDeleteConfirm(t: SpamToken)
      modifies this`selectedToken, this`isDeleteModalVisible
      ensures selectedToken == Some(t) && isDeleteModalVisible
    {
      selectedToken := Some(t);
      isDeleteModalVisible := true;
    }

    /** Confirming the removal closes the dialog and yields the row to remove, if one was selected. */
    method DeleteConfirm() returns (target: Option<(string, string)>)
      modifies this`selectedToken, this`isDeleteModalVisible
      ensures old(selectedToken).Some? ==> target == Some((old(selectedToken).value.tokenAddress, old(selectedToken).value.chain))
      ensures old(selectedToken).None? ==> target == None
      ensures selectedToken == None && !isDeleteModalVisible
    {
      target := if selectedToken.Some? then Some((selectedToken.value.tokenAddress, selectedToken.value.chain)) else None;
      isDeleteModalVisible := false;
      selectedToken := None;
    }

    method DeleteCancel()
      modifies this`selectedToken, this`isDeleteModalVisible
      ensures selectedToken == None && !isDeleteModalVisible
    {
      isDeleteModalVisible := false;
      selectedToken := None;
    }

    method ShowMoveConfirm(t: SpamToken)
      modifies this`selectedToken, this`isMoveModalVisible
      ensures selectedToken == Some(t) && isMoveModalVisible
    {
      selectedToken := Some(t);
      isMoveModalVisible := true;
    }

    /** Confirming the move closes the dialog and yields the row to move, if one was selected. */
    method MoveConfirm() returns (target: Option<(string, string)>)
      modifies this`selectedToken, this`isMoveModalVisible
      ensures old(selectedToken).Some? ==> target == Some((old(selectedToken).value.tokenAddress, old(selectedToken).value.chain))
      ensures old(selectedToken).None? ==> target == None
      ensures selectedToken == None && !isMoveModalVisible
    {
      target := if selectedToken.Some? then Some((selectedToken.value.tokenAddress, selectedToken.value.chain)) else None;
      isMoveModalVisible := false;
      selectedToken := None;
    }

    method MoveCancel()
      modifies this`selectedToken, this`isMoveModalVisible
      ensures selectedToken == None && !isMoveModalVisible
    {
      isMoveModalVisible := false;
      selectedToken := None;
    }

    /** Choosing an automated option narrows the list and goes back to page 1. */
    method SelectAutomated(option: string)
      requires Valid()
      modifies this`automatedFilter, this`current
      ensures Valid()
      ensures automatedFilter == option && current == 1
    {
      automatedFilter := option;
      current := 1;
    }

    /** Typing, submitting or clearing the search box stores the text and goes back to page 1. */
    method SetSearch(text: string)
      requires Valid()
      modifies this`searchText, this`current
      ensures Valid()
      ensures searchText == text && current == 1
    {
      searchText := text;
      current := 1;
    }

    /** The pager moves to a page; a missing page size (0) falls back to 20. */
    method ChangePage(page: int, size: int)
      requires Valid()
      requires page >= 1 && size >= 0
      modifies this`current, this`pageSize
      ensures Valid()
      ensures current == page && pageSize == PageSizeOr(size, 20)
    {
      current := page;
      pageSize := PageSizeOr(size, 20);
    }
  }
}
