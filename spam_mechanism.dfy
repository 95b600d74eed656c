/**
 * The "Spam Mechanism" tab: tokens the vault's scoring mechanism flagged,
 * fetched with an optional chain and sort order, then narrowed in the
 * browser by a score bucket and the search box, and shown one page at a time.
 */
module SpamMechanism {
  import opened Common
  import opened Text
  import opened Listing
  import opened ChainLabels

  /** A flagged token; `score` holds the value `Number(token.score)` gives. */
  datatype MechToken = MechToken(
    id: int,
    tokenAddress: string,
    name: Option<string>,
    chain: string,
    score: JsNumber)

  // ------------------------------------------------------------ request URL

  /** The query parameters of the list request, in the order they are appended. */
  function MechanismParams(selectedChain: string, scoreSort: string, dateSort: string): seq<(string, string)> {
    (if selectedChain != "" then [("chain", selectedChain)] else [])
    + (if scoreSort != "" then [("order_by", scoreSort)] else [])
    + (if dateSort != "" then [("order_by_date", dateSort)] else [])
  }

  /** `URLSearchParams.toString()` for values that need no percent-encoding. */
  function QueryString(params: seq<(string, string)>): string {
    Join(seq(|params|, k requires 0 <= k < |params| => params[k].0 + "=" + params[k].1), "&")
  }

  /** The list request URL: the query string is attached with '?' only when it is non-empty. */
  function MechanismUrl(vaultUrl: string, selectedChain: string, scoreSort: string, dateSort: string): string {
    var query := QueryString(MechanismParams(selectedChain, scoreSort, dateSort));
    if query != "" then vaultUrl + "spam-tokens/mechanism?" + query
    else vaultUrl + "spam-tokens/mechanism"
  }

  /** Each parameter is sent exactly when its state is non-empty, carrying that state. */
  lemma MechanismParamsSpec(selectedChain: string, scoreSort: string, dateSort: string)
    ensures var ps := MechanismParams(selectedChain, scoreSort, dateSort);
      && (ps == [] <==> selectedChain == "" && scoreSort == "" && dateSort == "")
      && (forall v :: ("chain", v) in ps <==> selectedChain != "" && v == selectedChain)
      && (forall v :: ("order_by", v) in ps <==> scoreSort != "" && v == scoreSort)
      && (forall v :: ("order_by_date", v) in ps <==> dateSort != "" && v == dateSort)
  {
    var ps := MechanismParams(selectedChain, scoreSort, dateSort);
    forall v
      ensures ("chain", v) in ps <==> selectedChain != "" && v == selectedChain
      ensures ("order_by", v) in ps <==> scoreSort != "" && v == scoreSort
      ensures ("order_by_date", v) in ps <==> dateSort != "" && v == dateSort
    {
      assert "chain" != "order_by" && "chain" != "order_by_date" && "order_by" != "order_by_date";
    }
  }

  /** Where a parameter name falls in the order the request appends them. */
  function ParamRank(name: string): nat {
    if name == "chain" then 0 else if name == "order_by" then 1 else 2
  }

  /**
   * The parameters come in the order `chain`, `order_by`, `order_by_date`:
   * along the list the ranks strictly increase, so no name repeats and none
   * comes before one appended ahead of it.
   */
  lemma MechanismParamsOrder(selectedChain: string, scoreSort: string, dateSort: string)
    ensures var ps := MechanismParams(selectedChain, scoreSort, dateSort);
      forall i, j :: 0 <= i < j < |ps| ==> ParamRank(ps[i].0) < ParamRank(ps[j].0)
  {
    var ps := MechanismParams(selectedChain, scoreSort, dateSort);
    assert ParamRank("chain") == 0 && ParamRank("order_by") == 1;
    assert ParamRank("order_by_date") == 2 by {
      assert "order_by_date" != "chain" && "order_by_date" != "order_by";
    }
    forall i, j | 0 <= i < j < |ps|
      ensures ParamRank(ps[i].0) < ParamRank(ps[j].0)
    {
      var a := if selectedChain != "" then [("chain", selectedChain)] else [];
      var b := if scoreSort != "" then [("order_by", scoreSort)] else [];
      var c := if dateSort != "" then [("order_by_date", dateSort)] else [];
      assert ps == a + b + c;
      assert forall k :: 0 <= k < |a| ==> ParamRank((a + b + c)[k].0) == 0;
      assert forall k :: |a| <= k < |a| + |b| ==> ParamRank((a + b + c)[k].0) == 1;
      assert forall k :: |a| + |b| <= k < |ps| ==> ParamRank((a + b + c)[k].0) == 2;
    }
  }

  /** The URL carries a '?' and the encoded parameters exactly when some parameter is set. */
  lemma MechanismUrlSpec(vaultUrl: string, selectedChain: string, scoreSort: string, dateSort: string)
    ensures var ps := MechanismParams(selectedChain, scoreSort, dateSort);
      var url := MechanismUrl(vaultUrl, selectedChain, scoreSort, dateSort);
      && (ps == [] ==> url == vaultUrl + "spam-tokens/mechanism")
      && (ps != [] ==> url == vaultUrl + "spam-tokens/mechanism?" + QueryString(ps))
  {
    var ps := MechanismParams(selectedChain, scoreSort, dateSort);
    if ps != [] {
      var parts := seq(|ps|, k requires 0 <= k < |ps| => ps[k].0 + "=" + ps[k].1);
      assert |parts[0]| >= 1;
      JoinStartsWithFirst(parts, "&");
    }
  }

  lemma JoinStartsWithFirst(parts: seq<string>, sep: string)
    requires |parts| >= 1
    ensures parts[0] <= Join(parts, sep)
  {
  }

  // ------------------------------------------------------------ score buckets

  /** The score-range options of the filter menu. */
  const ScoreRanges: seq<string> := ["below-50", "50-60", "60-70", "70-80", "80-90", "90-100"]

  /** Whether a score falls in the chosen range; a comparison with NaN is false, and an unknown range keeps everything. */
  predicate ScoreBucketKeeps(scoreRange: string, score: JsNumber) {
    match scoreRange
    case "below-50" => score.Num? && score.val < 50.0
    case "50-60" => score.Num? && 50.0 <= score.val < 60.0
    case "60-70" => score.Num? && 60.0 <= score.val < 70.0
    case "70-80" => score.Num? && 70.0 <= score.val < 80.0
    case "80-90" => score.Num? && 80.0 <= score.val < 90.0
    case "90-100" => score.Num? && 90.0 <= score.val <= 100.0
    case _ => true
  }

  /** The lower bound of the k-th range after "below-50". */
  function BucketLow(k: nat): real {
    50.0 + 10.0 * (k as real)
  }

  /**
   * The ranges "50-60" to "80-90" are half-open [lo, lo + 10), "90-100" is
   * closed, "below-50" is everything under 50, and anything else (the empty
   * choice included) keeps every token.
   */
  lemma ScoreBucketBounds(score: JsNumber)
    ensures ScoreBucketKeeps("below-50", score) <==> score.Num? && score.val < 50.0
    ensures forall k :: 1 <= k <= 4 ==>
      (ScoreBucketKeeps(ScoreRanges[k], score) <==> score.Num? && BucketLow(k - 1) <= score.val < BucketLow(k - 1) + 10.0)
    ensures ScoreBucketKeeps("90-100", score) <==> score.Num? && 90.0 <= score.val <= 100.0
    ensures forall r :: r !in ScoreRanges ==> ScoreBucketKeeps(r, score)
  {
  }

  /** A NaN score is kept by no range, a score in [0, 100] by exactly one, a score above 100 by none. */
  lemma ScoreBucketsPartition(score: JsNumber)
    ensures score.NaN? ==> forall k :: 0 <= k < |ScoreRanges| ==> !ScoreBucketKeeps(ScoreRanges[k], score)
    ensures score.Num? && score.val <= 100.0 ==> exists k :: 0 <= k < |ScoreRanges| && ScoreBucketKeeps(ScoreRanges[k], score)
    ensures score.Num? && score.val > 100.0 ==> forall k :: 0 <= k < |ScoreRanges| ==> !ScoreBucketKeeps(ScoreRanges[k], score)
    ensures forall j, k :: 0 <= j < k < |ScoreRanges| ==> !(ScoreBucketKeeps(ScoreRanges[j], score) && ScoreBucketKeeps(ScoreRanges[k], score))
  {
    if score.Num? && score.val <= 100.0 {
      var v := score.val;
      var k := if v < 50.0 then 0 else if v < 60.0 then 1 else if v < 70.0 then 2 else if v < 80.0 then 3 else if v < 90.0 then 4 else 5;
      assert ScoreBucketKeeps(ScoreRanges[k], score);
    }
  }

  // ------------------------------------------------------------ list pipeline

  /** `[name?.toLowerCase() || "", token_address.toLowerCase(), chain.toLowerCase()].join(" ")` */
  function SearchableText(t: MechToken): string {
    Join([Lower(t.name.GetOr("")), Lower(t.tokenAddress), Lower(t.chain)], " ")
  }

  /** The score filter (only when a range is chosen), then the search. */
  function FilteredTokens(tokens: seq<MechToken>, scoreRange: string, searchText: string): seq<MechToken> {
    var byScore := if scoreRange != "" then Filter(tokens, InRange(scoreRange)) else tokens;
    Search(byScore, searchText, SearchableText)
  }

  /** The per-token test of the score filter. */
  function InRange(scoreRange: string): MechToken -> bool {
    (t: MechToken) => ScoreBucketKeeps(scoreRange, t.score)
  }

  /** Whether one token survives both stages. */
  predicate Kept(t: MechToken, scoreRange: string, searchText: string) {
    ScoreBucketKeeps(scoreRange, t.score) && SearchKeeps(searchText, SearchableText(t))
  }

  /** The empty range keeps every score. */
  lemma EmptyRangeKeepsAll(score: JsNumber)
    ensures ScoreBucketKeeps("", score)
  {
  }

  function KeptBy(scoreRange: string, searchText: string): MechToken -> bool {
    (t: MechToken) => Kept(t, scoreRange, searchText)
  }

  /** The two stages together are one filter by `Kept`. */
  lemma FilteredIsOneFilter(tokens: seq<MechToken>, scoreRange: string, searchText: string)
    ensures FilteredTokens(tokens, scoreRange, searchText) == Filter(tokens, KeptBy(scoreRange, searchText))
  {
    var byRange := InRange(scoreRange);
    var bySearch := (t: MechToken) => SearchKeeps(searchText, SearchableText(t));
    var kept := KeptBy(scoreRange, searchText);
    if scoreRange == "" {
      forall k | 0 <= k < |tokens|
        ensures kept(tokens[k]) == SearchKeeps(searchText, SearchableText(tokens[k]))
      {
        EmptyRangeKeepsAll(tokens[k].score);
      }
      SearchAsFilter(tokens, searchText, SearchableText, kept);
    } else {
      var byScore := Filter(tokens, byRange);
      SearchAsFilter(byScore, searchText, SearchableText, bySearch);
      FilterFuse(tokens, byRange, bySearch, kept);
    }
  }

  /**
   * The result is the tokens, in their order, whose score is in the range and
   * whose searchable text contains every search term; an empty range with a
   * blank search passes every token through.
   */
  lemma FilteredTokensSpec(tokens: seq<MechToken>, scoreRange: string, searchText: string)
    ensures IsSubsequence(FilteredTokens(tokens, scoreRange, searchText), tokens)
    ensures forall t :: t in FilteredTokens(tokens, scoreRange, searchText) <==> t in tokens && Kept(t, scoreRange, searchText)
    ensures scoreRange == "" && Trim(searchText) == "" ==> FilteredTokens(tokens, scoreRange, searchText) == tokens
  {
    var kept := KeptBy(scoreRange, searchText);
    FilteredIsOneFilter(tokens, scoreRange, searchText);
    FilterIsSubsequence(tokens, kept);
    forall t
      ensures t in FilteredTokens(tokens, scoreRange, searchText) <==> t in tokens && Kept(t, scoreRange, searchText)
    {
      FilterCounts(tokens, kept, t);
    }
  }

  /** The rows of the current page: `filteredTokens.slice(start, start + pageSize)`. */
  function PaginatedTokens(tokens: seq<MechToken>, scoreRange: string, searchText: string, current: int, pageSize: int): seq<MechToken> {
    Page(FilteredTokens(tokens, scoreRange, searchText), current, pageSize)
  }

  /** A page holds at most `pageSize` rows, all of them kept, and is empty past the end of the filtered list. */
  lemma PaginatedTokensSpec(tokens: seq<MechToken>, scoreRange: string, searchText: string, current: int, pageSize: int)
    requires current >= 1 && pageSize >= 0
    ensures var page := PaginatedTokens(tokens, scoreRange, searchText, current, pageSize);
      && |page| <= pageSize
      && (PageStart(current, pageSize) >= |FilteredTokens(tokens, scoreRange, searchText)| ==> page == [])
      && (forall t :: t in page ==> t in tokens && Kept(t, scoreRange, searchText))
  {
    var f := FilteredTokens(tokens, scoreRange, searchText);
    PageWindow(f, current, pageSize);
    PageWithin(f, current, pageSize);
    FilteredTokensSpec(tokens, scoreRange, searchText);
  }

  /** The Chain column shows the chain label of the row's chain. */
  function ChainCell(t: MechToken): string {
    ChainTitle(t.chain)
  }

  /** The tab's state. The delete-loading map has no writer in the tab, so it stays empty. */
  class SpamMechanismView {
    var loading: bool
    var moveLoading: map<string, bool>
    var deleteLoading: map<string, bool>
    var tokens: seq<MechToken>
    var searchText: string
    var selectedChain: string
    var scoreRange: string
    var scoreSort: string
    var dateSort: string
    var error: Option<ViewError>
    var isMoveModalVisible: bool
    var selectedToken: Option<MechToken>
    var current: int
    var pageSize: int
    var total: int

    /** The pager always points at a real page of a positive size. */
    predicate Valid()
      reads this
    {
      current >= 1 && pageSize >= 1
    }

    constructor ()
      ensures Valid()
      ensures !loading && moveLoading == map[] && deleteLoading == map[] && tokens == []
      ensures searchText == "" && selectedChain == "" && scoreRange == "" && scoreSort == "" && dateSort == ""
      ensures error == None && !isMoveModalVisible && selectedToken == None
      ensures current == 1 && pageSize == 15 && total == 0
    {
      loading := false;
      moveLoading := map[];
      deleteLoading := map[];
      tokens := [];
      searchText := "";
      selectedChain := "";
      scoreRange := "";
      scoreSort := "";
      dateSort := "";
      error := None;
      isMoveModalVisible := false;
      selectedToken := None;
      current := 1;
      pageSize := 15;
      total := 0;
    }

    /** The URL the next fetch requests. */
    function RequestUrl(vaultUrl: string): string
      reads this
    {
      MechanismUrl(vaultUrl, selectedChain, scoreSort, dateSort)
    }

    /** The rows on screen. */
    function Rows(): (r: seq<MechToken>)
      reads this
      requires Valid()
      ensures |r| <= pageSize
      ensures forall t :: t in r ==> t in tokens && Kept(t, scoreRange, searchText)
    {
      PaginatedTokensSpec(tokens, scoreRange, searchText, current, pageSize);
      PaginatedTokens(tokens, scoreRange, searchText, current, pageSize)
    }

    /** Whether both action buttons of a row are disabled. */
    predicate RowBusy(key: string)
      reads this
    {
      (key in deleteLoading && deleteLoading[key]) || (key in moveLoading && moveLoading[key])
    }

    /** A fetch starts: the spinner shows and the previous error is cleared. */
    method BeginFetch()
      modifies this`loading, this`error
      ensures loading && error == None
    {
      loading := true;
      error := None;
    }

    /** A fetch answered: the list is replaced and the pager total is its length. */
    method FetchSucceeded(response: Option<seq<MechToken>>)
      modifies this`tokens, this`total, this`loading
      ensures tokens == ResponseList(response) && total == |tokens| && !loading
    {
      tokens := ResponseList(response);
      total := |tokens|;
      loading := false;
    }

    /** A fetch failed: the error is stored, the list emptied, and a string error raised as a toast. */
    method FetchFailed(err: Thrown) returns (toast: Option<string>)
      modifies this`error, this`tokens, this`loading
      ensures error == Some(NormalizeError(err, "Failed to fetch spam tokens"))
      ensures tokens == [] && !loading
      ensures toast == Toast(error.value)
    {
      var e := NormalizeError(err, "Failed to fetch spam tokens");
      error := Some(e);
      tokens := [];
      loading := false;
      toast := Toast(e);
    }

    /** The move of one row starts: its key is marked busy. */
    method BeginMove(tokenAddress: string, chain: string)
      modifies this`moveLoading, this`error
      ensures moveLoading == old(moveLoading)[RowKey(tokenAddress, chain) := true]
      ensures RowBusy(RowKey(tokenAddress, chain))
      ensures error == None
    {
      moveLoading := moveLoading[RowKey(tokenAddress, chain) := true];
      error := None;
    }

    /**
     * The move of one row ended, with the failure if there was one: its key is
     * released either way. Success toasts and asks for the list to be fetched again.
     */
    method EndMove(tokenAddress: string, chain: string, failure: Option<Thrown>) returns (toast: Option<string>, refetch: bool)
      modifies this`moveLoading, this`error
      ensures moveLoading == old(moveLoading)[RowKey(tokenAddress, chain) := false]
      ensures failure.Some? ==> error == Some(NormalizeError(failure.value, "Failed to move token")) && toast == Toast(error.value)
      ensures failure.None? ==> error == old(error) && toast == Some("Token moved successfully")
      ensures refetch <==> failure.None?
      ensures RowBusy(RowKey(tokenAddress, chain)) <==> RowKey(tokenAddress, chain) in deleteLoading && deleteLoading[RowKey(tokenAddress, chain)]
    {
      toast, refetch := Some("Token moved successfully"), true;
      if failure.Some? {
        var e := NormalizeError(failure.value, "Failed to move token");
        error := Some(e);
        toast := Toast(e);
        refetch := false;
      }
      moveLoading := moveLoading[RowKey(tokenAddress, chain) := false];
    }

    /** The move button opens the confirmation for that row. */
    method ShowMoveConfirm(t: MechToken)
      modifies this`selectedToken, this`isMoveModalVisible
      ensures selectedToken == Some(t) && isMoveModalVisible
    {
      selectedToken := Some(t);
      isMoveModalVisible := true;
    }

    /** Confirming closes the dialog and yields the address and chain to move, if a row was selected. */
    method MoveConfirm() returns (target: Option<(string, string)>)
      modifies this`selectedToken, this`isMoveModalVisible
      ensures old(selectedToken).Some? ==> target == Some((old(selectedToken).value.tokenAddress, old(selectedToken).value.chain))
      ensures old(selectedToken).None? ==> target == None
      ensures selectedToken == None && !isMoveModalVisible
    {
      target := if selectedToken.Some? then Some((selectedToken.value.tokenAddress, selectedToken.value.chain)) else None;
      isMoveModalVisible := false;
      selectedToken := None;
    }

    /** Cancelling closes the dialog and forgets the row. */
    method MoveCancel()
      modifies this`selectedToken, this`isMoveModalVisible
      ensures selectedToken == None && !isMoveModalVisible
    {
      isMoveModalVisible := false;
      selectedToken := None;
    }

    /** Choosing a chain re-queries and goes back to page 1. */
    method SelectChain(chain: string)
      requires Valid()
      modifies this`selectedChain, this`current
      ensures Valid()
      ensures selectedChain == chain && current == 1
    {
      selectedChain := chain;
      current := 1;
    }

    /** The "Sort Score" menu: it writes the date order, not the score order, and goes back to page 1. */
    method SortScoreMenu(order: string)
      requires Valid()
      requires order == "asc" || order == "desc"
      modifies this`dateSort, this`current
      ensures Valid()
      ensures dateSort == order && current == 1
    {
      dateSort := order;
      current := 1;
    }

    /** The "Sort Date" menu writes the date order and goes back to page 1. */
    method SortDateMenu(order: string)
      requires Valid()
      modifies this`dateSort, this`current
      ensures Valid()
      ensures dateSort == order && current == 1
    {
      dateSort := order;
      current := 1;
    }

    /** Choosing a score range only narrows the list; the page stays where it is. */
    method SelectScoreRange(range: string)
      modifies this`scoreRange
      ensures scoreRange == range
    {
      scoreRange := range;
    }

    /** Typing, submitting or clearing the search box stores the text and goes back to page 1. */
    method SetSearch(text: string)
      requires Valid()
      modifies this`searchText, this`current
      ensures Valid()
      ensures searchText == text && current == 1
    {
      searchText := text;
      current := 1;
    }

    /** The pager moves to a page; a missing page size (0) falls back to 20. */
    method ChangePage(page: int, size: int)
      requires Valid()
      requires page >= 1 && size >= 0
      modifies this`current, this`pageSize
      ensures Valid()
      ensures current == page && pageSize == PageSizeOr(size, 20)
      ensures size == 0 ==> pageSize == 20
    {
      current := page;
      pageSize := PageSizeOr(size, 20);
    }
  }
}
