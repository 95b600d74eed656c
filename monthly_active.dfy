/**
 * The analytics dashboard page: a filter form whose set entries become part
 * of the query keys of the volume and transaction queries (the request URLs
 * carry no parameters, so the filters never reach the server), the earn request
 * whose counts feed the Solana cards, and the loading flag the card grids
 * share.
 */
module MonthlyActive {
  import opened Common
  import opened Text
  import opened Listing
  import TransactionAnalytics
  import VolumeAnalytics
  import MetricCards

  // ------------------------------------------------------------ the form object

  /**
   * The form: a JavaScript object, as its entries in insertion order. A
   * cleared date is an entry whose value is undefined (None).
   */
  type Entries = seq<(string, Option<string>)>

  /** The entries' keys, in order. */
  function Keys(e: Entries): (r: seq<string>)
    ensures |r| == |e| && forall k :: 0 <= k < |e| ==> r[k] == e[k].0
  {
    seq(|e|, k requires 0 <= k < |e| => e[k].0)
  }

  /** An object has each key once. */
  predicate DistinctKeys(e: Entries) {
    forall i, j :: 0 <= i < j < |e| ==> e[i].0 != e[j].0
  }

  /** `form[name]`: None both for a missing key and for an undefined value. */
  function Get(e: Entries, name: string): (r: Option<string>)
    ensures r.Some? ==> (name, r) in e
    ensures name !in Keys(e) ==> r.None?
  {
    if e == [] then None
    else if e[0].0 == name then e[0].1
    else
      assert forall k :: 0 <= k < |e| - 1 ==> Keys(e[1..])[k] == Keys(e)[k + 1];
      Get(e[1..], name)
  }

  /** `{ ...prev, [name]: value }`: an existing key keeps its place, a new one goes last. */
  function Put(e: Entries, name: string, value: Option<string>): (r: Entries)
    ensures Keys(r) == if name in Keys(e) then Keys(e) else Keys(e) + [name]
  {
    if e == [] then [(name, value)]
    else if e[0].0 == name then
      var r := [(name, value)] + e[1..];
      assert Keys(r) == Keys(e);
      r
    else
      var rest := Put(e[1..], name, value);
      var r := [e[0]] + rest;
      KeysCons(e[0], e[1..]);
      KeysCons(e[0], rest);
      assert e == [e[0]] + e[1..];
      PutKeysStep(e[0].0, name, Keys(e[1..]), Keys(rest));
      r
  }

  lemma KeysCons(x: (string, Option<string>), rest: Entries)
    ensures Keys([x] + rest) == [x.0] + Keys(rest)
  {
    assert forall k :: 1 <= k <= |rest| ==> ([x] + rest)[k] == rest[k - 1];
  }

  /** The key list `Put` leaves behind a head key other than the written one. */
  lemma PutKeysStep(h: string, name: string, tail: seq<string>, rest: seq<string>)
    requires h != name
    requires rest == if name in tail then tail else tail + [name]
    ensures [h] + rest == if name in [h] + tail then [h] + tail else [h] + tail + [name]
  {
    assert name in [h] + tail <==> name in tail;
  }

  /** The written field reads back as written. */
  lemma {:induction false} PutGet(e: Entries, name: string, value: Option<string>)
    ensures Get(Put(e, name, value), name) == value
  {
    if e != [] && e[0].0 != name {
      PutGet(e[1..], name, value);
    }
  }

  /** Every other field reads as before. */
  lemma {:induction false} PutOther(e: Entries, name: string, value: Option<string>, m: string)
    requires m != name
    ensures Get(Put(e, name, value), m) == Get(e, m)
  {
    if e != [] && e[0].0 != name {
      PutOther(e[1..], name, value, m);
    }
  }

  /** Writing a field keeps the keys distinct. */
  lemma PutDistinct(e: Entries, name: string, value: Option<string>)
    requires DistinctKeys(e)
    ensures DistinctKeys(Put(e, name, value))
  {
    var r := Put(e, name, value);
    var ks := Keys(r);
    forall i, j | 0 <= i < j < |r|
      ensures r[i].0 != r[j].0
    {
      assert r[i].0 == ks[i] && r[j].0 == ks[j];
      if name !in Keys(e) && j == |e| {
        assert ks[i] == Keys(e)[i];
      } else {
        assert ks[i] == e[i].0 && ks[j] == e[j].0;
      }
    }
  }

  /**
   * Writing one field: it reads back as written, every other field reads as
   * before, and the keys stay distinct.
   */
  lemma PutSpec(e: Entries, name: string, value: Option<string>)
    requires DistinctKeys(e)
    ensures DistinctKeys(Put(e, name, value))
    ensures Get(Put(e, name, value), name) == value
    ensures forall m :: m != name ==> Get(Put(e, name, value), m) == Get(e, m)
  {
    PutDistinct(e, name, value);
    PutGet(e, name, value);
    forall m | m != name
      ensures Get(Put(e, name, value), m) == Get(e, m)
    {
      PutOther(e, name, value, m);
    }
  }

  // ------------------------------------------------------------ query-key entries

  /** `val?.trim() !== ""`: an undefined value passes, a blank string does not. */
  predicate NotBlank(v: Option<string>) {
    v.None? || Trim(v.value) != ""
  }

  function EntryKept(): ((string, Option<string>)) -> bool {
    (p: (string, Option<string>)) => NotBlank(p.1)
  }

  /** `commonParams`: the form's entries, in order, without those whose string trims to "". */
  function CommonParams(form: Entries): Entries {
    Filter(form, EntryKept())
  }

  /** A key that does not occur in the form does not occur in its parameters either. */
  lemma MissingStaysMissing(e: Entries, name: string)
    requires name !in Keys(e)
    ensures Get(CommonParams(e), name).None?
  {
    var v := Get(CommonParams(e), name);
    FilterCounts(e, EntryKept(), (name, v));
  }

  /** The entries after the first still have distinct keys, none of them the first's. */
  lemma DistinctTail(e: Entries)
    requires e != [] && DistinctKeys(e)
    ensures DistinctKeys(e[1..]) && e[0].0 !in Keys(e[1..])
  {
    var rest := e[1..];
    forall i, j | 0 <= i < j < |rest|
      ensures rest[i].0 != rest[j].0
    {
      assert rest[i] == e[i + 1] && rest[j] == e[j + 1];
    }
    forall k | 0 <= k < |rest|
      ensures Keys(rest)[k] != e[0].0
    {
      assert rest[k] == e[k + 1];
    }
  }

  lemma CommonParamsCons(e: Entries)
    requires e != []
    ensures CommonParams(e) == (if NotBlank(e[0].1) then [e[0]] else []) + CommonParams(e[1..])
  {
  }

  lemma GetCons(x: (string, Option<string>), s: Entries, name: string)
    ensures Get([x] + s, name) == if x.0 == name then x.1 else Get(s, name)
  {
    assert ([x] + s)[1..] == s;
  }

  lemma {:induction false} GetFiltered(e: Entries, name: string)
    requires DistinctKeys(e)
    ensures Get(CommonParams(e), name) == if NotBlank(Get(e, name)) then Get(e, name) else None
  {
    if e != [] {
      var rest := e[1..];
      var x := e[0];
      assert e == [x] + rest;
      GetCons(x, rest, name);
      DistinctTail(e);
      CommonParamsCons(e);
      var tail := CommonParams(rest);
      if x.0 == name {
        assert Get(e, name) == x.1;
        if NotBlank(x.1) {
          GetCons(x, tail, name);
        } else {
          // The name occurs nowhere after its first entry, so nothing later can answer.
          MissingStaysMissing(rest, name);
          assert CommonParams(e) == tail;
        }
      } else {
        GetFiltered(rest, name);
        assert Get(e, name) == Get(rest, name);
        if NotBlank(x.1) {
          GetCons(x, tail, name);
        } else {
          assert CommonParams(e) == tail;
        }
      }
    }
  }

  /**
   * `commonParams` keeps the form's order; an entry is kept exactly when its
   * value is undefined or not blank, and each field reads in it as in the
   * form unless its string is blank. It only enters the query keys
   * `["volume", commonParams]` and `["transaction", commonParams]`.
   */
  lemma CommonParamsSpec(form: Entries)
    requires DistinctKeys(form)
    ensures IsSubsequence(CommonParams(form), form)
    ensures forall p :: p in CommonParams(form) <==> p in form && NotBlank(p.1)
    ensures forall name :: Get(CommonParams(form), name) == if NotBlank(Get(form, name)) then Get(form, name) else None
  {
    FilterIsSubsequence(form, EntryKept());
    forall p
      ensures p in CommonParams(form) <==> p in form && NotBlank(p.1)
    {
      FilterCounts(form, EntryKept(), p);
    }
    forall name
      ensures Get(CommonParams(form), name) == if NotBlank(Get(form, name)) then Get(form, name) else None
    {
      GetFiltered(form, name);
    }
  }

  /** `!!form[name]`: set and non-empty. */
  predicate Truthy(v: Option<string>) {
    v.Some? && v.value != ""
  }

  /** The volume and transaction queries run once a date or a chain is chosen. */
  predicate ChainQueriesEnabled(form: Entries) {
    Truthy(Get(form, "start_date")) || Truthy(Get(form, "end_date")) || Truthy(Get(form, "chain"))
  }

  /** The earn and active-user queries run once a date is chosen; the chain does not matter to them. */
  predicate DateQueriesEnabled(form: Entries) {
    Truthy(Get(form, "start_date")) || Truthy(Get(form, "end_date"))
  }

  /**
   * The date queries never run without the chain queries; the chain queries
   * run alone exactly when only a chain is chosen; and the address field
   * enables nothing.
   */
  lemma EnabledSpec(form: Entries, address: Option<string>)
    requires DistinctKeys(form)
    ensures DateQueriesEnabled(form) ==> ChainQueriesEnabled(form)
    ensures ChainQueriesEnabled(form) && !DateQueriesEnabled(form) <==> Truthy(Get(form, "chain")) && !DateQueriesEnabled(form)
    ensures ChainQueriesEnabled(Put(form, "address", address)) == ChainQueriesEnabled(form)
    ensures DateQueriesEnabled(Put(form, "address", address)) == DateQueriesEnabled(form)
  {
    PutSpec(form, "address", address);
  }

  /** The page's `loading`: any of the four queries still loading. */
  function Loading(volumeLoading: bool, transactionLoading: bool, earnLoading: bool, activeLoading: bool): bool {
    volumeLoading || transactionLoading || earnLoading || activeLoading
  }

  /**
   * While any one of the four queries loads, both card grids show their two
   * skeletons; only when all four are done do they show rows.
   */
  lemma GridsWaitForAllQueries(volumeLoading: bool, transactionLoading: bool, earnLoading: bool, activeLoading: bool,
                               volumes: seq<VolumeAnalytics.VolumeItem>, volumeEarn: VolumeAnalytics.EarnMetrics,
                               transactions: seq<TransactionAnalytics.TransactionItem>, transactionEarn: TransactionAnalytics.EarnMetrics)
    ensures var loading := Loading(volumeLoading, transactionLoading, earnLoading, activeLoading);
      && (loading <==> volumeLoading || transactionLoading || earnLoading || activeLoading)
      && (loading ==> VolumeAnalytics.VolumeCards(loading, volumes, volumeEarn) == [MetricCards.Placeholder(1), MetricCards.Placeholder(2)])
      && (loading ==> TransactionAnalytics.TransactionCards(loading, transactions, transactionEarn) == [MetricCards.Placeholder(1), MetricCards.Placeholder(2)])
      && (!loading ==> forall k :: 0 <= k < |VolumeAnalytics.VolumeCards(loading, volumes, volumeEarn)| ==>
            VolumeAnalytics.VolumeCards(loading, volumes, volumeEarn)[k].RowCard?)
      && (!loading ==> forall k :: 0 <= k < |TransactionAnalytics.TransactionCards(loading, transactions, transactionEarn)| ==>
            TransactionAnalytics.TransactionCards(loading, transactions, transactionEarn)[k].RowCard?)
  {
  }

  // ------------------------------------------------------------ earn counts

  const UsdcMint: string := "EPjFWdd5AufqSSqeM2qN1xzybapC8G4wEGGkZwyTDt1v"
  const SolMint: string := "So11111111111111111111111111111111111111112"

  /** One line of the earn answer: the mint deposited or withdrawn and how many times, as a string. */
  datatype EarnItem = EarnItem(tokenIn: Option<string>, tokenOut: Option<string>, count: string)

  datatype EarnResponse = EarnResponse(deposit: seq<EarnItem>, withdraw: seq<EarnItem>)

  /** `earnRes || { deposit: [], withdraw: [] }` */
  function EarnData(res: Option<EarnResponse>): EarnResponse {
    res.GetOr(EarnResponse([], []))
  }

  /** `items.find(keep)`: the position of the first entry that `keep` accepts, if any. */
  function FindIndex(items: seq<EarnItem>, keep: EarnItem -> bool): (r: Option<nat>)
    ensures r.Some? ==> r.value < |items| && keep(items[r.value])
    ensures r.Some? ==> forall j :: 0 <= j < r.value ==> !keep(items[j])
    ensures r.None? ==> forall j :: 0 <= j < |items| ==> !keep(items[j])
  {
    if items == [] then None
    else if keep(items[0]) then Some(0)
    else match FindIndex(items[1..], keep)
      case None => None
      case Some(i) => Some(i + 1)
  }

  function Find(items: seq<EarnItem>, keep: EarnItem -> bool): Option<EarnItem> {
    match FindIndex(items, keep)
    case None => None
    case Some(i) => Some(items[i])
  }

  /** Deposits are matched on the mint they take in. */
  function DepositOf(mint: string): EarnItem -> bool {
    (e: EarnItem) => e.tokenIn == Some(mint)
  }

  /** Withdrawals are matched on the mint they pay out. */
  function WithdrawalOf(mint: string): EarnItem -> bool {
    (e: EarnItem) => e.tokenOut == Some(mint)
  }

  /** `match ? parseInt(match.count) : 0`; a count that does not parse is NaN (None). */
  function CountOf(m: Option<EarnItem>): Option<int> {
    if m.None? then Some(0) else ParseInt(m.value.count)
  }

  /** The four counts of `earnMetrics`. */
  datatype EarnCounts = EarnCounts(usdcDepositCount: Option<int>, solDepositCount: Option<int>,
                                   usdcWithdrawCount: Option<int>, solWithdrawCount: Option<int>)

  function EarnCountsOf(res: Option<EarnResponse>): EarnCounts {
    var data := EarnData(res);
    EarnCounts(
      CountOf(Find(data.deposit, DepositOf(UsdcMint))),
      CountOf(Find(data.deposit, DepositOf(SolMint))),
      CountOf(Find(data.withdraw, WithdrawalOf(UsdcMint))),
      CountOf(Find(data.withdraw, WithdrawalOf(SolMint))))
  }

  /**
   * A count is the parsed count of the first entry for its mint: if entry i
   * is the first one the test accepts and its count is the decimal text of
   * n, the count is n; when no entry matches, the count is 0.
   */
  lemma {:induction false} CountOfFirstMatch(items: seq<EarnItem>, keep: EarnItem -> bool, i: nat, n: nat)
    requires i < |items| && keep(items[i]) && items[i].count == NatToDecimal(n)
    requires forall j :: 0 <= j < i ==> !keep(items[j])
    ensures CountOf(Find(items, keep)) == Some(n)
  {
    var r := FindIndex(items, keep);
    assert r == Some(i);
    ParseIntDecimal(n);
  }

  lemma CountWithoutMatch(items: seq<EarnItem>, keep: EarnItem -> bool)
    requires forall j :: 0 <= j < |items| ==> !keep(items[j])
    ensures CountOf(Find(items, keep)) == Some(0)
  {
  }

  /**
   * With no earn answer every count is 0; a deposit count ignores the
   * withdrawal list (and the other way round), since deposits are looked up
   * on `token_in` in the deposit list only.
   */
  lemma EarnCountsSpec(res: Option<EarnResponse>, withdraw2: seq<EarnItem>, deposit2: seq<EarnItem>)
    ensures res.None? ==> EarnCountsOf(res) == EarnCounts(Some(0), Some(0), Some(0), Some(0))
    ensures res.Some? ==>
      && EarnCountsOf(Some(res.value.(withdraw := withdraw2))).usdcDepositCount == EarnCountsOf(res).usdcDepositCount
      && EarnCountsOf(Some(res.value.(withdraw := withdraw2))).solDepositCount == EarnCountsOf(res).solDepositCount
      && EarnCountsOf(Some(res.value.(deposit := deposit2))).usdcWithdrawCount == EarnCountsOf(res).usdcWithdrawCount
      && EarnCountsOf(Some(res.value.(deposit := deposit2))).solWithdrawCount == EarnCountsOf(res).solWithdrawCount
  {
  }

  // ------------------------------------------------------------ the page

  /** The page's form state. */
  class MonthlyActiveView {
    var form: Entries
    var activeTab: string

    predicate Valid()
      reads this
    {
      DistinctKeys(form)
    }

    /** The page opens with an empty form on the holdings tab, so no chain or date query runs. */
    constructor ()
      ensures Valid()
      ensures form == [] && activeTab == "active"
      ensures !ChainQueriesEnabled(form) && !DateQueriesEnabled(form)
    {
      form := [];
      activeTab := "active";
    }

    /** A select changed: the field takes the chosen value; every other field is unchanged. */
    method HandleChange(name: string, value: string)
      requires Valid()
      modifies this`form
      ensures Valid()
      ensures form == Put(old(form), name, Some(value))
      ensures Get(form, name) == Some(value)
      ensures forall m :: m != name ==> Get(form, m) == Get(old(form), m)
    {
      PutSpec(form, name, Some(value));
      form := Put(form, name, Some(value));
    }

    /**
     * A date picker changed: the field takes the formatted day, or becomes
     * undefined when cleared, whatever the other date is; every other field
     * is unchanged. A picked day turns the date queries on.
     */
    method HandleDateChange(name: string, formatted: Option<string>)
      requires Valid()
      requires name == "start_date" || name == "end_date"
      modifies this`form
      ensures Valid()
      ensures form == Put(old(form), name, formatted)
      ensures Get(form, name) == formatted
      ensures forall m :: m != name ==> Get(form, m) == Get(old(form), m)
      ensures Truthy(formatted) ==> DateQueriesEnabled(form) && ChainQueriesEnabled(form)
    {
      PutSpec(form, name, formatted);
      form := Put(form, name, formatted);
    }

    /** The tab bar records the chosen tab. */
    method ChangeTab(key: string)
      modifies this`activeTab
      ensures activeTab == key
    {
      activeTab := key;
    }
  }
}
