/**
 * The transaction analytics tab: one card per chain listing its transaction
 * counts. The Solana row is augmented with the earn figures before the cards
 * are drawn.
 */
module TransactionAnalytics {
  import opened Common
  import opened Text
  import opened ChainLabels
  import opened MetricCards

  /**
   * A chain's row of transaction counts. The Dapp count may be missing; the
   * four earn counts exist only on the augmented Solana row.
   */
  datatype TransactionItem = TransactionItem(
    chain: string,
    totalTransaction: int,
    sentTransaction: int,
    receivedTransaction: int,
    swappedTransaction: int,
    dappTransaction: Option<int>,
    usdcDepositCount: Option<int>,
    solDepositCount: Option<int>,
    usdcWithdrawCount: Option<int>,
    solWithdrawCount: Option<int>)

  /** The earn figures the page hands to the tab. */
  datatype EarnMetrics = EarnMetrics(
    totalUsdcTransactions: int,
    totalSolTransactions: int,
    usdcDepositCount: int,
    solDepositCount: int,
    usdcWithdrawCount: int,
    solWithdrawCount: int)

  // ------------------------------------------------------------ augmentation

  /** One row after augmentation: only the Solana row changes. */
  function Augment(t: TransactionItem, earn: EarnMetrics): TransactionItem {
    if t.chain == Solana then
      t.(totalTransaction := t.totalTransaction + earn.totalUsdcTransactions + earn.totalSolTransactions,
         usdcDepositCount := Some(earn.usdcDepositCount),
         solDepositCount := Some(earn.solDepositCount),
         usdcWithdrawCount := Some(earn.usdcWithdrawCount),
         solWithdrawCount := Some(earn.solWithdrawCount))
    else t
  }

  /**
   * How the Solana row `a` relates to the row `t` it came from: the total
   * grows by the two earn totals, the four earn counts are attached, and the
   * chain, sent, received, swapped and Dapp counts are left alone.
   */
  predicate SolanaAugmented(t: TransactionItem, a: TransactionItem, earn: EarnMetrics) {
    && a.chain == t.chain
    && a.totalTransaction - t.totalTransaction == earn.totalUsdcTransactions + earn.totalSolTransactions
    && a.sentTransaction == t.sentTransaction
    && a.receivedTransaction == t.receivedTransaction
    && a.swappedTransaction == t.swappedTransaction
    && a.dappTransaction == t.dappTransaction
    && a.usdcDepositCount == Some(earn.usdcDepositCount)
    && a.solDepositCount == Some(earn.solDepositCount)
    && a.usdcWithdrawCount == Some(earn.usdcWithdrawCount)
    && a.solWithdrawCount == Some(earn.solWithdrawCount)
  }

  /**
   * `augmentedTransactionData`: the rows in their order, one for one; every
   * non-Solana row is returned as it is and every Solana row is augmented.
   */
  function AugmentedTransactionData(data: seq<TransactionItem>, earn: EarnMetrics): (r: seq<TransactionItem>)
    ensures |r| == |data|
    ensures forall k :: 0 <= k < |data| && data[k].chain != Solana ==> r[k] == data[k]
    ensures forall k :: 0 <= k < |data| && data[k].chain == Solana ==> SolanaAugmented(data[k], r[k], earn)
  {
    seq(|data|, k requires 0 <= k < |data| => Augment(data[k], earn))
  }

  // ------------------------------------------------------------ card lines

  /** The value a card line reads from a row under its key, as `Number(item[key])` sees it; a missing field is None. */
  function Value(t: TransactionItem, key: string): Option<JsNumber> {
    match key
    case "total_transaction" => Some(Num(t.totalTransaction as real))
    case "sent_transaction" => Some(Num(t.sentTransaction as real))
    case "received_transaction" => Some(Num(t.receivedTransaction as real))
    case "swapped_transaction" => Some(Num(t.swappedTransaction as real))
    case "dapp_transaction" => Numeric(t.dappTransaction)
    case "usdcDepositCount" => Numeric(t.usdcDepositCount)
    case "solDepositCount" => Numeric(t.solDepositCount)
    case "usdcWithdrawCount" => Numeric(t.usdcWithdrawCount)
    case "solWithdrawCount" => Numeric(t.solWithdrawCount)
    case _ => None
  }

  function Numeric(v: Option<int>): Option<JsNumber> {
    if v.Some? then Some(Num(v.value as real)) else None
  }

  function ValueOf(t: TransactionItem): string -> Option<JsNumber> {
    (key: string) => Value(t, key)
  }

  const BaseFields: seq<Field> := [
    ("Total Transactions", "total_transaction"),
    ("Sent Transactions", "sent_transaction"),
    ("Received Transactions", "received_transaction"),
    ("Swapped Transactions", "swapped_transaction"),
    ("Dapp Transactions", "dapp_transaction")]

  const SolanaFields: seq<Field> := [
    ("USDC Deposit Count", "usdcDepositCount"),
    ("SOL Deposit Count", "solDepositCount"),
    ("USDC Withdraw Count", "usdcWithdrawCount"),
    ("SOL Withdraw Count", "solWithdrawCount")]

  /** The lines of a row's card: `getFilteredFields(item.chain, item)`. */
  function CardFields(t: TransactionItem): seq<Field> {
    FilteredFields(t.chain, ValueOf(t), BaseFields, SolanaFields)
  }

  /** Only the fourth base label mentions "Swapped", only the fifth "Dapp". */
  lemma BaseFieldsStandard()
    ensures StandardBase(BaseFields)
  {
    SwappedOnlyFourth();
    DappOnlyFifth();
  }

  lemma SwappedOnlyFourth()
    ensures !Contains(BaseFields[0].0, "Swapped") && !Contains(BaseFields[1].0, "Swapped") && !Contains(BaseFields[2].0, "Swapped")
    ensures Contains(BaseFields[3].0, "Swapped") && !Contains(BaseFields[4].0, "Swapped")
  {
    LabelsLack("Swapped", 'w', "Total Transactions", "Sent Transactions", "Received Transactions", "Dapp Transactions");
    ContainsPrefix("Swapped Transactions", "Swapped");
  }

  lemma DappOnlyFifth()
    ensures !Contains(BaseFields[0].0, "Dapp") && !Contains(BaseFields[1].0, "Dapp") && !Contains(BaseFields[2].0, "Dapp")
    ensures !Contains(BaseFields[3].0, "Dapp") && Contains(BaseFields[4].0, "Dapp")
  {
    LabelsLack("Dapp", 'D', "Total Transactions", "Sent Transactions", "Received Transactions", "Swapped Transactions");
    ContainsPrefix("Dapp Transactions", "Dapp");
  }

  /**
   * A card always lists the total, sent and received counts in that order;
   * then the swapped count except on Worldchain; then the Dapp count only
   * when it is present and non-zero; and last, on Solana only, the four
   * earn counts.
   */
  lemma CardFieldsSpec(t: TransactionItem)
    ensures CardFields(t) ==
      BaseFields[..3]
      + (if t.chain == Worldchain then [] else [BaseFields[3]])
      + (if t.dappTransaction.Some? && t.dappTransaction.value != 0 then [BaseFields[4]] else [])
      + (if t.chain == Solana then SolanaFields else [])
  {
    var shown := DappShown(ValueOf(t)(BaseFields[4].1));
    assert CardFields(t) ==
      BaseFields[..3]
      + (if t.chain == Worldchain then [] else [BaseFields[3]])
      + (if shown then [BaseFields[4]] else [])
      + (if t.chain == Solana then SolanaFields else [])
    by {
      BaseFieldsStandard();
      StandardFields(t.chain, ValueOf(t), BaseFields, SolanaFields);
    }
    assert BaseFields[4].1 == "dapp_transaction";
    assert shown <==> t.dappTransaction.Some? && t.dappTransaction.value != 0;
  }

  /** A row whose earn counts are attached when it is the Solana row has a value for every line of its card. */
  lemma CardValuesDefined(t: TransactionItem, f: Field)
    requires t.chain == Solana ==> t.usdcDepositCount.Some? && t.solDepositCount.Some? && t.usdcWithdrawCount.Some? && t.solWithdrawCount.Some?
    requires f in CardFields(t)
    ensures Value(t, f.1).Some?
  {
    BaseValuesDefined(t);
    if t.chain == Solana {
      SolanaValuesDefined(t);
    }
    ListedValuesDefined(t.chain, ValueOf(t), BaseFields, SolanaFields, f);
  }

  /** Every base line has a value, except the Dapp line, whose value may be missing. */
  lemma BaseValuesDefined(t: TransactionItem)
    ensures forall g :: g in BaseFields ==> ValueOf(t)(g.1).Some? || Contains(g.0, "Dapp")
  {
    ValuesAtKeys(t);
    DappOnlyFifth();
    forall g | g in BaseFields
      ensures ValueOf(t)(g.1).Some? || Contains(g.0, "Dapp")
    {
      var k :| 0 <= k < |BaseFields| && BaseFields[k] == g;
      assert k == 0 || k == 1 || k == 2 || k == 3 || k == 4;
    }
  }

  /** Every Solana line has a value once the earn figures are attached. */
  lemma SolanaValuesDefined(t: TransactionItem)
    requires t.usdcDepositCount.Some? && t.solDepositCount.Some? && t.usdcWithdrawCount.Some? && t.solWithdrawCount.Some?
    ensures forall g :: g in SolanaFields ==> ValueOf(t)(g.1).Some?
  {
    ValuesAtKeys(t);
    forall g | g in SolanaFields
      ensures ValueOf(t)(g.1).Some?
    {
      var k :| 0 <= k < |SolanaFields| && SolanaFields[k] == g;
      assert k == 0 || k == 1 || k == 2 || k == 3;
    }
  }

  /** What each card line's key reads from a row. */
  lemma ValuesAtKeys(t: TransactionItem)
    ensures Value(t, BaseFields[0].1) == Some(Num(t.totalTransaction as real))
    ensures Value(t, BaseFields[1].1) == Some(Num(t.sentTransaction as real))
    ensures Value(t, BaseFields[2].1) == Some(Num(t.receivedTransaction as real))
    ensures Value(t, BaseFields[3].1) == Some(Num(t.swappedTransaction as real))
    ensures Value(t, BaseFields[4].1) == Numeric(t.dappTransaction)
    ensures Value(t, SolanaFields[0].1) == Numeric(t.usdcDepositCount)
    ensures Value(t, SolanaFields[1].1) == Numeric(t.solDepositCount)
    ensures Value(t, SolanaFields[2].1) == Numeric(t.usdcWithdrawCount)
    ensures Value(t, SolanaFields[3].1) == Numeric(t.solWithdrawCount)
  {
  }

  /**
   * Once augmented, every line a card lists has a value to show: the
   * Solana card's earn lines read the counts the augmentation attached, and
   * the Dapp line is listed only when the count is there.
   */
  lemma AugmentedCardsDefined(data: seq<TransactionItem>, earn: EarnMetrics, k: nat, f: Field)
    requires k < |data|
    requires f in CardFields(AugmentedTransactionData(data, earn)[k])
    ensures Value(AugmentedTransactionData(data, earn)[k], f.1).Some?
  {
    CardValuesDefined(AugmentedTransactionData(data, earn)[k], f);
  }

  // ------------------------------------------------------------ card grid

  /** The row shown when there is no data: chain "N/A", every count 0. */
  const EmptyRow: TransactionItem := TransactionItem("N/A", 0, 0, 0, 0, Some(0), None, None, None, None)

  /** `finalData`: two skeletons while loading, the augmented rows, or the single "N/A" row. */
  function TransactionCards(loading: bool, data: seq<TransactionItem>, earn: EarnMetrics): seq<Card<TransactionItem>> {
    FinalData(loading, AugmentedTransactionData(data, earn), EmptyRow)
  }

  /**
   * With no data the grid is one card titled "N/A" whose lines are the
   * total, sent, received and swapped counts: its zero Dapp count is hidden.
   */
  lemma EmptyGrid(earn: EarnMetrics)
    ensures TransactionCards(false, [], earn) == [RowCard(EmptyRow)]
    ensures CardFields(EmptyRow) == BaseFields[..4]
    ensures ChainTitle(EmptyRow.chain) == "N/A"
  {
    CardFieldsSpec(EmptyRow);
    ChainTitleChars("N/A");
    NoMainnetUnchanged("N/A");
    assert ChainTitle("N/A")[0] == 'N';
  }

  /** A loaded, non-empty grid shows one card per row, in order, each augmented. */
  lemma GridFollowsRows(data: seq<TransactionItem>, earn: EarnMetrics)
    requires |data| > 0
    ensures var cards := TransactionCards(false, data, earn);
      && |cards| == |data|
      && forall k :: 0 <= k < |data| ==> cards[k] == RowCard(Augment(data[k], earn))
  {
  }
}
