/**
 * The volume analytics tab: one card per chain listing its USD volumes. The
 * Solana row is augmented with the earn amounts before the cards are drawn.
 */
module VolumeAnalytics {
  import opened Common
  import opened Text
  import opened ChainLabels
  import opened MetricCards

  /**
   * A chain's row of volumes, each held as the number `Number(...)` reads
   * from the string the service sends. The Dapp volume may be missing; the
   * four earn amounts exist only on the augmented Solana row.
   */
  datatype VolumeItem = VolumeItem(
    chain: string,
    totalVolume: JsNumber,
    sentVolume: JsNumber,
    receivedVolume: JsNumber,
    swappedVolume: JsNumber,
    dappVolume: Option<JsNumber>,
    usdcDepositAmount: Option<JsNumber>,
    solDepositAmount: Option<JsNumber>,
    usdcWithdrawAmount: Option<JsNumber>,
    solWithdrawAmount: Option<JsNumber>)

  /** The earn amounts the page hands to the tab. */
  datatype EarnMetrics = EarnMetrics(
    totalUsdcVolume: JsNumber,
    totalSolVolume: JsNumber,
    usdcDepositAmount: JsNumber,
    solDepositAmount: JsNumber,
    usdcWithdrawAmount: JsNumber,
    solWithdrawAmount: JsNumber)

  /** `a + b` on numbers, without rounding: NaN absorbs everything. */
  function JsAdd(a: JsNumber, b: JsNumber): (r: JsNumber)
    ensures r.NaN? <==> a.NaN? || b.NaN?
  {
    if a.NaN? || b.NaN? then NaN else Num(a.val + b.val)
  }

  // ------------------------------------------------------------ augmentation

  /** One row after augmentation: only the Solana row changes. */
  function Augment(v: VolumeItem, earn: EarnMetrics): VolumeItem {
    if v.chain == Solana then
      v.(totalVolume := JsAdd(JsAdd(v.totalVolume, earn.totalUsdcVolume), earn.totalSolVolume),
         usdcDepositAmount := Some(earn.usdcDepositAmount),
         solDepositAmount := Some(earn.solDepositAmount),
         usdcWithdrawAmount := Some(earn.usdcWithdrawAmount),
         solWithdrawAmount := Some(earn.solWithdrawAmount))
    else v
  }

  /**
   * How the Solana row `a` relates to the row `v` it came from: the four earn
   * amounts are attached, a numeric total grows by the two earn totals when
   * they are numbers too, and the chain, sent, received, swapped and Dapp
   * volumes are left alone.
   */
  predicate SolanaAugmented(v: VolumeItem, a: VolumeItem, earn: EarnMetrics) {
    && a.chain == v.chain
    && (v.totalVolume.Num? && earn.totalUsdcVolume.Num? && earn.totalSolVolume.Num? ==>
          a.totalVolume.Num? && a.totalVolume.val - v.totalVolume.val == earn.totalUsdcVolume.val + earn.totalSolVolume.val)
    && a.sentVolume == v.sentVolume
    && a.receivedVolume == v.receivedVolume
    && a.swappedVolume == v.swappedVolume
    && a.dappVolume == v.dappVolume
    && a.usdcDepositAmount == Some(earn.usdcDepositAmount)
    && a.solDepositAmount == Some(earn.solDepositAmount)
    && a.usdcWithdrawAmount == Some(earn.usdcWithdrawAmount)
    && a.solWithdrawAmount == Some(earn.solWithdrawAmount)
  }

  /**
   * `augmentedVolumeData`: the rows in their order, one for one; every
   * non-Solana row is returned as it is and every Solana row is augmented.
   */
  function AugmentedVolumeData(data: seq<VolumeItem>, earn: EarnMetrics): (r: seq<VolumeItem>)
    ensures |r| == |data|
    ensures forall k :: 0 <= k < |data| && data[k].chain != Solana ==> r[k] == data[k]
    ensures forall k :: 0 <= k < |data| && data[k].chain == Solana ==> SolanaAugmented(data[k], r[k], earn)
  {
    seq(|data|, k requires 0 <= k < |data| => Augment(data[k], earn))
  }

  // ------------------------------------------------------------ card lines

  /** The value a card line reads from a row under its key; a missing field is None. */
  function Value(v: VolumeItem, key: string): Option<JsNumber> {
    match key
    case "total_volume" => Some(v.totalVolume)
    case "sent_volume" => Some(v.sentVolume)
    case "received_volume" => Some(v.receivedVolume)
    case "swapped_volume" => Some(v.swappedVolume)
    case "dapp_volume" => v.dappVolume
    case "usdcDepositAmount" => v.usdcDepositAmount
    case "solDepositAmount" => v.solDepositAmount
    case "usdcWithdrawAmount" => v.usdcWithdrawAmount
    case "solWithdrawAmount" => v.solWithdrawAmount
    case _ => None
  }

  function ValueOf(v: VolumeItem): string -> Option<JsNumber> {
    (key: string) => Value(v, key)
  }

  const BaseFields: seq<Field> := [
    ("Total Volume (USD)", "total_volume"),
    ("Sent Volume (USD)", "sent_volume"),
    ("Received Volume (USD)", "received_volume"),
    ("Swapped Volume (USD)", "swapped_volume"),
    ("Dapp Volume (USD)", "dapp_volume")]

  const SolanaFields: seq<Field> := [
    ("USDC Deposit (Token Value)", "usdcDepositAmount"),
    ("SOL Deposit (Token Value)", "solDepositAmount"),
    ("USDC Withdraw (Token Value)", "usdcWithdrawAmount"),
    ("SOL Withdraw (Token Value)", "solWithdrawAmount")]

  /** The lines of a row's card: `getFilteredFields(item.chain, item)`. */
  function CardFields(v: VolumeItem): seq<Field> {
    FilteredFields(v.chain, ValueOf(v), BaseFields, SolanaFields)
  }

  /** Only the fourth base label mentions "Swapped", only the fifth "Dapp". */
  lemma BaseFieldsStandard()
    ensures StandardBase(BaseFields)
  {
    SwappedOnlyFourth();
    DappOnlyFifth();
  }

  lemma SwappedOnlyFourth()
    ensures !Contains(BaseFields[0].0, "Swapped") && !Contains(BaseFields[1].0, "Swapped") && !Contains(BaseFields[2].0, "Swapped")
    ensures Contains(BaseFields[3].0, "Swapped") && !Contains(BaseFields[4].0, "Swapped")
  {
    LabelsLack("Swapped", 'w', "Total Volume (USD)", "Sent Volume (USD)", "Received Volume (USD)", "Dapp Volume (USD)");
    ContainsPrefix("Swapped Volume (USD)", "Swapped");
  }

  lemma DappOnlyFifth()
    ensures !Contains(BaseFields[0].0, "Dapp") && !Contains(BaseFields[1].0, "Dapp") && !Contains(BaseFields[2].0, "Dapp")
    ensures !Contains(BaseFields[3].0, "Dapp") && Contains(BaseFields[4].0, "Dapp")
  {
    assert 'p' in "Dapp";
    LacksChar("Total Volume (USD)", "Dapp", 'p');
    LacksChar("Sent Volume (USD)", "Dapp", 'p');
    LacksChar("Received Volume (USD)", "Dapp", 'p');
    SwappedLabelLacksDapp();
    ContainsPrefix("Dapp Volume (USD)", "Dapp");
  }

  /** The only 'D' of the swapped label comes too late for a "Dapp" to start there. */
  lemma SwappedLabelLacksDapp()
    ensures !Contains("Swapped Volume (USD)", "Dapp")
  {
    var hay := "Swapped Volume (USD)";
    assert hay[0..17] == "Swapped Volume (U";
    LacksAt(hay, "Dapp", 0);
  }

  /**
   * A card always lists the total, sent and received volumes in that order;
   * then the swapped volume except on Worldchain; then the Dapp volume only
   * when it is present and not zero (a NaN Dapp volume is listed); and last,
   * on Solana only, the four earn amounts.
   */
  lemma CardFieldsSpec(v: VolumeItem)
    ensures CardFields(v) ==
      BaseFields[..3]
      + (if v.chain == Worldchain then [] else [BaseFields[3]])
      + (if v.dappVolume.Some? && v.dappVolume.value != Num(0.0) then [BaseFields[4]] else [])
      + (if v.chain == Solana then SolanaFields else [])
  {
    var shown := DappShown(ValueOf(v)(BaseFields[4].1));
    assert CardFields(v) ==
      BaseFields[..3]
      + (if v.chain == Worldchain then [] else [BaseFields[3]])
      + (if shown then [BaseFields[4]] else [])
      + (if v.chain == Solana then SolanaFields else [])
    by {
      BaseFieldsStandard();
      StandardFields(v.chain, ValueOf(v), BaseFields, SolanaFields);
    }
    assert BaseFields[4].1 == "dapp_volume";
  }

  /** A row whose earn amounts are attached when it is the Solana row has a value for every line of its card. */
  lemma CardValuesDefined(v: VolumeItem, f: Field)
    requires v.chain == Solana ==> v.usdcDepositAmount.Some? && v.solDepositAmount.Some? && v.usdcWithdrawAmount.Some? && v.solWithdrawAmount.Some?
    requires f in CardFields(v)
    ensures Value(v, f.1).Some?
  {
    BaseValuesDefined(v);
    if v.chain == Solana {
      SolanaValuesDefined(v);
    }
    ListedValuesDefined(v.chain, ValueOf(v), BaseFields, SolanaFields, f);
  }

  /** Every base line has a value, except the Dapp line, whose value may be missing. */
  lemma BaseValuesDefined(v: VolumeItem)
    ensures forall g :: g in BaseFields ==> ValueOf(v)(g.1).Some? || Contains(g.0, "Dapp")
  {
    ValuesAtKeys(v);
    DappOnlyFifth();
    forall g | g in BaseFields
      ensures ValueOf(v)(g.1).Some? || Contains(g.0, "Dapp")
    {
      var k :| 0 <= k < |BaseFields| && BaseFields[k] == g;
      assert k == 0 || k == 1 || k == 2 || k == 3 || k == 4;
    }
  }

  /** Every Solana line has a value once the earn figures are attached. */
  lemma SolanaValuesDefined(v: VolumeItem)
    requires v.usdcDepositAmount.Some? && v.solDepositAmount.Some? && v.usdcWithdrawAmount.Some? && v.solWithdrawAmount.Some?
    ensures forall g :: g in SolanaFields ==> ValueOf(v)(g.1).Some?
  {
    ValuesAtKeys(v);
    forall g | g in SolanaFields
      ensures ValueOf(v)(g.1).Some?
    {
      var k :| 0 <= k < |SolanaFields| && SolanaFields[k] == g;
      assert k == 0 || k == 1 || k == 2 || k == 3;
    }
  }

  /** What each card line's key reads from a row. */
  lemma ValuesAtKeys(v: VolumeItem)
    ensures Value(v, BaseFields[0].1) == Some(v.totalVolume)
    ensures Value(v, BaseFields[1].1) == Some(v.sentVolume)
    ensures Value(v, BaseFields[2].1) == Some(v.receivedVolume)
    ensures Value(v, BaseFields[3].1) == Some(v.swappedVolume)
    ensures Value(v, BaseFields[4].1) == v.dappVolume
    ensures Value(v, SolanaFields[0].1) == v.usdcDepositAmount
    ensures Value(v, SolanaFields[1].1) == v.solDepositAmount
    ensures Value(v, SolanaFields[2].1) == v.usdcWithdrawAmount
    ensures Value(v, SolanaFields[3].1) == v.solWithdrawAmount
  {
  }

  /**
   * Once augmented, every line a card lists has a value to show: the
   * Solana card's earn lines read the amounts the augmentation attached,
   * and the Dapp line is listed only when the volume is there.
   */
  lemma AugmentedCardsDefined(data: seq<VolumeItem>, earn: EarnMetrics, k: nat, f: Field)
    requires k < |data|
    requires f in CardFields(AugmentedVolumeData(data, earn)[k])
    ensures Value(AugmentedVolumeData(data, earn)[k], f.1).Some?
  {
    CardValuesDefined(AugmentedVolumeData(data, earn)[k], f);
  }

  // ------------------------------------------------------------ card grid

  /** The row shown when there is no data: chain "N/A", every volume 0. */
  const EmptyRow: VolumeItem := VolumeItem("N/A", Num(0.0), Num(0.0), Num(0.0), Num(0.0), Some(Num(0.0)), None, None, None, None)

  /** `finalData`: two skeletons while loading, the augmented rows, or the single "N/A" row. */
  function VolumeCards(loading: bool, data: seq<VolumeItem>, earn: EarnMetrics): seq<Card<VolumeItem>> {
    FinalData(loading, AugmentedVolumeData(data, earn), EmptyRow)
  }

  /**
   * With no data the grid is one card titled "N/A" whose lines are the
   * total, sent, received and swapped volumes: its zero Dapp volume is hidden.
   */
  lemma EmptyGrid(earn: EarnMetrics)
    ensures VolumeCards(false, [], earn) == [RowCard(EmptyRow)]
    ensures CardFields(EmptyRow) == BaseFields[..4]
    ensures ChainTitle(EmptyRow.chain) == "N/A"
  {
    CardFieldsSpec(EmptyRow);
    ChainTitleChars("N/A");
    NoMainnetUnchanged("N/A");
    assert ChainTitle("N/A")[0] == 'N';
  }
}
