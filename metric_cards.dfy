/**
 * What the dashboard's per-chain metric cards share: which label/key pairs
 * a card lists for its chain, and what the card grid shows while loading or
 * without data. The transaction and the volume cards differ only in their
 * labels, keys and row types.
 */
module MetricCards {
  import opened Common
  import opened Text
  import opened Listing

  const Solana: string := "solana-mainnet"
  const Worldchain: string := "worldchain-mainnet"

  /** A card line: its label and the row key its value is read from. */
  type Field = (string, string)

  /** `!label.includes("Swapped")` */
  function NotSwapped(): Field -> bool {
    (f: Field) => !Contains(f.0, "Swapped")
  }

  /** A Dapp value is shown only when it is defined, not null and `Number(value) !== 0` (NaN is shown). */
  predicate DappShown(value: Option<JsNumber>) {
    value.Some? && value.value != Num(0.0)
  }

  /** Lines whose label mentions "Dapp" are kept only when the row's value at their key is shown. */
  function KeepDapp(value: string -> Option<JsNumber>): Field -> bool {
    (f: Field) => !Contains(f.0, "Dapp") || DappShown(value(f.1))
  }

  /**
   * The lines a card lists: the base lines, without the "Swapped" ones on
   * Worldchain, without an unshown Dapp line, followed on Solana by the
   * Solana-only lines.
   */
  function FilteredFields(chain: string, value: string -> Option<JsNumber>, base: seq<Field>, solanaFields: seq<Field>): seq<Field> {
    Filter(if chain == Worldchain then Filter(base, NotSwapped()) else base, KeepDapp(value))
      + (if chain == Solana then solanaFields else [])
  }

  /** `getFilteredFields`: the two filters, then a loop pushing the Solana lines. */
  method GetFilteredFields(chain: string, value: string -> Option<JsNumber>, base: seq<Field>, solanaFields: seq<Field>)
    returns (fields: seq<Field>)
    ensures fields == FilteredFields(chain, value, base, solanaFields)
  {
    fields := if chain == Worldchain then Filter(base, NotSwapped()) else base;
    fields := Filter(fields, KeepDapp(value));
    if chain == Solana {
      ghost var kept := fields;
      var i := 0;
      while i < |solanaFields|
        invariant 0 <= i <= |solanaFields|
        invariant fields == kept + solanaFields[..i]
      {
        fields := fields + [solanaFields[i]];
        assert solanaFields[..i + 1] == solanaFields[..i] + [solanaFields[i]];
        i := i + 1;
      }
      assert solanaFields[..i] == solanaFields;
    }
  }

  lemma FilterCons<T>(x: T, rest: seq<T>, keep: T -> bool)
    ensures Filter([x] + rest, keep) == (if keep(x) then [x] else []) + Filter(rest, keep)
  {
    assert ([x] + rest)[1..] == rest;
  }

  /** The five base lines of a card: total, sent, received, swapped, Dapp, in that order. */
  predicate StandardBase(base: seq<Field>) {
    && |base| == 5
    && !Contains(base[0].0, "Swapped") && !Contains(base[1].0, "Swapped") && !Contains(base[2].0, "Swapped")
    && Contains(base[3].0, "Swapped") && !Contains(base[4].0, "Swapped")
    && !Contains(base[0].0, "Dapp") && !Contains(base[1].0, "Dapp") && !Contains(base[2].0, "Dapp")
    && !Contains(base[3].0, "Dapp") && Contains(base[4].0, "Dapp")
  }

  /**
   * For the five standard lines: the total, sent and received lines always
   * appear in order, the swapped line everywhere but on Worldchain, the Dapp
   * line only for a shown value, and the Solana lines last on Solana only.
   */
  lemma StandardFields(chain: string, value: string -> Option<JsNumber>, base: seq<Field>, solanaFields: seq<Field>)
    requires StandardBase(base)
    ensures FilteredFields(chain, value, base, solanaFields) ==
      base[..3]
      + (if chain == Worldchain then [] else [base[3]])
      + (if DappShown(value(base[4].1)) then [base[4]] else [])
      + (if chain == Solana then solanaFields else [])
  {
    var dapp := if DappShown(value(base[4].1)) then [base[4]] else [];
    if chain == Worldchain {
      SwappedDropped(base);
      DappKeptWithoutSwapped(value, base);
    } else {
      DappKept(value, base);
    }
    assert base[..3] + [base[3]] + dapp == base[..4] + dapp;
  }

  /** On Worldchain only the swapped line goes. */
  lemma SwappedDropped(base: seq<Field>)
    requires StandardBase(base)
    ensures Filter(base, NotSwapped()) == [base[0], base[1], base[2], base[4]]
  {
    var a, b, c, d, e := base[0], base[1], base[2], base[3], base[4];
    assert base == [a] + ([b] + ([c] + ([d] + ([e] + [])))) by {
      assert base == [a, b, c, d, e];
    }
    var ns := NotSwapped();
    FilterCons(a, [b, c, d, e], ns);
    FilterCons(b, [c, d, e], ns);
    FilterCons(c, [d, e], ns);
    FilterCons(d, [e], ns);
    FilterCons(e, [], ns);
  }

  /** Of the five standard lines, the Dapp filter can drop only the last. */
  lemma DappKept(value: string -> Option<JsNumber>, base: seq<Field>)
    requires StandardBase(base)
    ensures Filter(base, KeepDapp(value)) == base[..4] + (if DappShown(value(base[4].1)) then [base[4]] else [])
  {
    assert base == [base[0], base[1], base[2], base[3], base[4]];
    assert base[..4] == [base[0], base[1], base[2], base[3]];
    DappKeptFive(value, base[0], base[1], base[2], base[3], base[4]);
  }

  lemma DappKeptFive(value: string -> Option<JsNumber>, a: Field, b: Field, c: Field, d: Field, e: Field)
    requires !Contains(a.0, "Dapp") && !Contains(b.0, "Dapp") && !Contains(c.0, "Dapp") && !Contains(d.0, "Dapp")
    requires Contains(e.0, "Dapp")
    ensures Filter([a, b, c, d, e], KeepDapp(value)) == [a, b, c, d] + (if DappShown(value(e.1)) then [e] else [])
  {
    var kd := KeepDapp(value);
    assert [a, b, c, d, e] == [a] + [b, c, d, e];
    FilterCons(a, [b, c, d, e], kd);
    DappKeptFour(value, b, c, d, e);
  }

  /** The same, once the swapped line is gone. */
  lemma DappKeptWithoutSwapped(value: string -> Option<JsNumber>, base: seq<Field>)
    requires StandardBase(base)
    ensures Filter([base[0], base[1], base[2], base[4]], KeepDapp(value))
      == base[..3] + (if DappShown(value(base[4].1)) then [base[4]] else [])
  {
    assert base[..3] == [base[0], base[1], base[2]];
    DappKeptFour(value, base[0], base[1], base[2], base[4]);
  }

  lemma DappKeptFour(value: string -> Option<JsNumber>, a: Field, b: Field, c: Field, e: Field)
    requires !Contains(a.0, "Dapp") && !Contains(b.0, "Dapp") && !Contains(c.0, "Dapp")
    requires Contains(e.0, "Dapp")
    ensures Filter([a, b, c, e], KeepDapp(value)) == [a, b, c] + (if DappShown(value(e.1)) then [e] else [])
  {
    var kd := KeepDapp(value);
    assert [a, b, c, e] == [a] + ([b] + ([c] + ([e] + [])));
    FilterCons(a, [b, c, e], kd);
    FilterCons(b, [c, e], kd);
    FilterCons(c, [e], kd);
    FilterCons(e, [], kd);
  }

  /**
   * A card never lists a line it has no value for, provided every base line
   * has a value or is a Dapp line (which is dropped when its value is not
   * shown), and on Solana every Solana line has a value.
   */
  lemma ListedValuesDefined(chain: string, value: string -> Option<JsNumber>, base: seq<Field>, solanaFields: seq<Field>, f: Field)
    requires forall g :: g in base ==> value(g.1).Some? || Contains(g.0, "Dapp")
    requires chain == Solana ==> forall g :: g in solanaFields ==> value(g.1).Some?
    requires f in FilteredFields(chain, value, base, solanaFields)
    ensures value(f.1).Some?
  {
    var ns := NotSwapped();
    var kept := if chain == Worldchain then Filter(base, ns) else base;
    if f in Filter(kept, KeepDapp(value)) {
      FilterCounts(kept, KeepDapp(value), f);
      if chain == Worldchain {
        FilterCounts(base, ns, f);
      }
      assert f in base;
    }
  }

  /** None of four labels mentions a word holding a character that none of them has. */
  lemma LabelsLack(word: string, c: char, a: string, b: string, d: string, e: string)
    requires c in word && c !in a && c !in b && c !in d && c !in e
    ensures !Contains(a, word) && !Contains(b, word) && !Contains(d, word) && !Contains(e, word)
  {
    LacksChar(a, word, c);
    LacksChar(b, word, c);
    LacksChar(d, word, c);
    LacksChar(e, word, c);
  }

  /** A card of the grid: a skeleton while loading, otherwise a data row. */
  datatype Card<T> = Placeholder(index: nat) | RowCard(row: T)

  /** Two skeletons while loading, the rows when there are any, else one "N/A" row. */
  function FinalData<T>(loading: bool, rows: seq<T>, emptyRow: T): (r: seq<Card<T>>)
    ensures loading ==> r == [Placeholder(1), Placeholder(2)]
    ensures !loading && |rows| > 0 ==> |r| == |rows| && forall k :: 0 <= k < |rows| ==> r[k] == RowCard(rows[k])
    ensures !loading && rows == [] ==> r == [RowCard(emptyRow)]
    ensures |r| >= 1
  {
    if loading then [Placeholder(1), Placeholder(2)]
    else if |rows| > 0 then seq(|rows|, k requires 0 <= k < |rows| => RowCard(rows[k]))
    else [RowCard(emptyRow)]
  }
}
