/**
 * The chain label the token tables and the dashboard cards show for a chain
 * identifier such as "solana-mainnet": drop the first "-mainnet", split on
 * "-", upper-case the first letter of every word and join the words with
 * single spaces.
 */
module ChainLabels {
  import opened Common
  import opened Text

  /** `s.indexOf(pat)`: the first position where `pat` occurs, if any. */
  function IndexOf(s: string, pat: string): (r: Option<nat>)
    ensures r.Some? ==> r.value <= |s| && pat <= s[r.value..]
    ensures r.Some? ==> forall j :: 0 <= j < r.value ==> !(pat <= s[j..])
    ensures r.None? ==> forall j :: 0 <= j <= |s| ==> !(pat <= s[j..])
  {
    if pat <= s then Some(0)
    else if s == [] then None
    else
      assert forall j :: 1 <= j <= |s| ==> s[j..] == s[1..][j - 1..];
      match IndexOf(s[1..], pat)
      case None => None
      case Some(i) => Some(i + 1)
  }

  /** `s.replace(pat, rep)` with a string pattern: only the first occurrence is replaced. */
  function ReplaceFirst(s: string, pat: string, rep: string): string {
    match IndexOf(s, pat)
    case None => s
    case Some(i) => s[..i] + rep + s[i + |pat|..]
  }

  /** `w.charAt(0).toUpperCase() + w.slice(1)` */
  function Capitalize(w: string): string {
    if w == [] then [] else [UpperChar(w[0])] + w[1..]
  }

  function CapitalizeAll(words: seq<string>): (r: seq<string>)
    ensures |r| == |words|
  {
    if words == [] then [] else [Capitalize(words[0])] + CapitalizeAll(words[1..])
  }

  /** The label shown for a chain identifier. */
  function ChainTitle(chain: string): string {
    Join(CapitalizeAll(Split(ReplaceFirst(chain, "-mainnet", ""), '-')), " ")
  }

  /**
   * What the label is character by character, given the identifier `s` left
   * once "-mainnet" is removed: every '-' becomes a space, a letter at the
   * start or right after a '-' is upper-cased, and every other character is
   * kept. In particular the label is exactly as long as `s`.
   */
  function LabelChar(s: string, i: nat): char
    requires i < |s|
  {
    if s[i] == '-' then ' '
    else if i == 0 || s[i - 1] == '-' then UpperChar(s[i])
    else s[i]
  }

  /** The label scanned left to right; `atStart` says whether the next character begins a word. */
  function Scan(s: string, atStart: bool): (r: string)
    ensures |r| == |s|
  {
    if s == [] then []
    else if s[0] == '-' then [' '] + Scan(s[1..], true)
    else [if atStart then UpperChar(s[0]) else s[0]] + Scan(s[1..], false)
  }

  /** Character i of the scan: `atStart` stands for the character before the first. */
  function ScanChar(s: string, i: nat, atStart: bool): char
    requires i < |s|
  {
    if s[i] == '-' then ' '
    else if (i == 0 && atStart) || (i > 0 && s[i - 1] == '-') then UpperChar(s[i])
    else s[i]
  }

  lemma {:induction false} ScanChars(s: string, atStart: bool)
    ensures forall i :: 0 <= i < |s| ==> Scan(s, atStart)[i] == ScanChar(s, i, atStart)
  {
    if s != [] {
      var r := Scan(s, atStart);
      var t := s[1..];
      var b := s[0] == '-';
      ScanChars(t, b);
      assert r[1..] == Scan(t, b);
      assert r[0] == ScanChar(s, 0, atStart);
      forall i | 1 <= i < |s|
        ensures r[i] == ScanChar(s, i, atStart)
      {
        assert r[i] == Scan(t, b)[i - 1] == ScanChar(t, i - 1, b);
        assert t[i - 1] == s[i];
        assert i - 1 > 0 ==> t[i - 2] == s[i - 1];
      }
    }
  }

  lemma JoinFirstChar(x: char, w: string, rest: seq<string>, sep: string)
    ensures Join([[x] + w] + rest, sep) == [x] + Join([w] + rest, sep)
  {
    var a := [[x] + w] + rest;
    var b := [w] + rest;
    if |rest| > 0 {
      assert a[1..] == rest && b[1..] == rest;
    }
  }

  /** Splitting, capitalising and joining is the left-to-right scan. */
  lemma {:induction false} TitleIsScan(s: string, atStart: bool)
    ensures var p := Split(s, '-');
      Join([if atStart then Capitalize(p[0]) else p[0]] + CapitalizeAll(p[1..]), " ") == Scan(s, atStart)
  {
    var p := Split(s, '-');
    if s == [] {
    } else if s[0] == '-' {
      var q := Split(s[1..], '-');
      TitleIsScan(s[1..], true);
      assert p == [""] + q;
      assert p[1..] == q;
      assert CapitalizeAll(q) == [Capitalize(q[0])] + CapitalizeAll(q[1..]);
      var first: string := if atStart then Capitalize(p[0]) else p[0];
      assert first == "";
      var parts := [first] + CapitalizeAll(q);
      assert parts[1..] == CapitalizeAll(q);
      assert Join(parts, " ") == "" + " " + Join(CapitalizeAll(q), " ");
    } else {
      var q := Split(s[1..], '-');
      TitleIsScan(s[1..], false);
      assert p == [[s[0]] + q[0]] + q[1..];
      assert p[0] == [s[0]] + q[0] && p[1..] == q[1..];
      var x := if atStart then UpperChar(s[0]) else s[0];
      var first: string := if atStart then Capitalize(p[0]) else p[0];
      assert first == [x] + q[0];
      JoinFirstChar(x, q[0], CapitalizeAll(q[1..]), " ");
    }
  }

  /** The label, character by character, of what is left after "-mainnet" is dropped. */
  lemma ChainTitleChars(chain: string)
    ensures var s := ReplaceFirst(chain, "-mainnet", "");
      && |ChainTitle(chain)| == |s|
      && forall i :: 0 <= i < |s| ==> ChainTitle(chain)[i] == LabelChar(s, i)
  {
    var s := ReplaceFirst(chain, "-mainnet", "");
    var p := Split(s, '-');
    TitleIsScan(s, true);
    assert CapitalizeAll(p) == [Capitalize(p[0])] + CapitalizeAll(p[1..]);
    assert ChainTitle(chain) == Scan(s, true);
    ScanChars(s, true);
    forall i | 0 <= i < |s|
      ensures ChainTitle(chain)[i] == LabelChar(s, i)
    {
      assert ChainTitle(chain)[i] == ScanChar(s, i, true);
    }
  }

  /** An identifier without "-mainnet" is labelled as it stands. */
  lemma NoMainnetUnchanged(chain: string)
    requires forall j :: 0 <= j <= |chain| ==> !("-mainnet" <= chain[j..])
    ensures ReplaceFirst(chain, "-mainnet", "") == chain
  {
  }

  /** A name followed by its first "-mainnet" loses exactly that suffix. */
  lemma MainnetSuffixDropped(name: string)
    requires forall j :: 0 <= j < |name| ==> !("-mainnet" <= (name + "-mainnet")[j..])
    ensures ReplaceFirst(name + "-mainnet", "-mainnet", "") == name
  {
    var t := name + "-mainnet";
    assert "-mainnet" <= t[|name|..];
    var r := IndexOf(t, "-mainnet");
    assert r.Some?;
    assert r.value == |name|;
    assert t[..|name|] == name;
  }

  /**
   * A single-word name followed by "-mainnet" is labelled by the name with
   * its first letter upper-cased.
   */
  lemma MainnetTitle(name: string)
    requires name != [] && forall i :: 0 <= i < |name| ==> name[i] != '-'
    ensures ChainTitle(name + "-mainnet") == [UpperChar(name[0])] + name[1..]
  {
    var t := name + "-mainnet";
    forall j | 0 <= j < |name|
      ensures !("-mainnet" <= t[j..])
    {
      assert t[j..][0] == name[j];
    }
    MainnetSuffixDropped(name);
    ChainTitleChars(t);
    var want := [UpperChar(name[0])] + name[1..];
    forall i | 0 <= i < |name|
      ensures ChainTitle(t)[i] == want[i]
    {
      assert ChainTitle(t)[i] == LabelChar(name, i);
    }
  }
}
