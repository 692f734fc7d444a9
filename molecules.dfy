/** The species lists of codes/functionality.py and `format_molecule_HTML`,
    which turns a species name into its HTML display form. Gas-phase names are
    bare, ice-bulk names carry the prefix '@' and ice-surface names '#'. */
module Molecules {

  const MolDiatomic: seq<string> := ["CS", "SO", "SIO", "NS+"]
  const MolDiatomicBulk: seq<string> := ["@CS", "@SO", "@SIO"]
  const MolDiatomicSurface: seq<string> := ["#CS", "#SO", "#SIO"]
  const MolTriatomic: seq<string> := ["C2S", "HCN", "HNC", "HCO", "HCO+"]
  const MolTriatomicBulk: seq<string> := ["@C2S", "@HCN", "@HNC", "@HCO"]
  const MolTriatomicSurface: seq<string> := ["#C2S", "#HCN", "#HNC", "#HCO"]
  const MolTetratomic: seq<string> := ["H2CO", "HNCO"]
  const MolTetratomicBulk: seq<string> := ["@H2CO", "@HNCO"]
  const MolTetratomicSurface: seq<string> := ["#H2CO", "#HNCO"]
  const MolPolyatomic: seq<string> := ["HC3N", "CH2CO"]
  const MolPolyatomicBulk: seq<string> := ["@HC3N", "@CH2CO"]
  const MolPolyatomicSurface: seq<string> := ["#HC3N", "#CH2CO"]
  const MolComsGas: seq<string> :=
    ["CH3CN", "CH3OH", "CH3SH", "NH2CHO", "CH3CCH", "CH3CHO", "CH3NCO", "HCOOCH3", "C2H5CN", "C2H5OH", "CH3OCH3"]
  const MolComsBulk: seq<string> :=
    ["@CH3CN", "@CH3OH", "@CH3SH", "@NH2CHO", "@CH3CCH", "@CH3CHO", "@CH3NCO", "@HCOOCH3", "@C2H5CN", "@C2H5OH", "@CH3OCH3"]
  const MolComsSurface: seq<string> :=
    ["#CH3CN", "#CH3OH", "#CH3SH", "#NH2CHO", "#CH3CCH", "#CH3CHO", "#CH3NCO", "#HCOOCH3", "#C2H5CN", "#C2H5OH", "#CH3OCH3"]

  const MolAllGas: seq<string> := MolDiatomic + MolTriatomic + MolTetratomic + MolPolyatomic + MolComsGas
  const MolAllBulk: seq<string> :=
    MolDiatomicBulk + MolTriatomicBulk + MolTetratomicBulk + MolPolyatomicBulk + MolComsBulk
  const MolAllSurface: seq<string> :=
    MolDiatomicSurface + MolTriatomicSurface + MolTetratomicSurface + MolPolyatomicSurface + MolComsSurface
  /** The species list every extracted record carries. */
  const MolAll: seq<string> := MolAllGas + MolAllBulk + MolAllSurface
  const MolExcComsGas: seq<string> := MolDiatomic + MolTriatomic + MolTetratomic + MolPolyatomic
  const MolExcComsBulk: seq<string> := MolDiatomicBulk + MolTriatomicBulk + MolTetratomicBulk + MolPolyatomicBulk
  const MolExcComsSurface: seq<string> :=
    MolDiatomicSurface + MolTriatomicSurface + MolTetratomicSurface + MolPolyatomicSurface
  const MolExcComs: seq<string> := MolExcComsGas + MolExcComsBulk + MolExcComsSurface

  datatype Phase = Gas | IceBulk | IceSurface

  /** The phase a species name denotes, by its prefix. */
  function PhaseOf(name: string): Phase
  {
    if |name| > 0 && name[0] == '@' then IceBulk
    else if |name| > 0 && name[0] == '#' then IceSurface
    else Gas
  }

  /** The three phase lists use disjoint name spaces, and the list without
      complex organic molecules is part of the full list. */
  lemma SpeciesListsByPhase()
    ensures |MolAllGas| == 24 && |MolAllBulk| == 22 && |MolAllSurface| == 22 && |MolAll| == 68
    ensures forall s :: s in MolAllGas ==> PhaseOf(s) == Gas
    ensures forall s :: s in MolAllBulk ==> PhaseOf(s) == IceBulk
    ensures forall s :: s in MolAllSurface ==> PhaseOf(s) == IceSurface
    ensures forall s :: s in MolExcComs ==> s in MolAll
  {
  }

  /** `str.isdigit()` on the ASCII names the lists hold. */
  predicate IsDigit(c: char)
  {
    '0' <= c <= '9'
  }

  /** The token the loop emits at position `i`, and where the next token
      starts: a digit becomes a subscript, '+' a superscript, the pair "SI"
      becomes "Si", and any other character is kept. */
  function TokenAt(name: string, i: nat): (t: (string, nat))
    requires i < |name|
    ensures i < t.1 <= |name|
  {
    var c := name[i];
    if IsDigit(c) then ("<sub>" + [c] + "</sub>", i + 1)
    else if c == '+' then ("<sup>+</sup>", i + 1)
    else if c == 'S' && i < |name| - 1 && name[i + 1] == 'I' then ("Si", i + 2)
    else ([c], i + 1)
  }

  /** The display form of a name: its tokens from the left, each formatted. */
  function FormattedLabel(name: string): string
    decreases |name|
  {
    if |name| == 0 then ""
    else
      var t := TokenAt(name, 0);
      t.0 + FormattedLabel(name[t.1..])
  }

  /** Formatting from position `i` emits the token there, then formats the rest. */
  lemma FormattedFrom(name: string, i: nat)
    requires i < |name|
    ensures FormattedLabel(name[i..]) == TokenAt(name, i).0 + FormattedLabel(name[TokenAt(name, i).1..])
  {
    var t := TokenAt(name, i);
    assert name[i..][0] == name[i];
    assert i < |name| - 1 ==> name[i..][1] == name[i + 1];
    assert TokenAt(name[i..], 0) == (t.0, t.1 - i);
    assert name[i..][t.1 - i..] == name[t.1..];
  }

  /** Regrouping concatenations, stated once so the loop proof stays cheap. */
  lemma AppendAssoc(a: string, b: string, c: string)
    ensures (a + b) + c == a + (b + c)
  {
  }

  /** `format_molecule_HTML(name)`: the index-driven loop of the source. */
  method FormatMoleculeHtml(name: string) returns (formatted: string)
    ensures formatted == FormattedLabel(name)
  {
    formatted := "";
    var i := 0;
    assert name[i..] == name;
    while i < |name|
      invariant 0 <= i <= |name|
      invariant formatted + FormattedLabel(name[i..]) == FormattedLabel(name)
    {
      FormattedFrom(name, i);
      ghost var before, token := formatted, TokenAt(name, i);
      var c := name[i];
      if IsDigit(c) {
        formatted := formatted + "<sub>" + [c] + "</sub>";
      } else if c == '+' {
        formatted := formatted + "<sup>+</sup>";
      } else if c == 'S' && i < |name| - 1 && name[i + 1] == 'I' {
        formatted := formatted + "Si";
        i := i + 1;
      } else {
        formatted := formatted + [c];
      }
      i := i + 1;
      assert formatted == before + token.0 && i == token.1;
      AppendAssoc(before, token.0, FormattedLabel(name[i..]));
    }
    assert name[i..] == [];
  }

  /** A name with no digit, no '+' and no "SI" pair is displayed as it is. */
  lemma {:induction false} PlainLabelUnchanged(name: string)
    requires forall k :: 0 <= k < |name| ==> !IsDigit(name[k]) && name[k] != '+'
    requires forall k :: 0 <= k < |name| - 1 ==> !(name[k] == 'S' && name[k + 1] == 'I')
    ensures FormattedLabel(name) == name
  {
    if |name| > 0 {
      assert TokenAt(name, 0) == ([name[0]], 1);
      PlainLabelUnchanged(name[1..]);
      assert name == [name[0]] + name[1..];
    }
  }

  /** Formatting works piecewise, except across a cut that splits an "SI" pair. */
  lemma {:induction false} FormattedConcat(a: string, b: string)
    requires !(|a| > 0 && a[|a| - 1] == 'S' && |b| > 0 && b[0] == 'I')
    ensures FormattedLabel(a + b) == FormattedLabel(a) + FormattedLabel(b)
    decreases |a|
  {
    if |a| == 0 {
      assert a + b == b;
    } else {
      var ab := a + b;
      assert ab[0] == a[0];
      assert |a| > 1 ==> ab[1] == a[1];
      var (token, next) := TokenAt(a, 0);
      assert TokenAt(ab, 0) == (token, next);
      assert FormattedLabel(ab) == token + FormattedLabel(ab[next..]);
      assert FormattedLabel(a) == token + FormattedLabel(a[next..]);
      assert ab[next..] == a[next..] + b;
      FormattedConcat(a[next..], b);
      AppendAssoc(token, FormattedLabel(a[next..]), FormattedLabel(b));
    }
  }
}
