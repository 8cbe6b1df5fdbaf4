/** The design tokens of ResumePDF/styles.ts: the spacing scale shared by every
    template and the flex style fragments built on it. */
module Styles {
  import opened Js

  /** A key of the spacing table. Numeric keys are counted in half-units, so
      `Step(3)` is the key `1.5` and `Step(192)` the key `96`. */
  datatype SpacingKey = Step(half: nat) | Full

  /** The spacing table, key by key, with the CSS length each key stands for;
      None for a key the table does not have. */
  function Spacing(k: SpacingKey): Option<string> {
    match k
    case Full => Some("100%")
    case Step(h) =>
      match h
      case 0 => Some("0")
      case 1 => Some("1pt")
      case 2 => Some("2pt")
      case 3 => Some("3pt")
      case 4 => Some("4pt")
      case 5 => Some("5pt")
      case 6 => Some("6pt")
      case 7 => Some("7pt")
      case 8 => Some("8pt")
      case 10 => Some("10pt")
      case 12 => Some("12pt")
      case 14 => Some("14pt")
      case 16 => Some("16pt")
      case 18 => Some("18pt")
      case 20 => Some("20pt")
      case 22 => Some("22pt")
      case 24 => Some("24pt")
      case 28 => Some("28pt")
      case 32 => Some("32pt")
      case 40 => Some("40pt")
      case 48 => Some("48pt")
      case 56 => Some("56pt")
      case 64 => Some("64pt")
      case 72 => Some("72pt")
      case 80 => Some("80pt")
      case 88 => Some("88pt")
      case 96 => Some("96pt")
      case 104 => Some("104pt")
      case 112 => Some("112pt")
      case 120 => Some("120pt")
      case 128 => Some("128pt")
      case 144 => Some("144pt")
      case 160 => Some("160pt")
      case 192 => Some("192pt")
      case _ => None
  }

  /** `spacing[k]` for a key `k` given in half-units (`Space(3)` is `spacing[1.5]`). */
  function Space(half: nat): string
    requires Spacing(Step(half)).Some?
  {
    Spacing(Step(half)).value
  }

  /** The number of points a spacing value stands for ("0" is zero). */
  function Points(css: string): nat {
    ParseNat(TakeDigits(css))
  }

  /** Every numeric key except 0 is twice its key in points: the key counted
      in half-units is the number of points. */
  lemma SpacingIsDoubleKey(k: SpacingKey)
    requires Spacing(k).Some? && k.Step? && k.half != 0
    ensures Spacing(k).value == NatToString(k.half) + "pt"
  {
    NumeralsOneDigit();
    NumeralsTwoDigits();
    NumeralsThreeDigits();
  }

  /** The numerals of the numeric keys. */
  lemma NumeralsOneDigit()
    ensures NatToString(1) == "1" && NatToString(2) == "2" && NatToString(3) == "3" && NatToString(4) == "4" && NatToString(5) == "5" && NatToString(6) == "6" && NatToString(7) == "7" && NatToString(8) == "8"
  {
  }

  lemma NumeralsTwoDigits()
    ensures NatToString(10) == "10" && NatToString(12) == "12" && NatToString(14) == "14" && NatToString(16) == "16" && NatToString(18) == "18" && NatToString(20) == "20" && NatToString(22) == "22" && NatToString(24) == "24" && NatToString(28) == "28" && NatToString(32) == "32" && NatToString(40) == "40" && NatToString(48) == "48" && NatToString(56) == "56" && NatToString(64) == "64" && NatToString(72) == "72" && NatToString(80) == "80" && NatToString(88) == "88" && NatToString(96) == "96"
  {
  }

  lemma NumeralsThreeDigits()
    ensures NatToString(104) == "104" && NatToString(112) == "112" && NatToString(120) == "120" && NatToString(128) == "128" && NatToString(144) == "144" && NatToString(160) == "160" && NatToString(192) == "192"
  {
  }

  /** `spacing[0]` is the unitless "0" and `spacing.full` is "100%". */
  lemma SpacingEnds()
    ensures Spacing(Step(0)) == Some("0") && Points(Spacing(Step(0)).value) == 0
    ensures Spacing(Full) == Some("100%")
  {
    assert TakeDigits("0") == "0" by {
      assert "0"[1..] == [];
    }
  }

  /** The points of every numeric key equal the key in half-units. */
  lemma PointsOfKey(h: nat)
    requires Spacing(Step(h)).Some?
    ensures Points(Spacing(Step(h)).value) == h
  {
    if h == 0 {
      SpacingEnds();
    } else {
      SpacingIsDoubleKey(Step(h));
      LeadingNumber(h, "pt");
    }
  }

  /** The scale is strictly increasing: a larger key gives a larger length. */
  lemma SpacingStrictlyIncreasing(a: nat, b: nat)
    requires Spacing(Step(a)).Some? && Spacing(Step(b)).Some?
    requires a < b
    ensures Points(Spacing(Step(a)).value) < Points(Spacing(Step(b)).value)
  {
    PointsOfKey(a);
    PointsOfKey(b);
  }

  // ---------------------------------------------------------------------------
  // Style fragments

  /** One entry of `StyleSheet.create`; absent properties are None. */
  datatype Fragment = Fragment(
    display: string,
    flexDirection: string,
    alignItems: Option<string>,
    justifyContent: Option<string>,
    gap: Option<string>)

  const FlexRow: Fragment :=
    Fragment("flex", "row", Some("center"), None, None)

  const FlexRowBetween: Fragment :=
    Fragment("flex", "row", Some("center"), Some("space-between"), None)

  const FlexCol: Fragment :=
    Fragment("flex", "column", None, None, Spacing(Step(3)))

  /** `flexCol` is a column whose gap is `spacing["1.5"]`, three points;
      `flexRowBetween` is `flexRow` with its items pushed apart. */
  lemma FragmentsAgree()
    ensures FlexCol.flexDirection == "column" && FlexCol.gap == Some("3pt")
    ensures Points(FlexCol.gap.value) == 3
    ensures FlexRowBetween == FlexRow.(justifyContent := Some("space-between"))
  {
    PointsOfKey(3);
  }
}
