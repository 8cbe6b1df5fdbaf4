/** The stateless building blocks of ResumePDF/common/index.tsx: the section
    container, the styled text run, the bullet list, the dual-mode link and the
    rated-skill chip. Each returns the structure it draws. */
module Common {
  import opened Js
  import opened Records
  import Styles

  // ---------------------------------------------------------------------------
  // ResumePDFSection

  /** The heading block: the rule under the heading and the heading text share
      one colour. */
  datatype HeadingBlock = HeadingBlock(text: string, ruleColor: string, textColor: string)

  /** A section: an optional heading block followed by all of its children. */
  datatype SectionView<T> = SectionView(heading: Option<HeadingBlock>, gap: string, children: seq<T>)

  /** `ResumePDFSection`: the heading block is drawn when `heading` is truthy,
      in `themeColor || DEFAULT_FONT_COLOR`; the children are always drawn. */
  function Section<T>(themeColor: Option<string>, heading: Option<string>, children: seq<T>): (r: SectionView<T>)
    ensures r.heading.Some? <==> Truthy(heading)
    ensures r.heading.Some? ==> r.heading.value.text == heading.value
    ensures r.heading.Some? ==> r.heading.value.ruleColor == r.heading.value.textColor
                                  == (if Truthy(themeColor) then themeColor.value else DefaultFontColor)
    ensures r.children == children
  {
    var color := OptOrElse(themeColor, DefaultFontColor);
    SectionView(
      if Truthy(heading) then Some(HeadingBlock(heading.value, color, color)) else None,
      Styles.Space(4),
      children)
  }

  // ---------------------------------------------------------------------------
  // ResumePDFText

  /** A run of text with its resolved colour and weight. */
  datatype TextRun = TextRun(color: string, fontWeight: nat, text: string)

  /** Properties a caller's `style` sets; absent ones keep the defaults. */
  datatype TextOverride = TextOverride(color: Option<string>, fontWeight: Option<nat>)

  const NoOverride: TextOverride := TextOverride(None, None)

  /** The default text colour of `ResumePDFText`. */
  const DefaultTextColor: string := "#1f2937"

  /** `ResumePDFText`: colour `themeColor || "#1f2937"`, weight 700 when bold and
      400 otherwise, each replaced by the caller's style when it sets one. */
  function Text(bold: bool, themeColor: Option<string>, style: TextOverride, text: string): (r: TextRun)
    ensures r.text == text
    ensures style.color.None? ==> r.color == (if Truthy(themeColor) then themeColor.value else DefaultTextColor)
    ensures style.fontWeight.None? ==> (r.fontWeight == 700 <==> bold) && (r.fontWeight == 400 <==> !bold)
  {
    TextRun(
      if style.color.Some? then style.color.value else OptOrElse(themeColor, DefaultTextColor),
      if style.fontWeight.Some? then style.fontWeight.value else if bold then 700 else 400,
      text)
  }

  // ---------------------------------------------------------------------------
  // ResumePDFBulletList

  /** The glyph literal as it stands in the component's source text. */
  const BulletGlyph: string := "\U{00E2}\U{20AC}\U{00A2}"

  /** One row of a bullet list: the glyph when bullets are on, then the item. */
  datatype BulletRow = BulletRow(glyph: Option<TextRun>, item: TextRun)

  const BulletOverride: TextOverride := TextOverride(Some("#6b7280"), None)
  const ItemOverride: TextOverride := TextOverride(Some("#374151"), None)

  /** `ResumePDFBulletList`: `items.map(...)`; `showBulletPoints` is undefined
      when the caller passes none, which the parameter default turns into true. */
  function BulletList(items: seq<string>, showBulletPoints: Option<bool>): (rows: seq<BulletRow>)
  {
    var show := if showBulletPoints.Some? then showBulletPoints.value else true;
    seq(|items|, idx requires 0 <= idx < |items| =>
      BulletRow(
        if show then Some(Text(true, None, BulletOverride, BulletGlyph)) else None,
        Text(false, None, ItemOverride, items[idx])))
  }

  /** One row per item, in order, each holding the item's text; the glyph is
      drawn exactly when `showBulletPoints` is true or left out. */
  lemma BulletListRows(items: seq<string>, showBulletPoints: Option<bool>)
    ensures |BulletList(items, showBulletPoints)| == |items|
    ensures forall i :: 0 <= i < |items| ==>
      && BulletList(items, showBulletPoints)[i].item.text == items[i]
      && (BulletList(items, showBulletPoints)[i].glyph.Some? <==> showBulletPoints != Some(false))
  {
  }

  // ---------------------------------------------------------------------------
  // ResumePDFLink

  /** A PDF `Link`, or a browser anchor opening in a new tab. */
  datatype LinkNode =
    | PdfLink(src: string)
    | Anchor(href: string, target: string, rel: string)

  /** `ResumePDFLink`: a PDF link exactly when rendering for the PDF. */
  function Link(src: string, isPDF: bool): (r: LinkNode)
    ensures r.PdfLink? <==> isPDF
    ensures r.PdfLink? ==> r.src == src
    ensures r.Anchor? ==> r.href == src && r.target == "_blank" && r.rel == "noreferrer"
  {
    if isPDF then PdfLink(src) else Anchor(src, "_blank", "noreferrer")
  }

  // ---------------------------------------------------------------------------
  // ResumeFeaturedSkill

  /** One rating circle: its colour and its opacity in percent. */
  datatype Circle = Circle(filled: bool, color: string, opacityPercent: nat)

  datatype SkillChip = SkillChip(name: TextRun, circles: seq<Circle>)

  const NumCircles: nat := 5
  const DefaultSkillColor: string := "#2563eb"
  const EmptyCircleColor: string := "#e5e7eb"

  /** `ResumeFeaturedSkill`: the skill name in the skill colour, then five
      circles; circle `idx` is filled when `rating >= idx`. */
  function FeaturedSkill(skill: string, rating: int, themeColor: string): SkillChip {
    var skillColor := OrElse(themeColor, DefaultSkillColor);
    SkillChip(
      Text(false, None, TextOverride(Some(skillColor), Some(700)), skill),
      seq(NumCircles, idx requires 0 <= idx < NumCircles =>
        if rating >= idx then Circle(true, skillColor, 100) else Circle(false, EmptyCircleColor, 50)))
  }

  /** The number of filled circles in a row. */
  function FilledCount(cs: seq<Circle>): nat
    decreases |cs|
  {
    if cs == [] then 0 else (if cs[0].filled then 1 else 0) + FilledCount(cs[1..])
  }

  /** Filled circles form a prefix: circles `0..k-1` are filled and the rest
      are not, so the count is `k`. */
  lemma {:induction false} FilledPrefixCount(cs: seq<Circle>, k: nat)
    requires k <= |cs|
    requires forall i :: 0 <= i < |cs| ==> (cs[i].filled <==> i < k)
    ensures FilledCount(cs) == k
    decreases |cs|
  {
    if cs != [] {
      FilledPrefixCount(cs[1..], if k == 0 then 0 else k - 1);
    }
  }

  /** The chip always has five circles. Circle `idx` is filled (full opacity,
      skill colour) exactly when `rating >= idx`, and dimmed otherwise; so a
      rating `r` in 0..4 fills `r + 1` circles, a negative rating none, and a
      rating of 4 or more all five. The colour is `themeColor || "#2563eb"`. */
  lemma FeaturedSkillCircles(skill: string, rating: int, themeColor: string)
    ensures var chip := FeaturedSkill(skill, rating, themeColor);
      && |chip.circles| == 5
      && chip.name.text == skill && chip.name.fontWeight == 700
      && chip.name.color == (if themeColor != "" then themeColor else DefaultSkillColor)
      && (forall idx :: 0 <= idx < 5 ==>
            (chip.circles[idx].filled <==> rating >= idx)
            && (chip.circles[idx].filled ==> chip.circles[idx].opacityPercent == 100 && chip.circles[idx].color == chip.name.color)
            && (!chip.circles[idx].filled ==> chip.circles[idx].opacityPercent == 50 && chip.circles[idx].color == EmptyCircleColor))
      && FilledCount(chip.circles) == (if rating < 0 then 0 else if rating >= 4 then 5 else rating + 1)
  {
    var chip := FeaturedSkill(skill, rating, themeColor);
    FilledPrefixCount(chip.circles, if rating < 0 then 0 else if rating >= 4 then 5 else rating + 1);
  }
}
