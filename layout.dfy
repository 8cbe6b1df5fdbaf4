/** The shape shared by the PDF templates: the page they lay out, the calls
    they make to the section renderers, and what a template component yields
    with and without `isPDF`. */
module Layout {
  import opened Js
  import opened Records

  /** `documentSize === "A4" ? "A4" : "LETTER"`. */
  datatype PageSize = A4 | Letter

  function PageSizeOf(documentSize: string): (p: PageSize)
    ensures p == A4 <==> documentSize == "A4"
    ensures p == Letter <==> documentSize != "A4"
  {
    if documentSize == "A4" then A4 else Letter
  }

  /** Whether a section renderer receives a `showBulletPoints` prop, and its
      value (`showBulletPoints[kind]`, undefined when the key is missing). */
  datatype BulletProp = NotPassed | Passed(value: Option<bool>)

  /** One call of a section renderer (`ResumePDFWorkExperience`, ...): the
      kind decides which renderer and which slice of the résumé it draws. */
  datatype SectionCall = SectionCall(
    kind: SectionKind,
    heading: Option<string>,
    themeColor: string,
    showBulletPoints: BulletProp)

  /** The renderers that take a bullet switch: the education, skills and
      custom ones. */
  predicate TakesBulletSwitch(kind: SectionKind) {
    kind == Educations || kind == Skills || kind == Custom
  }

  /** The call every template makes for a kind: heading
      `formToHeading[kind]`, the template's theme colour, and for the kinds
      that take one, `showBulletPoints[kind]`. */
  function Call(kind: SectionKind, settings: Settings, themeColor: string): (c: SectionCall)
    ensures c.kind == kind && c.themeColor == themeColor
    ensures c.heading == Lookup(settings.formToHeading, kind)
    ensures c.showBulletPoints.Passed? <==> kind != WorkExperiences && kind != Projects
    ensures c.showBulletPoints.Passed? ==> c.showBulletPoints.value == Lookup(settings.showBulletPoints, kind)
  {
    SectionCall(kind, Lookup(settings.formToHeading, kind), themeColor,
      if TakesBulletSwitch(kind) then Passed(Lookup(settings.showBulletPoints, kind)) else NotPassed)
  }

  /** The calls for a list of kinds, in list order. */
  function Calls(kinds: seq<SectionKind>, settings: Settings, themeColor: string): (cs: seq<SectionCall>)
    ensures |cs| == |kinds|
    ensures forall i :: 0 <= i < |kinds| ==> cs[i] == Call(kinds[i], settings, themeColor)
  {
    seq(|kinds|, i requires 0 <= i < |kinds| => Call(kinds[i], settings, themeColor))
  }

  /** The kinds drawn by a column, in order. */
  function Kinds(column: seq<SectionCall>): (ks: seq<SectionKind>)
    ensures |ks| == |column| && forall i :: 0 <= i < |column| ==> ks[i] == column[i].kind
  {
    seq(|column|, i requires 0 <= i < |column| => column[i].kind)
  }

  /** Reading the kinds back from the calls gives the kinds asked for. */
  lemma KindsOfCalls(kinds: seq<SectionKind>, settings: Settings, themeColor: string)
    ensures Kinds(Calls(kinds, settings, themeColor)) == kinds
  {
  }

  /** A column of the shown kinds of `base`: it draws a kind exactly when the
      kind is in `base` and shown, in the order of `base` and, when `base`
      lists each kind once, once; every call carries the column's theme
      colour, its heading from `formToHeading`, and a bullet switch exactly
      for the kinds that take one. */
  lemma ShownColumn(base: seq<SectionKind>, settings: Settings, themeColor: string)
    ensures var col := Calls(FilterShown(base, settings.formToShow), settings, themeColor);
      && Kinds(col) == FilterShown(base, settings.formToShow)
      && (forall k :: k in Kinds(col) <==> k in base && Shown(settings.formToShow, k))
      && (NoDuplicates(base) ==> NoDuplicates(Kinds(col)) && InOrderOf(Kinds(col), base))
      && (forall c :: c in col ==> c.themeColor == themeColor)
      && (forall c :: c in col ==> c.heading == Lookup(settings.formToHeading, c.kind))
      && (forall c :: c in col ==> (c.showBulletPoints.Passed? <==> TakesBulletSwitch(c.kind)))
  {
    var ks := FilterShown(base, settings.formToShow);
    KindsOfCalls(ks, settings, themeColor);
    forall k ensures k in ks <==> k in base && Shown(settings.formToShow, k) {
      FilterShownMembers(base, settings.formToShow, k);
    }
    if NoDuplicates(base) {
      FilterShownKeepsOrder(base, settings.formToShow);
    }
  }

  /** The call of `ResumePDFProfile`. */
  datatype ProfileCall = ProfileCall(themeColor: string, isPDF: bool)

  /** A registered font family: one `Font.register` call with its files. */
  datatype FontSource = FontSource(src: string, fontWeight: string)
  datatype Registration = Registration(family: string, fonts: seq<FontSource>)

  const SourceSansPro: string := "Source Sans Pro"

  const CdnRegular: Registration := Registration(SourceSansPro,
    [FontSource("https://cdn.jsdelivr.net/npm/source-sans-pro@3.6.0/TTF/SourceSansPro-Regular.ttf", "normal")])
  const CdnBold: Registration := Registration(SourceSansPro,
    [FontSource("https://cdn.jsdelivr.net/npm/source-sans-pro@3.6.0/TTF/SourceSansPro-Bold.ttf", "bold")])

  /** The document a PDF template lays out. `headerBar` is the colour of the
      full-width bar drawn above the content, `headerBorder` that of the rule
      beside the profile block, and `frame` that of the border around the
      columns, each when there is one; `columns` lists the section calls
      column by column, left to right. */
  datatype Page = Page(
    title: string,
    author: string,
    producer: Option<string>,
    size: PageSize,
    fontFamily: string,
    fontSize: string,
    headerBar: Option<string>,
    headerBorder: Option<string>,
    frame: Option<string>,
    profile: ProfileCall,
    columns: seq<seq<SectionCall>>)

  /** `${name} Resume`. */
  function Title(name: string): (t: string)
    ensures |t| == |name| + 7 && t[..|name|] == name && t[|name|..] == " Resume"
  {
    name + " Resume"
  }

  /** The download button the preview carries. */
  datatype Button = Button(text: string, disabled: bool)

  /** With `isPDF` a template yields only its document; otherwise a download
      button above the same document as a preview. */
  datatype Rendered =
    | DocumentOnly(document: Page)
    | WithButton(button: Button, preview: Page)

  /** The button label while a download runs and otherwise. */
  const GeneratingLabel: string := "Generating PDF..."
  const DownloadLabel: string := "Download PDF"

  /** The `if (isPDF)` split and the button of the downloading templates:
      disabled and labelled "Generating PDF..." exactly while downloading. */
  function RenderWithDownload(isPDF: bool, isDownloading: bool, page: Page): (r: Rendered)
    ensures r.DocumentOnly? <==> isPDF
    ensures r.DocumentOnly? ==> r.document == page
    ensures r.WithButton? ==> r.preview == page && r.button.disabled == isDownloading
    ensures r.WithButton? ==> (r.button.text == GeneratingLabel <==> isDownloading)
    ensures r.WithButton? ==> (r.button.text == DownloadLabel <==> !isDownloading)
  {
    if isPDF then DocumentOnly(page)
    else WithButton(Button(if isDownloading then GeneratingLabel else DownloadLabel, isDownloading), page)
  }
}
