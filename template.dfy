/** ResumePDF/ResumePDFTemplate.tsx (template "C"): a 70/30 split that draws
    all five sections whatever `formToShow` says, without a download button. */
module PdfTemplate {
  import opened Js
  import opened Records
  import opened Layout

  const DefaultTheme: string := "#0f766e"

  /** The sections of the main column and of the sidebar, in JSX order. */
  const MainKinds: seq<SectionKind> := [WorkExperiences, Educations, Projects]
  const SideKinds: seq<SectionKind> := [Skills, Custom]

  /** The document, with `themeColor = settings.themeColor || "#0f766e"`. */
  function Document(resume: Resume, settings: Settings, isPDF: bool): Page {
    var name := resume.profile.name;
    var themeColor := OrElse(settings.themeColor, DefaultTheme);
    Page(
      Title(name), name, None,
      PageSizeOf(settings.documentSize),
      settings.fontFamily,
      settings.fontSize + "pt",
      None,
      Some(themeColor),
      Some(themeColor),
      ProfileCall(themeColor, isPDF),
      [Calls(MainKinds, settings, themeColor), Calls(SideKinds, settings, themeColor)])
  }

  /** `ResumePDFTemplateC` of this file: the document, with no button. */
  function Component(resume: Resume, settings: Settings, isPDF: bool): Rendered {
    DocumentOnly(Document(resume, settings, isPDF))
  }

  /** The template has no download button in either mode, and the preview
      and the PDF differ only in how the profile block draws its links. */
  lemma ComponentModes(resume: Resume, settings: Settings)
    ensures var pdf := Component(resume, settings, true);
      var web := Component(resume, settings, false);
      && pdf.DocumentOnly? && web.DocumentOnly?
      && pdf.document.profile.isPDF && !web.document.profile.isPDF
      && pdf.document.profile.themeColor == web.document.profile.themeColor
      && pdf.document.(profile := web.document.profile) == web.document
  {
  }

  /** All five sections, always: work experience, education and projects in
      the main column, skills then custom in the sidebar. Only the last three
      get a bullet switch. Neither `formToShow` nor `formsOrder` changes the
      document. */
  lemma DocumentColumns(resume: Resume, settings: Settings, isPDF: bool, show: map<SectionKind, bool>, order: seq<SectionKind>)
    ensures var p := Document(resume, settings, isPDF);
      && |p.columns| == 2
      && Kinds(p.columns[0]) == [WorkExperiences, Educations, Projects]
      && Kinds(p.columns[1]) == [Skills, Custom]
      && (forall col, c :: col in p.columns && c in col ==> c.heading == Lookup(settings.formToHeading, c.kind))
      && (forall col, c :: col in p.columns && c in col ==> (c.showBulletPoints.Passed? <==> TakesBulletSwitch(c.kind)))
      && Document(resume, settings.(formToShow := show, formsOrder := order), isPDF) == p
  {
    var theme := OrElse(settings.themeColor, DefaultTheme);
    KindsOfCalls(MainKinds, settings, theme);
    KindsOfCalls(SideKinds, settings, theme);
    var other := settings.(formToShow := show, formsOrder := order);
    forall ks: seq<SectionKind> ensures Calls(ks, other, theme) == Calls(ks, settings, theme) {
      assert forall i :: 0 <= i < |ks| ==> Call(ks[i], other, theme) == Call(ks[i], settings, theme);
    }
  }

  /** The theme colour `settings.themeColor || "#0f766e"` rules the profile
      block, frames the columns and colours the profile and every section;
      the font family and size come from the settings, links follow `isPDF`,
      and the page is A4 exactly when `documentSize` is "A4". */
  lemma DocumentStyle(resume: Resume, settings: Settings, isPDF: bool)
    ensures var p := Document(resume, settings, isPDF);
      var accent := if settings.themeColor != "" then settings.themeColor else DefaultTheme;
      && p.headerBorder == Some(accent) && p.frame == Some(accent)
      && p.profile == ProfileCall(accent, isPDF)
      && (forall col, c :: col in p.columns && c in col ==> c.themeColor == accent)
      && p.fontFamily == settings.fontFamily
      && p.fontSize == settings.fontSize + "pt"
      && (p.size == A4 <==> settings.documentSize == "A4")
  {
  }
}
