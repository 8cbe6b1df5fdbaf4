/** ResumePDF/ResumePDFTemplateD.tsx (template "D"): one column of the shown
    sections in the order of `formsOrder`, a coloured bar when the settings
    carry a theme colour, and a download button that retries. */
module PdfTemplateD {
  import opened Js
  import opened Records
  import opened Layout
  import Download
  import FileName

  const FileSuffix: string := "-template-C.pdf"

  /** The two `Font.register` calls made when the file is loaded. */
  const ModuleFonts: seq<Registration> := [CdnRegular, CdnBold]

  /** `formsOrder.filter((form) => formToShow[form])`. */
  function ShowFormsOrder(settings: Settings): seq<SectionKind> {
    FilterShown(settings.formsOrder, settings.formToShow)
  }

  /** `PDFDocument`: with `themeColor = settings.themeColor || DEFAULT_FONT_COLOR`. */
  function Document(resume: Resume, settings: Settings): Page {
    var name := resume.profile.name;
    var themeColor := OrElse(settings.themeColor, DefaultFontColor);
    Page(
      Title(name), name, Some("OpenResume"),
      PageSizeOf(settings.documentSize),
      SourceSansPro,
      settings.fontSize + "pt",
      if settings.themeColor != "" then Some(themeColor) else None,
      None,
      None,
      ProfileCall(themeColor, true),
      [Calls(ShowFormsOrder(settings), settings, themeColor)])
  }

  /** `ResumePDFTemplateC` of this file: the document alone with `isPDF`,
      otherwise the download button above the document. */
  function Component(resume: Resume, settings: Settings, isPDF: bool, isDownloading: bool): Rendered {
    RenderWithDownload(isPDF, isDownloading, Document(resume, settings))
  }

  /** One column. A kind is drawn exactly when it is in `formsOrder` and
      `formToShow` holds for it, in the order of `formsOrder`, and (when
      `formsOrder` lists each kind once) once. Each section gets its heading
      from `formToHeading`, and only the education, skills and custom ones get
      a bullet switch. */
  lemma DocumentSections(resume: Resume, settings: Settings)
    ensures var p := Document(resume, settings);
      && |p.columns| == 1
      && Kinds(p.columns[0]) == ShowFormsOrder(settings)
      && (forall k :: k in Kinds(p.columns[0]) <==> k in settings.formsOrder && Shown(settings.formToShow, k))
      && (NoDuplicates(settings.formsOrder) ==> NoDuplicates(Kinds(p.columns[0])) && InOrderOf(Kinds(p.columns[0]), settings.formsOrder))
      && (forall c :: c in p.columns[0] ==>
            c.heading == Lookup(settings.formToHeading, c.kind)
            && (c.showBulletPoints.Passed? <==> TakesBulletSwitch(c.kind)))
  {
    ShownColumn(settings.formsOrder, settings, OrElse(settings.themeColor, DefaultFontColor));
  }

  /** The bar is drawn exactly when the raw `settings.themeColor` is truthy,
      in that colour; the profile and every section use
      `themeColor || DEFAULT_FONT_COLOR`. The profile always draws PDF links,
      the font is always Source Sans Pro (the one registered when the file is
      loaded) whatever `fontFamily` says, and the page is A4 exactly when
      `documentSize` is "A4". */
  lemma DocumentStyle(resume: Resume, settings: Settings)
    ensures var p := Document(resume, settings);
      var accent := if settings.themeColor != "" then settings.themeColor else DefaultFontColor;
      && (p.headerBar.Some? <==> settings.themeColor != "")
      && (p.headerBar.Some? ==> p.headerBar.value == settings.themeColor)
      && p.profile == ProfileCall(accent, true)
      && (forall col, c :: col in p.columns && c in col ==> c.themeColor == accent)
      && p.fontFamily == SourceSansPro
      && (forall r :: r in ModuleFonts ==> r.family == p.fontFamily)
      && (p.size == A4 <==> settings.documentSize == "A4")
      && p.title == resume.profile.name + " Resume"
  {
  }

  /** `downloadPDF`: saves `<name>-template-C.pdf` on the first attempt that
      yields a blob, or shows the one alert after three failures; a call made
      while another runs does nothing, and the flag is clear after each call
      that ran. */
  method DownloadPDF(dl: Download.Downloader, resume: Resume, attempts: seq<Download.Attempt>) returns (run: Option<Download.Run>)
    requires |attempts| >= Download.MaxRetries
    modifies dl
    ensures old(dl.isDownloading) ==> run.None? && dl.isDownloading && dl.saved == old(dl.saved) && dl.alerts == old(dl.alerts)
    ensures !old(dl.isDownloading) ==> !dl.isDownloading
    ensures !old(dl.isDownloading) ==> run == Some(Download.RetrySpec(attempts, FileName.DownloadName(resume.profile.name, FileSuffix)))
    ensures !old(dl.isDownloading) ==> Download.Recorded(run.value.delivery, old(dl.saved), old(dl.alerts), dl.saved, dl.alerts)
  {
    run := Download.DownloadWithRetries(dl, attempts, FileName.DownloadName(resume.profile.name, FileSuffix));
  }
}
