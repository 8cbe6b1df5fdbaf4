/** ResumePDF/ResumePDFTemplateB.tsx (template "B"): two fixed columns, each
    section gated by `formToShow`, and a download button that retries. */
module PdfTemplateB {
  import opened Js
  import opened Records
  import opened Layout
  import Download
  import FileName

  const FileSuffix: string := "-template-B.pdf"
  const DefaultTheme: string := "#2563eb"

  /** The two `Font.register` calls made when the file is loaded. */
  const ModuleFonts: seq<Registration> := [CdnRegular, CdnBold]

  /** The kinds each column may hold, in the order the JSX lists them. */
  const LeftKinds: seq<SectionKind> := [WorkExperiences, Educations, Projects]
  const RightKinds: seq<SectionKind> := [Skills, Custom]

  /** `PDFDocument`, with `themeColor = settings.themeColor || "#2563eb"`: each
      `{formToShow[kind] && ...}` keeps a kind of its column when it is
      shown. */
  function Document(resume: Resume, settings: Settings): Page {
    var name := resume.profile.name;
    var themeColor := OrElse(settings.themeColor, DefaultTheme);
    Page(
      Title(name), name, Some("OpenResume"),
      PageSizeOf(settings.documentSize),
      SourceSansPro,
      settings.fontSize + "pt",
      None,
      Some(themeColor),
      None,
      ProfileCall(themeColor, true),
      [Calls(FilterShown(LeftKinds, settings.formToShow), settings, themeColor),
       Calls(FilterShown(RightKinds, settings.formToShow), settings, themeColor)])
  }

  function Component(resume: Resume, settings: Settings, isPDF: bool, isDownloading: bool): Rendered {
    RenderWithDownload(isPDF, isDownloading, Document(resume, settings))
  }

  /** Two columns: the left holds work experience, education and projects,
      the right skills and custom, each kind exactly when `formToShow` holds
      for it, once, and in that fixed order. */
  lemma DocumentColumns(resume: Resume, settings: Settings)
    ensures var p := Document(resume, settings);
      && |p.columns| == 2
      && (forall k :: k in Kinds(p.columns[0]) <==> k in LeftKinds && Shown(settings.formToShow, k))
      && (forall k :: k in Kinds(p.columns[1]) <==> k in RightKinds && Shown(settings.formToShow, k))
      && NoDuplicates(Kinds(p.columns[0])) && InOrderOf(Kinds(p.columns[0]), LeftKinds)
      && NoDuplicates(Kinds(p.columns[1])) && InOrderOf(Kinds(p.columns[1]), RightKinds)
      && (forall col, c :: col in p.columns && c in col ==> c.heading == Lookup(settings.formToHeading, c.kind))
      && (forall col, c :: col in p.columns && c in col ==> (c.showBulletPoints.Passed? <==> TakesBulletSwitch(c.kind)))
  {
    var theme := OrElse(settings.themeColor, DefaultTheme);
    var p := Document(resume, settings);
    assert p.columns == [Calls(FilterShown(LeftKinds, settings.formToShow), settings, theme),
                         Calls(FilterShown(RightKinds, settings.formToShow), settings, theme)];
    FixedKindsDistinct();
    ShownColumn(LeftKinds, settings, theme);
    ShownColumn(RightKinds, settings, theme);
  }

  lemma FixedKindsDistinct()
    ensures NoDuplicates(LeftKinds) && NoDuplicates(RightKinds)
  {
  }

  /** `formsOrder` plays no part: reordering it leaves the document as it is. */
  lemma IgnoresFormsOrder(resume: Resume, settings: Settings, order: seq<SectionKind>)
    ensures Document(resume, settings.(formsOrder := order)) == Document(resume, settings)
  {
    var other := settings.(formsOrder := order);
    var theme := OrElse(settings.themeColor, DefaultTheme);
    forall ks: seq<SectionKind> ensures Calls(ks, other, theme) == Calls(ks, settings, theme) {
      assert forall i :: 0 <= i < |ks| ==> Call(ks[i], other, theme) == Call(ks[i], settings, theme);
    }
  }

  /** The theme colour is `settings.themeColor || "#2563eb"` for the profile
      block's rule, the profile and every section; the profile always draws
      PDF links, whatever `isPDF` says. */
  lemma DocumentStyle(resume: Resume, settings: Settings)
    ensures var p := Document(resume, settings);
      var accent := if settings.themeColor != "" then settings.themeColor else DefaultTheme;
      && p.headerBorder == Some(accent)
      && p.profile == ProfileCall(accent, true)
      && (forall col, c :: col in p.columns && c in col ==> c.themeColor == accent)
      && p.fontFamily == SourceSansPro
      && (forall r :: r in ModuleFonts ==> r.family == p.fontFamily)
  {
  }

  /** `downloadPDF`: the same procedure as template D's, saving
      `<name>-template-B.pdf`. */
  method DownloadPDF(dl: Download.Downloader, resume: Resume, attempts: seq<Download.Attempt>) returns (run: Option<Download.Run>)
    requires |attempts| >= Download.MaxRetries
    modifies dl
    ensures old(dl.isDownloading) ==> run.None? && dl.isDownloading && dl.saved == old(dl.saved) && dl.alerts == old(dl.alerts)
    ensures !old(dl.isDownloading) ==> !dl.isDownloading
    ensures !old(dl.isDownloading) ==> run == Some(Download.RetrySpec(attempts, FileName.DownloadName(resume.profile.name, FileSuffix)))
    ensures !old(dl.isDownloading) ==> Download.Recorded(run.value.delivery, old(dl.saved), old(dl.alerts), dl.saved, dl.alerts)
  {
    run := Download.DownloadWithRetries(dl, attempts, FileName.DownloadName(resume.profile.name, FileSuffix));
  }
}
