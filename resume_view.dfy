/** index.tsx (`Resume`): picks the template component from the selected
    template, draws it once as the on-screen preview and once, with `isPDF`,
    as the document the control bar prepares and saves. */
module ResumeView {
  import opened Js
  import opened Records
  import opened Layout
  import ControlBar
  import PdfTemplate
  import PdfTemplateB
  import PdfTemplateD

  /** The components the page can pick, by their source file:
      ResumePDFTemplateA.tsx, ResumePDFTemplateB.tsx, ResumePDFTemplate.tsx
      and ResumePDFTemplateD.tsx. */
  datatype TemplateId = TemplateA | TemplateB | TemplateC | TemplateD

  /** The `switch (selectedTemplate)` of `TemplateComponent`. */
  function TemplateComponent(selected: string): TemplateId {
    match selected
    case "B" => TemplateB
    case "C" => TemplateC
    case "D" => TemplateD
    case _ => TemplateA
  }

  /** "B", "C" and "D" pick their templates; every other value, "A" and the
      empty string included, falls back to template A. */
  lemma TemplateDispatch(selected: string)
    ensures TemplateComponent(selected) == TemplateB <==> selected == "B"
    ensures TemplateComponent(selected) == TemplateC <==> selected == "C"
    ensures TemplateComponent(selected) == TemplateD <==> selected == "D"
    ensures TemplateComponent(selected) == TemplateA <==> selected != "B" && selected != "C" && selected != "D"
  {
  }

  /** Each value the picker offers selects a different template. */
  lemma PickerReachesEveryTemplate()
    ensures forall i, j :: 0 <= i < j < |ControlBar.TemplateOptions| ==>
      TemplateComponent(ControlBar.TemplateOptions[i].0) != TemplateComponent(ControlBar.TemplateOptions[j].0)
    ensures TemplateComponent(ControlBar.TemplateOptions[0].0) == TemplateA
  {
    ControlBar.TemplateChoices();
  }

  /** `<TemplateComponent resume={resume} settings={settings} isPDF={isPDF} />`;
      template A is not part of this model. `isDownloading` is the state of
      that instance of the component. */
  function RenderTemplate(t: TemplateId, resume: Resume, settings: Settings, isPDF: bool, isDownloading: bool): Option<Rendered> {
    match t
    case TemplateA => None
    case TemplateB => Some(PdfTemplateB.Component(resume, settings, isPDF, isDownloading))
    case TemplateC => Some(PdfTemplate.Component(resume, settings, isPDF))
    case TemplateD => Some(PdfTemplateD.Component(resume, settings, isPDF, isDownloading))
  }

  /** The initial `useState(0.8)`, in hundredths. */
  const InitialScale: nat := 80

  /** The control bar's `fileName`. */
  function FileBase(resume: Resume): (r: string)
    ensures |r| == |resume.profile.name| + 9
    ensures r[..|resume.profile.name|] == resume.profile.name
    ensures r[|resume.profile.name|..] == " - Resume"
  {
    resume.profile.name + " - Resume"
  }

  /** The page: the preview, the document the control bar is given, and the
      base name it saves under. */
  datatype Screen = Screen(preview: Option<Rendered>, document: Option<Rendered>, fileBase: string)

  function Show(resume: Resume, settings: Settings, selected: string, previewDownloading: bool, documentDownloading: bool): Screen {
    var t := TemplateComponent(selected);
    Screen(RenderTemplate(t, resume, settings, false, previewDownloading),
           RenderTemplate(t, resume, settings, true, documentDownloading),
           FileBase(resume))
  }

  /** From the same resume and settings, the control bar always gets the
      bare document. For templates B and D the preview shows the download
      button over that very page; for the ResumePDFTemplate.tsx component the
      preview is the page with web links in the profile. */
  lemma PreviewAndDocument(resume: Resume, settings: Settings, selected: string, pd: bool, dd: bool)
    ensures var s := Show(resume, settings, selected, pd, dd);
      var t := TemplateComponent(selected);
      && (t != TemplateA ==> s.document.Some? && s.document.value.DocumentOnly? && s.preview.Some?)
      && (t == TemplateB || t == TemplateD ==>
            s.preview.value.WithButton? && s.preview.value.preview == s.document.value.document)
      && (t == TemplateC ==>
            s.preview.value.DocumentOnly?
            && !s.preview.value.document.profile.isPDF && s.document.value.document.profile.isPDF
            && s.preview.value.document == s.document.value.document.(profile := s.preview.value.document.profile))
  {
  }

  /** The download button of the page's control bar, as evidently intended
      (`ControlBar.Browser.HandleDownload`): a file it saves is called
      "<name> - Resume.pdf", whichever way it gets there. */
  method DownloadFromBar(browser: ControlBar.Browser, inst: ControlBar.PdfInstance, resume: Resume, fetched: bool, objectUrl: string)
    requires objectUrl !in browser.liveObjectUrls
    modifies browser
    ensures !Truthy(inst.url) ==> browser.clicks == old(browser.clicks)
    ensures Truthy(inst.url) ==> |browser.clicks| == |old(browser.clicks)| + 1
    ensures Truthy(inst.url) ==> browser.clicks[|browser.clicks| - 1].download == resume.profile.name + " - Resume.pdf"
  {
    browser.HandleDownload(inst, FileBase(resume), fetched, objectUrl);
  }

  /** The page's zoom starts at 80 %. */
  method NewZoom(autoscale: bool) returns (z: ControlBar.Zoom)
    ensures fresh(z) && z.scale == InitialScale && z.scaleOnResize == autoscale
    ensures ControlBar.PercentLabel(z.scale) == "80%"
  {
    z := new ControlBar.Zoom(InitialScale, autoscale);
  }
}
