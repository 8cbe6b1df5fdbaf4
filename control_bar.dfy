/** ResumeControlBar.tsx: the bar under the preview, with the zoom slider,
    the autoscale switch, the template picker and the download button that
    saves the PDF the renderer has prepared. */
module ControlBar {
  import opened Js

  /** What `usePDF` reports about the prepared document. */
  datatype PdfInstance = PdfInstance(loading: bool, error: Option<string>, url: Option<string>)

  const GeneratingLabel: string := "Generating PDF..."
  const RetryLabel: string := "Error - Retry"
  const PreparingLabel: string := "Preparing..."
  const DownloadLabel: string := "Download Resume"

  /** The button text: loading first, then an error, then a missing url. */
  function ButtonLabel(inst: PdfInstance): string {
    if inst.loading then GeneratingLabel
    else if Truthy(inst.error) then RetryLabel
    else if !Truthy(inst.url) then PreparingLabel
    else DownloadLabel
  }

  /** `disabled={!instance.url || instance.loading}`. */
  predicate ButtonDisabled(inst: PdfInstance) {
    !Truthy(inst.url) || inst.loading
  }

  /** Each label names exactly one state, tried in the order loading, error,
      missing url. */
  lemma LabelPriority(inst: PdfInstance)
    ensures ButtonLabel(inst) == GeneratingLabel <==> inst.loading
    ensures ButtonLabel(inst) == RetryLabel <==> !inst.loading && Truthy(inst.error)
    ensures ButtonLabel(inst) == PreparingLabel <==> !inst.loading && !Truthy(inst.error) && !Truthy(inst.url)
    ensures ButtonLabel(inst) == DownloadLabel <==> !inst.loading && !Truthy(inst.error) && Truthy(inst.url)
  {
    assert GeneratingLabel[0] == 'G' && RetryLabel[0] == 'E' && PreparingLabel[0] == 'P' && DownloadLabel[0] == 'D';
  }

  /** The button can be pressed exactly when it reads "Error - Retry" with a
      url or "Download Resume": an error does not disable it, and it is
      disabled whenever it reads "Generating PDF..." or "Preparing...". */
  lemma EnabledStates(inst: PdfInstance)
    ensures !ButtonDisabled(inst) <==> ButtonLabel(inst) == DownloadLabel || (ButtonLabel(inst) == RetryLabel && Truthy(inst.url))
    ensures Truthy(inst.error) && Truthy(inst.url) && !inst.loading ==> !ButtonDisabled(inst) && ButtonLabel(inst) == RetryLabel
  {
    LabelPriority(inst);
  }

  // ---------------------------------------------------------------------------
  // Zoom. The scale is kept in hundredths: the slider's step is 0.01.

  const MinScale: nat := 50
  const MaxScale: nat := 150

  /** `${Math.round(scale * 100)}%` for a scale of `scale` hundredths. */
  function PercentLabel(scale: nat): (s: string)
    ensures |s| > 0 && s[|s| - 1] == '%'
  {
    NatToString(scale) + "%"
  }

  /** The label reads back as the scale: its leading number is the scale in
      per cent. */
  lemma PercentLabelReadsBack(scale: nat)
    ensures ParseNat(TakeDigits(PercentLabel(scale))) == scale
  {
    LeadingNumber(scale, "%");
  }

  /** The zoom state: `scale` (a `useState` cell of the page, here in
      hundredths) and `scaleOnResize` (the autoscale switch of
      `useSetDefaultScale`). */
  class Zoom {
    var scale: nat
    var scaleOnResize: bool

    constructor(initialScale: nat, autoscale: bool)
      ensures scale == initialScale && scaleOnResize == autoscale
    {
      scale := initialScale;
      scaleOnResize := autoscale;
    }

    /** The slider's `onChange`: a manual zoom switches autoscale off and sets
        the scale to the slider's value, which the range input keeps within
        its bounds. */
    method OnSliderChange(value: nat)
      requires MinScale <= value <= MaxScale
      modifies this
      ensures !scaleOnResize && scale == value
    {
      scaleOnResize := false;
      scale := value;
    }

    /** The checkbox's `onChange`: autoscale flips, the scale stays. */
    method OnAutoscaleToggle()
      modifies this
      ensures scaleOnResize == !old(scaleOnResize) && scale == old(scale)
    {
      scaleOnResize := !scaleOnResize;
    }
  }

  // ---------------------------------------------------------------------------
  // handleDownload

  /** A click on a link with `href` and `download` attributes. */
  datatype Click = Click(href: string, download: string)

  /** The browser state `handleDownload` touches: the object URLs alive and
      the download links clicked so far. */
  class Browser {
    var liveObjectUrls: set<string>
    var clicks: seq<Click>

    constructor()
      ensures liveObjectUrls == {} && clicks == []
    {
      liveObjectUrls := {};
      clicks := [];
    }

    /** `handleDownload` as written. Inside the component `document` names
        the `document` prop, a React element, not the page's document: so
        `document.createElement('a')` throws right after the object URL is
        made, and so does the same call in the `catch`. The handler rejects
        whenever there is a url, no link is ever clicked, and the object URL
        of a fetched blob is never revoked. */
    method HandleDownloadAsWritten(inst: PdfInstance, fileName: string, fetchSucceeds: bool, objectUrl: string) returns (rejected: bool)
      requires objectUrl !in liveObjectUrls
      modifies this
      ensures clicks == old(clicks)
      ensures rejected <==> Truthy(inst.url)
      ensures Truthy(inst.url) && fetchSucceeds ==> liveObjectUrls == old(liveObjectUrls) + {objectUrl}
      ensures !(Truthy(inst.url) && fetchSucceeds) ==> liveObjectUrls == old(liveObjectUrls)
    {
      if !Truthy(inst.url) {
        return false;
      }
      if fetchSucceeds {
        liveObjectUrls := liveObjectUrls + {objectUrl};
        // `document.createElement('a')` throws: the prop has no such method
      }
      // the fallback's `document.createElement('a')` throws out of the `catch`
      rejected := true;
    }

    /** `handleDownload` as evidently intended, with `window.document` as in
        the templates: without a url nothing happens. Otherwise the fetched
        blob is saved through an object URL of its own (`objectUrl`, a fresh
        one), which is revoked right after the click; if fetching fails, a
        link straight to the prepared url is clicked instead. Either way the
        file is called `fileName + ".pdf"`. */
    method HandleDownload(inst: PdfInstance, fileName: string, fetchSucceeds: bool, objectUrl: string)
      requires objectUrl !in liveObjectUrls
      modifies this
      ensures liveObjectUrls == old(liveObjectUrls)
      ensures !Truthy(inst.url) ==> clicks == old(clicks)
      ensures Truthy(inst.url) && fetchSucceeds ==> clicks == old(clicks) + [Click(objectUrl, fileName + ".pdf")]
      ensures Truthy(inst.url) && !fetchSucceeds ==> clicks == old(clicks) + [Click(inst.url.value, fileName + ".pdf")]
    {
      if !Truthy(inst.url) {
        return;
      }
      if fetchSucceeds {
        liveObjectUrls := liveObjectUrls + {objectUrl};
        clicks := clicks + [Click(objectUrl, fileName + ".pdf")];
        liveObjectUrls := liveObjectUrls - {objectUrl};
      } else {
        clicks := clicks + [Click(inst.url.value, fileName + ".pdf")];
      }
    }
  }

  /** A prepared PDF whose fetch succeeds: as written, pressing the button
      clicks no link and leaves the blob's object URL alive. */
  method AsWrittenSavesNothing() returns (clicks: seq<Click>, live: set<string>, rejected: bool)
    ensures clicks == [] && live == {"blob:saved"} && rejected
  {
    var browser := new Browser();
    rejected := browser.HandleDownloadAsWritten(PdfInstance(false, None, Some("blob:prepared")), "Jane - Resume", true, "blob:saved");
    clicks, live := browser.clicks, browser.liveObjectUrls;
  }

  /** The same press as intended: one link to the fetched blob, named after
      the file, and no object URL left alive. */
  method IntendedSavesOnce() returns (clicks: seq<Click>, live: set<string>)
    ensures clicks == [Click("blob:saved", "Jane - Resume.pdf")] && live == {}
  {
    var browser := new Browser();
    browser.HandleDownload(PdfInstance(false, None, Some("blob:prepared")), "Jane - Resume", true, "blob:saved");
    assert "Jane - Resume" + ".pdf" == "Jane - Resume.pdf";
    clicks, live := browser.clicks, browser.liveObjectUrls;
  }

  // ---------------------------------------------------------------------------
  // The template picker

  /** The `<option>`s: value and text. */
  const TemplateOptions: seq<(string, string)> := [
    ("A", "Template A - Classic"),
    ("B", "Template B - Two Column"),
    ("C", "Template C - Modern"),
    ("D", "Template D - Single Page")]

  function OptionValues(options: seq<(string, string)>): (r: seq<string>)
    ensures |r| == |options|
    ensures forall i :: 0 <= i < |options| ==> r[i] == options[i].0
  {
    seq(|options|, i requires 0 <= i < |options| => options[i].0)
  }

  /** The picker offers exactly the templates A, B, C and D, each once, and
      each option's text names its template. */
  lemma TemplateChoices()
    ensures OptionValues(TemplateOptions) == ["A", "B", "C", "D"]
    ensures forall i :: 0 <= i < |TemplateOptions| ==> TemplateOptions[i].1[..10] == "Template " + TemplateOptions[i].0
  {
  }
}
