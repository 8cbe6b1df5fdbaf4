/** ResumePDF/ResumePDFTemplateExtra.tsx: the 70/30 layout of
    ResumePDFTemplate.tsx in Source Sans Pro, with a download that registers
    its fonts first (falling back to local Arial files), makes up to three
    attempts with growing pauses, races them against a 15-second timeout and
    words its alert after the error it caught. */
module PdfTemplateExtra {
  import opened Js
  import opened Records
  import opened Layout
  import opened Download
  import FileName
  import PdfTemplate

  const FileSuffix: string := "-template-C.pdf"
  const DefaultTheme: string := "#0f766e"

  // ---------------------------------------------------------------------------
  // Layout

  /** `PDFDocument`, with `themeColor = settings.themeColor || "#0f766e"`. */
  function Document(resume: Resume, settings: Settings, isPDF: bool): Page {
    var name := resume.profile.name;
    var themeColor := OrElse(settings.themeColor, DefaultTheme);
    Page(
      Title(name), name, None,
      PageSizeOf(settings.documentSize),
      SourceSansPro,
      settings.fontSize + "pt",
      None,
      Some(themeColor),
      Some(themeColor),
      ProfileCall(themeColor, isPDF),
      [Calls([WorkExperiences, Educations, Projects], settings, themeColor),
       Calls([Skills, Custom], settings, themeColor)])
  }

  function Component(resume: Resume, settings: Settings, isPDF: bool, isDownloading: bool): Rendered {
    RenderWithDownload(isPDF, isDownloading, Document(resume, settings, isPDF))
  }

  /** The page is the one of ResumePDFTemplate.tsx in every respect but the
      font family, which is always Source Sans Pro: so all five sections are
      drawn whatever `formToShow` says, work experience, education and projects
      in the main column and skills then custom in the sidebar. */
  lemma SameLayoutAsTemplate(resume: Resume, settings: Settings, isPDF: bool)
    ensures Document(resume, settings, isPDF)
         == PdfTemplate.Document(resume, settings, isPDF).(fontFamily := SourceSansPro)
    ensures var p := Document(resume, settings, isPDF);
      && |p.columns| == 2
      && Kinds(p.columns[0]) == [WorkExperiences, Educations, Projects]
      && Kinds(p.columns[1]) == [Skills, Custom]
      && p.profile.isPDF == isPDF
  {
    PdfTemplate.DocumentColumns(resume, settings, isPDF, settings.formToShow, settings.formsOrder);
  }

  // ---------------------------------------------------------------------------
  // registerFonts

  const ArialFallback: Registration := Registration(SourceSansPro,
    [FontSource("fonts/Arial.ttf", "normal"), FontSource("fonts/Arial-Bold.ttf", "bold")])

  /** Whether each `Font.register` call of `registerFonts` returns (None) or
      throws, and what. */
  datatype FontOutcomes = FontOutcomes(regular: Option<ErrorValue>, bold: Option<ErrorValue>, fallback: Option<ErrorValue>)

  /** The registrations that took effect, in order, and the error
      `registerFonts` rejects with, if any. */
  datatype FontSetup = FontSetup(registered: seq<Registration>, error: Option<ErrorValue>)

  /** `registerFonts`: the two CDN files in a `try`, the Arial pair in the
      `catch`. */
  function RegisterFonts(fo: FontOutcomes): FontSetup {
    var fallback := if fo.fallback.None? then FontSetup([ArialFallback], None) else FontSetup([], fo.fallback);
    if fo.regular.Some? then fallback
    else if fo.bold.Some? then FontSetup([CdnRegular] + fallback.registered, fallback.error)
    else FontSetup([CdnRegular, CdnBold], None)
  }

  /** Every registration is for the family the page asks for. When both CDN
      calls return, the two CDN files are registered and the fallback is never
      tried; when either throws, the Arial pair is registered last, unless the
      fallback call throws too, which is then the only way `registerFonts`
      fails. */
  lemma RegisterFontsSpec(fo: FontOutcomes)
    ensures var r := RegisterFonts(fo);
      && (forall reg :: reg in r.registered ==> reg.family == SourceSansPro)
      && (fo.regular.None? && fo.bold.None? ==> r == FontSetup([CdnRegular, CdnBold], None))
      && ((fo.regular.Some? || fo.bold.Some?) && fo.fallback.None? ==>
            r.registered != [] && r.registered[|r.registered| - 1] == ArialFallback && r.error.None?)
      && (r.error.Some? <==> (fo.regular.Some? || fo.bold.Some?) && fo.fallback.Some?)
      && (r.error.Some? ==> r.error == fo.fallback)
  {
  }

  // ---------------------------------------------------------------------------
  // generatePDF

  /** `delays`, indexed by `retryCount`. */
  const Delays: seq<nat> := [1000, 2000, 3000]

  /** The pause after `registerFonts`. */
  const FontSettleMs: nat := 1000

  const NoBlobError: ErrorValue := JsError("PDF blob generation failed")

  /** What a failed attempt throws: the missing blob becomes an `Error`, a
      thrown value is passed on. */
  function AttemptError(a: Attempt): ErrorValue
    requires !Succeeds(a)
  {
    if a.result.Throws? then a.result.error else NoBlobError
  }

  /** The time of the first `|attempts|` attempts: attempt `k` waits
      `delays[k]` before its request, then the renderer's time. */
  function DelayedTime(attempts: seq<Attempt>): nat
    requires |attempts| <= |Delays|
    decreases |attempts|
  {
    if attempts == [] then 0
    else DelayedTime(attempts[..|attempts| - 1]) + Delays[|attempts| - 1] + attempts[|attempts| - 1].renderMs
  }

  /** How `generatePDF()` settles: resolved after saving the file, or
      rejected with the error of the third failed attempt. */
  datatype GenResult = Generated(fileName: string) | GenerationFailed(error: ErrorValue)
  datatype Generation = Generation(result: GenResult, attempts: nat, elapsedMs: nat)

  /** The closed form of `generatePDF()`: the first of three attempts that
      yields a blob saves the file; otherwise the third attempt's error is
      thrown. No pause follows a failure except the next attempt's own. */
  function GenerationSpec(attempts: seq<Attempt>, fileName: string): Generation
    requires |attempts| >= MaxRetries
  {
    match FirstSuccess(attempts[..MaxRetries])
    case Some(k) => Generation(Generated(fileName), k + 1, DelayedTime(attempts[..k + 1]))
    case None =>
      assert attempts[..MaxRetries][MaxRetries - 1] == attempts[MaxRetries - 1];
      Generation(GenerationFailed(AttemptError(attempts[MaxRetries - 1])), MaxRetries, DelayedTime(attempts[..MaxRetries]))
  }

  lemma DelayedTimeStep(attempts: seq<Attempt>, k: nat)
    requires k < |attempts| && k < |Delays|
    ensures DelayedTime(attempts[..k + 1]) == DelayedTime(attempts[..k]) + Delays[k] + attempts[k].renderMs
  {
    assert attempts[..k + 1][..k] == attempts[..k];
  }

  /** `generatePDF` with its `while (retryCount < maxRetries)` loop;
      `pdfGenerated` is the flag it sets on success. */
  method GeneratePDF(attempts: seq<Attempt>, fileName: string) returns (g: Generation, pdfGenerated: bool)
    requires |attempts| >= MaxRetries
    ensures g == GenerationSpec(attempts, fileName)
    ensures pdfGenerated <==> g.result.Generated?
  {
    pdfGenerated := false;
    var retryCount: nat := 0;
    var elapsed: nat := 0;
    while retryCount < MaxRetries
      invariant retryCount < MaxRetries
      invariant forall j :: 0 <= j < retryCount ==> !Succeeds(attempts[j])
      invariant elapsed == DelayedTime(attempts[..retryCount])
    {
      DelayedTimeStep(attempts, retryCount);
      elapsed := elapsed + Delays[retryCount] + attempts[retryCount].renderMs;
      if Succeeds(attempts[retryCount]) {
        FirstSuccessAt(attempts[..MaxRetries], retryCount);
        pdfGenerated := true;
        g := Generation(Generated(fileName), retryCount + 1, elapsed);
        return;
      }
      var error := AttemptError(attempts[retryCount]);
      retryCount := retryCount + 1;
      if retryCount == MaxRetries {
        assert FirstSuccess(attempts[..MaxRetries]).None? by {
          assert forall j :: 0 <= j < MaxRetries ==> attempts[..MaxRetries][j] == attempts[j];
        }
        g := Generation(GenerationFailed(error), retryCount, elapsed);
        return;
      }
    }
    assert false;
  }

  /** The pauses grow by a second per attempt: `delays[k]` is `1000 * (k + 1)`,
      so `n` attempts wait `500 * n * (n + 1)` ms besides the renderer's
      time, six seconds when all three run. */
  lemma {:induction false} DelayedTimeClosedForm(attempts: seq<Attempt>)
    requires |attempts| <= |Delays|
    ensures forall k :: 0 <= k < |Delays| ==> Delays[k] == 1000 * (k + 1)
    ensures DelayedTime(attempts) == AttemptsTime(attempts, 0) + 500 * |attempts| * (|attempts| + 1)
    decreases |attempts|
  {
    if attempts != [] {
      DelayedTimeClosedForm(attempts[..|attempts| - 1]);
    }
  }

  /** `generatePDF` makes one to three attempts, saves the file exactly when
      one of them yields a blob, after failures on all attempts before it,
      and otherwise rethrows the third attempt's error; a missing blob is the
      `Error` "PDF blob generation failed". */
  lemma GenerationSpecCharacterised(attempts: seq<Attempt>, fileName: string)
    requires |attempts| >= MaxRetries
    ensures var g := GenerationSpec(attempts, fileName);
      && 1 <= g.attempts <= MaxRetries
      && (g.result.Generated? <==> exists k :: 0 <= k < MaxRetries && Succeeds(attempts[k]))
      && (g.result.Generated? ==> g.result.fileName == fileName && Succeeds(attempts[g.attempts - 1]))
      && (forall j :: 0 <= j < g.attempts - 1 ==> !Succeeds(attempts[j]))
      && (g.result.GenerationFailed? ==> g.attempts == MaxRetries)
      && (g.result.GenerationFailed? && attempts[MaxRetries - 1].result.NoBlob? ==> g.result.error == NoBlobError)
      && (g.result.GenerationFailed? && attempts[MaxRetries - 1].result.Throws? ==> g.result.error == attempts[MaxRetries - 1].result.error)
      && g.elapsedMs == AttemptsTime(attempts[..g.attempts], 0) + 500 * g.attempts * (g.attempts + 1)
  {
    var g := GenerationSpec(attempts, fileName);
    var first := FirstSuccess(attempts[..MaxRetries]);
    if first.None? {
      assert forall j :: 0 <= j < MaxRetries ==> !Succeeds(attempts[..MaxRetries][j]);
    } else {
      assert Succeeds(attempts[..MaxRetries][first.value]);
    }
    DelayedTimeClosedForm(attempts[..g.attempts]);
  }

  // ---------------------------------------------------------------------------
  // Promise.race against the timeout

  const TimeoutMs: nat := 15000
  const TimeoutError: ErrorValue := JsError("PDF generation timed out")

  datatype RaceResult = Resolved | Rejected(error: ErrorValue)

  /** How the race settles, and when (in ms from its start). */
  datatype Settled = Settled(result: RaceResult, atMs: nat)

  /** `Promise.race([generatePDF(), timeoutPromise])`: generation decides when
      it settles strictly before the timer, which was set first and so wins
      a tie; otherwise the timeout rejects at 15000 ms. */
  function Race(g: Generation): (s: Settled)
    ensures s.atMs <= TimeoutMs
    ensures s.result == Resolved <==> g.result.Generated? && g.elapsedMs < TimeoutMs
    ensures g.elapsedMs >= TimeoutMs ==> s == Settled(Rejected(TimeoutError), TimeoutMs)
    ensures g.elapsedMs < TimeoutMs && g.result.GenerationFailed? ==> s == Settled(Rejected(g.result.error), g.elapsedMs)
  {
    if g.elapsedMs < TimeoutMs then
      Settled(if g.result.Generated? then Resolved else Rejected(g.result.error), g.elapsedMs)
    else
      Settled(Rejected(TimeoutError), TimeoutMs)
  }

  // ---------------------------------------------------------------------------
  // The alert

  const FailurePrefix: string := "PDF generation failed. "

  /** The four endings of the alert. */
  datatype Hint = TookTooLong | FileNotCreated | NoConnection | Unexpected

  function HintText(h: Hint): (t: string)
    ensures t != ""
  {
    match h
    case TookTooLong => "The process took too long. Please try again."
    case FileNotCreated => "Failed to create PDF file. Please try again."
    case NoConnection => "Please check your internet connection."
    case Unexpected => "An unexpected error occurred. Please try again."
  }

  /** An alert is the prefix followed by a hint that is never empty. */
  lemma PrefixedAlert(hint: string)
    requires hint != ""
    ensures |FailurePrefix + hint| > |FailurePrefix| && (FailurePrefix + hint)[..|FailurePrefix|] == FailurePrefix
  {
  }

  /** The hint of the `catch` block as written: the first of `timeout`,
      `blob`, `network` that `String(error)` includes picks it. */
  function HintAsWritten(errorStr: string): Hint {
    if Contains(errorStr, "timeout") then TookTooLong
    else if Contains(errorStr, "blob") then FileNotCreated
    else if Contains(errorStr, "network") then NoConnection
    else Unexpected
  }

  /** The alert shown for an error with the text `errorStr`, as written. */
  function ClassifyAsWritten(errorStr: string): (m: string)
    ensures |m| > |FailurePrefix| && m[..|FailurePrefix|] == FailurePrefix
  {
    var hint := HintText(HintAsWritten(errorStr));
    PrefixedAlert(hint);
    FailurePrefix + hint
  }

  /** As written, the hint is chosen by the first of "timeout", "blob",
      "network" that occurs at some offset of the error text. */
  lemma ClassifyAsWrittenFirstMatch(s: string)
    ensures var h := HintAsWritten(s);
      var timeout := exists i :: OccursAt(s, "timeout", i);
      var blob := exists i :: OccursAt(s, "blob", i);
      var network := exists i :: OccursAt(s, "network", i);
      && (h == TookTooLong <==> timeout)
      && (h == FileNotCreated <==> !timeout && blob)
      && (h == NoConnection <==> !timeout && !blob && network)
      && (h == Unexpected <==> !timeout && !blob && !network)
  {
    ContainsIff(s, "timeout");
    ContainsIff(s, "blob");
    ContainsIff(s, "network");
  }

  /** The timeout check as the code evidently means it: the error the timer
      rejects with says "timed out", which is also taken for a timeout. */
  predicate MentionsTimeout(errorStr: string) {
    Contains(errorStr, "timeout") || Contains(errorStr, "timed out")
  }

  /** The hint with the corrected timeout check. */
  function HintFor(errorStr: string): Hint {
    if MentionsTimeout(errorStr) then TookTooLong
    else if Contains(errorStr, "blob") then FileNotCreated
    else if Contains(errorStr, "network") then NoConnection
    else Unexpected
  }

  /** The alert shown for an error with the text `errorStr`, with the
      corrected timeout check. */
  function Classify(errorStr: string): (m: string)
    ensures |m| > |FailurePrefix| && m[..|FailurePrefix|] == FailurePrefix
  {
    var hint := HintText(HintFor(errorStr));
    PrefixedAlert(hint);
    FailurePrefix + hint
  }

  /** With the correction, the hint is chosen by the first of the three
      groups of words that occurs at some offset of the error text. */
  lemma ClassifyFirstMatch(s: string)
    ensures var h := HintFor(s);
      var timeout := (exists i :: OccursAt(s, "timeout", i)) || (exists i :: OccursAt(s, "timed out", i));
      var blob := exists i :: OccursAt(s, "blob", i);
      var network := exists i :: OccursAt(s, "network", i);
      && (h == TookTooLong <==> timeout)
      && (h == FileNotCreated <==> !timeout && blob)
      && (h == NoConnection <==> !timeout && !blob && network)
      && (h == Unexpected <==> !timeout && !blob && !network)
  {
    ContainsIff(s, "timeout");
    ContainsIff(s, "timed out");
    ContainsIff(s, "blob");
    ContainsIff(s, "network");
  }

  /** The correction changes the hint only for a text that says "timed out"
      but not "timeout", which it reports as taking too long. */
  lemma CorrectionOnlyAddsTimedOut(s: string)
    ensures Contains(s, "timed out") && !Contains(s, "timeout") ==> HintFor(s) == TookTooLong
    ensures !(Contains(s, "timed out") && !Contains(s, "timeout")) ==> HintFor(s) == HintAsWritten(s)
  {
  }

  const TimeoutText: string := "Error: PDF generation timed out"
  const NoBlobText: string := "Error: PDF blob generation failed"

  lemma TimeoutErrorText()
    ensures ErrorString(TimeoutError) == TimeoutText
  {
    TimeoutConcat("Error: ", "PDF generation timed out", TimeoutText);
  }

  lemma NoBlobErrorText()
    ensures ErrorString(NoBlobError) == NoBlobText
  {
    NoBlobConcat("Error: ", "PDF blob generation failed", NoBlobText);
  }

  lemma TimeoutConcat(a: string, b: string, c: string)
    requires a == "Error: " && b == "PDF generation timed out" && c == "Error: PDF generation timed out"
    ensures a + b == c
  {
  }

  lemma NoBlobConcat(a: string, b: string, c: string)
    requires a == "Error: " && b == "PDF blob generation failed" && c == "Error: PDF blob generation failed"
    ensures a + b == c
  {
  }

  /** The text of the timeout error holds "timed out" ... */
  lemma TimeoutTextHasTimedOut(s: string)
    requires s == "Error: PDF generation timed out"
    ensures Contains(s, "timed out")
  {
    assert s[22..31] == "timed out";
    OccursAtContains(s, "timed out", 22);
  }

  /** ... but not "timeout", "blob" or "network": "tim" then "o" two places
      on occurs nowhere, nor do "b" and "w". */
  lemma TimeoutTextMismatches(s: string)
    requires s == "Error: PDF generation timed out"
    ensures forall i :: 0 <= i <= |s| - 7 ==> Mismatch(s, "timeout", i, 0, 2, 4)
    ensures forall i :: 0 <= i <= |s| - 4 ==> Mismatch(s, "blob", i, 0, 0, 0)
    ensures forall i :: 0 <= i <= |s| - 7 ==> Mismatch(s, "network", i, 3, 3, 3)
  {
  }

  lemma TimeoutTextLacks(s: string)
    requires s == "Error: PDF generation timed out"
    ensures !Contains(s, "timeout") && !Contains(s, "blob") && !Contains(s, "network")
  {
    TimeoutTextMismatches(s);
    NotContainsByMismatch(s, "timeout", 0, 2, 4);
    NotContainsByMismatch(s, "blob", 0, 0, 0);
    NotContainsByMismatch(s, "network", 3, 3, 3);
  }

  /** The written check reports the timeout as an unexpected error. */
  lemma TimeoutMisreported()
    ensures ClassifyAsWritten(ErrorString(TimeoutError)) == FailurePrefix + HintText(Unexpected)
  {
    TimeoutErrorText();
    TimeoutTextLacks(TimeoutText);
  }

  /** The corrected check reports it as taking too long. */
  lemma TimeoutReported()
    ensures Classify(ErrorString(TimeoutError)) == FailurePrefix + HintText(TookTooLong)
  {
    TimeoutErrorText();
    TimeoutTextHasTimedOut(TimeoutText);
  }

  /** The text of the missing-blob error holds "blob" ... */
  lemma NoBlobTextHasBlob(s: string)
    requires s == "Error: PDF blob generation failed"
    ensures Contains(s, "blob")
  {
    assert s[11] == 'b';
    assert s[12] == 'l';
    assert s[13] == 'o';
    assert s[14] == 'b';
    assert s[11..15] == "blob";
    OccursAtContains(s, "blob", 11);
  }

  /** ... and no "tim", so nothing that reads as a timeout. */
  lemma NoBlobTextMismatches(s: string)
    requires s == "Error: PDF blob generation failed"
    ensures forall i :: 0 <= i <= |s| - 7 ==> Mismatch(s, "timeout", i, 0, 1, 2)
    ensures forall i :: 0 <= i <= |s| - 9 ==> Mismatch(s, "timed out", i, 0, 1, 2)
  {
  }

  /** A missing blob is reported as a failure to create the file, by both
      checks. */
  lemma NoBlobReported()
    ensures Classify(ErrorString(NoBlobError)) == FailurePrefix + HintText(FileNotCreated)
    ensures ClassifyAsWritten(ErrorString(NoBlobError)) == FailurePrefix + HintText(FileNotCreated)
  {
    NoBlobErrorText();
    NoBlobTextHasBlob(NoBlobText);
    NoBlobTextMismatches(NoBlobText);
    NotContainsByMismatch(NoBlobText, "timeout", 0, 1, 2);
    NotContainsByMismatch(NoBlobText, "timed out", 0, 1, 2);
  }

  // ---------------------------------------------------------------------------
  // downloadPDF

  /** The end of a call that ran: what the user got, the fonts registered,
      and the ms from the start of the `try` to the alert or the end. */
  datatype DownloadEnd = DownloadEnd(delivery: Delivery, fonts: seq<Registration>, elapsedMs: nat)

  const AfterAllError: ErrorValue := JsError("PDF generation failed after all attempts")

  /** Which timeout check words the alert: the file's `includes('timeout')`,
      or the corrected one that also takes "timed out" for a timeout. */
  datatype TimeoutCheck = AsWritten | Corrected

  /** The alert for an error text under a check. */
  function Alert(check: TimeoutCheck, errorStr: string): (m: string)
    ensures |m| > |FailurePrefix| && m[..|FailurePrefix|] == FailurePrefix
  {
    match check
    case AsWritten => ClassifyAsWritten(errorStr)
    case Corrected => Classify(errorStr)
  }

  /** The closed form of a call that ran, with its alerts worded by `check`. */
  function DownloadSpec(check: TimeoutCheck, fo: FontOutcomes, attempts: seq<Attempt>, fileName: string): DownloadEnd
    requires |attempts| >= MaxRetries
  {
    var setup := RegisterFonts(fo);
    if setup.error.Some? then
      DownloadEnd(Alerted(Alert(check, ErrorString(setup.error.value))), setup.registered, 0)
    else
      var settled := Race(GenerationSpec(attempts, fileName));
      DownloadEnd(
        match settled.result
        case Resolved => Saved(fileName)
        case Rejected(e) => Alerted(Alert(check, ErrorString(e))),
        setup.registered,
        FontSettleMs + settled.atMs)
  }

  /** The body of the `try`, with its `catch`: fonts, the pause, the race and
      the `pdfGenerated` check. With `AsWritten` it is the file's code. */
  method RunDownload(check: TimeoutCheck, fo: FontOutcomes, attempts: seq<Attempt>, fileName: string) returns (r: DownloadEnd)
    requires |attempts| >= MaxRetries
    ensures r == DownloadSpec(check, fo, attempts, fileName)
  {
    var setup := RegisterFonts(fo);
    if setup.error.Some? {
      r := DownloadEnd(Alerted(Alert(check, ErrorString(setup.error.value))), setup.registered, 0);
      return;
    }
    var g, pdfGenerated := GeneratePDF(attempts, fileName);
    var settled := Race(g);
    var caught: Option<ErrorValue> := None;
    if settled.result.Rejected? {
      caught := Some(settled.result.error);
    } else if !pdfGenerated {
      caught := Some(AfterAllError);
    }
    var delivery := if caught.Some? then Alerted(Alert(check, ErrorString(caught.value))) else Saved(fileName);
    r := DownloadEnd(delivery, setup.registered, FontSettleMs + settled.atMs);
  }

  /** A call that ran saves the file exactly when the fonts are set up and an
      attempt yields a blob before 15 s have passed. Three failures in time
      end in the alert chosen by the third attempt's error, a font failure in
      the one chosen by the fallback's error, and a generation of 15 s or
      more in the alert for the timeout error. Every alert starts with
      "PDF generation failed. ", and no call outlasts the pause plus the
      timeout. */
  lemma DownloadSpecCharacterised(check: TimeoutCheck, fo: FontOutcomes, attempts: seq<Attempt>, fileName: string)
    requires |attempts| >= MaxRetries
    ensures var r := DownloadSpec(check, fo, attempts, fileName);
      var g := GenerationSpec(attempts, fileName);
      var fonts := RegisterFonts(fo);
      && r.elapsedMs <= FontSettleMs + TimeoutMs
      && (r.delivery.Saved? <==> fonts.error.None? && g.result.Generated? && g.elapsedMs < TimeoutMs)
      && (r.delivery.Saved? ==> r.delivery.fileName == fileName)
      && (fonts.error.Some? ==> r.delivery == Alerted(Alert(check, ErrorString(fo.fallback.value))) && r.elapsedMs == 0)
      && (fonts.error.None? && g.elapsedMs >= TimeoutMs ==>
            r.delivery == Alerted(Alert(check, TimeoutText)) && r.elapsedMs == FontSettleMs + TimeoutMs)
      && (fonts.error.None? && g.elapsedMs < TimeoutMs && g.result.GenerationFailed? ==>
            r.delivery == Alerted(Alert(check, ErrorString(g.result.error))))
      && (r.delivery.Alerted? ==> r.delivery.message[..|FailurePrefix|] == FailurePrefix)
  {
    RegisterFontsSpec(fo);
    TimeoutErrorText();
  }

  /** As written, a generation still running after 15 s ends in the alert
      "An unexpected error occurred. Please try again.". */
  lemma TimedOutDownloadAsWritten(fo: FontOutcomes, attempts: seq<Attempt>, fileName: string)
    requires |attempts| >= MaxRetries
    requires RegisterFonts(fo).error.None? && GenerationSpec(attempts, fileName).elapsedMs >= TimeoutMs
    ensures DownloadSpec(AsWritten, fo, attempts, fileName).delivery == Alerted(FailurePrefix + HintText(Unexpected))
  {
    DownloadSpecCharacterised(AsWritten, fo, attempts, fileName);
    TimeoutMisreported();
    TimeoutErrorText();
  }

  /** With the corrected check, the same call ends in "The process took too
      long. Please try again.". */
  lemma TimedOutDownloadCorrected(fo: FontOutcomes, attempts: seq<Attempt>, fileName: string)
    requires |attempts| >= MaxRetries
    requires RegisterFonts(fo).error.None? && GenerationSpec(attempts, fileName).elapsedMs >= TimeoutMs
    ensures DownloadSpec(Corrected, fo, attempts, fileName).delivery == Alerted(FailurePrefix + HintText(TookTooLong))
  {
    DownloadSpecCharacterised(Corrected, fo, attempts, fileName);
    TimeoutReported();
    TimeoutErrorText();
  }

  /** `downloadPDF`: ignored while a download runs; otherwise it runs, the
      user gets its outcome, and the flag is clear afterwards. The file is
      saved as `<name>-template-C.pdf`. The component's own code is
      `check == AsWritten`. */
  method DownloadPDF(check: TimeoutCheck, dl: Downloader, resume: Resume, fo: FontOutcomes, attempts: seq<Attempt>) returns (end: Option<DownloadEnd>)
    requires |attempts| >= MaxRetries
    modifies dl
    ensures old(dl.isDownloading) ==> end.None? && dl.isDownloading && dl.saved == old(dl.saved) && dl.alerts == old(dl.alerts)
    ensures !old(dl.isDownloading) ==> !dl.isDownloading
    ensures !old(dl.isDownloading) ==> end == Some(DownloadSpec(check, fo, attempts, FileName.DownloadName(resume.profile.name, FileSuffix)))
    ensures !old(dl.isDownloading) ==> Recorded(end.value.delivery, old(dl.saved), old(dl.alerts), dl.saved, dl.alerts)
  {
    var started := dl.Begin();
    if !started {
      return None;
    }
    var r := RunDownload(check, fo, attempts, FileName.DownloadName(resume.profile.name, FileSuffix));
    dl.Finish(r.delivery);
    end := Some(r);
  }
}
