/** The download procedure of the PDF templates (`downloadPDF` in
    ResumePDFTemplateD.tsx and ResumePDFTemplateB.tsx): a re-entrancy flag, up
    to three attempts at rendering a blob, a pause before each request and
    after each failure but the last, and one alert when every attempt fails.
    The renderer is replaced by the list of outcomes its attempts would have,
    and the timers by the milliseconds they add up to. */
module Download {
  import opened Js

  /** A value thrown inside an attempt: an `Error` with its message, or any
      other value, given by what `String` makes of it. */
  datatype ErrorValue = JsError(message: string) | Thrown(text: string)

  /** `String(error)`: an `Error` prints as "Error: " and its message, or as
      "Error" alone when the message is empty (`Error.prototype.toString`). */
  function ErrorString(e: ErrorValue): string {
    match e
    case JsError(m) => if m == "" then "Error" else "Error: " + m
    case Thrown(t) => t
  }

  /** What one attempt at `doc.toBlob()` gives: a Blob object (of any size,
      the empty one included), nothing (`null` or `undefined`), or a thrown
      value from the renderer or the download link code. */
  datatype BlobResult = Blob(size: nat) | NoBlob | Throws(error: ErrorValue)

  /** One attempt: its outcome and the time the renderer needs for it. */
  datatype Attempt = Attempt(result: BlobResult, renderMs: nat)

  /** `if (!blob) throw ...` fails only for a missing blob: any Blob object,
      even an empty one, goes on to the download. */
  predicate Succeeds(a: Attempt) {
    a.result.Blob?
  }

  /** How a download call ends for the user: a file saved under a name, or
      an alert with a message. */
  datatype Delivery = Saved(fileName: string) | Alerted(message: string)

  /** The end of one download call: how it ended, how many attempts it made,
      and the milliseconds that passed before it ended. */
  datatype Run = Run(delivery: Delivery, attempts: nat, elapsedMs: nat)

  const MaxRetries: nat := 3
  /** The pause after `updateContainer`, waiting for fonts. */
  const FontWaitMs: nat := 500
  /** The pause after a failed attempt that is not the last. */
  const RetryWaitMs: nat := 1000
  const RetryAlert: string := "PDF generation failed. Please check your internet connection and try again."

  /** The first attempt that succeeds, if any. */
  function FirstSuccess(attempts: seq<Attempt>): (r: Option<nat>)
    ensures r.Some? ==> r.value < |attempts| && Succeeds(attempts[r.value])
    ensures r.Some? ==> forall j :: 0 <= j < r.value ==> !Succeeds(attempts[j])
    ensures r.None? <==> forall j :: 0 <= j < |attempts| ==> !Succeeds(attempts[j])
    decreases |attempts|
  {
    if attempts == [] then None
    else if Succeeds(attempts[0]) then Some(0)
    else match FirstSuccess(attempts[1..])
      case None => None
      case Some(k) => Some(k + 1)
  }

  /** The time the attempts take: per attempt, the fixed pause `wait` before
      the request and the renderer's own time. */
  function AttemptsTime(attempts: seq<Attempt>, wait: nat): nat
    decreases |attempts|
  {
    if attempts == [] then 0
    else AttemptsTime(attempts[..|attempts| - 1], wait) + wait + attempts[|attempts| - 1].renderMs
  }

  lemma AttemptsTimeStep(attempts: seq<Attempt>, wait: nat, k: nat)
    requires k < |attempts|
    ensures AttemptsTime(attempts[..k + 1], wait) == AttemptsTime(attempts[..k], wait) + wait + attempts[k].renderMs
  {
    assert attempts[..k + 1][..k] == attempts[..k];
  }

  /** The closed form of a download call: it saves on the first of the three
      attempts that succeeds, after a pause of 1000 ms for each failure before
      it; when all three fail, it alerts after two such pauses. */
  function RetrySpec(attempts: seq<Attempt>, fileName: string): Run
    requires |attempts| >= MaxRetries
  {
    match FirstSuccess(attempts[..MaxRetries])
    case Some(k) => Run(Saved(fileName), k + 1, AttemptsTime(attempts[..k + 1], FontWaitMs) + RetryWaitMs * k)
    case None => Run(Alerted(RetryAlert), MaxRetries, AttemptsTime(attempts[..MaxRetries], FontWaitMs) + RetryWaitMs * (MaxRetries - 1))
  }

  /** A call makes one to three attempts. It saves the file exactly when one
      of the first three attempts yields a blob, and then it has made one
      attempt more than the failures before the first success; a missing blob
      or a thrown value is a failure like the other. Otherwise it makes all
      three attempts and shows the one alert. */
  lemma RetrySpecCharacterised(attempts: seq<Attempt>, fileName: string)
    requires |attempts| >= MaxRetries
    ensures var r := RetrySpec(attempts, fileName);
      && 1 <= r.attempts <= MaxRetries
      && (r.delivery.Saved? <==> exists k :: 0 <= k < MaxRetries && Succeeds(attempts[k]))
      && (r.delivery.Saved? ==> r.delivery.fileName == fileName && Succeeds(attempts[r.attempts - 1]))
      && (forall j :: 0 <= j < r.attempts - 1 ==> !Succeeds(attempts[j]))
      && (r.delivery.Alerted? ==> r.delivery.message == RetryAlert && r.attempts == MaxRetries)
      && (r.delivery.Alerted? ==> forall j :: 0 <= j < MaxRetries ==> !Succeeds(attempts[j]))
  {
    var first := FirstSuccess(attempts[..MaxRetries]);
    if first.None? {
      assert forall j :: 0 <= j < MaxRetries ==> !Succeeds(attempts[..MaxRetries][j]);
    } else {
      assert Succeeds(attempts[..MaxRetries][first.value]);
    }
  }

  /** The pause after a failure is only taken between attempts: a call that
      makes `n` attempts waits `500 * n` ms in front of its requests and
      `1000 * (n - 1)` ms after failures, besides the renderer's time. */
  lemma RetrySpecTime(attempts: seq<Attempt>, fileName: string)
    requires |attempts| >= MaxRetries
    ensures var r := RetrySpec(attempts, fileName);
      r.elapsedMs == AttemptsTime(attempts[..r.attempts], 0) + FontWaitMs * r.attempts + RetryWaitMs * (r.attempts - 1)
  {
    var r := RetrySpec(attempts, fileName);
    RetrySpecCharacterised(attempts, fileName);
    AttemptsTimeSplit(attempts[..r.attempts], FontWaitMs);
  }

  lemma {:induction false} AttemptsTimeSplit(attempts: seq<Attempt>, wait: nat)
    ensures AttemptsTime(attempts, wait) == AttemptsTime(attempts, 0) + wait * |attempts|
    decreases |attempts|
  {
    if attempts != [] {
      AttemptsTimeSplit(attempts[..|attempts| - 1], wait);
    }
  }

  /** The `while (retryCount < maxRetries)` loop of `downloadPDF`, with the
      outer `catch` that turns the rethrown error into the alert. */
  method RunRetries(attempts: seq<Attempt>, fileName: string) returns (r: Run)
    requires |attempts| >= MaxRetries
    ensures r == RetrySpec(attempts, fileName)
  {
    var retryCount: nat := 0;
    var elapsed: nat := 0;
    while retryCount < MaxRetries
      invariant retryCount <= MaxRetries
      invariant forall j :: 0 <= j < retryCount ==> !Succeeds(attempts[j])
      invariant retryCount < MaxRetries ==> elapsed == AttemptsTime(attempts[..retryCount], FontWaitMs) + RetryWaitMs * retryCount
      invariant retryCount == MaxRetries ==> elapsed == AttemptsTime(attempts[..MaxRetries], FontWaitMs) + RetryWaitMs * (MaxRetries - 1)
    {
      AttemptsTimeStep(attempts, FontWaitMs, retryCount);
      elapsed := elapsed + FontWaitMs + attempts[retryCount].renderMs;
      if Succeeds(attempts[retryCount]) {
        FirstSuccessAt(attempts[..MaxRetries], retryCount);
        r := Run(Saved(fileName), retryCount + 1, elapsed);
        return;
      }
      retryCount := retryCount + 1;
      if retryCount == MaxRetries {
        // `if (retryCount === maxRetries) throw error;` leaves the loop
        break;
      }
      elapsed := elapsed + RetryWaitMs;
    }
    assert FirstSuccess(attempts[..MaxRetries]).None? by {
      assert forall j :: 0 <= j < MaxRetries ==> attempts[..MaxRetries][j] == attempts[j];
    }
    r := Run(Alerted(RetryAlert), retryCount, elapsed);
  }

  lemma FirstSuccessAt(attempts: seq<Attempt>, k: nat)
    requires k < |attempts| && Succeeds(attempts[k])
    requires forall j :: 0 <= j < k ==> !Succeeds(attempts[j])
    ensures FirstSuccess(attempts) == Some(k)
  {
  }

  // ---------------------------------------------------------------------------
  // The re-entrancy flag and what the user sees

  /** `r` extends the record `saved0`/`alerts0` with delivery `d`. */
  predicate Recorded(d: Delivery, saved0: seq<string>, alerts0: seq<string>, saved: seq<string>, alerts: seq<string>) {
    match d
    case Saved(f) => saved == saved0 + [f] && alerts == alerts0
    case Alerted(m) => alerts == alerts0 + [m] && saved == saved0
  }

  /** The `isDownloading` state of a template, with the files it saved and
      the alerts it showed so far. */
  class Downloader {
    var isDownloading: bool
    var saved: seq<string>
    var alerts: seq<string>

    constructor()
      ensures !isDownloading && saved == [] && alerts == []
    {
      isDownloading := false;
      saved := [];
      alerts := [];
    }

    /** `if (isDownloading) return; ... setIsDownloading(true)`. */
    method Begin() returns (started: bool)
      modifies this
      ensures started == !old(isDownloading)
      ensures isDownloading && saved == old(saved) && alerts == old(alerts)
    {
      started := !isDownloading;
      isDownloading := true;
    }

    /** The end of a started call: the outcome reaches the user and the
      `finally` clears the flag. */
    method Finish(d: Delivery)
      modifies this
      ensures !isDownloading
      ensures Recorded(d, old(saved), old(alerts), saved, alerts)
    {
      match d {
        case Saved(f) => saved := saved + [f];
        case Alerted(m) => alerts := alerts + [m];
      }
      isDownloading := false;
    }
  }

  /** `downloadPDF` of the templates that retry with a fixed pause: ignored
      while a download runs; otherwise it runs the attempts, delivers their
      outcome, and ends with the flag cleared whatever the outcome. */
  method DownloadWithRetries(dl: Downloader, attempts: seq<Attempt>, fileName: string) returns (run: Option<Run>)
    requires |attempts| >= MaxRetries
    modifies dl
    ensures old(dl.isDownloading) ==> run.None? && dl.isDownloading && dl.saved == old(dl.saved) && dl.alerts == old(dl.alerts)
    ensures !old(dl.isDownloading) ==> run == Some(RetrySpec(attempts, fileName)) && !dl.isDownloading
    ensures !old(dl.isDownloading) ==> Recorded(run.value.delivery, old(dl.saved), old(dl.alerts), dl.saved, dl.alerts)
  {
    var started := dl.Begin();
    if !started {
      return None;
    }
    var r := RunRetries(attempts, fileName);
    dl.Finish(r.delivery);
    run := Some(r);
  }
}
