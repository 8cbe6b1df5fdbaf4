# OpenResume PDF templates and download, in Dafny

This project models the part of OpenResume that sits between the résumé and
settings records and the PDF renderer. It covers:

- how each PDF template picks, orders and splits the sections it draws;
- the per-entry decisions inside the work-experience section and the shared
  building blocks (section heading, text run, bullet list, link, rated skill);
- the spacing token table;
- the download procedures of the templates: re-entrancy flag, bounded retry
  loop, pauses, the 15-second race of the "Extra" template, the wording of
  its alert, and the file name;
- the web (HTML) template's column selection;
- the control bar (button label and state, zoom, its own download) and the
  template switch of the résumé page.

The renderer is replaced by the list of outcomes its attempts would have
(`Download.Attempt`), each a Blob, no blob, or a thrown value with the
milliseconds it takes; timers become summed milliseconds. What each template
draws is an abstract `Layout.Page`: title, page size, font, accent colours,
the profile call, and a list of columns, each a list of section-renderer
calls (`Layout.SectionCall`).

Modules, one per source file, with shared ones first:

| module | file | models |
|---|---|---|
| `Js` | js.dfy | JavaScript string semantics: `||`, `includes`, `trim`, `join`, decimal numerals |
| `Styles` | styles.dfy | `ResumePDF/styles.ts` |
| `Records` | records.dfy | résumé and settings records, `formsOrder.filter(formToShow)` |
| `Common` | common.dfy | `ResumePDF/common/index.tsx` |
| `WorkExperienceSection` | work_experience.dfy | `ResumePDF/ResumePDFWorkExperience.tsx` |
| `Layout` | layout.dfy | the page, the section calls and the `isPDF` split shared by the PDF templates |
| `FileName` | file_name.dfy | the file-name expression of the three downloading templates |
| `Download` | download.dfy | `downloadPDF` of templates D and B; the `isDownloading` flag |
| `PdfTemplateD` | template_d.dfy | `ResumePDF/ResumePDFTemplateD.tsx` |
| `PdfTemplateB` | template_b.dfy | `ResumePDF/ResumePDFTemplateB.tsx` |
| `PdfTemplate` | template.dfy | `ResumePDF/ResumePDFTemplate.tsx` |
| `PdfTemplateExtra` | template_extra.dfy | `ResumePDF/ResumePDFTemplateExtra.tsx` |
| `WebTemplate` | web_template.dfy | `ResumePDF/ResumeWebTemplate.tsx` |
| `ControlBar` | control_bar.dfy | `ResumeControlBar.tsx` |
| `ResumeView` | resume_view.dfy | `Resume/index.tsx` |

Three PDF files export a component under the same name, `ResumePDFTemplateC`:
ResumePDFTemplateD.tsx, ResumePDFTemplate.tsx and ResumePDFTemplateExtra.tsx.
`index.tsx` also imports a `ResumePDFTemplateD` that ResumePDFTemplateD.tsx
never exports. So the model names each component by its file. Under
`ResumeView.TemplateComponent`, "D" stands for the component of
ResumePDFTemplateD.tsx and "C" for that of ResumePDFTemplate.tsx. The Extra
template is reached from no choice on the page; it is modelled on its own.

Three behaviours of the code are easy to misread, and the model keeps them as
written:

- **Spaces in the name.** The name sanitisation replaces characters one for
  one. So "Jane Q. Public!" is saved as `Jane_Q__Public_-template-B.pdf`, not
  `Jane_Q_Public`; see `FileName.JaneExample`.
- **Order in template B.** Template B keeps each column in its JSX order and
  ignores `formsOrder`; see `PdfTemplateB.IgnoresFormsOrder`.
- **Empty blobs.** `if (!blob)` only rejects a missing blob (`null` or
  `undefined`), so a Blob object of size 0 counts as a success
  (`Download.Succeeds`). Only `NoBlob` and thrown values are failures.

`DEFAULT_FONT_COLOR` is defined in `lib/redux/settingsSlice`, which is not
part of this model; it is taken as "#171717" (`Records.DefaultFontColor`). The
zoom scale is a number of hundredths (0.8 is 80), since the slider's step is
0.01.

## Model

| member | source | states |
|---|---|---|
| Styles.SpacingIsDoubleKey | open-resume-main/src/app/components/Resume/ResumePDF/styles.ts:7-39 | every numeric spacing key k other than 0, held as 2k half-units, maps to "2k pt" (0.5 → 1pt, …, 96 → 192pt) |
| Styles.SpacingEnds | open-resume-main/src/app/components/Resume/ResumePDF/styles.ts:6-40 | `spacing[0]` is the unitless "0" and `full` is "100%" |
| Styles.PointsOfKey | open-resume-main/src/app/components/Resume/ResumePDF/styles.ts:7-39 | the number of points a numeric key stands for reads back from its value |
| Styles.SpacingStrictlyIncreasing | open-resume-main/src/app/components/Resume/ResumePDF/styles.ts:5-39 | a larger key gives strictly more points |
| Styles.FragmentsAgree | open-resume-main/src/app/components/Resume/ResumePDF/styles.ts:44-59 | `flexCol` is a column with gap `spacing["1.5"]` = 3pt; `flexRowBetween` is `flexRow` plus justify space-between |
| Records.KindOfName | open-resume-main/src/app/components/Resume/ResumePDF/ResumeWebTemplate.tsx:60-67 | a section key names a kind exactly when it is one of the five kind names, and then names that kind |
| Records.FilterShownMembers | open-resume-main/src/app/components/Resume/ResumePDF/ResumePDFTemplateD.tsx:57 | a kind survives `formsOrder.filter(formToShow)` iff it is in the order and shown |
| Records.FilterShownLength | open-resume-main/src/app/components/Resume/ResumePDF/ResumePDFTemplateD.tsx:57 | the filter never yields more kinds than the order holds |
| Records.FilterShownKeepsOrder | open-resume-main/src/app/components/Resume/ResumePDF/ResumePDFTemplateD.tsx:57 | the filter keeps the kinds in the order of `formsOrder` and adds no duplicates |
| Common.Section | open-resume-main/src/app/components/Resume/ResumePDF/common/index.tsx:27-48 | the heading block exists iff `heading` is truthy; its rule and text share `themeColor` or else `DEFAULT_FONT_COLOR`; the children are always drawn, unchanged |
| Common.Text | open-resume-main/src/app/components/Resume/ResumePDF/common/index.tsx:65-75 | colour `themeColor` or else "#1f2937", weight 700 iff bold and 400 otherwise, unless the caller's style sets them; the text is kept |
| Common.BulletListRows | open-resume-main/src/app/components/Resume/ResumePDF/common/index.tsx:82-114 | one row per item in order, each holding its item; the glyph is drawn iff `showBulletPoints` is not false (it defaults to true) |
| Common.Link | open-resume-main/src/app/components/Resume/ResumePDF/common/index.tsx:130-146 | a PDF link iff `isPDF`, otherwise an anchor to the same target with `_blank` and `noreferrer` |
| Common.FeaturedSkillCircles | open-resume-main/src/app/components/Resume/ResumePDF/common/index.tsx:160-194 | exactly 5 circles; circle idx is filled (opacity 100, skill colour) iff rating >= idx, else dimmed grey; so a rating r in 0..4 fills r+1; the skill colour is `themeColor` or else "#2563eb", the name bold |
| WorkExperienceSection.EntriesFollowJobs | open-resume-main/src/app/components/Resume/ResumePDF/ResumePDFWorkExperience.tsx:19-63 | one block per job in input order, none for an empty list. For each entry: job title, date and every description are always drawn; hiding touches only the company; bullets are always on; the top margin is 0 only for the first entry; the divider is missing only under the last |
| WorkExperienceSection.ShownFromIndex | open-resume-main/src/app/components/Resume/ResumePDF/ResumePDFWorkExperience.tsx:23-24 | per index: the first company is shown; company i > 0 is hidden iff it equals the raw company of job i-1 |
| WorkExperienceSection.ShownCompaniesDestutter | open-resume-main/src/app/components/Resume/ResumePDF/ResumePDFWorkExperience.tsx:23-45 | the names drawn are the companies with each run of equal names cut to its first, as an independent left-to-right scan gives |
| WorkExperienceSection.DestutterNoRepeats | open-resume-main/src/app/components/Resume/ResumePDF/ResumePDFWorkExperience.tsx:23-24 | two company names drawn one after the other always differ |
| WorkExperienceSection.HidingExamples | open-resume-main/src/app/components/Resume/ResumePDF/ResumePDFWorkExperience.tsx:23-24 | [A,A,B,A] shows, hides, shows, shows; [A,A,A] shows, hides, hides |
| Layout.PageSizeOf | open-resume-main/src/app/components/Resume/ResumePDF/ResumePDFTemplate.tsx:38 | the page is A4 iff `documentSize === "A4"`, otherwise LETTER |
| Layout.Call | open-resume-main/src/app/components/Resume/ResumePDF/ResumePDFTemplateD.tsx:59-98 | each section call gets the theme colour and its heading from `formToHeading`. Only education, skills and custom get a `showBulletPoints` prop, read from the settings; work experience and projects get none |
| Layout.KindsOfCalls | open-resume-main/src/app/components/Resume/ResumePDF/ResumePDFTemplateD.tsx:137-144 | a column of calls draws exactly the kinds asked for, in order |
| Layout.ShownColumn | open-resume-main/src/app/components/Resume/ResumePDF/ResumePDFTemplateD.tsx:57 | a column built from `base.filter(formToShow)` draws a kind iff it is in `base` and shown, in the order of `base`, once each when `base` has no repeats; headings and bullet props as in `Call` |
| Layout.Title | open-resume-main/src/app/components/Resume/ResumePDF/ResumePDFTemplateD.tsx:102 | the document title is the name followed by " Resume" |
| Layout.RenderWithDownload | open-resume-main/src/app/components/Resume/ResumePDF/ResumePDFTemplateD.tsx:204-240 | with `isPDF` only the document; otherwise a button over the same page, disabled iff downloading and labelled "Generating PDF..." iff downloading, else "Download PDF" |
| FileName.SanitizeCharwise | open-resume-main/src/app/components/Resume/ResumePDF/ResumePDFTemplateD.tsx:177 | `replace(/[^a-zA-Z0-9]/g, '_')` keeps the length and turns each character outside the class into one `_`, keeping the others in place |
| FileName.SanitizeSafe | open-resume-main/src/app/components/Resume/ResumePDF/ResumePDFTemplateD.tsx:177 | a sanitised name holds only letters, digits and `_` |
| FileName.SanitizeIdempotent | open-resume-main/src/app/components/Resume/ResumePDF/ResumePDFTemplateD.tsx:177 | sanitising a safe name changes nothing, so sanitising twice is sanitising once |
| FileName.DownloadNameSpec | open-resume-main/src/app/components/Resume/ResumePDF/ResumePDFTemplateD.tsx:177 | a name of white space only (or empty) gives "resume"; any other gives the raw name sanitised one for one; the template suffix always follows |
| FileName.JaneSanitized | open-resume-main/src/app/components/Resume/ResumePDF/ResumePDFTemplateB.tsx:198 | "Jane Q. Public!" sanitises to "Jane_Q__Public_" |
| FileName.JaneExample | open-resume-main/src/app/components/Resume/ResumePDF/ResumePDFTemplateB.tsx:198 | "Jane Q. Public!" is saved as "Jane_Q__Public_-template-B.pdf" |
| FileName.BlankNameExample | open-resume-main/src/app/components/Resume/ResumePDF/ResumePDFTemplateD.tsx:177 | "   " and "" are both saved as "resume-template-C.pdf" |
| Js.TrimEmptyIff | open-resume-main/src/app/components/Resume/ResumePDF/ResumePDFTemplateD.tsx:177 | `name.trim()` is empty iff every character is ECMAScript white space or a line terminator |
| Js.ContainsIff | open-resume-main/src/app/components/Resume/ResumePDF/ResumePDFTemplateExtra.tsx:207-211 | the left-to-right scan for `includes` finds `t` iff `t` occurs at some offset |
| Js.JoinAppend | open-resume-main/src/app/components/Resume/ResumePDF/ResumeWebTemplate.tsx:13 | joining one more part appends the separator and the part |
| Js.JoinLength | open-resume-main/src/app/components/Resume/ResumePDF/ResumeWebTemplate.tsx:13 | the length of a join is the parts' total length plus one separator per pair of neighbours |
| Js.JoinContents | open-resume-main/src/app/components/Resume/ResumePDF/ResumeWebTemplate.tsx:13 | a join is exactly the parts in order: part i starts after the parts and separators before it, one separator follows every part but the last, and the empty list joins to "" |
| Download.FirstSuccess | open-resume-main/src/app/components/Resume/ResumePDF/ResumePDFTemplateD.tsx:165-194 | the index of the first attempt that yields a blob, with all before it failing; none iff all fail |
| Download.RetrySpecCharacterised | open-resume-main/src/app/components/Resume/ResumePDF/ResumePDFTemplateD.tsx:162-197 | one to three attempts; the file is saved iff one of the first three yields a blob (empty Blob objects included), after failures on all before it; otherwise all three are made and the one alert is shown |
| Download.RetrySpecTime | open-resume-main/src/app/components/Resume/ResumePDF/ResumePDFTemplateB.tsx:183-213 | a call of n attempts waits 500 ms before each request and 1000 ms after each failure but the last: 500·n + 1000·(n-1) besides rendering |
| Download.RunRetries | open-resume-main/src/app/components/Resume/ResumePDF/ResumePDFTemplateD.tsx:162-197 | the `while (retryCount < maxRetries)` loop and its `catch` compute exactly `RetrySpec` |
| Download.Downloader.Begin | open-resume-main/src/app/components/Resume/ResumePDF/ResumePDFTemplateD.tsx:152-155 | the call starts iff no download was running; after it the flag is set and nothing else changes |
| Download.Downloader.Finish | open-resume-main/src/app/components/Resume/ResumePDF/ResumePDFTemplateD.tsx:196-200 | the outcome reaches the user (one saved file or one alert) and `finally` clears the flag |
| Download.DownloadWithRetries | open-resume-main/src/app/components/Resume/ResumePDF/ResumePDFTemplateD.tsx:151-201 | a call while downloading changes nothing; any other call ends with the flag clear and the outcome of `RetrySpec` delivered |
| PdfTemplateD.DocumentSections | open-resume-main/src/app/components/Resume/ResumePDF/ResumePDFTemplateD.tsx:57-144 | one column: a kind is drawn iff it is in `formsOrder` and shown, in `formsOrder` order, once each; headings from `formToHeading`; bullet props only for education, skills and custom |
| PdfTemplateD.DocumentStyle | open-resume-main/src/app/components/Resume/ResumePDF/ResumePDFTemplateD.tsx:50-135 | the header bar is drawn iff the raw `settings.themeColor` is truthy, in that colour. Accents use `themeColor` or else `DEFAULT_FONT_COLOR`. The profile always uses PDF links; the font is always Source Sans Pro, the family registered at load; A4 iff "A4"; the title is "<name> Resume" |
| PdfTemplateD.DownloadPDF | open-resume-main/src/app/components/Resume/ResumePDF/ResumePDFTemplateD.tsx:151-201 | the retrying download, saving `<base>-template-C.pdf` |
| PdfTemplateB.DocumentColumns | open-resume-main/src/app/components/Resume/ResumePDF/ResumePDFTemplateB.tsx:81-165 | left column: work, educations, projects; right column: skills, custom. Each kind appears iff `formToShow` holds for it, once, in that fixed order; bullet props only for education, skills and custom |
| PdfTemplateB.IgnoresFormsOrder | open-resume-main/src/app/components/Resume/ResumePDF/ResumePDFTemplateB.tsx:81-165 | changing `formsOrder` leaves the document unchanged |
| PdfTemplateB.DocumentStyle | open-resume-main/src/app/components/Resume/ResumePDF/ResumePDFTemplateB.tsx:47-72 | the theme colour is `settings.themeColor` or else "#2563eb", for the header rule, the profile and every section; the profile always uses PDF links; the font is Source Sans Pro |
| PdfTemplateB.DownloadPDF | open-resume-main/src/app/components/Resume/ResumePDF/ResumePDFTemplateB.tsx:172-222 | the retrying download, saving `<base>-template-B.pdf` |
| PdfTemplate.ComponentModes | open-resume-main/src/app/components/Resume/ResumePDF/ResumePDFTemplate.tsx:34-113 | in both modes the component yields the document alone, without a button; the PDF and the preview differ only in the profile's `isPDF` |
| PdfTemplate.DocumentColumns | open-resume-main/src/app/components/Resume/ResumePDF/ResumePDFTemplate.tsx:75-108 | all five sections always: work, educations, projects in the 70% column, skills then custom in the 30% one. Bullet props only for education, skills and custom; neither `formToShow` nor `formsOrder` changes the document |
| PdfTemplate.DocumentStyle | open-resume-main/src/app/components/Resume/ResumePDF/ResumePDFTemplate.tsx:32-69 | the theme colour (`settings.themeColor` or else "#0f766e") borders the profile block, frames the columns and colours every section. Font family and size come from the settings, profile links follow `isPDF`, and the page is A4 iff "A4" |
| PdfTemplateExtra.SameLayoutAsTemplate | open-resume-main/src/app/components/Resume/ResumePDF/ResumePDFTemplateExtra.tsx:53-137 | the page is ResumePDFTemplate.tsx's with the font fixed to Source Sans Pro. All five sections are drawn ungated, work/educations/projects then skills/custom, and profile links follow `isPDF` |
| PdfTemplateExtra.RegisterFontsSpec | open-resume-main/src/app/components/Resume/ResumePDF/ResumePDFTemplateExtra.tsx:6-30 | every registration is for Source Sans Pro. If both CDN files register, the fallback is never tried; if either throws, the local Arial regular/bold pair is registered last. `registerFonts` fails only if that fallback throws too, with its error |
| PdfTemplateExtra.DelayedTimeClosedForm | open-resume-main/src/app/components/Resume/ResumePDF/ResumePDFTemplateExtra.tsx:166-172 | attempt k waits `delays[k]` = 1000·(k+1) ms before its request, so n attempts wait 500·n·(n+1) ms besides rendering |
| PdfTemplateExtra.GenerationSpecCharacterised | open-resume-main/src/app/components/Resume/ResumePDF/ResumePDFTemplateExtra.tsx:163-194 | one to three attempts; the file is saved iff one yields a blob, after failures on all before it. Otherwise the third attempt's error propagates, and a missing blob is "PDF blob generation failed". No pause follows a failure |
| PdfTemplateExtra.GeneratePDF | open-resume-main/src/app/components/Resume/ResumePDF/ResumePDFTemplateExtra.tsx:163-194 | the `generatePDF` loop computes exactly `GenerationSpec`, and `pdfGenerated` is set iff it saved the file |
| PdfTemplateExtra.Race | open-resume-main/src/app/components/Resume/ResumePDF/ResumePDFTemplateExtra.tsx:159-197 | generation decides iff it settles strictly before 15000 ms; otherwise the race rejects with the timeout error at 15000 ms |
| PdfTemplateExtra.ClassifyAsWrittenFirstMatch | open-resume-main/src/app/components/Resume/ResumePDF/ResumePDFTemplateExtra.tsx:204-215 | as written, the hint is chosen by the first of "timeout" / "blob" / "network" that occurs at some offset of `String(error)`, else the generic hint; each of the four hints in both directions |
| PdfTemplateExtra.ClassifyAsWritten | open-resume-main/src/app/components/Resume/ResumePDF/ResumePDFTemplateExtra.tsx:204-217 | as written, every alert starts with "PDF generation failed. " and a hint follows it |
| PdfTemplateExtra.ClassifyFirstMatch | open-resume-main/src/app/components/Resume/ResumePDF/ResumePDFTemplateExtra.tsx:204-215 | with the corrected timeout check, which also takes "timed out" for a timeout, the hint is chosen by the first group of words that occurs in the error text, else the generic hint |
| PdfTemplateExtra.Classify | open-resume-main/src/app/components/Resume/ResumePDF/ResumePDFTemplateExtra.tsx:203-217 | with the corrected timeout check, every alert still starts with "PDF generation failed. " and a hint follows it |
| PdfTemplateExtra.CorrectionOnlyAddsTimedOut | open-resume-main/src/app/components/Resume/ResumePDF/ResumePDFTemplateExtra.tsx:207 | the corrected check differs from the written one only for a text saying "timed out" without "timeout", which it reports as taking too long |
| PdfTemplateExtra.TimeoutTextLacks | open-resume-main/src/app/components/Resume/ResumePDF/ResumePDFTemplateExtra.tsx:160 | "Error: PDF generation timed out" contains none of "timeout", "blob", "network" |
| PdfTemplateExtra.TimeoutMisreported | open-resume-main/src/app/components/Resume/ResumePDF/ResumePDFTemplateExtra.tsx:160-215 | as written, the timeout is reported as "An unexpected error occurred. Please try again." |
| PdfTemplateExtra.TimeoutReported | open-resume-main/src/app/components/Resume/ResumePDF/ResumePDFTemplateExtra.tsx:160-215 | with the corrected check, the timeout is reported as "The process took too long. Please try again." |
| PdfTemplateExtra.NoBlobReported | open-resume-main/src/app/components/Resume/ResumePDF/ResumePDFTemplateExtra.tsx:175-210 | a missing blob is reported as "Failed to create PDF file. Please try again." by both checks |
| PdfTemplateExtra.RunDownload | open-resume-main/src/app/components/Resume/ResumePDF/ResumePDFTemplateExtra.tsx:150-217 | the body of the `try` and its `catch` (fonts, pause, race, `pdfGenerated` check) compute exactly `DownloadSpec`, with the alert worded by the check given; `AsWritten` is the file's own check |
| PdfTemplateExtra.Alert | open-resume-main/src/app/components/Resume/ResumePDF/ResumePDFTemplateExtra.tsx:204-217 | under either check, an alert starts with "PDF generation failed. " and a hint follows it |
| PdfTemplateExtra.DownloadSpecCharacterised | open-resume-main/src/app/components/Resume/ResumePDF/ResumePDFTemplateExtra.tsx:150-217 | under either check: the file is saved iff the fonts are set up and a blob comes before 15 s. A font failure alerts by the fallback's error at once; a generation of 15 s or more alerts by the timeout error at 1000 + 15000 ms; three failures in time alert by the third error. Every alert starts with the prefix, and no call lasts more than 1000 + 15000 ms |
| PdfTemplateExtra.TimedOutDownloadAsWritten | open-resume-main/src/app/components/Resume/ResumePDF/ResumePDFTemplateExtra.tsx:159-215 | as written, a call whose fonts are set up and whose generation takes 15 s or more alerts "PDF generation failed. An unexpected error occurred. Please try again." |
| PdfTemplateExtra.TimedOutDownloadCorrected | open-resume-main/src/app/components/Resume/ResumePDF/ResumePDFTemplateExtra.tsx:159-215 | with the corrected check, the same call alerts "PDF generation failed. The process took too long. Please try again." |
| PdfTemplateExtra.DownloadPDF | open-resume-main/src/app/components/Resume/ResumePDF/ResumePDFTemplateExtra.tsx:147-221 | under the check given (`AsWritten` is the file's code), a call while downloading changes nothing; any other ends with the flag clear and the outcome of `DownloadSpec` delivered, saving `<base>-template-C.pdf` |
| WebTemplate.SectionBlock | open-resume-main/src/app/components/Resume/ResumePDF/ResumeWebTemplate.tsx:59-69 | a name gives a block iff it is one of the five section keys, and the block is of that kind; any other name renders nothing |
| WebTemplate.ColumnFollowsNames | open-resume-main/src/app/components/Resume/ResumePDF/ResumeWebTemplate.tsx:90-97 | a column draws one block per known name, in list order, skipping unknown names, so never more blocks than names |
| WebTemplate.ColumnBlocksFromNames | open-resume-main/src/app/components/Resume/ResumePDF/ResumeWebTemplate.tsx:90-97 | every block a column draws is the block `mapSectionToComponent` gives one of its names |
| WebTemplate.RenderColumns | open-resume-main/src/app/components/Resume/ResumePDF/ResumeWebTemplate.tsx:75-97 | given exactly two lists, main and sidebar draw their known names; otherwise main draws `formsOrder` filtered by `formToShow`, in order, and the sidebar is empty |
| WebTemplate.BlockEntries | open-resume-main/src/app/components/Resume/ResumePDF/ResumeWebTemplate.tsx:6-69 | the name of each kind draws a block of that kind with one entry per record, in order. An experience shows company, job title, date and its descriptions joined by ", " (as `Js.JoinContents` describes). An education shows school, exactly "<studyType> in <area>", date and the joined descriptions. A project shows name, joined descriptions, date. Skills are exactly the featured skills' names, in order. Custom is one entry: heading and joined descriptions |
| ControlBar.LabelPriority | open-resume-main/src/app/components/Resume/ResumeControlBar.tsx:127-130 | each label names exactly one state, by priority: loading → "Generating PDF...", else error → "Error - Retry", else no url → "Preparing...", else "Download Resume" |
| ControlBar.EnabledStates | open-resume-main/src/app/components/Resume/ResumeControlBar.tsx:117-130 | the button is enabled iff it reads "Download Resume", or "Error - Retry" with a url; an error with a url and no loading leaves it enabled |
| ControlBar.PercentLabel | open-resume-main/src/app/components/Resume/ResumeControlBar.tsx:88 | the zoom label ends in "%" |
| ControlBar.PercentLabelReadsBack | open-resume-main/src/app/components/Resume/ResumeControlBar.tsx:88 | the label's leading number is the scale in per cent |
| ControlBar.Zoom.OnSliderChange | open-resume-main/src/app/components/Resume/ResumeControlBar.tsx:77-87 | a manual zoom, in [50, 150] hundredths, turns autoscale off and sets the scale to the slider's value |
| ControlBar.Zoom.OnAutoscaleToggle | open-resume-main/src/app/components/Resume/ResumeControlBar.tsx:90-95 | the checkbox flips autoscale and keeps the scale |
| ControlBar.Browser.HandleDownload | open-resume-main/src/app/components/Resume/ResumeControlBar.tsx:48-70 | as evidently intended, with the page's `window.document`: without a url nothing happens. Otherwise one link named `fileName + ".pdf"` is clicked: to the fetched blob's own object URL, which is revoked after, or on failure straight to `instance.url` |
| ControlBar.Browser.HandleDownloadAsWritten | open-resume-main/src/app/components/Resume/ResumeControlBar.tsx:22-69 | as written, `document` is the React element prop, so both `createElement` calls throw: no link is ever clicked, the handler rejects iff there is a url, and a fetched blob's object URL stays alive |
| ControlBar.AsWrittenSavesNothing | open-resume-main/src/app/components/Resume/ResumeControlBar.tsx:48-70 | as written, pressing the button with a prepared url and a successful fetch clicks nothing, leaves "blob:saved" alive and rejects |
| ControlBar.IntendedSavesOnce | open-resume-main/src/app/components/Resume/ResumeControlBar.tsx:48-70 | as intended, the same press clicks one link to "blob:saved" named "Jane - Resume.pdf" and leaves no object URL alive |
| ControlBar.TemplateChoices | open-resume-main/src/app/components/Resume/ResumeControlBar.tsx:103-112 | the picker offers exactly A, B, C, D, each option's text naming its template |
| ResumeView.TemplateDispatch | open-resume-main/src/app/components/Resume/index.tsx:27-38 | "B", "C", "D" pick templates B, ResumePDFTemplate.tsx, D; every other value falls back to A |
| ResumeView.PickerReachesEveryTemplate | open-resume-main/src/app/components/Resume/index.tsx:27-38 | the four picker values select four different templates, "A" template A |
| ResumeView.FileBase | open-resume-main/src/app/components/Resume/index.tsx:60 | the control bar's file name is the profile name followed by exactly " - Resume" |
| ResumeView.PreviewAndDocument | open-resume-main/src/app/components/Resume/index.tsx:52-59 | from the same resume and settings the control bar gets the bare document (`isPDF`). For B and D the preview has the button over the same page; for ResumePDFTemplate.tsx it is the page with web profile links |
| ResumeView.DownloadFromBar | open-resume-main/src/app/components/Resume/index.tsx:55-61 | with the handler as evidently intended, pressing the button without a url clicks nothing, and with one clicks exactly one link, called "<name> - Resume.pdf" |
| ResumeView.NewZoom | open-resume-main/src/app/components/Resume/index.tsx:21 | the zoom starts at 80 % |

## Left out

- The PDF engine (`Document`, `Page`, `View`, `pdf()`, `toBlob`, `usePDF`) is outside the model. Each attempt is an outcome with a render time, and `usePDF` is the `PdfInstance` it reports.
- Timers and `Promise.race` are summed milliseconds. A tie at 15000 ms goes to the timeout, whose timer was set first.
- After a timeout the attempts keep running in the background and may still save the file. The model ends at the alert, because that continuation is concurrent.
- Font registration at module load in templates D and B is a constant (`ModuleFonts`). `Font.register` is treated as taking no time.
- Browser plumbing (`createObjectURL` beyond its freshness, anchors, `fetch`, `alert`, `console`, `revokeObjectURL`'s one-second delay) is left out. The model records only the delivered outcome and the links clicked.
- Redux selectors, `dispatch(setTemplate)` and the `dynamic` wrapper are left out; snapshots of the records are passed in.
- Colours and style values other than the accent colours, the spacing table and the flex fragments are left out; they have no behaviour.
- `useSetDefaultScale`, which fits the scale to the window, is left out: it is not part of this model.
- ResumePDFTemplateA.tsx, ResumePDFProfile and the education, project, skills and custom PDF renderers are not part of this model. Templates record only the call each would get.
- `ResumeIFrame`, `SuppressResumePDFErrorMessage` and components/DownloadButton.tsx are left out; the last is a one-shot `toBlob` and link wrapper.
- ControlBar.Zoom.OnSliderChange: the scale is in integer hundredths, so `Math.round` has nothing to round.
- Strings are sequences of code points, not UTF-16 units. A `name` that is `undefined` is not modelled; only strings are.
- An absent `descriptions` array, which the web template's `?.join` renders as nothing, is not modelled; the records always hold a list.
- PdfTemplateExtra.DownloadPDF records the one delivery of the call in the same `Download.Downloader` as templates D and B. It takes the timeout check as a parameter; `AsWritten` is the file's code, `Corrected` the fix of the finding below.
- ResumeView.RenderTemplate binds "D" to the `ResumePDFTemplateC` that ResumePDFTemplateD.tsx exports (its line 30). As written, `index.tsx` line 7 imports a `ResumePDFTemplateD` that the file does not export: TypeScript rejects the import, and a build that ignores type errors binds `undefined`, so choosing "D" could not render. The model takes the evidently intended binding.
- ControlBar.Browser.HandleDownloadAsWritten says only that the handler rejects. The unhandled rejection, `console.error` and what React does next are left out.

## Findings

| source | as written | input that shows it | evidently intended | confidence | as-written member | corrected member |
|---|---|---|---|---|---|---|
| open-resume-main/src/app/components/Resume/ResumePDF/ResumePDFTemplateExtra.tsx:207 | `errorStr.includes('timeout')` tests for "timeout", but the timer rejects with `Error('PDF generation timed out')` (line 160) | a call whose fonts register and whose generation has not settled after 15000 ms: its alert says "An unexpected error occurred. Please try again." | a timeout is announced as "The process took too long. Please try again." | high (not executed) | PdfTemplateExtra.TimedOutDownloadAsWritten | PdfTemplateExtra.TimedOutDownloadCorrected |
| open-resume-main/src/app/components/Resume/ResumeControlBar.tsx:54 | `document.createElement('a')` at lines 54 and 64, where `document` is the component's prop (lines 22 and 28), a React element without `createElement` | a prepared url and a fetch that succeeds: both the link and the fallback link throw, nothing is saved and the object URL is never revoked | build the link with `window.document`, as the templates do: one file "<fileName>.pdf" is saved and the object URL revoked | high (not executed) | ControlBar.AsWrittenSavesNothing | ControlBar.Browser.HandleDownload |

The download flow of ResumePDFTemplateExtra.tsx (`PdfTemplateExtra.DownloadSpec`,
`RunDownload`, `DownloadPDF`) takes the check as a parameter: `AsWritten` words
the alert with `PdfTemplateExtra.ClassifyAsWritten`, as the file does, and
`Corrected` with `PdfTemplateExtra.Classify`. `PdfTemplateExtra.TimeoutMisreported`
and `PdfTemplateExtra.TimeoutReported` state the same discrepancy for the
timeout error text alone. The page's control bar is modelled both ways:
`ControlBar.Browser.HandleDownloadAsWritten` as written, and
`ControlBar.Browser.HandleDownload`, which `ResumeView.DownloadFromBar` uses, as
intended.
