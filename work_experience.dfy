/** ResumePDF/ResumePDFWorkExperience.tsx: one block per job inside a section,
    with the company name left out when it repeats the previous job's. */
module WorkExperienceSection {
  import opened Js
  import opened Records
  import opened Common
  import Styles

  /** The block drawn for one job. `company` is None when the name is hidden. */
  datatype EntryBlock = EntryBlock(
    company: Option<TextRun>,
    jobTitle: TextRun,
    date: TextRun,
    bullets: seq<BulletRow>,
    marginTop: string,
    dividerBelow: bool)

  /** The company of entry `idx` is hidden when it equals the raw company of
      entry `idx - 1`. */
  predicate HideCompanyName(jobs: seq<WorkExperience>, idx: nat)
    requires idx < |jobs|
  {
    idx > 0 && jobs[idx].company == jobs[idx - 1].company
  }

  function Entry(jobs: seq<WorkExperience>, idx: nat, themeColor: string): EntryBlock
    requires idx < |jobs|
  {
    var job := jobs[idx];
    EntryBlock(
      if HideCompanyName(jobs, idx) then None
      else Some(Text(false, None, TextOverride(Some(themeColor), None), job.company)),
      Text(false, None, TextOverride(None, Some(700)), job.jobTitle),
      Text(false, None, TextOverride(Some("#4b5563"), None), job.date),
      BulletList(job.descriptions, None),
      if idx != 0 then Styles.Space(8) else "0",
      idx != |jobs| - 1)
  }

  /** `ResumePDFWorkExperience`: the section with one entry per job. */
  function WorkExperienceView(heading: Option<string>, jobs: seq<WorkExperience>, themeColor: string): SectionView<EntryBlock>
  {
    Section(Some(themeColor), heading,
      seq(|jobs|, idx requires 0 <= idx < |jobs| => Entry(jobs, idx, themeColor)))
  }

  /** Exactly one block per job, in input order (none for an empty list, the
      section itself still drawn). Each block carries the job's title, date and
      every description as a bulleted row, whether or not the company is hidden.
      The first block shows its company; block `i > 0` hides it exactly when the
      job's company equals job `i - 1`'s. Every block but the first has an
      8pt top margin (`spacing[4]`), the first 0; every block but the last has
      a divider below it. */
  lemma EntriesFollowJobs(heading: Option<string>, jobs: seq<WorkExperience>, themeColor: string)
    ensures var v := WorkExperienceView(heading, jobs, themeColor);
      && |v.children| == |jobs|
      && (v.heading.Some? <==> Truthy(heading))
      && forall i :: 0 <= i < |jobs| ==> EntryMatchesJob(jobs, i, v.children[i])
  {
    var v := WorkExperienceView(heading, jobs, themeColor);
    forall i | 0 <= i < |jobs| ensures EntryMatchesJob(jobs, i, v.children[i]) {
      EntryFacts(jobs, i, themeColor);
    }
  }

  /** Block `i` draws job `i` as described above. */
  predicate EntryMatchesJob(jobs: seq<WorkExperience>, i: nat, b: EntryBlock)
    requires i < |jobs|
  {
    && b.jobTitle.text == jobs[i].jobTitle
    && b.date.text == jobs[i].date
    && |b.bullets| == |jobs[i].descriptions|
    && (forall k :: 0 <= k < |jobs[i].descriptions| ==>
          b.bullets[k].item.text == jobs[i].descriptions[k] && b.bullets[k].glyph.Some?)
    && (b.company.None? <==> i > 0 && jobs[i].company == jobs[i - 1].company)
    && (b.company.Some? ==> b.company.value.text == jobs[i].company)
    && (b.marginTop == if i == 0 then "0" else "8pt")
    && (b.dividerBelow <==> i < |jobs| - 1)
  }

  lemma EntryFacts(jobs: seq<WorkExperience>, i: nat, themeColor: string)
    requires i < |jobs|
    ensures EntryMatchesJob(jobs, i, Entry(jobs, i, themeColor))
  {
    BulletListRows(jobs[i].descriptions, None);
    assert Styles.Space(8) == "8pt";
  }

  // ---------------------------------------------------------------------------
  // The shown company names, against an independent reference

  /** The company names that are drawn, in order. */
  function ShownCompanies(blocks: seq<EntryBlock>): seq<string>
    decreases |blocks|
  {
    if blocks == [] then []
    else (if blocks[0].company.Some? then [blocks[0].company.value.text] else [])
         + ShownCompanies(blocks[1..])
  }

  /** Reference definition: scan the companies remembering the previous one,
      and keep a company when it differs from the one before it. Every run of
      equal neighbours leaves one name. */
  function Destutter(prev: Option<string>, companies: seq<string>): seq<string>
    decreases |companies|
  {
    if companies == [] then []
    else (if prev == Some(companies[0]) then [] else [companies[0]])
         + Destutter(Some(companies[0]), companies[1..])
  }

  function Companies(jobs: seq<WorkExperience>): (cs: seq<string>)
    ensures |cs| == |jobs| && forall i :: 0 <= i < |jobs| ==> cs[i] == jobs[i].company
  {
    seq(|jobs|, i requires 0 <= i < |jobs| => jobs[i].company)
  }

  lemma {:induction false} ShownFromIndex(jobs: seq<WorkExperience>, themeColor: string, i: nat)
    requires i <= |jobs|
    ensures var blocks := seq(|jobs|, idx requires 0 <= idx < |jobs| => Entry(jobs, idx, themeColor));
      ShownCompanies(blocks[i..])
        == Destutter(if i == 0 then None else Some(jobs[i - 1].company), Companies(jobs)[i..])
    decreases |jobs| - i
  {
    var blocks := seq(|jobs|, idx requires 0 <= idx < |jobs| => Entry(jobs, idx, themeColor));
    if i < |jobs| {
      ShownFromIndex(jobs, themeColor, i + 1);
      assert blocks[i..][1..] == blocks[i + 1..];
      assert Companies(jobs)[i..][1..] == Companies(jobs)[i + 1..];
    }
  }

  /** The names drawn are exactly the companies with each run of equal
      neighbours collapsed to one: [A, A, B, A] draws A, B, A. */
  lemma ShownCompaniesDestutter(heading: Option<string>, jobs: seq<WorkExperience>, themeColor: string)
    ensures ShownCompanies(WorkExperienceView(heading, jobs, themeColor).children)
         == Destutter(None, Companies(jobs))
  {
    ShownFromIndex(jobs, themeColor, 0);
    var blocks := seq(|jobs|, idx requires 0 <= idx < |jobs| => Entry(jobs, idx, themeColor));
    assert blocks[0..] == blocks;
    assert Companies(jobs)[0..] == Companies(jobs);
  }

  /** Two names drawn one after the other always differ. */
  lemma {:induction false} DestutterNoRepeats(prev: Option<string>, companies: seq<string>)
    ensures var d := Destutter(prev, companies);
      (forall i :: 0 <= i < |d| - 1 ==> d[i] != d[i + 1])
      && (d != [] ==> prev != Some(d[0]))
    decreases |companies|
  {
    if companies != [] {
      DestutterNoRepeats(Some(companies[0]), companies[1..]);
    }
  }

  function Job(company: string): WorkExperience {
    WorkExperience(company, "", "", [])
  }

  /** Concrete runs: [A, A, B, A] shows, hides, shows, shows; [A, A, A] shows,
      hides, hides. */
  lemma HidingExamples(heading: Option<string>, themeColor: string)
    ensures var v := WorkExperienceView(heading, [Job("A"), Job("A"), Job("B"), Job("A")], themeColor);
      |v.children| == 4 && v.children[0].company.Some? && v.children[1].company.None?
      && v.children[2].company.Some? && v.children[3].company.Some?
    ensures var v := WorkExperienceView(heading, [Job("A"), Job("A"), Job("A")], themeColor);
      |v.children| == 3 && v.children[0].company.Some? && v.children[1].company.None?
      && v.children[2].company.None?
  {
  }
}
