/** ResumePDF/ResumeWebTemplate.tsx: an HTML rendering of the résumé in a
    main column and a sidebar, each a list of section names turned into plain
    text blocks. */
module WebTemplate {
  import opened Js
  import opened Records

  /** One rendered section: the kind it came from and its entries, each the
      text of its `div`s from top to bottom. */
  datatype WebBlock = WebBlock(kind: SectionKind, entries: seq<seq<string>>)

  datatype WebPage = WebPage(main: seq<WebBlock>, sidebar: seq<WebBlock>)

  const Comma: string := ", "

  /** `ExperienceSection`: company, job title, date, then the descriptions
      joined with ", ". */
  function ExperienceEntries(jobs: seq<WorkExperience>): seq<seq<string>> {
    seq(|jobs|, i requires 0 <= i < |jobs| => [jobs[i].company, jobs[i].jobTitle, jobs[i].date, Join(jobs[i].descriptions, Comma)])
  }

  /** `EducationSection`: school, "<studyType> in <area>", date, then the
      joined descriptions. */
  function EducationEntries(eds: seq<Education>): seq<seq<string>> {
    seq(|eds|, i requires 0 <= i < |eds| => [eds[i].school, eds[i].studyType + " in " + eds[i].area, eds[i].date, Join(eds[i].descriptions, Comma)])
  }

  /** `ProjectSection`: name, the joined descriptions, then the date. */
  function ProjectEntries(projects: seq<Project>): seq<seq<string>> {
    seq(|projects|, i requires 0 <= i < |projects| => [projects[i].project, Join(projects[i].descriptions, Comma), projects[i].date])
  }

  /** `SkillsSection`: one line per featured skill, its name alone. */
  function SkillEntries(skills: ResumeSkills): seq<seq<string>> {
    seq(|skills.featuredSkills|, i requires 0 <= i < |skills.featuredSkills| => [skills.featuredSkills[i].skill])
  }

  /** `CustomSectionBlock`: the heading, then the joined descriptions. */
  function CustomEntries(custom: ResumeCustom): seq<seq<string>> {
    [[custom.heading, Join(custom.descriptions, Comma)]]
  }

  /** `mapSectionToComponent`: a known section name gives its block, any other
      name gives `null`. */
  function SectionBlock(name: string, resume: Resume): (r: Option<WebBlock>)
    ensures r.Some? <==> KindOfName(name).Some?
    ensures r.Some? ==> KindName(r.value.kind) == name && r.value.kind == KindOfName(name).value
  {
    match KindOfName(name)
    case None => None
    case Some(k) =>
      Some(WebBlock(k,
        match k
        case WorkExperiences => ExperienceEntries(resume.workExperiences)
        case Educations => EducationEntries(resume.educations)
        case Projects => ProjectEntries(resume.projects)
        case Skills => SkillEntries(resume.skills)
        case Custom => CustomEntries(resume.custom)))
  }

  /** `names.map((section) => mapSectionToComponent(section, resume))`, where
      `null` draws nothing. */
  function Column(names: seq<string>, resume: Resume): seq<WebBlock>
    decreases |names|
  {
    if names == [] then []
    else
      (match SectionBlock(names[0], resume) case Some(b) => [b] case None => [])
      + Column(names[1..], resume)
  }

  /** The kinds that known names stand for, in order. */
  function KnownKinds(names: seq<string>): seq<SectionKind>
    decreases |names|
  {
    if names == [] then []
    else (match KindOfName(names[0]) case Some(k) => [k] case None => []) + KnownKinds(names[1..])
  }

  function BlockKinds(blocks: seq<WebBlock>): (r: seq<SectionKind>)
    ensures |r| == |blocks|
    ensures forall i :: 0 <= i < |blocks| ==> r[i] == blocks[i].kind
  {
    seq(|blocks|, i requires 0 <= i < |blocks| => blocks[i].kind)
  }

  /** A column draws one block per known name, in the order of the names,
      and skips the others; so it never draws more blocks than names. */
  lemma {:induction false} ColumnFollowsNames(names: seq<string>, resume: Resume)
    ensures BlockKinds(Column(names, resume)) == KnownKinds(names)
    ensures |Column(names, resume)| <= |names|
    decreases |names|
  {
    if names != [] {
      ColumnFollowsNames(names[1..], resume);
      var rest := Column(names[1..], resume);
      var head := match SectionBlock(names[0], resume) case Some(b) => [b] case None => [];
      var kh := match KindOfName(names[0]) case Some(k) => [k] case None => [];
      assert BlockKinds(head) == kh;
      assert Column(names, resume) == head + rest;
      assert KnownKinds(names) == kh + KnownKinds(names[1..]);
      assert BlockKinds(head + rest) == BlockKinds(head) + BlockKinds(rest);
    }
  }

  /** Every block a column draws is the block of one of its names. */
  lemma {:induction false} ColumnBlocksFromNames(names: seq<string>, resume: Resume)
    ensures forall b :: b in Column(names, resume) ==> exists n :: n in names && SectionBlock(n, resume) == Some(b)
    decreases |names|
  {
    if names != [] {
      ColumnBlocksFromNames(names[1..], resume);
      var rest := Column(names[1..], resume);
      var head := match SectionBlock(names[0], resume) case Some(b) => [b] case None => [];
      assert Column(names, resume) == head + rest;
      forall b | b in Column(names, resume) ensures exists n :: n in names && SectionBlock(n, resume) == Some(b) {
        if b in rest {
          var n :| n in names[1..] && SectionBlock(n, resume) == Some(b);
          assert n in names;
        } else {
          assert names[0] in names;
        }
      }
    }
  }

  /** Every kind has a name that maps back to it. */
  lemma KindNameRoundTrip(k: SectionKind)
    ensures KindOfName(KindName(k)) == Some(k)
  {
  }

  /** The names of kinds. */
  function Names(kinds: seq<SectionKind>): (r: seq<string>)
    ensures |r| == |kinds|
    ensures forall i :: 0 <= i < |kinds| ==> r[i] == KindName(kinds[i])
  {
    seq(|kinds|, i requires 0 <= i < |kinds| => KindName(kinds[i]))
  }

  lemma {:induction false} KnownKindsOfNames(kinds: seq<SectionKind>)
    ensures KnownKinds(Names(kinds)) == kinds
    decreases |kinds|
  {
    if kinds != [] {
      KindNameRoundTrip(kinds[0]);
      assert Names(kinds)[1..] == Names(kinds[1..]);
      KnownKindsOfNames(kinds[1..]);
    }
  }

  /** The main column and the sidebar: the two lists given in `columns` when
      it holds exactly two, otherwise the shown sections of `formsOrder`
      and an empty sidebar. */
  function SelectColumns(columns: Option<seq<seq<string>>>, settings: Settings): (seq<string>, seq<string>) {
    if columns.Some? && |columns.value| == 2 then (columns.value[0], columns.value[1])
    else (Names(FilterShown(settings.formsOrder, settings.formToShow)), [])
  }

  /** `ResumeWebTemplate`. `isFirstPage` plays no part. */
  function Render(resume: Resume, settings: Settings, columns: Option<seq<seq<string>>>): WebPage {
    var (main, sidebar) := SelectColumns(columns, settings);
    WebPage(Column(main, resume), Column(sidebar, resume))
  }

  /** Given two lists, the page draws their known names in order, main then
      sidebar; given anything else (no lists, or one, or three), it draws
      the shown sections of `formsOrder` in that order in the main column
      and leaves the sidebar empty. */
  lemma RenderColumns(resume: Resume, settings: Settings, columns: Option<seq<seq<string>>>)
    ensures var p := Render(resume, settings, columns);
      && (columns.Some? && |columns.value| == 2 ==>
            BlockKinds(p.main) == KnownKinds(columns.value[0]) && BlockKinds(p.sidebar) == KnownKinds(columns.value[1]))
      && (!(columns.Some? && |columns.value| == 2) ==>
            BlockKinds(p.main) == FilterShown(settings.formsOrder, settings.formToShow) && p.sidebar == [])
  {
    var (main, sidebar) := SelectColumns(columns, settings);
    ColumnFollowsNames(main, resume);
    ColumnFollowsNames(sidebar, resume);
    KnownKindsOfNames(FilterShown(settings.formsOrder, settings.formToShow));
  }

  /** The degree line of an education entry: the study type, " in ", then
      the area, and nothing else. */
  ghost predicate DegreeLine(line: string, ed: Education) {
    && |line| == |ed.studyType| + 4 + |ed.area|
    && OccursAt(line, ed.studyType, 0)
    && OccursAt(line, " in ", |ed.studyType|)
    && OccursAt(line, ed.area, |ed.studyType| + 4)
  }

  /** What an experience entry shows of its job. */
  ghost predicate ShowsJob(e: seq<string>, job: WorkExperience) {
    |e| == 4 && e[0] == job.company && e[1] == job.jobTitle && e[2] == job.date
    && JoinedFrom(e[3], job.descriptions, Comma)
  }

  /** What an education entry shows of its record. */
  ghost predicate ShowsEducation(e: seq<string>, ed: Education) {
    |e| == 4 && e[0] == ed.school && DegreeLine(e[1], ed) && e[2] == ed.date
    && JoinedFrom(e[3], ed.descriptions, Comma)
  }

  /** What a project entry shows of its project. */
  ghost predicate ShowsProject(e: seq<string>, p: Project) {
    |e| == 3 && e[0] == p.project && JoinedFrom(e[1], p.descriptions, Comma) && e[2] == p.date
  }

  lemma DegreeLineOf(ed: Education)
    ensures DegreeLine(ed.studyType + " in " + ed.area, ed)
  {
    var line := ed.studyType + " in " + ed.area;
    assert line[0..|ed.studyType|] == ed.studyType;
    assert line[|ed.studyType|..|ed.studyType| + 4] == " in ";
    assert line[|ed.studyType| + 4..|line|] == ed.area;
  }

  /** The experience block has one entry per job, in order, each showing the
      company, the job title, the date and every description with ", "
      between each two. */
  lemma ExperienceBlockShows(resume: Resume)
    ensures var b := SectionBlock(KindName(WorkExperiences), resume);
      && b.Some? && |b.value.entries| == |resume.workExperiences|
      && forall i :: 0 <= i < |resume.workExperiences| ==> ShowsJob(b.value.entries[i], resume.workExperiences[i])
  {
    var jobs := resume.workExperiences;
    var entries := SectionBlock(KindName(WorkExperiences), resume).value.entries;
    assert entries == ExperienceEntries(jobs);
    forall i | 0 <= i < |jobs| ensures ShowsJob(entries[i], jobs[i]) {
      JoinContents(jobs[i].descriptions, Comma);
    }
  }

  /** The education block has one entry per record, in order: school, the
      degree line "<studyType> in <area>", date, the joined descriptions. */
  lemma EducationBlockShows(resume: Resume)
    ensures var b := SectionBlock(KindName(Educations), resume);
      && b.Some? && |b.value.entries| == |resume.educations|
      && forall i :: 0 <= i < |resume.educations| ==> ShowsEducation(b.value.entries[i], resume.educations[i])
  {
    var eds := resume.educations;
    var entries := SectionBlock(KindName(Educations), resume).value.entries;
    assert entries == EducationEntries(eds);
    forall i | 0 <= i < |eds| ensures ShowsEducation(entries[i], eds[i]) {
      JoinContents(eds[i].descriptions, Comma);
      DegreeLineOf(eds[i]);
    }
  }

  /** The project block has one entry per project, in order: name, the
      joined descriptions, then the date. */
  lemma ProjectBlockShows(resume: Resume)
    ensures var b := SectionBlock(KindName(Projects), resume);
      && b.Some? && |b.value.entries| == |resume.projects|
      && forall i :: 0 <= i < |resume.projects| ==> ShowsProject(b.value.entries[i], resume.projects[i])
  {
    var ps := resume.projects;
    var entries := SectionBlock(KindName(Projects), resume).value.entries;
    assert entries == ProjectEntries(ps);
    forall i | 0 <= i < |ps| ensures ShowsProject(entries[i], ps[i]) {
      JoinContents(ps[i].descriptions, Comma);
    }
  }

  /** The skills block shows exactly the featured skills' names, one per
      entry, in order; ratings and the skill descriptions are not drawn. */
  lemma SkillsBlockShows(resume: Resume)
    ensures var b := SectionBlock(KindName(Skills), resume);
      && b.Some? && |b.value.entries| == |resume.skills.featuredSkills|
      && forall i :: 0 <= i < |resume.skills.featuredSkills| ==> b.value.entries[i] == [resume.skills.featuredSkills[i].skill]
  {
  }

  /** The custom block is one entry: the heading, then the joined
      descriptions. */
  lemma CustomBlockShows(resume: Resume)
    ensures var b := SectionBlock(KindName(Custom), resume);
      && b.Some? && |b.value.entries| == 1 && |b.value.entries[0]| == 2
      && b.value.entries[0][0] == resume.custom.heading
      && JoinedFrom(b.value.entries[0][1], resume.custom.descriptions, Comma)
  {
    JoinContents(resume.custom.descriptions, Comma);
  }

  /** Each name of a kind draws that kind's block: one entry per record of
      its section, in order, showing what `ShowsJob`, `ShowsEducation` and
      `ShowsProject` say; the skills block shows only the featured skills'
      names and the custom block one entry. */
  lemma BlockEntries(resume: Resume, k: SectionKind)
    ensures var b := SectionBlock(KindName(k), resume);
      && b.Some? && b.value.kind == k
      && (k == WorkExperiences ==>
            && |b.value.entries| == |resume.workExperiences|
            && forall i :: 0 <= i < |resume.workExperiences| ==> ShowsJob(b.value.entries[i], resume.workExperiences[i]))
      && (k == Educations ==>
            && |b.value.entries| == |resume.educations|
            && forall i :: 0 <= i < |resume.educations| ==> ShowsEducation(b.value.entries[i], resume.educations[i]))
      && (k == Projects ==>
            && |b.value.entries| == |resume.projects|
            && forall i :: 0 <= i < |resume.projects| ==> ShowsProject(b.value.entries[i], resume.projects[i]))
      && (k == Skills ==>
            && |b.value.entries| == |resume.skills.featuredSkills|
            && forall i :: 0 <= i < |resume.skills.featuredSkills| ==> b.value.entries[i] == [resume.skills.featuredSkills[i].skill])
      && (k == Custom ==>
            && |b.value.entries| == 1 && |b.value.entries[0]| == 2
            && b.value.entries[0][0] == resume.custom.heading
            && JoinedFrom(b.value.entries[0][1], resume.custom.descriptions, Comma))
  {
    KindNameRoundTrip(k);
    match k
    case WorkExperiences => ExperienceBlockShows(resume);
    case Educations => EducationBlockShows(resume);
    case Projects => ProjectBlockShows(resume);
    case Skills => SkillsBlockShows(resume);
    case Custom => CustomBlockShows(resume);
  }
}
