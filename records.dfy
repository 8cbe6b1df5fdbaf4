/** The résumé and settings records every template reads, and the visibility
    filter over the section order that several templates share. */
module Records {
  import opened Js

  /** The section kinds a settings record can order, show, rename and toggle. */
  datatype SectionKind = WorkExperiences | Educations | Projects | Skills | Custom

  /** The key under which a kind appears in `formsOrder`, `formToShow`, ... */
  function KindName(k: SectionKind): string {
    match k
    case WorkExperiences => "workExperiences"
    case Educations => "educations"
    case Projects => "projects"
    case Skills => "skills"
    case Custom => "custom"
  }

  /** The kind named by a section key, if any. */
  function KindOfName(s: string): (r: Option<SectionKind>)
    ensures r.Some? ==> KindName(r.value) == s
    ensures (exists k :: KindName(k) == s) ==> r.Some?
  {
    if s == "workExperiences" then Some(WorkExperiences)
    else if s == "educations" then Some(Educations)
    else if s == "projects" then Some(Projects)
    else if s == "skills" then Some(Skills)
    else if s == "custom" then Some(Custom)
    else None
  }

  datatype Profile = Profile(
    name: string, email: string, phone: string, url: string, summary: string, location: string)

  datatype WorkExperience = WorkExperience(
    company: string, jobTitle: string, date: string, descriptions: seq<string>)

  datatype Education = Education(
    school: string, studyType: string, area: string, date: string, descriptions: seq<string>)

  datatype Project = Project(project: string, date: string, descriptions: seq<string>)

  datatype FeaturedSkill = FeaturedSkill(skill: string, rating: int)

  datatype ResumeSkills = ResumeSkills(featuredSkills: seq<FeaturedSkill>, descriptions: seq<string>)

  datatype ResumeCustom = ResumeCustom(heading: string, descriptions: seq<string>)

  datatype Resume = Resume(
    profile: Profile,
    workExperiences: seq<WorkExperience>,
    educations: seq<Education>,
    projects: seq<Project>,
    skills: ResumeSkills,
    custom: ResumeCustom)

  /** The settings record. An absent theme colour is the empty string: both are
      falsy, which is all the templates test. A key missing from one of the
      maps reads as `undefined`. */
  datatype Settings = Settings(
    themeColor: string,
    fontFamily: string,
    fontSize: string,
    documentSize: string,
    formsOrder: seq<SectionKind>,
    formToShow: map<SectionKind, bool>,
    formToHeading: map<SectionKind, string>,
    showBulletPoints: map<SectionKind, bool>,
    selectedTemplate: string)

  /** `DEFAULT_FONT_COLOR` of the settings slice. */
  const DefaultFontColor: string := "#171717"

  /** `formToShow[k]` is truthy: present and true. */
  predicate Shown(show: map<SectionKind, bool>, k: SectionKind) {
    k in show && show[k]
  }

  /** `m[k]`, undefined when the key is missing. */
  function Lookup<V>(m: map<SectionKind, V>, k: SectionKind): Option<V> {
    if k in m then Some(m[k]) else None
  }

  /** `order.filter((form) => formToShow[form])`. */
  function FilterShown(order: seq<SectionKind>, show: map<SectionKind, bool>): seq<SectionKind>
    decreases |order|
  {
    if order == [] then []
    else (if Shown(show, order[0]) then [order[0]] else []) + FilterShown(order[1..], show)
  }

  ghost predicate NoDuplicates<T>(s: seq<T>) {
    forall i, j :: 0 <= i < j < |s| ==> s[i] != s[j]
  }

  /** The position of the first occurrence of `x` in `s`. */
  function IndexOf<T(==)>(s: seq<T>, x: T): (i: nat)
    requires x in s
    ensures i < |s| && s[i] == x
    ensures forall j :: 0 <= j < i ==> s[j] != x
    decreases |s|
  {
    if s[0] == x then 0 else 1 + IndexOf(s[1..], x)
  }

  /** A kind survives the filter exactly when it is in the order and shown. */
  lemma {:induction false} FilterShownMembers(order: seq<SectionKind>, show: map<SectionKind, bool>, k: SectionKind)
    ensures k in FilterShown(order, show) <==> k in order && Shown(show, k)
    decreases |order|
  {
    if order != [] {
      FilterShownMembers(order[1..], show, k);
      assert order == [order[0]] + order[1..];
    }
  }

  /** The filter keeps only elements of the order, never more of them. */
  lemma {:induction false} FilterShownLength(order: seq<SectionKind>, show: map<SectionKind, bool>)
    ensures |FilterShown(order, show)| <= |order|
    decreases |order|
  {
    if order != [] {
      FilterShownLength(order[1..], show);
    }
  }

  /** The elements of `r` come from `order`, in the order's relative order. */
  ghost predicate InOrderOf(r: seq<SectionKind>, order: seq<SectionKind>) {
    && (forall x :: x in r ==> x in order)
    && (forall i, j :: 0 <= i < j < |r| ==> IndexOf(order, r[i]) < IndexOf(order, r[j]))
  }

  /** With each kind at most once in the order (the settings invariant), each
      shown kind appears once in the result, and the result keeps the order's
      relative order. */
  lemma {:induction false} FilterShownKeepsOrder(order: seq<SectionKind>, show: map<SectionKind, bool>)
    requires NoDuplicates(order)
    ensures NoDuplicates(FilterShown(order, show))
    ensures InOrderOf(FilterShown(order, show), order)
    decreases |order|
  {
    if order != [] {
      var h, t := order[0], order[1..];
      assert NoDuplicates(t) by {
        forall i, j | 0 <= i < j < |t| ensures t[i] != t[j] {
          assert t[i] == order[i + 1] && t[j] == order[j + 1];
        }
      }
      FilterShownKeepsOrder(t, show);
      var rt := FilterShown(t, show);
      assert FilterShown(order, show) == (if Shown(show, h) then [h] else []) + rt;
      assert h !in t by {
        forall j | 0 <= j < |t| ensures t[j] != h {
          assert t[j] == order[j + 1];
        }
      }
      forall x | x in rt ensures x != h && x in order && IndexOf(order, x) == 1 + IndexOf(t, x) {
        FilterShownMembers(t, show, x);
        IndexOfTail(order, x);
      }
      if Shown(show, h) {
        ConsInOrder(h, rt, order, t);
      } else {
        TailInOrder(rt, order, t);
      }
    }
  }

  lemma IndexOfTail(s: seq<SectionKind>, x: SectionKind)
    requires s != [] && x in s[1..] && x != s[0]
    ensures x in s && IndexOf(s, x) == 1 + IndexOf(s[1..], x)
  {
  }

  lemma TailInOrder(rt: seq<SectionKind>, order: seq<SectionKind>, t: seq<SectionKind>)
    requires InOrderOf(rt, t)
    requires forall x :: x in rt ==> x in order && IndexOf(order, x) == 1 + IndexOf(t, x)
    ensures InOrderOf(rt, order)
  {
  }

  lemma ConsInOrder(h: SectionKind, rt: seq<SectionKind>, order: seq<SectionKind>, t: seq<SectionKind>)
    requires order == [h] + t
    requires NoDuplicates(rt) && InOrderOf(rt, t)
    requires forall x :: x in rt ==> x != h && x in order && IndexOf(order, x) == 1 + IndexOf(t, x)
    ensures NoDuplicates([h] + rt) && InOrderOf([h] + rt, order)
  {
    var r := [h] + rt;
    assert h in order && IndexOf(order, h) == 0;
    forall i, j | 0 <= i < j < |r| ensures r[i] != r[j] && IndexOf(order, r[i]) < IndexOf(order, r[j]) {
      ConsPair(h, rt, order, t, i, j);
    }
  }

  lemma ConsPair(h: SectionKind, rt: seq<SectionKind>, order: seq<SectionKind>, t: seq<SectionKind>, i: nat, j: nat)
    requires h in order && IndexOf(order, h) == 0
    requires NoDuplicates(rt) && InOrderOf(rt, t)
    requires forall x :: x in rt ==> x != h && x in order && IndexOf(order, x) == 1 + IndexOf(t, x)
    requires i < j < 1 + |rt|
    ensures ([h] + rt)[i] != ([h] + rt)[j]
    ensures ([h] + rt)[i] in order && ([h] + rt)[j] in order
    ensures IndexOf(order, ([h] + rt)[i]) < IndexOf(order, ([h] + rt)[j])
  {
    var y := rt[j - 1];
    assert ([h] + rt)[j] == y && y in rt;
    if i > 0 {
      var x := rt[i - 1];
      assert ([h] + rt)[i] == x && x in rt;
      assert IndexOf(t, x) < IndexOf(t, y);
    }
  }
}
