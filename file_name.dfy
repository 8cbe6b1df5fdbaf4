/** The name under which the PDF templates save their download:
    `${name?.trim() ? name.replace(/[^a-zA-Z0-9]/g, '_') : 'resume'}` followed by
    the template's suffix. */
module FileName {
  import opened Js

  /** A character of the class `[a-zA-Z0-9]`. */
  predicate IsAsciiAlnum(c: char) {
    ('a' <= c <= 'z') || ('A' <= c <= 'Z') || ('0' <= c <= '9')
  }

  /** `name.replace(/[^a-zA-Z0-9]/g, '_')`: every character outside the class
      becomes one underscore. */
  function Sanitize(s: string): string
    decreases |s|
  {
    if s == [] then [] else [if IsAsciiAlnum(s[0]) then s[0] else '_'] + Sanitize(s[1..])
  }

  /** The replacement works one for one: same length, letters and digits kept
      in place, every other character turned into `_`. */
  lemma {:induction false} SanitizeCharwise(s: string)
    ensures |Sanitize(s)| == |s|
    ensures forall i :: 0 <= i < |s| ==> Sanitize(s)[i] == if IsAsciiAlnum(s[i]) then s[i] else '_'
    decreases |s|
  {
    if s != [] {
      SanitizeCharwise(s[1..]);
      forall i | 0 <= i < |s|
        ensures Sanitize(s)[i] == if IsAsciiAlnum(s[i]) then s[i] else '_'
      {
        if i > 0 {
          assert Sanitize(s)[i] == Sanitize(s[1..])[i - 1];
        }
      }
    }
  }

  /** Every character of a sanitised name is a letter, a digit or `_`. */
  ghost predicate SafeName(s: string) {
    forall i :: 0 <= i < |s| ==> IsAsciiAlnum(s[i]) || s[i] == '_'
  }

  lemma SanitizeSafe(s: string)
    ensures SafeName(Sanitize(s))
  {
    SanitizeCharwise(s);
  }

  /** A name already made of letters, digits and `_` is left as it is, so
      sanitising twice changes nothing. */
  lemma SanitizeIdempotent(s: string)
    ensures SafeName(s) ==> Sanitize(s) == s
    ensures Sanitize(Sanitize(s)) == Sanitize(s)
  {
    SanitizeCharwise(s);
    SanitizeSafe(s);
    SanitizeCharwise(Sanitize(s));
  }

  const FallbackName: string := "resume"

  /** The part before the suffix: the sanitised raw name (not the trimmed one)
      when the trimmed name is not empty, `resume` otherwise. */
  function BaseName(name: string): string {
    if Trim(name) != "" then Sanitize(name) else FallbackName
  }

  /** The name given to `link.download`. */
  function DownloadName(name: string, suffix: string): string {
    BaseName(name) + suffix
  }

  /** A name of white space only (or the empty name) is saved as `resume`;
      any other name keeps its length, with each character outside
      `[a-zA-Z0-9]` replaced by `_`; the suffix always ends the name, and the
      base never holds anything but letters, digits and `_`. */
  lemma DownloadNameSpec(name: string, suffix: string)
    ensures var r := DownloadName(name, suffix); var b := BaseName(name);
      && r == b + suffix
      && SafeName(b)
      && (AllSpace(name) ==> b == FallbackName)
      && (!AllSpace(name) ==> |b| == |name|)
      && (!AllSpace(name) ==> forall i :: 0 <= i < |name| ==> b[i] == if IsAsciiAlnum(name[i]) then name[i] else '_')
  {
    TrimEmptyIff(name);
    SanitizeCharwise(name);
    SanitizeSafe(name);
    assert SafeName(FallbackName);
  }

  /** "Jane Q. Public!" has four characters outside the class (two spaces,
      "." and "!"), each of which becomes its own `_`. */
  lemma JaneSanitized(name: string)
    requires name == "Jane Q. Public!"
    ensures Sanitize(name) == "Jane_Q__Public_"
  {
    SanitizeCharwise(name);
  }

  /** ... and the name is saved as "Jane_Q__Public_-template-B.pdf". */
  lemma JaneExample(name: string, suffix: string)
    requires name == "Jane Q. Public!" && suffix == "-template-B.pdf"
    ensures DownloadName(name, suffix) == "Jane_Q__Public_" + suffix
  {
    assert !AllSpace(name) by {
      assert !IsJsSpace(name[0]);
    }
    TrimEmptyIff(name);
    JaneSanitized(name);
  }

  /** The names "   " and "" are both saved under the fallback. */
  lemma BlankNameExample()
    ensures DownloadName("   ", "-template-C.pdf") == "resume-template-C.pdf"
    ensures DownloadName("", "-template-C.pdf") == "resume-template-C.pdf"
  {
    assert AllSpace("   ");
    TrimEmptyIff("   ");
  }
}
