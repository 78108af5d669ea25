/**
 * The URL slugs derived from free text: the event slug of
 * api/src/functions/createEvent.js and the city slug of
 * api/src/functions/chapterApproval.js. Both lower-case the text, delete every
 * character outside `[a-z0-9\s-]`, turn each run of white space into one `-` and
 * each run of `-` into one `-`; the event slug is then cut to 80 characters, the
 * city slug is trimmed.
 */
module Slug {
  import opened JsString

  /** The characters a finished slug is made of. */
  predicate SlugChar(c: char) {
    ('a' <= c <= 'z') || IsDigit(c) || c == '-'
  }

  /** The characters `[a-z0-9\s-]` keeps. */
  predicate Kept(c: char) {
    ('a' <= c <= 'z') || IsDigit(c) || IsSpace(c) || c == '-'
  }

  /** No two `-` are adjacent. */
  predicate NoDoubleDash(s: string) {
    forall i :: 0 <= i < |s| - 1 ==> !(s[i] == '-' && s[i + 1] == '-')
  }

  /** `s.replace(/[^a-z0-9\s-]/g, '')`. */
  function KeepSlugChars(s: string): (r: string)
    ensures forall c :: c in r ==> c in s && Kept(c)
  {
    if |s| == 0 then "" else (if Kept(s[0]) then [s[0]] else "") + KeepSlugChars(s[1..])
  }

  /** `s.replace(/\s+/g, '-')`. */
  function DashSpaces(s: string): (r: string)
    ensures forall c :: c in r ==> (c in s && !IsSpace(c)) || c == '-'
    decreases |s|
  {
    if |s| == 0 then ""
    else if IsSpace(s[0]) then "-" + DashSpaces(TrimStart(s[1..]))
    else [s[0]] + DashSpaces(s[1..])
  }

  /** `s` without its leading run of `-`. */
  function DropDashes(s: string): (r: string)
    ensures |r| <= |s| && r == s[|s| - |r|..]
    ensures |r| > 0 ==> r[0] != '-'
  {
    if |s| > 0 && s[0] == '-' then DropDashes(s[1..]) else s
  }

  /** `s.replace(/-+/g, '-')`. */
  function CollapseDashes(s: string): (r: string)
    ensures forall c :: c in r ==> c in s
    ensures |s| > 0 ==> |r| > 0 && r[0] == s[0]
    ensures |s| == 0 ==> r == ""
    ensures NoDoubleDash(r)
    decreases |s|
  {
    if |s| == 0 then ""
    else if s[0] == '-' then "-" + CollapseDashes(DropDashes(s[1..]))
    else [s[0]] + CollapseDashes(s[1..])
  }

  /** `s.substring(0, n)`. */
  function Prefix(s: string, n: nat): (r: string)
    ensures |r| <= n && r <= s
  {
    if |s| <= n then s else s[..n]
  }

  /** Text made only of kept characters passes the filter unchanged. */
  lemma {:induction false} KeepSlugCharsOfKept(s: string)
    requires forall c :: c in s ==> Kept(c)
    ensures KeepSlugChars(s) == s
  {
    if |s| > 0 {
      assert forall c :: c in s[1..] ==> c in s;
      KeepSlugCharsOfKept(s[1..]);
    }
  }

  /** Text without white space passes the dash step unchanged. */
  lemma {:induction false} DashSpacesOfUnspaced(s: string)
    requires forall c :: c in s ==> !IsSpace(c)
    ensures DashSpaces(s) == s
    decreases |s|
  {
    if |s| > 0 {
      assert s[0] in s && forall c :: c in s[1..] ==> c in s;
      DashSpacesOfUnspaced(s[1..]);
    }
  }

  /** Text with no `--` passes the collapse step unchanged. */
  lemma {:induction false} CollapseDashesOfSingle(s: string)
    requires NoDoubleDash(s)
    ensures CollapseDashes(s) == s
    decreases |s|
  {
    if |s| > 0 {
      var t := s[1..];
      assert NoDoubleDash(t) by {
        forall i | 0 <= i < |t| - 1 ensures !(t[i] == '-' && t[i + 1] == '-') {
          assert t[i] == s[i + 1] && t[i + 1] == s[i + 2];
        }
      }
      if s[0] == '-' && |t| > 0 {
        assert t[0] == s[1];
      }
      CollapseDashesOfSingle(t);
    }
  }

  /** A finished slug is its own slug text: every step of the pipeline leaves it alone. */
  lemma SlugBodyOfSlug(s: string)
    requires forall c :: c in s ==> SlugChar(c)
    requires NoDoubleDash(s)
    ensures SlugBody(s) == s
  {
    assert Lower(s) == s by {
      forall i | 0 <= i < |s| ensures Lower(s)[i] == s[i] {
        assert SlugChar(s[i]);
      }
    }
    assert forall c :: c in s ==> Kept(c);
    KeepSlugCharsOfKept(s);
    forall c | c in s ensures !IsSpace(c) {
      assert SlugChar(c);
    }
    DashSpacesOfUnspaced(s);
    CollapseDashesOfSingle(s);
  }

  /** The text the two slugs share before cutting or trimming. */
  function SlugBody(text: string): string {
    CollapseDashes(DashSpaces(KeepSlugChars(Lower(text))))
  }

  /** The slug of an event title (createEvent.js). */
  function EventSlug(title: string): string {
    Prefix(SlugBody(title), 80)
  }

  /** The slug of a chapter's city (chapterApproval.js). */
  function CitySlug(city: string): string {
    Trim(SlugBody(city))
  }

  lemma SlugBodyWellFormed(text: string)
    ensures forall c :: c in SlugBody(text) ==> SlugChar(c)
    ensures NoDoubleDash(SlugBody(text))
  {
    var kept := KeepSlugChars(Lower(text));
    var dashed := DashSpaces(kept);
    forall c | c in SlugBody(text) ensures SlugChar(c) {
      assert c in dashed;
      if c != '-' {
        assert c in kept;
      }
    }
  }

  /** The event slug is made of a-z, 0-9 and `-`, has no `--`, and is at most 80 long. */
  lemma EventSlugWellFormed(title: string)
    ensures forall c :: c in EventSlug(title) ==> SlugChar(c)
    ensures NoDoubleDash(EventSlug(title))
    ensures |EventSlug(title)| <= 80
  {
    SlugBodyWellFormed(title);
    var body := SlugBody(title);
    var slug := EventSlug(title);
    forall c | c in slug ensures SlugChar(c) {
      var i :| 0 <= i < |slug| && slug[i] == c;
      assert body[i] == c;
    }
    forall i | 0 <= i < |slug| - 1 ensures !(slug[i] == '-' && slug[i + 1] == '-') {
      assert slug[i] == body[i] && slug[i + 1] == body[i + 1];
    }
  }

  /**
   * The trailing `.trim()` of the city slug changes nothing: no white space is
   * left after the white-space runs became `-`.
   */
  lemma CitySlugIsSlugBody(city: string)
    ensures CitySlug(city) == SlugBody(city)
  {
    var body := SlugBody(city);
    SlugBodyWellFormed(city);
    if |body| > 0 {
      assert body[0] in body && body[|body| - 1] in body;
    }
    TrimOfUnpadded(body);
  }

  /** The city slug is made of a-z, 0-9 and `-`, with no `--`. */
  lemma CitySlugWellFormed(city: string)
    ensures forall c :: c in CitySlug(city) ==> SlugChar(c)
    ensures NoDoubleDash(CitySlug(city))
  {
    CitySlugIsSlugBody(city);
    SlugBodyWellFormed(city);
  }

  /** The event slug of a text is its city slug cut to 80 characters. */
  lemma EventSlugIsCutCitySlug(text: string)
    ensures EventSlug(text) == Prefix(CitySlug(text), 80)
  {
    CitySlugIsSlugBody(text);
  }

  /** Taking the event slug of an event slug gives it back. */
  lemma EventSlugIdempotent(title: string)
    ensures EventSlug(EventSlug(title)) == EventSlug(title)
  {
    EventSlugWellFormed(title);
    SlugBodyOfSlug(EventSlug(title));
  }
}
