/**
 * The two input checks shared by the chapter application and the contact form
 * (api/src/functions/chapterApplication.js, api/src/functions/contactForm.js):
 * the e-mail pattern `^[^\s@]+@[^\s@]+\.[^\s@]+$` and the LinkedIn pattern
 * `^https?:\/\/(www\.)?linkedin\.com\/` with the `i` flag.
 *
 * Each is given twice: as the check the handlers run, and as a reading of the
 * regular expression, with a lemma that the two agree on every string.
 */
module Validators {
  import opened Wrappers
  import opened JsString

  /** A character of the class `[^\s@]`. */
  predicate Plain(c: char) {
    !IsSpace(c) && c != '@'
  }

  predicate NoSpace(s: string) {
    forall k :: 0 <= k < |s| ==> !IsSpace(s[k])
  }

  /** The position of the first `c` in `s`. */
  function IndexOf(s: string, c: char): (i: nat)
    requires c in s
    ensures i < |s| && s[i] == c && c !in s[..i]
  {
    if s[0] == c then 0
    else
      var i := IndexOf(s[1..], c);
      assert s[..i + 1] == [s[0]] + s[1..][..i];
      i + 1
  }

  /** A `.` somewhere strictly inside `domain`. */
  predicate DotInside(domain: string) {
    |domain| >= 3 && '.' in domain[1..|domain| - 1]
  }

  /**
   * The e-mail check: exactly one `@`, no white space, a non-empty part before
   * the `@` and a `.` that is neither the first nor the last character after it.
   */
  predicate IsValidEmail(s: string) {
    var parts := Split(s, '@');
    |parts| == 2 && NoSpace(s) && parts[0] != "" && DotInside(parts[1])
  }

  /**
   * What the regular expression matches: an `@` at `i` and a `.` at `j`, with at
   * least one character before `i`, between them and after `j`, and every other
   * character in `[^\s@]` (so the `.` at `j` is one of the class's characters).
   */
  ghost predicate MatchesEmailPattern(s: string) {
    exists i, j :: 0 < i && i + 1 < j && j + 1 < |s| && s[i] == '@' && s[j] == '.'
      && (forall k :: 0 <= k < |s| && k != i ==> Plain(s[k]))
  }

  /** A separator occurring in `t` splits it into at least two pieces. */
  lemma SplitHasMore(t: string, sep: char)
    requires sep in t
    ensures |Split(t, sep)| >= 2
  {
    var i := IndexOf(t, sep);
    assert t == t[..i] + [sep] + t[i + 1..];
    SplitAtFirstSep(t[..i], t[i + 1..], sep);
  }

  /** With a single separator at `i`, the pieces are the text before and after it. */
  lemma SplitAtOnly(s: string, sep: char, i: nat)
    requires i < |s| && s[i] == sep && sep !in s[..i] && sep !in s[i + 1..]
    ensures Split(s, sep) == [s[..i], s[i + 1..]]
  {
    assert s == s[..i] + [sep] + s[i + 1..];
    SplitAtFirstSep(s[..i], s[i + 1..], sep);
    SplitWithoutSep(s[i + 1..], sep);
  }

  lemma PatternImpliesValid(s: string, i: int, j: int)
    requires 0 < i && i + 1 < j && j + 1 < |s| && s[i] == '@' && s[j] == '.'
    requires forall k :: 0 <= k < |s| && k != i ==> Plain(s[k])
    ensures IsValidEmail(s)
  {
    assert '@' !in s[..i] by {
      forall k | 0 <= k < i ensures s[..i][k] != '@' {
        assert s[..i][k] == s[k];
      }
    }
    var d := s[i + 1..];
    assert '@' !in d by {
      forall k | 0 <= k < |d| ensures d[k] != '@' {
        assert d[k] == s[i + 1 + k];
      }
    }
    SplitAtOnly(s, '@', i);
    assert d[1..|d| - 1][j - i - 2] == s[j];
  }

  /** A string that splits into exactly two pieces on `sep` has a single `sep`, between them. */
  lemma TwoPieces(s: string, sep: char) returns (i: nat)
    requires |Split(s, sep)| == 2
    ensures i < |s| && s[i] == sep && sep !in s[..i] && sep !in s[i + 1..]
    ensures Split(s, sep) == [s[..i], s[i + 1..]]
  {
    if sep !in s {
      SplitWithoutSep(s, sep);
      assert false;
    }
    i := IndexOf(s, sep);
    var rest := s[i + 1..];
    assert s == s[..i] + [sep] + rest;
    SplitAtFirstSep(s[..i], rest, sep);
    if sep in rest {
      SplitHasMore(rest, sep);
      assert false;
    }
    SplitWithoutSep(rest, sep);
  }

  lemma ValidImpliesPattern(s: string)
    requires IsValidEmail(s)
    ensures MatchesEmailPattern(s)
  {
    var i := TwoPieces(s, '@');
    var rest := s[i + 1..];
    var m :| 0 <= m < |rest[1..|rest| - 1]| && rest[1..|rest| - 1][m] == '.';
    var j := i + 2 + m;
    assert s[j] == rest[1..|rest| - 1][m];
    forall k | 0 <= k < |s| && k != i ensures Plain(s[k]) {
      if k < i {
        assert s[k] == s[..i][k];
      } else {
        assert s[k] == rest[k - i - 1];
      }
    }
  }

  /** The check the handlers run accepts exactly the strings the regular expression matches. */
  lemma EmailCheckIsPattern(s: string)
    ensures IsValidEmail(s) <==> MatchesEmailPattern(s)
  {
    if IsValidEmail(s) {
      ValidImpliesPattern(s);
    }
    if MatchesEmailPattern(s) {
      var i, j :| 0 < i && i + 1 < j && j + 1 < |s| && s[i] == '@' && s[j] == '.'
        && (forall k :: 0 <= k < |s| && k != i ==> Plain(s[k]));
      PatternImpliesValid(s, i, j);
    }
  }

  // ─── LinkedIn ───

  const Http := "http://"
  const Https := "https://"
  const Www := "www."
  const Host := "linkedin.com/"

  /** What follows `http://` or `https://` at the start of the lower-cased URL. */
  function AfterScheme(u: string): Option<string> {
    if Https <= u then Some(u[|Https|..]) else if Http <= u then Some(u[|Http|..]) else None
  }

  function AfterWww(h: string): string {
    if Www <= h then h[|Www|..] else h
  }

  /**
   * The LinkedIn check: ignoring ASCII case, the URL starts with a scheme, an
   * optional `www.`, then `linkedin.com/`; whatever follows is not examined.
   */
  predicate IsLinkedInUrl(url: string) {
    var rest := AfterScheme(Lower(url));
    rest.Some? && Host <= AfterWww(rest.value)
  }

  /** The four prefixes the regular expression admits. */
  const LinkedInPrefixes: seq<string> := [Http + Host, Http + Www + Host, Https + Host, Https + Www + Host]

  lemma PrefixConcat(a: string, b: string, u: string)
    ensures a + b <= u <==> a <= u && b <= u[|a|..]
  {
    if a + b <= u {
      assert u[..|a|] == (a + b)[..|a|] == a;
      assert u[|a|..][..|b|] == u[|a|..|a| + |b|] == (a + b)[|a|..] == b;
    }
    if a <= u && b <= u[|a|..] {
      assert u[..|a| + |b|] == u[..|a|] + u[|a|..][..|b|];
    }
  }

  /** After a scheme, the optional `www.` and the host read as the two prefixes that start with it. */
  lemma AfterSchemeHost(u: string, scheme: string)
    requires scheme <= u
    ensures Host <= AfterWww(u[|scheme|..]) <==> scheme + Host <= u || scheme + Www + Host <= u
  {
    var h := u[|scheme|..];
    PrefixConcat(scheme, Host, u);
    PrefixConcat(scheme, Www + Host, u);
    PrefixConcat(Www, Host, h);
    assert scheme + Www + Host == scheme + (Www + Host);
    assert Www[0] == 'w' && Host[0] == 'l';
  }

  /** Starting with a prefix that begins `http://`, the URL does not begin `https://`. */
  lemma NotHttps(u: string, rest: string)
    requires Http + rest <= u
    ensures !(Https <= u)
  {
    PrefixConcat(Http, rest, u);
    assert Https[4] == 's' && Http[4] == ':';
  }

  lemma LinkedInToPattern(url: string)
    requires IsLinkedInUrl(url)
    ensures exists p :: p in LinkedInPrefixes && p <= Lower(url)
  {
    var u := Lower(url);
    var ps := LinkedInPrefixes;
    if Https <= u {
      AfterSchemeHost(u, Https);
      if Https + Host <= u {
        assert ps[2] in ps;
      } else {
        assert ps[3] in ps;
      }
    } else {
      AfterSchemeHost(u, Http);
      if Http + Host <= u {
        assert ps[0] in ps;
      } else {
        assert ps[1] in ps;
      }
    }
  }

  lemma PatternToLinkedIn(url: string, p: string)
    requires p in LinkedInPrefixes && p <= Lower(url)
    ensures IsLinkedInUrl(url)
  {
    var u := Lower(url);
    var ps := LinkedInPrefixes;
    assert p == ps[0] || p == ps[1] || p == ps[2] || p == ps[3];
    if p == ps[0] || p == ps[1] {
      assert Http + Www + Host == Http + (Www + Host);
      if p == ps[0] {
        PrefixConcat(Http, Host, u);
        NotHttps(u, Host);
      } else {
        PrefixConcat(Http, Www + Host, u);
        NotHttps(u, Www + Host);
      }
      AfterSchemeHost(u, Http);
    } else {
      assert Https + Www + Host == Https + (Www + Host);
      if p == ps[2] {
        PrefixConcat(Https, Host, u);
      } else {
        PrefixConcat(Https, Www + Host, u);
      }
      AfterSchemeHost(u, Https);
    }
  }

  /** The URL passes iff its lower-cased form starts with one of the four prefixes. */
  lemma LinkedInCheckIsPattern(url: string)
    ensures IsLinkedInUrl(url) <==> exists p :: p in LinkedInPrefixes && p <= Lower(url)
  {
    if IsLinkedInUrl(url) {
      LinkedInToPattern(url);
    }
    if exists p :: p in LinkedInPrefixes && p <= Lower(url) {
      var p :| p in LinkedInPrefixes && p <= Lower(url);
      PatternToLinkedIn(url, p);
    }
  }
}
