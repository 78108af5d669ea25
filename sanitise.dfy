/**
 * HTML tag stripping for user input (api/src/helpers/sanitise.js).
 *
 * `stripHtml` is the global replace of the regular expression `<[^>]*>` by the
 * empty string: scanning left to right, a `<` that has a `>` somewhere after it
 * is deleted together with everything up to and including the first such `>`;
 * a `<` with no `>` after it, and every other character, is kept.
 */
module Sanitise {
  import opened JsString
  /** The JavaScript values a request field can hold, as far as `typeof` and truthiness go. */
  datatype JsValue = Undefined | Null | Bool(b: bool) | Num(n: int) | Str(s: string) | Other

  /** No `<` is followed, anywhere later, by a `>`. */
  predicate TagFree(s: string) {
    forall i, j :: 0 <= i < j < |s| && s[i] == '<' ==> s[j] != '>'
  }

  /** What is left of `s` after its first `>`. */
  function AfterGt(s: string): (r: string)
    requires '>' in s
    ensures |r| < |s| && r == s[|s| - |r|..]
  {
    if s[0] == '>' then s[1..] else AfterGt(s[1..])
  }

  lemma {:induction false} AfterGtOfTag(t: string, b: string)
    requires '>' !in t
    ensures AfterGt(t + ['>'] + b) == b
  {
    var s := t + ['>'] + b;
    if |t| == 0 {
      assert s[0] == '>' && s[1..] == b;
    } else {
      assert s[0] == t[0] && s[1..] == t[1..] + ['>'] + b;
      AfterGtOfTag(t[1..], b);
    }
  }

  /** `s.replace(/<[^>]*>/g, '')`. */
  function StripTags(s: string): (r: string)
    ensures |r| <= |s|
    ensures forall c :: c in r ==> c in s
    ensures TagFree(r)
    decreases |s|
  {
    if |s| == 0 then ""
    else if s[0] == '<' && '>' in s[1..] then StripTags(AfterGt(s[1..]))
    else [s[0]] + StripTags(s[1..])
  }

  /** `stripHtml(input)`: falsy and non-string input give `''`. */
  function StripHtml(input: JsValue): (r: string)
    ensures !input.Str? ==> r == ""
    ensures input.Str? ==> r == StripTags(input.s)
  {
    if input.Str? && input.s != "" then StripTags(input.s) else ""
  }

  /** A string with no `<` comes back unchanged. */
  lemma {:induction false} StripTagsWithoutLt(s: string)
    requires '<' !in s
    ensures StripTags(s) == s
  {
    if |s| > 0 {
      StripTagsWithoutLt(s[1..]);
      assert [s[0]] + s[1..] == s;
    }
  }

  /** A tag-free string (in particular any output of `StripTags`) comes back unchanged. */
  lemma {:induction false} StripTagsOfTagFree(s: string)
    requires TagFree(s)
    ensures StripTags(s) == s
  {
    if |s| > 0 {
      if s[0] == '<' {
        forall k | 0 <= k < |s[1..]| ensures s[1..][k] != '>' {
          assert s[k + 1] == s[1..][k];
        }
      }
      assert TagFree(s[1..]) by {
        forall i, j | 0 <= i < j < |s[1..]| && s[1..][i] == '<' ensures s[1..][j] != '>' {
          assert s[1..][i] == s[i + 1] && s[1..][j] == s[j + 1];
        }
      }
      StripTagsOfTagFree(s[1..]);
      assert [s[0]] + s[1..] == s;
    }
  }

  lemma StripTagsIdempotent(s: string)
    ensures StripTags(StripTags(s)) == StripTags(s)
  {
    StripTagsOfTagFree(StripTags(s));
  }

  /** A leading tag is deleted, from its `<` to its first `>`. */
  lemma StripTagsOfLeadingTag(t: string, b: string)
    requires '>' !in t
    ensures StripTags(['<'] + t + ['>'] + b) == StripTags(b)
  {
    var s := ['<'] + t + ['>'] + b;
    var rest := t + ['>'] + b;
    assert s[0] == '<' && s[1..] == rest;
    assert rest[|t|] == '>';
    AfterGtOfTag(t, b);
  }

  /** A `<`-free prefix is kept as it is. */
  lemma {:induction false} StripTagsOfPlainPrefix(a: string, x: string)
    requires '<' !in a
    ensures StripTags(a + x) == a + StripTags(x)
  {
    if |a| == 0 {
      assert a + x == x;
    } else {
      var s := a + x;
      assert a[0] in a;
      assert s[0] == a[0] && s[1..] == a[1..] + x;
      assert '<' !in a[1..] by {
        forall k | 0 <= k < |a[1..]| ensures a[1..][k] != '<' { assert a[1..][k] in a; }
      }
      StripTagsOfPlainPrefix(a[1..], x);
      assert [a[0]] + a[1..] == a;
    }
  }

  /**
   * The first tag after a `<`-free prefix is deleted, from its `<` to its first `>`,
   * and the text around it is kept in order.
   */
  lemma StripTagsAtTag(a: string, t: string, b: string)
    requires '<' !in a && '>' !in t
    ensures StripTags(a + ['<'] + t + ['>'] + b) == a + StripTags(b)
  {
    var x := ['<'] + t + ['>'] + b;
    assert a + ['<'] + t + ['>'] + b == a + x;
    StripTagsOfPlainPrefix(a, x);
    StripTagsOfLeadingTag(t, b);
  }

  lemma TagFreeSlice(s: string, lo: nat, hi: nat)
    requires TagFree(s) && lo <= hi <= |s|
    ensures TagFree(s[lo..hi])
  {
    var v := s[lo..hi];
    forall i, j | 0 <= i < j < |v| && v[i] == '<' ensures v[j] != '>' {
      assert v[i] == s[lo + i] && v[j] == s[lo + j];
    }
  }

  /** Trimming cuts a piece out of the text, so it cannot create a tag. */
  lemma TagFreeTrim(s: string)
    requires TagFree(s)
    ensures TagFree(Trim(s))
  {
    var v := TrimStart(s);
    TagFreeSlice(s, |s| - |v|, |s|);
    var u := TrimEnd(v);
    TagFreeSlice(v, 0, |u|);
  }

  /**
   * `stripHtml(x).trim()`, how the chapter application and the chapter editor
   * store free text: the result holds no tag.
   */
  function Clean(s: string): (r: string)
    ensures TagFree(r)
  {
    TagFreeTrim(StripTags(s));
    Trim(StripTags(s))
  }

  /** Every field of `obj` with the listed string fields stripped: the result of `sanitiseFields`. */
  ghost predicate IsSanitised(result: map<string, JsValue>, obj: map<string, JsValue>, fields: seq<string>) {
    && result.Keys == obj.Keys
    && forall k :: k in obj ==>
        result[k] == if k in fields && obj[k].Str? then Str(StripTags(obj[k].s)) else obj[k]
  }

  /** Stripping one more listed field keeps the copy sanitised; a field listed twice is stripped again to no effect. */
  lemma SanitisedStep(result: map<string, JsValue>, obj: map<string, JsValue>, done: seq<string>, field: string,
    next: map<string, JsValue>)
    requires IsSanitised(result, obj, done)
    requires next == if field in result && result[field].Str? then result[field := Str(StripHtml(result[field]))] else result
    ensures IsSanitised(next, obj, done + [field])
  {
    if field in obj && obj[field].Str? {
      StripTagsIdempotent(obj[field].s);
    }
    forall k | k in obj
      ensures next[k] == if k in done + [field] && obj[k].Str? then Str(StripTags(obj[k].s)) else obj[k]
    {
      assert k in done + [field] <==> k in done || k == field;
    }
  }

  /**
   * `sanitiseFields(obj, fields)`: a copy of `obj` in which each listed field that
   * holds a string is replaced by its stripped text. The input map is a value, so
   * it is left as it was.
   */
  method SanitiseFields(obj: map<string, JsValue>, fields: seq<string>) returns (result: map<string, JsValue>)
    ensures result.Keys == obj.Keys
    ensures forall k :: k in obj && k in fields && obj[k].Str? ==> result[k] == Str(StripTags(obj[k].s))
    ensures forall k :: k in obj && !(k in fields && obj[k].Str?) ==> result[k] == obj[k]
  {
    result := obj;
    var i := 0;
    while i < |fields|
      invariant 0 <= i <= |fields|
      invariant IsSanitised(result, obj, fields[..i])
    {
      var field := fields[i];
      var next := result;
      if field in result && result[field].Str? {
        next := result[field := Str(StripHtml(result[field]))];
      }
      SanitisedStep(result, obj, fields[..i], field, next);
      assert fields[..i + 1] == fields[..i] + [field];
      result := next;
      i := i + 1;
    }
    assert fields[..i] == fields;
  }
}
