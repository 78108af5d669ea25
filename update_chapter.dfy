/**
 * POST /api/updateChapter (api/src/functions/updateChapter.js): an administrator
 * replaces a chapter's leads. The leads are checked, sanitised and written to
 * the approved application as `leadsJson`; then, when GitHub is configured, the
 * chapter page (`buildChapterMarkdown`) is rebuilt and written. JSON encoding,
 * the md5 of an e-mail and the GitHub calls are parameters.
 */
module UpdateChapter {
  import opened Wrappers
  import opened Http
  import opened Auth
  import opened JsString
  import opened Tables
  import opened Sanitise
  import opened TableStorage

  /** One lead as the form sends it or as it is stored; a missing member is `""`. */
  datatype Lead = Lead(name: string, email: string, github: string, linkedin: string, twitter: string, website: string)

  /** The request body; `leads` is None when it is not an array. */
  datatype UpdateBody = UpdateBody(chapterSlug: string, leads: Option<seq<Lead>>)

  datatype LeadSummary = LeadSummary(name: string, email: string)
  datatype Updated = Updated(leads: seq<LeadSummary>, pageUpdated: bool)

  /** What became of the page rewrite: no GitHub configuration, a call that threw, or the file written. */
  datatype PageWrite = NotConfigured | Failed | Written

  const MaxLeads := 4

  predicate Complete(l: Lead) {
    l.name != "" && l.email != ""
  }

  /** The position of the first lead without a name or an e-mail. */
  function FirstIncomplete(leads: seq<Lead>): (r: Option<nat>)
    ensures r.Some? ==> (r.value < |leads| && !Complete(leads[r.value])
      && forall k :: 0 <= k < r.value ==> Complete(leads[k]))
    ensures r.None? <==> forall k :: 0 <= k < |leads| ==> Complete(leads[k])
  {
    if |leads| == 0 then None
    else if !Complete(leads[0]) then Some(0)
    else
      var rest := FirstIncomplete(leads[1..]);
      assert forall k :: 1 <= k < |leads| ==> leads[k] == leads[1..][k - 1];
      if rest.None? then None else Some(rest.value + 1)
  }

  /** The validation loop over the leads. */
  method FindIncomplete(leads: seq<Lead>) returns (r: Option<nat>)
    ensures r == FirstIncomplete(leads)
  {
    var i := 0;
    while i < |leads|
      invariant 0 <= i <= |leads|
      invariant forall k :: 0 <= k < i ==> Complete(leads[k])
    {
      if !Complete(leads[i]) {
        return Some(i);
      }
      i := i + 1;
    }
    return None;
  }

  /** `Lead ${i + 1}: name and email are required`. */
  function IncompleteMessage(i: nat): string {
    "Lead " + NatToString(i + 1) + ": name and email are required"
  }

  /** One lead after sanitising; the e-mail is also lower-cased. */
  function SanitiseLead(l: Lead): (r: Lead)
    ensures r.name == Clean(l.name) && r.email == Lower(Clean(l.email))
    ensures TagFree(r.github) && TagFree(r.linkedin) && TagFree(r.twitter) && TagFree(r.website)
  {
    Lead(Clean(l.name), Lower(Clean(l.email)), Clean(l.github), Clean(l.linkedin), Clean(l.twitter), Clean(l.website))
  }

  /** `leads.map(lead => …)`. */
  function SanitiseLeads(leads: seq<Lead>): (r: seq<Lead>)
    ensures |r| == |leads| && forall k :: 0 <= k < |leads| ==> r[k] == SanitiseLead(leads[k])
  {
    seq(|leads|, k requires 0 <= k < |leads| => SanitiseLead(leads[k]))
  }

  lemma CleanIdempotent(s: string)
    ensures Clean(Clean(s)) == Clean(s)
  {
    StripTagsOfTagFree(Clean(s));
    TrimIdempotent(StripTags(s));
  }

  /** The stored e-mail is a fixed point of its own sanitising. */
  lemma CleanEmailIdempotent(email: string)
    ensures Lower(Clean(Lower(Clean(email)))) == Lower(Clean(email))
  {
    var e := Clean(email);
    LowerKeepsTagFree(e);
    StripTagsOfTagFree(Lower(e));
    assert Clean(Lower(e)) == Trim(Lower(e));
    LowerTrimCommute(e);
    TrimIdempotent(StripTags(email));
    assert Trim(Lower(e)) == Lower(e);
    LowerIdempotent(e);
  }

  /** Sanitising a sanitised lead changes nothing. */
  lemma SanitiseLeadIdempotent(l: Lead)
    ensures SanitiseLead(SanitiseLead(l)) == SanitiseLead(l)
  {
    CleanIdempotent(l.name);
    CleanEmailIdempotent(l.email);
    CleanIdempotent(l.github);
    CleanIdempotent(l.linkedin);
    CleanIdempotent(l.twitter);
    CleanIdempotent(l.website);
  }

  /** ASCII lower-casing never turns a character into `<` or `>`. */
  lemma LowerKeepsTagFree(s: string)
    requires TagFree(s)
    ensures TagFree(Lower(s))
  {
    var t := Lower(s);
    forall i, j | 0 <= i < j < |t| && t[i] == '<' ensures t[j] != '>' {
      assert t[i] == LowerChar(s[i]) && t[j] == LowerChar(s[j]);
    }
  }

  function Summaries(leads: seq<Lead>): (r: seq<LeadSummary>)
    ensures |r| == |leads| && forall k :: 0 <= k < |leads| ==> r[k] == LeadSummary(leads[k].name, leads[k].email)
  {
    seq(|leads|, k requires 0 <= k < |leads| => LeadSummary(leads[k].name, leads[k].email))
  }

  datatype Screened = Refuse(reply: Reply<Updated>) | Admit(chapterSlug: string, leads: seq<Lead>)

  const NotLeadMessage := "Only chapter leads can edit chapter details"
  const MissingMessage := "Missing chapterSlug or leads array"
  const TooManyMessage := "Maximum 4 leads allowed"

  /** The body names a chapter and carries a non-empty leads array. */
  predicate HasSlugAndLeads(b: UpdateBody) {
    b.chapterSlug != "" && b.leads.Some? && |b.leads.value| > 0
  }

  /** The checks before the application lookup. */
  function Screen(user: Option<User>, body: Option<UpdateBody>): (s: Screened)
    ensures user.None? <==> s.Refuse? && s.reply.status == 401
    ensures user.Some? && !HasRole(user, "admin") <==> s == Refuse(Forbidden(NotLeadMessage))
    ensures HasRole(user, "admin") ==> (body.None? <==> s == Refuse(Fail(400, InvalidJson)))
    ensures HasRole(user, "admin") && body.Some? ==>
      (!HasSlugAndLeads(body.value) <==> s == Refuse(Fail(400, MissingMessage)))
    ensures HasRole(user, "admin") && body.Some? && HasSlugAndLeads(body.value) ==>
      (|body.value.leads.value| > MaxLeads <==> s == Refuse(Fail(400, TooManyMessage)))
    ensures s.Refuse? ==> s.reply.status in {400, 401, 403} && s.reply.data.None?
    ensures s.Admit? <==>
      && HasRole(user, "admin") && body.Some? && body.value.chapterSlug != "" && body.value.leads.Some?
      && 0 < |body.value.leads.value| <= MaxLeads
      && forall k :: 0 <= k < |body.value.leads.value| ==> Complete(body.value.leads.value[k])
    ensures s.Admit? ==> body.Some? && s == Admit(body.value.chapterSlug, body.value.leads.value)
    ensures (s.Refuse? && body.Some? && body.value.leads.Some? && HasRole(user, "admin")
      && body.value.chapterSlug != "" && 0 < |body.value.leads.value| <= MaxLeads) ==>
      var i := FirstIncomplete(body.value.leads.value);
      i.Some? && s.reply == Fail(400, IncompleteMessage(i.value))
  {
    if user.None? then Refuse(Unauthorised(""))
    else if !HasRole(user, "admin") then Refuse(Forbidden(NotLeadMessage))
    else if body.None? then Refuse(Fail(400, InvalidJson))
    else
      var b := body.value;
      if !HasSlugAndLeads(b) then Refuse(Fail(400, MissingMessage))
      else if |b.leads.value| > MaxLeads then Refuse(Fail(400, TooManyMessage))
      else
        var i := FirstIncomplete(b.leads.value);
        if i.Some? then Refuse(Fail(400, IncompleteMessage(i.value)))
        else Admit(b.chapterSlug, b.leads.value)
  }

  // ─── The chapter page ───

  /** Lines each written with a closing `\n`, as the builder concatenates them. */
  function Text(lines: seq<string>): string {
    if |lines| == 0 then "" else lines[0] + "\n" + Text(lines[1..])
  }

  lemma {:induction false} TextAppend(a: seq<string>, b: seq<string>)
    ensures Text(a + b) == Text(a) + Text(b)
  {
    if |a| > 0 {
      assert (a + b)[0] == a[0] && (a + b)[1..] == a[1..] + b;
      TextAppend(a[1..], b);
    } else {
      assert a + b == b;
    }
  }

  lemma TextSnoc(lines: seq<string>, line: string)
    ensures Text(lines + [line]) == Text(lines) + line + "\n"
  {
    TextAppend(lines, [line]);
    assert Text([line]) == line + "\n" + Text([]);
  }

  /** Newline-terminated lines are their join with one more, empty, line. */
  lemma {:induction false} TextIsJoin(lines: seq<string>)
    ensures Text(lines) == Join(lines + [""], "\n")
  {
    if |lines| > 0 {
      TextIsJoin(lines[1..]);
      assert (lines + [""])[0] == lines[0] && (lines + [""])[1..] == lines[1..] + [""];
    }
  }

  function Quoted(key: string, value: string): string {
    key + ": \"" + value + "\""
  }

  const Fence := "---"

  /**
   * The front matter before the leads. The title literal is written in two
   * pieces so that its lack of a line break is within the verifier's reach.
   */
  function HeaderLines(city: string, country: string, channelId: string, guildId: string): seq<string> {
    [Fence, "layout: chapter.njk", Quoted("title", "Global Security " + "Community " + city),
     Quoted("city", city), Quoted("country", country), "tags: chapter",
     Quoted("discord_channel_id", channelId), Quoted("discord_guild_id", guildId), "leads:"]
  }

  /** A line for an optional link: present iff the link is set. */
  function OptionalLine(key: string, value: string): seq<string> {
    if value != "" then [Quoted(key, value)] else []
  }

  /** A lead's entry: its name, the hash of its e-mail, and each optional link that is set. */
  function LeadLines(l: Lead, md5: string -> string): seq<string> {
    [Quoted("  - name", l.name), Quoted("    email_hash", md5(Trim(Lower(l.email))))]
    + OptionalLine("    github", l.github) + OptionalLine("    linkedin", l.linkedin)
    + OptionalLine("    twitter", l.twitter) + OptionalLine("    website", l.website)
  }

  /** An entry opens with the name and the e-mail hash and has one more line per link that is set. */
  lemma LeadLinesShape(l: Lead, md5: string -> string)
    ensures var r := LeadLines(l, md5);
      && |r| == 2 + (if l.github != "" then 1 else 0) + (if l.linkedin != "" then 1 else 0)
                  + (if l.twitter != "" then 1 else 0) + (if l.website != "" then 1 else 0)
      && r[0] == Quoted("  - name", l.name) && r[1] == Quoted("    email_hash", md5(Trim(Lower(l.email))))
  {
  }

  function LeadsLines(leads: seq<Lead>, md5: string -> string): seq<string> {
    if |leads| == 0 then [] else LeadsLines(leads[..|leads| - 1], md5) + LeadLines(leads[|leads| - 1], md5)
  }

  /** Every line of the page: the front matter, one entry per lead in order, the closing fence. */
  function ChapterLines(city: string, country: string, channelId: string, guildId: string,
                        leads: seq<Lead>, md5: string -> string): seq<string> {
    HeaderLines(city, country, channelId, guildId) + LeadsLines(leads, md5) + [Fence]
  }

  /** The page `buildChapterMarkdown` returns. */
  function ChapterMarkdown(city: string, country: string, channelId: string, guildId: string,
                           leads: seq<Lead>, md5: string -> string): string {
    Text(ChapterLines(city, country, channelId, guildId, leads, md5))
  }

  /** A text between two fence lines starts and ends with one. */
  lemma FencedSlices(x: string)
    ensures var md := "---\n" + x + "---\n";
      |md| >= 8 && md[..4] == "---\n" && md[|md| - 4..] == "---\n"
  {
  }

  /** Lines that open with a fence line and are closed by one give a text between two `---` lines. */
  lemma TextFenced(h: seq<string>, l: seq<string>)
    requires |h| > 0 && h[0] == Fence
    ensures Text(h + l + [Fence]) == "---\n" + Text(h[1..] + l) + "---\n"
  {
    var body := h[1..] + l;
    assert h + l + [Fence] == [Fence] + body + [Fence];
    TextAppend([Fence] + body, [Fence]);
    TextAppend([Fence], body);
    assert Text([Fence]) == "---\n";
  }

  /** The page is a fence line, the lines between, and a fence line. */
  lemma ChapterLinesFenced(city: string, country: string, channelId: string, guildId: string,
                           leads: seq<Lead>, md5: string -> string)
    ensures exists body :: ChapterMarkdown(city, country, channelId, guildId, leads, md5) == "---\n" + Text(body) + "---\n"
  {
    var h := HeaderLines(city, country, channelId, guildId);
    TextFenced(h, LeadsLines(leads, md5));
    var body := h[1..] + LeadsLines(leads, md5);
    assert ChapterMarkdown(city, country, channelId, guildId, leads, md5) == "---\n" + Text(body) + "---\n";
  }

  /** The page opens and closes with a `---` line. */
  lemma MarkdownFenced(city: string, country: string, channelId: string, guildId: string,
                       leads: seq<Lead>, md5: string -> string)
    ensures var md := ChapterMarkdown(city, country, channelId, guildId, leads, md5);
      |md| >= 8 && md[..4] == "---\n" && md[|md| - 4..] == "---\n"
  {
    ChapterLinesFenced(city, country, channelId, guildId, leads, md5);
    var body :| ChapterMarkdown(city, country, channelId, guildId, leads, md5) == "---\n" + Text(body) + "---\n";
    FencedSlices(Text(body));
  }

  /** No lead value, link or hash holds a line break. */
  predicate SingleLine(l: Lead, md5: string -> string) {
    && '\n' !in l.name && '\n' !in l.github && '\n' !in l.linkedin && '\n' !in l.twitter && '\n' !in l.website
    && '\n' !in md5(Trim(Lower(l.email)))
  }

  /** No line of `lines` holds a line break. */
  predicate NoBreaks(lines: seq<string>) {
    forall line :: line in lines ==> '\n' !in line
  }

  lemma NoBreaksConcat(a: seq<string>, b: seq<string>)
    requires NoBreaks(a) && NoBreaks(b)
    ensures NoBreaks(a + b)
  {
    forall line | line in a + b ensures '\n' !in line {
      if line in a {
      } else {
        assert line in b;
      }
    }
  }

  lemma QuotedSingle(key: string, value: string)
    requires '\n' !in key && '\n' !in value
    ensures '\n' !in Quoted(key, value)
  {
    assert '\n' !in ": \"" && '\n' !in "\"";
  }

  lemma OptionalSingle(key: string, value: string)
    requires '\n' !in key && '\n' !in value
    ensures NoBreaks(OptionalLine(key, value))
  {
    QuotedSingle(key, value);
  }

  lemma LeadKeysSingle()
    ensures '\n' !in "  - name" && '\n' !in "    email_hash" && '\n' !in "    github"
    ensures '\n' !in "    linkedin" && '\n' !in "    twitter" && '\n' !in "    website"
  {
  }

  lemma LeadLinesSingle(l: Lead, md5: string -> string)
    requires SingleLine(l, md5)
    ensures NoBreaks(LeadLines(l, md5))
  {
    LeadKeysSingle();
    QuotedSingle("  - name", l.name);
    QuotedSingle("    email_hash", md5(Trim(Lower(l.email))));
    var first := [Quoted("  - name", l.name), Quoted("    email_hash", md5(Trim(Lower(l.email))))];
    var g := OptionalLine("    github", l.github);
    var li := OptionalLine("    linkedin", l.linkedin);
    var t := OptionalLine("    twitter", l.twitter);
    var w := OptionalLine("    website", l.website);
    OptionalSingle("    github", l.github);
    OptionalSingle("    linkedin", l.linkedin);
    OptionalSingle("    twitter", l.twitter);
    OptionalSingle("    website", l.website);
    NoBreaksConcat(first, g);
    NoBreaksConcat(first + g, li);
    NoBreaksConcat(first + g + li, t);
    NoBreaksConcat(first + g + li + t, w);
  }

  lemma {:induction false} LeadsLinesSingle(leads: seq<Lead>, md5: string -> string)
    requires forall k :: 0 <= k < |leads| ==> SingleLine(leads[k], md5)
    ensures NoBreaks(LeadsLines(leads, md5))
  {
    if |leads| > 0 {
      LeadsLinesSingle(leads[..|leads| - 1], md5);
      LeadLinesSingle(leads[|leads| - 1], md5);
      NoBreaksConcat(LeadsLines(leads[..|leads| - 1], md5), LeadLines(leads[|leads| - 1], md5));
    }
  }

  lemma HeaderKeysSingle()
    ensures '\n' !in "Global Security " + "Community " && '\n' !in "title" && '\n' !in "city"
    ensures '\n' !in "country" && '\n' !in "discord_channel_id" && '\n' !in "discord_guild_id"
    ensures '\n' !in Fence && '\n' !in "layout: chapter.njk" && '\n' !in "tags: chapter" && '\n' !in "leads:"
  {
    var g, c := "Global Security ", "Community ";
    assert '\n' !in g && '\n' !in c;
    assert '\n' !in g + c;
  }

  lemma HeaderSingle(city: string, country: string, channelId: string, guildId: string)
    requires '\n' !in city && '\n' !in country && '\n' !in channelId && '\n' !in guildId
    ensures NoBreaks(HeaderLines(city, country, channelId, guildId))
  {
    HeaderKeysSingle();
    QuotedSingle("title", "Global Security " + "Community " + city);
    QuotedSingle("city", city);
    QuotedSingle("country", country);
    QuotedSingle("discord_channel_id", channelId);
    QuotedSingle("discord_guild_id", guildId);
  }

  /**
   * When no value holds a line break, splitting the page on `\n` gives back
   * exactly its lines (and the empty piece after the last `\n`): each lead
   * contributes its own entry, in order.
   */
  lemma MarkdownLines(city: string, country: string, channelId: string, guildId: string,
                      leads: seq<Lead>, md5: string -> string)
    requires '\n' !in city && '\n' !in country && '\n' !in channelId && '\n' !in guildId
    requires forall k :: 0 <= k < |leads| ==> SingleLine(leads[k], md5)
    ensures Split(ChapterMarkdown(city, country, channelId, guildId, leads, md5), '\n')
      == ChapterLines(city, country, channelId, guildId, leads, md5) + [""]
  {
    var lines := ChapterLines(city, country, channelId, guildId, leads, md5);
    LeadsLinesSingle(leads, md5);
    var h := HeaderLines(city, country, channelId, guildId);
    HeaderSingle(city, country, channelId, guildId);
    NoBreaksConcat(h, LeadsLines(leads, md5));
    NoBreaksConcat(h + LeadsLines(leads, md5), [Fence, ""]);
    assert lines + [""] == h + LeadsLines(leads, md5) + [Fence, ""];
    TextIsJoin(lines);
    SplitJoin(lines + [""], '\n');
  }

  lemma LeadsLinesAppend(leads: seq<Lead>, i: nat, md5: string -> string)
    requires i < |leads|
    ensures LeadsLines(leads[..i + 1], md5) == LeadsLines(leads[..i], md5) + LeadLines(leads[i], md5)
  {
    assert leads[..i + 1][..i] == leads[..i];
  }

  /** `if (value) yaml += …`: one optional line. */
  method AppendOptional(yaml: string, key: string, value: string) returns (out: string)
    ensures out == yaml + Text(OptionalLine(key, value))
  {
    out := yaml;
    if value != "" {
      TextSnoc([], Quoted(key, value));
      out := out + Quoted(key, value) + "\n";
    }
  }

  /** Appending the text of `a` and then of `b` is appending the text of `a + b`. */
  lemma TextAppendAfter(prefix: string, a: seq<string>, b: seq<string>)
    ensures prefix + Text(a + b) == prefix + Text(a) + Text(b)
  {
    TextAppend(a, b);
  }

  /** The body of the `for (const lead of leads)` loop. */
  method AppendLead(yaml: string, lead: Lead, md5: string -> string) returns (out: string)
    ensures out == yaml + Text(LeadLines(lead, md5))
  {
    var emailHash := md5(Trim(Lower(lead.email)));
    var name := Quoted("  - name", lead.name);
    var hash := Quoted("    email_hash", emailHash);
    out := yaml + name + "\n";
    out := out + hash + "\n";
    TextSnoc([], name);
    TextSnoc([name], hash);
    assert [name] + [hash] == [name, hash];
    ghost var acc := [name, hash];
    assert out == yaml + Text(acc);
    ghost var opt := OptionalLine("    github", lead.github);
    TextAppendAfter(yaml, acc, opt);
    out := AppendOptional(out, "    github", lead.github);
    acc := acc + opt;
    opt := OptionalLine("    linkedin", lead.linkedin);
    TextAppendAfter(yaml, acc, opt);
    out := AppendOptional(out, "    linkedin", lead.linkedin);
    acc := acc + opt;
    opt := OptionalLine("    twitter", lead.twitter);
    TextAppendAfter(yaml, acc, opt);
    out := AppendOptional(out, "    twitter", lead.twitter);
    acc := acc + opt;
    opt := OptionalLine("    website", lead.website);
    TextAppendAfter(yaml, acc, opt);
    out := AppendOptional(out, "    website", lead.website);
    acc := acc + opt;
    assert acc == LeadLines(lead, md5);
  }

  /** Each line of `lines` appended with its `\n`. */
  method AppendLines(yaml: string, lines: seq<string>) returns (out: string)
    ensures out == yaml + Text(lines)
  {
    out := yaml;
    for n := 0 to |lines|
      invariant out == yaml + Text(lines[..n])
    {
      TextSnoc(lines[..n], lines[n]);
      assert lines[..n + 1] == lines[..n] + [lines[n]];
      out := out + lines[n] + "\n";
    }
    assert lines[..|lines|] == lines;
  }

  lemma MarkdownParts(city: string, country: string, channelId: string, guildId: string,
                      leads: seq<Lead>, md5: string -> string)
    ensures ChapterMarkdown(city, country, channelId, guildId, leads, md5)
      == Text(HeaderLines(city, country, channelId, guildId)) + Text(LeadsLines(leads, md5)) + Fence + "\n"
  {
    var header := HeaderLines(city, country, channelId, guildId);
    TextSnoc(header + LeadsLines(leads, md5), Fence);
    TextAppend(header, LeadsLines(leads, md5));
  }

  /** `buildChapterMarkdown`: the front matter, then one entry per lead, then the closing fence. */
  method BuildChapterMarkdown(city: string, country: string, channelId: string, guildId: string,
                              leads: seq<Lead>, md5: string -> string) returns (yaml: string)
    ensures yaml == ChapterMarkdown(city, country, channelId, guildId, leads, md5)
  {
    var header := HeaderLines(city, country, channelId, guildId);
    yaml := AppendLines("", header);
    var i := 0;
    while i < |leads|
      invariant 0 <= i <= |leads|
      invariant yaml == Text(header) + Text(LeadsLines(leads[..i], md5))
    {
      LeadsLinesAppend(leads, i, md5);
      TextAppendAfter(Text(header), LeadsLines(leads[..i], md5), LeadLines(leads[i], md5));
      yaml := AppendLead(yaml, leads[i], md5);
      i := i + 1;
    }
    assert leads[..i] == leads;
    yaml := yaml + Fence + "\n";
    MarkdownParts(city, country, channelId, guildId, leads, md5);
  }

  // ─── The handler ───

  /** The merge written to the application: the encoded leads and the time. */
  function LeadsUpdate(leads: seq<Lead>, encode: seq<Lead> -> string, now: string): ApplicationUpdate {
    ApplicationUpdate(None, Some(encode(SanitiseLeads(leads))), now)
  }

  /**
   * The handler. `encode` is `JSON.stringify` on leads, `md5` the hex digest of
   * an e-mail and `github` the outcome of the page write. The reply and `page`,
   * the markdown handed to GitHub (None when GitHub is not configured), are the
   * results. A failed page write changes nothing but `pageUpdated`.
   */
  method Update(store: Store, user: Option<User>, body: Option<UpdateBody>, now: string,
                encode: seq<Lead> -> string, md5: string -> string, github: PageWrite)
    returns (reply: Reply<Updated>, page: Option<string>)
    requires store.Valid()
    modifies store`applications
    ensures store.Valid()
    ensures match Screen(user, body)
      case Refuse(r) => reply == r && page.None? && unchanged(store)
      case Admit(slug, leads) =>
        var found := Find(old(store.applications), ApprovedCitySlugIs(slug));
        if found.None? then reply == Fail(400, "No approved chapter found for this slug") && page.None? && unchanged(store)
        else
          var a := found.value;
          var k := ("applications", a.rowKey);
          var safe := SanitiseLeads(leads);
          && store.applications == MapWhere(old(store.applications), ApplicationAt(k),
               ApplyApplicationUpdate(LeadsUpdate(leads, encode, now)))
          && if !HasKey(old(store.applications), ApplicationKey, k) then reply == InternalError() && page.None?
             else
               && reply == Done(200, Updated(Summaries(safe), github == Written))
               && page == if github == NotConfigured then None
                          else Some(ChapterMarkdown(a.city, a.country, a.discordChannelId, a.discordGuildId, safe, md5))
  {
    page := None;
    if user.None? {
      return Unauthorised(""), page;
    }
    if !HasRole(user, "admin") {
      return Forbidden(NotLeadMessage), page;
    }
    if body.None? {
      return Fail(400, InvalidJson), page;
    }
    var b := body.value;
    if b.chapterSlug == "" || b.leads.None? || |b.leads.value| == 0 {
      return Fail(400, MissingMessage), page;
    }
    if |b.leads.value| > MaxLeads {
      return Fail(400, TooManyMessage), page;
    }
    var incomplete := FindIncomplete(b.leads.value);
    if incomplete.Some? {
      return Fail(400, IncompleteMessage(incomplete.value)), page;
    }
    assert Screen(user, body) == Admit(b.chapterSlug, b.leads.value);
    reply, page := UpdateFound(store, b.chapterSlug, b.leads.value, now, encode, md5, github);
  }

  /** The handler from the application lookup on. */
  method UpdateFound(store: Store, slug: string, leads: seq<Lead>, now: string,
                     encode: seq<Lead> -> string, md5: string -> string, github: PageWrite)
    returns (reply: Reply<Updated>, page: Option<string>)
    requires store.Valid()
    modifies store`applications
    ensures store.Valid()
    ensures var found := Find(old(store.applications), ApprovedCitySlugIs(slug));
      if found.None? then reply == Fail(400, "No approved chapter found for this slug") && page.None? && unchanged(store)
      else
        var a := found.value;
        var k := ("applications", a.rowKey);
        var safe := SanitiseLeads(leads);
        && store.applications == MapWhere(old(store.applications), ApplicationAt(k),
             ApplyApplicationUpdate(LeadsUpdate(leads, encode, now)))
        && if !HasKey(old(store.applications), ApplicationKey, k) then reply == InternalError() && page.None?
           else
             && reply == Done(200, Updated(Summaries(safe), github == Written))
             && page == if github == NotConfigured then None
                        else Some(ChapterMarkdown(a.city, a.country, a.discordChannelId, a.discordGuildId, safe, md5))
  {
    page := None;
    var application := store.GetApprovedApplicationBySlug(slug);
    if application.None? {
      return Fail(400, "No approved chapter found for this slug"), page;
    }
    var a := application.value;
    var safe := SanitiseLeads(leads);
    var written := store.UpdateApplication(a.rowKey, ApplicationUpdate(None, Some(encode(safe)), now));
    if written.None? {
      return InternalError(), page;
    }
    if github != NotConfigured {
      var markdown := BuildChapterMarkdown(a.city, a.country, a.discordChannelId, a.discordGuildId, safe, md5);
      page := Some(markdown);
    }
    reply := Done(200, Updated(Summaries(safe), github == Written));
  }
}
