/**
 * The parts of the three e-mails built in api/src/helpers/emailService.js that
 * depend on their inputs: subjects, recipients, the escaped facts each body
 * shows, the badge heading's wording and the attachments. The fixed HTML
 * around them, the footer's year and the sending itself are not modelled.
 */
module EmailService {
  import opened Wrappers
  import opened JsString
  import opened Markup
  import opened TableStorage

  /** `escapeHtml(str)`: `''` for a falsy value, otherwise the four replaces. */
  function EscapeHtml(s: string): (r: string)
    ensures s == "" ==> r == ""
    ensures '<' !in r && '>' !in r && '"' !in r
    ensures Unescape(r) == s
  {
    EscapeHasNoMarkup(s);
    UnescapeEscape(s);
    if s == "" then "" else Escape(s)
  }

  /** Text that can stand in an HTML body without opening a tag or closing an attribute. */
  predicate Inert(s: string) {
    '<' !in s && '>' !in s && '"' !in s
  }

  datatype Recipient = Recipient(address: string, displayName: string)

  datatype Attachment = Attachment(name: string, contentType: string, contentInBase64: string, contentId: string)

  /** How the ticket e-mail shows the QR code: the inline image, or the fallback text. */
  datatype QrBlock = InlineImage | Unavailable

  /** A labelled line of an e-mail body, `<p><strong>Caption:</strong> value</p>`. */
  datatype Fact = Fact(caption: string, value: string)

  datatype Message = Message(
    subject: string, to: Recipient, heading: string, facts: seq<Fact>, qr: Option<QrBlock>,
    attachments: seq<Attachment>)

  /** Every value in `facts` is inert. */
  predicate AllInert(facts: seq<Fact>) {
    forall i :: 0 <= i < |facts| ==> Inert(facts[i].value)
  }

  /** Every fact value of a message is inert. */
  predicate FactsInert(m: Message) {
    AllInert(m.facts)
  }

  /**
   * `facts[i]` carries `caption` and shows `field`: its value is escaped text
   * that decodes back to exactly that field.
   */
  predicate ShowsAt(facts: seq<Fact>, i: nat, caption: string, field: string) {
    i < |facts| && facts[i].caption == caption && Inert(facts[i].value) && Unescape(facts[i].value) == field
  }

  /** The `i`-th fact of `m` shows `field` under `caption`. */
  predicate Shows(m: Message, i: nat, caption: string, field: string) {
    ShowsAt(m.facts, i, caption, field)
  }

  /** The fact with that caption showing `field` escaped. */
  function Shown(caption: string, field: string): (f: Fact)
    ensures f.caption == caption && Inert(f.value) && Unescape(f.value) == field
  {
    Fact(caption, EscapeHtml(field))
  }

  // ─── The QR code ───

  /** The prefix `qrcode` puts before the base64 PNG: `data:image/png;base64,`. */
  const QrPrefix := "data:image/png;base64,"

  /** `qrDataUrl.replace(/^data:image\/png;base64,/, '')`, `''` for a falsy URL. */
  function QrPayload(dataUrl: string): (r: string)
    ensures QrPrefix <= dataUrl ==> dataUrl == QrPrefix + r
    ensures !(QrPrefix <= dataUrl) ==> r == dataUrl
  {
    if QrPrefix <= dataUrl then dataUrl[|QrPrefix|..] else dataUrl
  }

  /** Prefixing and stripping are inverse: the attachment is the encoder's PNG data exactly. */
  lemma QrPayloadOfDataUrl(base64: string)
    ensures QrPayload(QrPrefix + base64) == base64
  {
    assert (QrPrefix + base64)[..|QrPrefix|] == QrPrefix;
    assert (QrPrefix + base64)[|QrPrefix|..] == base64;
  }

  /** The inline attachment, added only when the payload is non-empty. */
  function TicketAttachments(dataUrl: string): (r: seq<Attachment>)
    ensures |r| <= 1
    ensures r != [] <==> QrPayload(dataUrl) != ""
    ensures r != [] ==> r[0].contentInBase64 == QrPayload(dataUrl) && r[0].contentId == "qrcode"
  {
    var payload := QrPayload(dataUrl);
    if payload != "" then [Attachment("qrcode.png", "image/png", payload, "qrcode")] else []
  }

  // ─── The three messages ───

  /** `Date:` shows the start date and, when there is one, ` – ` and the end date. */
  function DateText(event: Event): string {
    EscapeHtml(event.date) + (if event.endDate != "" then " – " + EscapeHtml(event.endDate) else "")
  }

  lemma DateTextInert(event: Event)
    ensures Inert(DateText(event))
  {
    var a := EscapeHtml(event.date);
    var b := if event.endDate != "" then " – " + EscapeHtml(event.endDate) else "";
    assert Inert(b);
    assert DateText(event) == a + b;
  }


  /** The `Date:` line as a fact. */
  function DateFact(event: Event): (f: Fact)
    ensures f.caption == "Date" && f.value == DateText(event) && Inert(f.value)
  {
    DateTextInert(event);
    Fact("Date", DateText(event))
  }

  /** The five facts of the ticket e-mail, in the order shown. */
  function TicketFacts(registration: Registration, event: Event): (f: seq<Fact>)
    ensures |f| == 5 && AllInert(f)
    ensures ShowsAt(f, 0, "Event", event.title) && f[1] == DateFact(event)
    ensures ShowsAt(f, 2, "Location", event.location) && ShowsAt(f, 3, "Attendee", registration.fullName)
    ensures ShowsAt(f, 4, "Ticket Code", registration.ticketCode)
  {
    var title, date, location := Shown("Event", event.title), DateFact(event), Shown("Location", event.location);
    var attendee, code := Shown("Attendee", registration.fullName), Shown("Ticket Code", registration.ticketCode);
    var f := [title, date, location, attendee, code];
    assert f[0] == title && f[1] == date && f[2] == location && f[3] == attendee && f[4] == code;
    f
  }

  /** `sendTicketEmail(registration, event, qrDataUrl)`: the message it sends. */
  function TicketMessage(registration: Registration, event: Event, qrDataUrl: string): (m: Message)
    ensures m.to == Recipient(registration.email, registration.fullName)
    ensures m.subject == "Your Ticket: " + event.title
    ensures m.qr == Some(if QrPayload(qrDataUrl) != "" then InlineImage else Unavailable)
    ensures m.attachments == TicketAttachments(qrDataUrl)
    ensures |m.facts| == 5
    ensures Shows(m, 0, "Event", event.title) && m.facts[1] == DateFact(event)
    ensures Shows(m, 2, "Location", event.location) && Shows(m, 3, "Attendee", registration.fullName)
    ensures Shows(m, 4, "Ticket Code", registration.ticketCode)
    ensures FactsInert(m)
  {
    Message("Your Ticket: " + event.title, Recipient(registration.email, registration.fullName),
      "You're registered! \U{1F389}", TicketFacts(registration, event),
      Some(if QrPayload(qrDataUrl) != "" then InlineImage else Unavailable),
      TicketAttachments(qrDataUrl))
  }

  /** The verb of the badge e-mail's heading. */
  function BadgeVerb(badgeType: string): (v: string)
    ensures badgeType == "Speaker" ==> v == "speaking at"
    ensures badgeType == "Organiser" ==> v == "organising"
    ensures badgeType != "Speaker" && badgeType != "Organiser" ==> v == "attending"
  {
    if badgeType == "Speaker" then "speaking at" else if badgeType == "Organiser" then "organising" else "attending"
  }

  /** `gsc-badge-<type lower-cased>.svg`. */
  function BadgeFileName(badgeType: string): string {
    "gsc-badge-" + Lower(badgeType) + ".svg"
  }

  /** The file name ignores the case of the type and is itself lower case. */
  lemma BadgeFileNameIgnoresCase(a: string, b: string)
    requires Lower(a) == Lower(b)
    ensures BadgeFileName(a) == BadgeFileName(b)
    ensures Lower(BadgeFileName(a)) == BadgeFileName(a)
  {
    LowerIdempotent(a);
    LowerConcat("gsc-badge-", Lower(a));
    LowerConcat("gsc-badge-" + Lower(a), ".svg");
  }

  /**
   * `sendBadgeEmail(recipient, badgeSvg, event, badgeType)`; `base64` stands
   * for `Buffer.from(svg, 'utf-8').toString('base64')`.
   */
  function BadgeMessage(recipient: Recipient, badgeSvg: string, event: Event, badgeType: string,
                        base64: string -> string): (m: Message)
    ensures m.to == recipient && m.qr.None?
    ensures m.heading == "Thank you for " + BadgeVerb(badgeType) + " " + EscapeHtml(event.title) + "! \U{1F3C5}"
    ensures m.attachments == [Attachment(BadgeFileName(badgeType), "image/svg+xml", base64(badgeSvg), "")]
    ensures m.subject == "Your " + badgeType + " Badge: " + event.title && |m.facts| == 3
    ensures Shows(m, 0, "Event", event.title) && Shows(m, 1, "Date", event.date) && Shows(m, 2, "Role", badgeType)
    ensures FactsInert(m)
  {
    Message("Your " + badgeType + " Badge: " + event.title, recipient,
      "Thank you for " + BadgeVerb(badgeType) + " " + EscapeHtml(event.title) + "! \U{1F3C5}",
      [Shown("Event", event.title), Shown("Date", event.date), Shown("Role", badgeType)],
      None,
      [Attachment(BadgeFileName(badgeType), "image/svg+xml", base64(badgeSvg), "")])
  }

  /** The five facts of the cancellation e-mail; the last is the slug of the event page link. */
  function CancellationFacts(registration: Registration, event: Event): (f: seq<Fact>)
    ensures |f| == 5 && AllInert(f)
    ensures ShowsAt(f, 0, "Hi", registration.fullName) && ShowsAt(f, 1, "Event", event.title)
    ensures f[2] == DateFact(event)
    ensures ShowsAt(f, 3, "Location", event.location) && ShowsAt(f, 4, "Event page", event.slug)
  {
    var hi, title, date := Shown("Hi", registration.fullName), Shown("Event", event.title), DateFact(event);
    var location, link := Shown("Location", event.location), Shown("Event page", event.slug);
    var f := [hi, title, date, location, link];
    assert f[0] == hi && f[1] == title && f[2] == date && f[3] == location && f[4] == link;
    f
  }

  /** `sendCancellationEmail(registration, event)`: the facts, and the event page link's slug. */
  function CancellationMessage(registration: Registration, event: Event): (m: Message)
    ensures m.to == Recipient(registration.email, registration.fullName)
    ensures m.subject == "Registration Cancelled: " + event.title
    ensures m.attachments == [] && m.qr.None?
    ensures |m.facts| == 5
    ensures Shows(m, 0, "Hi", registration.fullName) && Shows(m, 1, "Event", event.title)
    ensures m.facts[2] == DateFact(event)
    ensures Shows(m, 3, "Location", event.location) && Shows(m, 4, "Event page", event.slug)
    ensures FactsInert(m)
  {
    Message("Registration Cancelled: " + event.title, Recipient(registration.email, registration.fullName),
      "Registration Cancelled", CancellationFacts(registration, event), None, [])
  }
}
