/**
 * The variable parts of the SVG badge built by `generateBadge`
 * (api/src/helpers/badgeGenerator.js): the colour scheme chosen by badge type,
 * the four text slots (each cut to its own length, then escaped), the upper-cased
 * type label and the width of the pill around it. The fixed text of the SVG
 * template around these parts is not modelled.
 */
module BadgeGenerator {
  import opened JsString
  import opened Markup

  /** A badge type's colour scheme; the table's `icon` entries are never read by the template, so they are not kept. */
  datatype Colours = Colours(primary: string, secondary: string)

  const AttendeeColours := Colours("#20b2aa", "#001f3f")
  const SpeakerColours := Colours("#ffa500", "#001f3f")
  const OrganiserColours := Colours("#e74c3c", "#001f3f")

  /** `BADGE_COLOURS[badgeType] || BADGE_COLOURS.Attendee`. */
  function ColoursFor(badgeType: string): (c: Colours)
    ensures badgeType == "Speaker" ==> c == SpeakerColours
    ensures badgeType == "Organiser" ==> c == OrganiserColours
    ensures badgeType != "Speaker" && badgeType != "Organiser" ==> c == AttendeeColours
  {
    if badgeType == "Speaker" then SpeakerColours
    else if badgeType == "Organiser" then OrganiserColours
    else AttendeeColours
  }

  /** Volunteer and Sponsor badges have no scheme of their own: they look like Attendee badges. */
  lemma VolunteerAndSponsorLookLikeAttendee()
    ensures ColoursFor("Volunteer") == ColoursFor("Sponsor") == ColoursFor("Attendee") == AttendeeColours
  {
  }

  const Ellipsis: char := '\U{2026}'

  /** `truncate(str, max)`: falsy gives `''`; a longer string keeps `max - 1` characters and gains `…`. */
  function Truncate(s: string, max: nat): (r: string)
    ensures s == "" ==> r == ""
    ensures |s| <= max ==> r == s
    ensures |s| > max && max > 0 ==> |r| == max && r == s[..max - 1] + [Ellipsis]
    ensures max > 0 ==> |r| <= max
  {
    if s == "" then ""
    else if |s| > max then (if max == 0 then "" else s[..max - 1]) + [Ellipsis]
    else s
  }

  /** The parts of the badge that depend on the input. */
  datatype BadgeParts = BadgeParts(
    colours: Colours, name: string, title: string, date: string, location: string,
    typeText: string, typeLabel: string, pillWidth: int)

  /** No character that could open a tag, close one or end an attribute value. */
  predicate MarkupFree(s: string) {
    '<' !in s && '>' !in s && '"' !in s
  }

  /**
   * `generateBadge({ recipientName, eventTitle, eventDate, eventLocation, badgeType })`:
   * name, title, date and location cut to 40, 50, 30 and 45 characters and
   * escaped; the type escaped; its label upper-cased.
   */
  function GenerateBadge(recipientName: string, eventTitle: string, eventDate: string, eventLocation: string,
                         badgeType: string): (b: BadgeParts)
    ensures b.colours == ColoursFor(badgeType)
    ensures MarkupFree(b.name) && MarkupFree(b.title) && MarkupFree(b.date) && MarkupFree(b.location)
    ensures MarkupFree(b.typeText)
    ensures Unescape(b.name) == Truncate(recipientName, 40) && Unescape(b.title) == Truncate(eventTitle, 50)
    ensures Unescape(b.date) == Truncate(eventDate, 30) && Unescape(b.location) == Truncate(eventLocation, 45)
    ensures b.typeLabel == Upper(b.typeText) && Unescape(b.typeText) == badgeType
    ensures b.pillWidth == |b.typeText| * 11 + 24
  {
    var name := Escape(Truncate(recipientName, 40));
    var title := Escape(Truncate(eventTitle, 50));
    var date := Escape(Truncate(eventDate, 30));
    var location := Escape(Truncate(eventLocation, 45));
    var typeText := Escape(badgeType);
    EscapeHasNoMarkup(Truncate(recipientName, 40));
    EscapeHasNoMarkup(Truncate(eventTitle, 50));
    EscapeHasNoMarkup(Truncate(eventDate, 30));
    EscapeHasNoMarkup(Truncate(eventLocation, 45));
    EscapeHasNoMarkup(badgeType);
    UnescapeEscape(Truncate(recipientName, 40));
    UnescapeEscape(Truncate(eventTitle, 50));
    UnescapeEscape(Truncate(eventDate, 30));
    UnescapeEscape(Truncate(eventLocation, 45));
    UnescapeEscape(badgeType);
    BadgeParts(ColoursFor(badgeType), name, title, date, location, typeText, Upper(typeText), |typeText| * 11 + 24)
  }

  /** With every text input empty, the badge still carries its type label. */
  lemma EmptyInputsKeepLabel(badgeType: string)
    ensures var b := GenerateBadge("", "", "", "", badgeType);
      b.name == "" && b.title == "" && b.date == "" && b.location == "" && b.typeLabel == Upper(Escape(badgeType))
  {
    var b := GenerateBadge("", "", "", "", badgeType);
    EscapeIsEscapeEach("");
  }

  /** A type made of letters only is shown as itself upper-cased, e.g. `SPEAKER`. */
  lemma {:induction false} LabelOfPlainType(badgeType: string)
    requires forall i :: 0 <= i < |badgeType| ==> ('a' <= badgeType[i] <= 'z' || 'A' <= badgeType[i] <= 'Z')
    ensures GenerateBadge("", "", "", "", badgeType).typeLabel == Upper(badgeType)
  {
    EscapeIsEscapeEach(badgeType);
    PlainEscapeEach(badgeType);
  }

  lemma {:induction false} PlainEscapeEach(s: string)
    requires forall i :: 0 <= i < |s| ==> ('a' <= s[i] <= 'z' || 'A' <= s[i] <= 'Z')
    ensures EscapeEach(s) == s
  {
    if |s| > 0 {
      PlainEscapeEach(s[1..]);
      assert [s[0]] + s[1..] == s;
    }
  }
}
