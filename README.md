# A verified model of the community site's API

This project models the request handlers under `api/src` of a security-community
website: chapter applications and approvals, events with self-service and
administrator registration, check-in, cancellation, role changes, volunteers,
badges, tickets and the attendance dashboard, together with the helpers they
share (sanitising, identity, rate limiting, the Azure table store, e-mail and
badge construction). Each handler is stated as a Dafny method or function with
a contract that says which status code it answers for which request and what it
writes; lemmas prove the properties the handlers promise across calls.

Layout, one module per source file:

- `tables.dfy` (`Tables`): tables kept in key order as Azure Table Storage lists
  them (by partition key, then row key), insertion at a key's place, filters,
  `Find`, `MapWhere`, unique keys and the two scan loops.
- `table_storage.dfy` (`TableStorage`): the six tables of
  `api/src/helpers/tableStorage.js` as the class `Store`, one `seq` field per
  table, with `Valid()` meaning each table is ordered by key with no key twice. Every `store*`,
  `get*`, `update*` and `delete*` helper is a member of `Store` (a function for
  the point reads, a method otherwise) whose contract gives the answer and the
  new table contents: `createEntity` refuses a taken key, a Merge
  `updateEntity` needs an existing row, `listEntities` filters are scans.
- `rate_limiter.dfy` (`RateLimit`): the sliding-window limiter of
  `rateLimiter.js` as the class `Limiter` over a `map` of timestamp lists, and the
  inline copy of `chapterApplication.js` and `contactForm.js` as `InlineLimiter`.
- `sanitise.dfy`, `auth.dfy`, `markup.dfy`, `email_service.dfy`,
  `badge_generator.dfy`, `slug.dfy`, `validators.dfy`, `tickets.dfy`,
  `js_strings.dfy`, `http.dfy`, `wrappers.dfy`: the pure helpers (tag stripping,
  identity and roles, HTML escaping, message and badge construction, slugs,
  the e-mail and LinkedIn checks, ticket codes, the JavaScript string operations
  used, the reply shape, `Option`).
- One module per handler under `api/src/functions`, named after it
  (`register_event.dfy` is `RegisterEvent`, and so on). A handler is a method
  over the `Store`; its guard chain is a function, so that lemmas can relate
  several calls.

A request's identity is an `Option<User>` (None when the principal header is
missing or does not decode). A JSON body is an `Option` of a datatype of its
members (None when it does not parse), a missing or falsy member being `""`.
Random values (ticket bytes, UUIDs), the clock, QR codes, base64, md5 and
JSON decoding, the approval-token check and the outcome of each Discord, GitHub
and e-mail call are parameters of the members that use them.

## Model

| member | source | states |
|---|---|---|
| Sanitise.StripTags | api/src/helpers/sanitise.js:8 | the global replace of `<[^>]*>`: the result is no longer than the input, holds only characters of the input, and has no `<` followed later by a `>` |
| Sanitise.StripHtml | api/src/helpers/sanitise.js:6-9 | a value that is not a string, or is empty, gives `''`; a string gives its stripped text |
| Sanitise.StripTagsWithoutLt | api/src/helpers/sanitise.js:8 | text without `<` comes back unchanged |
| Sanitise.StripTagsOfTagFree | api/src/helpers/sanitise.js:8 | text with no `<…>` pair comes back unchanged |
| Sanitise.StripTagsIdempotent | api/src/helpers/sanitise.js:6-9 | stripping twice is stripping once |
| Sanitise.StripTagsOfLeadingTag | api/src/helpers/sanitise.js:8 | a tag at the very start, from its `<` to its first `>`, is deleted and the rest is stripped on its own |
| Sanitise.StripTagsOfPlainPrefix | api/src/helpers/sanitise.js:8 | characters before the first `<` are kept unchanged and in order, whatever follows them |
| Sanitise.StripTagsAtTag | api/src/helpers/sanitise.js:8 | for `a<t>b` with no `<` in `a` and no `>` in `t`, the tag is deleted and `a` kept: the result is `a` followed by the stripped `b` |
| Sanitise.TagFreeTrim | api/src/functions/chapterApplication.js:139-150 | trimming stripped text cannot create a tag |
| Sanitise.SanitisedStep | api/src/helpers/sanitise.js:20-24 | one more listed field handled keeps the copy sanitised for the fields seen so far, a repeated field included |
| Sanitise.SanitiseFields | api/src/helpers/sanitise.js:18-26 | the copy has the same keys; each listed field holding a string becomes its stripped text; every other value is kept |
| Auth.LowerAll | api/src/helpers/auth.js:17 | every role lower-cased, in order, none dropped |
| Auth.GetAuthUser | api/src/helpers/auth.js:7-23 | no header gives no user; a header that fails to decode gives no user; otherwise the id, name and provider are copied and the roles are the given ones lower-cased (none when missing) |
| Auth.AuthUserRolesLowercase | api/src/helpers/auth.js:17 | every role of a decoded user is lower case already |
| Auth.HasRoleOfAuthUser | api/src/helpers/auth.js:28-31 | for a decoded user, `hasRole` holds exactly when some given role equals the asked role ignoring case |
| Auth.HasRoleIgnoresCase | api/src/helpers/auth.js:30 | two role names that lower-case alike get the same answer |
| Auth.Unauthorised | api/src/helpers/auth.js:36-42 | status 401 with no data; the message defaults to "Authentication required" |
| Auth.Forbidden | api/src/helpers/auth.js:47-53 | status 403 with no data; the message defaults to "Insufficient permissions" |
| RateLimit.Recent | api/src/helpers/rateLimiter.js:21-25 | the kept timestamps are exactly the stored ones with `now - ts < windowMs`; an unknown id has none |
| RateLimit.AfterCheck | api/src/helpers/rateLimiter.js:25-34 | the map gains the id; other ids keep their lists; the id's list becomes its recent timestamps, plus `now` when the check allows |
| RateLimit.LimiterIdInjective | api/src/helpers/rateLimiter.js:18 | for one action, distinct keys get distinct map entries |
| RateLimit.FullWindowDenies | api/src/helpers/rateLimiter.js:25-30 | a list of at least `maxRequests` timestamps, all within the window, still has at least `maxRequests` after the filter, so the check refuses |
| RateLimit.GetClientIP | api/src/helpers/rateLimiter.js:37-41 | `x-forwarded-for`, else `client-ip`, else `unknown`; never empty |
| RateLimit.Limiter.constructor | api/src/helpers/rateLimiter.js:7 | the map starts empty |
| RateLimit.Limiter.CheckRateLimit | api/src/helpers/rateLimiter.js:17-35 | allowed exactly when fewer than `maxRequests` timestamps of `action:key` are in the window; the new map is `AfterCheck` of the old one |
| RateLimit.CheckedListBounded | api/src/helpers/rateLimiter.js:25-34 | after a check with a positive window, the id's list holds only timestamps within the window, and at most `maxRequests` of them when it held at most that many before |
| RateLimit.InlineLimiter.constructor | api/src/functions/chapterApplication.js:7-9 | the map starts empty with the given limit and window |
| RateLimit.InlineLimiter.CheckRateLimit | api/src/functions/chapterApplication.js:17-29 | allowed exactly when fewer than the limit of timestamps are recent; on allow the list becomes the recent ones plus `now`; on refusal the stored list is left as it was (a new address gets `[]`) |
| ChapterApplication.NewLimiter | api/src/functions/chapterApplication.js:7-9 | a fresh empty map, limit 3 per window of 3600000 ms |
| ChapterApplication.Problem | api/src/functions/chapterApplication.js:69-128 | a missing required field gives "Please fill in all required fields." before any other check |
| ChapterApplication.ProblemIffAcceptable | api/src/functions/chapterApplication.js:69-128 | the checks pass exactly when the body meets every rule: required fields, the 100 and 2000 length caps, the e-mail pattern, the LinkedIn pattern, and the second-lead rules when any second-lead field is given |
| ChapterApplication.LoneSecondLinkedInIgnored | api/src/functions/chapterApplication.js:106-128 | with no second-lead name, e-mail or description, the second lead's LinkedIn URL does not change the outcome |
| Sanitise.Clean | api/src/functions/chapterApplication.js:139-150 | free text after `stripHtml` and `trim`, as the chapter application and the chapter editor (api/src/functions/updateChapter.js:57-64) store it, holds no tag |
| ChapterApplication.ValidEmailIsTrimmed | api/src/functions/chapterApplication.js:87-88 | an e-mail that passes the pattern is stored exactly as typed, since trimming cannot change it |
| ChapterApplication.Screen | api/src/functions/chapterApplication.js:44-151 | bad JSON gives 400; a filled honeypot gives the 200 decoy and nothing else; the application is admitted exactly when the honeypot is empty and the body is acceptable, and then carries the tag-free, trimmed fields and the e-mail as typed |
| ChapterApplication.BodyObject | api/src/functions/chapterApplication.js:131-133 | the object given to `sanitiseFields` holds each body field under its own name |
| ChapterApplication.ApplicationFor | api/src/functions/chapterApplication.js:139-151 | the application stored carries its id, the eight free-text fields free of tags, and both e-mails and LinkedIn URLs trimmed as given |
| ChapterApplication.SanitiseBody | api/src/functions/chapterApplication.js:130-151 | the stored application is built from the sanitised and trimmed fields |
| ChapterApplication.Apply | api/src/functions/chapterApplication.js:31-210 | a refused address gets 429 and changes no table; otherwise the limiter records the request and the outcome is that of `Screen`: a refusal writes nothing, a taken key gives 500 with nothing written, else the application is inserted at its key and the reply is `AfterStore` of the configuration (200, or 500 with the row kept) |
| ChapterApplication.Submit | api/src/functions/chapterApplication.js:44-208 | the handler after the limiter: a refusal from `Screen` changes nothing; an admitted application is inserted at its key unless the key is taken (500), and the reply is then `AfterStore`: 500 when a notifications channel is set without a signing secret, else 200 |
| ChapterApplication.AfterStore | api/src/functions/chapterApplication.js:156-208 | the reply after storing is 200 exactly when no notifications channel is configured or the signing secret is; otherwise signing the approval links throws and the reply is the outer catch's 500 |
| ChapterApplication.RetryAfterTokenFailureStoresTwice | api/src/functions/chapterApplication.js:153-160 | a retry after that 500, under a fresh id, leaves two distinct applications in the table |
| ContactForm.NewLimiter | api/src/functions/contactForm.js:5-9 | a fresh empty map, five requests per window of 3600000 ms |
| ContactForm.Problem | api/src/functions/contactForm.js:76-102 | None exactly when every field is present, within 100/200/5000 characters and the e-mail is valid; a missing field is reported before the other checks |
| ContactForm.Outcome | api/src/functions/contactForm.js:62-182 | 200 with the thanks message exactly when the body parsed, is acceptable and the webhook replied ok; an acceptable body with a failed webhook gives 500; a bad body gives 400 |
| ContactForm.Contact | api/src/functions/contactForm.js:38-191 | a method other than POST gives 405 and leaves the limiter alone; a refused address gives 429 with its stored list unchanged; otherwise the limiter records `now` and the reply is `Outcome` |
| BadgeDownload.Download | api/src/functions/badgeDownload.js:9-59 | no user gives 401; a missing id gives 400; an absent badge gives 404; a 200 reply carries a stored badge with the asked key whose caller is its owner or an administrator, with the file named after the lower-cased type |
| BadgeDownload.BadgeDownload | api/src/functions/badgeDownload.js:9-59 | the handler reads the badges table, writes nothing, and answers as `Download` |
| BadgeDownload.AllowedIffOwnerOrAdmin | api/src/functions/badgeDownload.js:29-35 | for a stored badge and a signed-in user, 200 exactly when the user owns it or is an administrator, 403 otherwise |
| BadgeDownload.UnownedBadgeIsAdminOnly | api/src/functions/badgeDownload.js:30-31 | a badge with an empty user id is downloadable by administrators only |
| Roles.Grant | api/src/functions/roles.js:10-46 | the granted roles are either none or exactly `admin` |
| Roles.GrantIsApprovedLead | api/src/functions/roles.js:12-31 | `admin` is granted exactly when the body names a user and details, and some approved application has the normalised details as first or second lead e-mail |
| Roles.AssignRoles | api/src/functions/roles.js:10-46 | always status 200; the roles are those of `Grant` over the applications table, which is not written |
| Roles.ApprovalGrantsAdmin | api/src/functions/roles.js:25-31 | once an application is approved, either of its leads signing in under any case or padding of the e-mail gets `admin` |
| Roles.RejectedLeadGetsNothing | api/src/functions/roles.js:25-31 | a lead whose only application is rejected gets no role |
| MyTickets.TicketOf | api/src/functions/myTickets.js:33-47 | the ticket carries the registration's id, event id and code; `checkedIn` keeps its truth and is `false` when falsy; without an event the event fields are `''` |
| MyTickets.TicketsOf | api/src/functions/myTickets.js:18-48 | one ticket per registration, in order, each with the event that its event id names |
| MyTickets.FetchedOnceSnoc | api/src/functions/myTickets.js:20-24 | looking an id up again keeps "each existing event fetched once" when the earlier lookups of it found nothing |
| MyTickets.CachedLookup | api/src/functions/myTickets.js:19-25 | the event found is the table's event with that id; the cache holds only found events and gains the id when found; at most one lookup is added, and only for an id not cached |
| MyTickets.BuildTickets | api/src/functions/myTickets.js:15-48 | the tickets are `TicketsOf` the registrations; every registration's event is looked up, only those ids are, and an event that exists is fetched at most once |
| MyTickets.AddTicket | api/src/functions/myTickets.js:19-47 | one turn of the loop adds the next registration's ticket and keeps the cache and lookup record true |
| MyTickets.MyTickets | api/src/functions/myTickets.js:8-60 | 401 without a user; otherwise 200 with the tickets of the caller's registrations |
| MyTickets.TicketsAreTheCallersOwn | api/src/functions/myTickets.js:13-18 | each ticket comes from a registration of the caller and has its code and event id; a caller with no registration gets an empty list |
| EventVolunteers.Listing | api/src/functions/eventVolunteers.js:29-39 | one view per stored volunteer of the event, in key order, with its row key as id |
| EventVolunteers.ListingInIdOrder | api/src/functions/eventVolunteers.js:29-39 | the listing of an event runs in strictly ascending id order, since its rows share one partition key |
| EventVolunteers.ListedRows | api/src/functions/eventVolunteers.js:29-39 | a stored volunteer of the event is listed, and every listed view is that of a stored volunteer of the event |
| EventVolunteers.NewVolunteerOf | api/src/functions/eventVolunteers.js:56-62 | the new volunteer has the generated id, the event, the caller as `addedBy`, and e-mail and name free of tags |
| EventVolunteers.Gate | api/src/functions/eventVolunteers.js:18-20 | the request goes on exactly when the caller has the admin role; no user gives 401, a non-admin 403 |
| EventVolunteers.EventVolunteers | api/src/functions/eventVolunteers.js:16-99 | GET lists the event's volunteers and writes nothing; POST inserts one row at its key (500 when the key is taken); DELETE drops the row with that key, and a key no row has gives 500, as the failing `deleteEntity` throws; bad JSON, missing members and other methods get 400 or 405 with nothing written |
| EventVolunteers.AddedIsListed | api/src/functions/eventVolunteers.js:29-68 | a volunteer just added under a fresh id is listed for its event, the listing grows by one, and every volunteer listed before still is |
| EventVolunteers.SameEmailTwice | api/src/functions/eventVolunteers.js:50-62 | adding one e-mail twice under two fresh ids makes two distinct rows with that e-mail, both listed, and the listing grows by two |
| EventVolunteers.RemovedIsNotListed | api/src/functions/eventVolunteers.js:78-83 | after DELETE the removed id is not listed, and every other volunteer of the event still is |
| Markup.EscapeEach | api/src/helpers/emailService.js:132-135 | the one-pass reference escape leaves no `<`, `>` or `"` |
| Markup.EscapeConcat | api/src/helpers/emailService.js:134 | the chain of replaces works piecewise over a concatenation |
| Markup.EscapeOfChar | api/src/helpers/emailService.js:134 | on one character the chain of replaces gives that character's entity, or the character itself |
| Markup.EscapeIsEscapeEach | api/src/helpers/emailService.js:134 | replacing `&` first makes the four chained replaces equal to one pass of entities: no entity is escaped twice |
| Markup.EscapeHasNoMarkup | api/src/helpers/badgeGenerator.js:12-15 | escaped text has no `<`, `>` or `"` |
| Markup.UnescapeAfterEntity | api/src/helpers/emailService.js:134 | decoding one entity and then the rest gives the character and the decoded rest |
| Markup.EachRoundTrip | api/src/helpers/emailService.js:134 | decoding the one-pass escape gives the text back |
| Markup.UnescapeEscape | api/src/helpers/badgeGenerator.js:12-15 | decoding escaped text gives the original back: escaping loses nothing |
| EmailService.EscapeHtml | api/src/helpers/emailService.js:132-135 | empty gives `''`; the result has no `<`, `>` or `"` and decodes back to the input |
| EmailService.QrPayload | api/src/helpers/emailService.js:21 | a URL with the PNG data prefix loses exactly that prefix; any other URL is kept |
| EmailService.QrPayloadOfDataUrl | api/src/helpers/emailService.js:21 | stripping the prefix from prefix + data gives the data back |
| EmailService.TicketAttachments | api/src/helpers/emailService.js:58-68 | at most one attachment, present exactly when the payload is non-empty, carrying the payload under content id `qrcode` |
| EmailService.DateTextInert | api/src/helpers/emailService.js:38 | the date line, with or without the end date, has no markup character |
| EmailService.TicketFacts | api/src/helpers/emailService.js:36-41 | the ticket e-mail's facts: event title, date line, location, attendee name and ticket code, each escaped and decoding back to that field |
| EmailService.TicketMessage | api/src/helpers/emailService.js:17-68 | sent to the registrant by name with subject `Your Ticket: ` and the title; the inline image exactly when there is a payload, else the fallback text; the facts show the event title, the date line, the location, the attendee name and the ticket code, each escaped so that it decodes back to that field |
| EmailService.BadgeVerb | api/src/helpers/emailService.js:97 | Speaker gives "speaking at", Organiser "organising", any other type "attending" |
| EmailService.BadgeFileNameIgnoresCase | api/src/helpers/emailService.js:114 | the attachment name does not depend on the case of the type and is itself lower case |
| EmailService.BadgeMessage | api/src/helpers/emailService.js:84-119 | sent to the given recipient with no QR, subject naming type and title; the heading names the verb and the escaped title; one SVG attachment named after the type; the facts show event title, date and role, each escaped and decoding back to that field |
| EmailService.CancellationFacts | api/src/helpers/emailService.js:153-158 | the cancellation e-mail's facts: name, title, date line, location and link slug, each escaped and decoding back to that field |
| EmailService.CancellationMessage | api/src/helpers/emailService.js:140-168 | sent to the registrant with no attachment; the facts show the name, the event title, the date line, the location and the slug of the event link, each escaped and decoding back to that field |
| BadgeGenerator.ColoursFor | api/src/helpers/badgeGenerator.js:6-10 | Speaker and Organiser have their own colours; every other type falls back to Attendee's |
| BadgeGenerator.VolunteerAndSponsorLookLikeAttendee | api/src/helpers/badgeGenerator.js:32 | the Volunteer and Sponsor types get the Attendee colours |
| BadgeGenerator.Truncate | api/src/helpers/badgeGenerator.js:17-20 | empty gives `''`; a string within the limit is kept; a longer one keeps `max - 1` characters and gains `…`, so it has exactly `max` |
| BadgeGenerator.GenerateBadge | api/src/helpers/badgeGenerator.js:31-79 | colours by type; the four text slots hold no markup character and decode back to the inputs cut to 40, 50, 30 and 45; the label is the escaped type upper-cased; the pill is 11 per character plus 24 wide |
| BadgeGenerator.EmptyInputsKeepLabel | api/src/helpers/badgeGenerator.js:31-59 | with every text empty the slots are empty and the label is still shown |
| BadgeGenerator.LabelOfPlainType | api/src/helpers/badgeGenerator.js:37-59 | a type of letters only is shown upper-cased, e.g. `SPEAKER` |
| BadgeGenerator.PlainEscapeEach | api/src/helpers/badgeGenerator.js:37 | escaping changes nothing in text of letters only |
| TableStorage.ApplicationEntity | api/src/helpers/tableStorage.js:14-36 | the stored application is keyed `applications`/id, always `pending`, stamped with `now`, with every submitted field copied and no lead edit |
| TableStorage.EventEntity | api/src/helpers/tableStorage.js:54-74 | the stored event is keyed by chapter slug and id; status defaults to `published`; the other fields are copied and `createdAt` is `now` |
| TableStorage.RegistrationEntity | api/src/helpers/tableStorage.js:127-143 | the stored registration is keyed by event and id, not checked in, with `checkedInAt` `''` and no role field |
| TableStorage.DemographicsEntity | api/src/helpers/tableStorage.js:195-208 | the demographics row sits at the registration's own key and copies the five answers |
| TableStorage.BadgeEntity | api/src/helpers/tableStorage.js:212-225 | the badge is keyed by event and id, carries recipient, type and user id, and is stamped `issuedAt` |
| TableStorage.VolunteerEntity | api/src/helpers/tableStorage.js:246-258 | the volunteer's e-mail is stored lower-cased and trimmed; name and `addedBy` are copied |
| TableStorage.NormaliseEmailIdempotent | api/src/helpers/tableStorage.js:251 | normalising a stored e-mail again changes nothing |
| TableStorage.MergeRegistration | api/src/helpers/tableStorage.js:185-191 | a Merge: each given member overwrites, every other field and the key are unchanged, and no timestamp is added |
| TableStorage.MergeRegistrationIdempotent | api/src/helpers/tableStorage.js:188 | merging the same update twice is merging it once |
| TableStorage.MergeApplication | api/src/helpers/tableStorage.js:43-50 | the status or leads given overwrite, `updatedAt` is set, everything else is kept |
| TableStorage.MergeEventStatus | api/src/helpers/tableStorage.js:116-123 | the status and `updatedAt` are set, everything else is kept |
| TableStorage.UnquoteQuote | api/src/helpers/tableStorage.js:84 | doubling each `'` in a filter literal loses nothing: collapsing `''` gives the value back |
| TableStorage.QuoteKeepsQuotesPaired | api/src/helpers/tableStorage.js:148 | a quoted literal has its quotes in pairs, so it cannot end the filter string early |
| TableStorage.Store.constructor | api/src/helpers/tableStorage.js:5-10 | every table starts empty, with unique keys |
| Tables.InsertContents | api/src/helpers/tableStorage.js:72 | a new row joins the table: the rows are the old ones and the new one |
| Tables.InsertSorted | api/src/helpers/tableStorage.js:72 | a row with a fresh key inserted into a table ordered by partition key and then row key leaves it so ordered |
| Tables.SortedFilter | api/src/helpers/tableStorage.js:103-114 | a filtered listing of an ordered table is ordered by key too |
| Tables.FindIsKeyLeast | api/src/helpers/tableStorage.js:81-101 | in an ordered table the first match of a scan has the least key among all matches |
| Tables.FilterInsert | api/src/helpers/tableStorage.js:168-178 | a new row the filter takes is in the filtered listing, which is the old listing with that row inserted at its key's place |
| TableStorage.Store.StoreApplication | api/src/helpers/tableStorage.js:14-36 | `createEntity`: the pending entity is inserted at its key's place exactly when the key is free, otherwise the table is unchanged |
| TableStorage.Store.GetApplication | api/src/helpers/tableStorage.js:38-41 | the row with that key, None exactly when there is none |
| TableStorage.Store.UpdateApplication | api/src/helpers/tableStorage.js:43-50 | None exactly when the row is missing; otherwise that row alone is merged and the merged row returned |
| TableStorage.Store.UpdateApplicationStatus | api/src/helpers/tableStorage.js:43-50 | the row's status and `updatedAt` set, nothing else changed; None when the row is missing |
| TableStorage.Store.GetApprovedApplicationByEmail | api/src/helpers/tableStorage.js:291-302 | the first approved application whose non-empty lead or second-lead e-mail, lower-cased, equals the trimmed, lower-cased query |
| TableStorage.Store.GetApprovedApplicationBySlug | api/src/functions/getChapter.js:22 | the first approved application whose city slug is the given slug |
| TableStorage.Store.StoreEvent | api/src/helpers/tableStorage.js:54-74 | the entity is inserted at its key's place exactly when the key is free |
| TableStorage.Store.GetEvent | api/src/helpers/tableStorage.js:76-79 | the event with that key, None exactly when there is none |
| TableStorage.Store.GetEventById | api/src/helpers/tableStorage.js:81-90 | the first event with that row key in key order: no other event with that row key has a smaller partition key |
| TableStorage.Store.GetEventBySlug | api/src/helpers/tableStorage.js:92-101 | None exactly when no event has the slug; otherwise an event with it whose key (partition, then row) is below that of every other event with the slug |
| TableStorage.Store.ListEvents | api/src/helpers/tableStorage.js:103-114 | every event for an empty slug, otherwise exactly the chapter's events, in key order |
| TableStorage.Store.UpdateEventStatus | api/src/helpers/tableStorage.js:116-123 | None exactly when the event is missing; otherwise that row alone gets the status and `updatedAt` |
| TableStorage.Store.StoreRegistration | api/src/helpers/tableStorage.js:127-143 | the registration entity is inserted at its key's place exactly when the key is free |
| TableStorage.Store.GetRegistrationByTicketCode | api/src/helpers/tableStorage.js:145-154 | the first registration of that event with that ticket code, None when there is none |
| TableStorage.Store.GetRegistrationsByUser | api/src/helpers/tableStorage.js:156-166 | exactly the user's registrations, in key order |
| TableStorage.Store.GetRegistrationsByEvent | api/src/helpers/tableStorage.js:168-178 | exactly the registrations of the event's partition, in key order |
| TableStorage.Store.CountRegistrations | api/src/helpers/tableStorage.js:180-183 | the number of the event's registrations |
| TableStorage.Store.GetRegistration | api/src/helpers/tableStorage.js:187 | the registration with that key, None exactly when there is none |
| TableStorage.Store.UpdateRegistration | api/src/helpers/tableStorage.js:185-191 | None exactly when the row is missing; otherwise that row alone is merged |
| TableStorage.Store.DeleteRegistration | api/src/functions/cancelRegistration.js:44 | the row with that key is gone and every other row stays, in order |
| TableStorage.Store.StoreDemographics | api/src/helpers/tableStorage.js:195-208 | the demographics entity is inserted at its key's place exactly when the key is free |
| TableStorage.Store.DeleteDemographics | api/src/functions/cancelRegistration.js:45 | the row with that key is gone and every other row stays |
| TableStorage.Store.StoreBadge | api/src/helpers/tableStorage.js:212-225 | the badge entity is inserted at its key's place exactly when the key is free |
| TableStorage.Store.GetBadge | api/src/helpers/tableStorage.js:227-230 | the badge with that key, None exactly when there is none |
| TableStorage.Store.GetBadgesByEvent | api/src/helpers/tableStorage.js:232-242 | exactly the event's badges, in key order |
| TableStorage.Store.StoreVolunteer | api/src/helpers/tableStorage.js:246-258 | the normalised entity is inserted at its key's place exactly when the key is free |
| TableStorage.Store.GetVolunteersByEvent | api/src/helpers/tableStorage.js:260-270 | exactly the event's volunteers, in key order |
| TableStorage.Store.RemoveVolunteer | api/src/helpers/tableStorage.js:272-275 | exactly the row with that key is deleted |
| TableStorage.Store.IsVolunteerForAnyEvent | api/src/helpers/tableStorage.js:277-287 | the first volunteer whose stored e-mail is the trimmed, lower-cased query |
| TableStorage.KeyLookup | api/src/helpers/tableStorage.js:40 | a point lookup finds a row with the key, and finds none exactly when no row has it |
| TableStorage.FindAfterFilter | api/src/helpers/tableStorage.js:294-300 | the first match in the approved rows is the first row that is approved and matches |
| TableStorage.StoredVolunteerIsFound | api/src/helpers/tableStorage.js:246-287 | a volunteer stored with an e-mail is found by any query that normalises alike, though storing lower-cases before trimming and the query trims first |
| Slug.KeepSlugChars | api/src/functions/createEvent.js:69 | only characters of `[a-z0-9\s-]` from the input are kept |
| Slug.DashSpaces | api/src/functions/createEvent.js:70 | no white space remains; every character is from the input or a `-` |
| Slug.CollapseDashes | api/src/functions/createEvent.js:71 | no `--` remains; no new character appears; the first character is kept |
| Slug.Prefix | api/src/functions/createEvent.js:72 | at most `n` characters, a prefix of the input |
| Slug.KeepSlugCharsOfKept | api/src/functions/createEvent.js:69 | text made only of `[a-z0-9\s-]` passes the filter unchanged |
| Slug.DashSpacesOfUnspaced | api/src/functions/createEvent.js:70 | text without white space passes the dash step unchanged |
| Slug.CollapseDashesOfSingle | api/src/functions/createEvent.js:71 | text with no `--` passes the collapse step unchanged |
| Slug.SlugBodyOfSlug | api/src/functions/createEvent.js:67-71 | a finished slug (a-z, 0-9, `-`, no `--`) is its own slug text |
| Slug.SlugBodyWellFormed | api/src/functions/chapterApproval.js:76-81 | the shared slug text is made of a-z, 0-9 and `-` only, with no `--` |
| Slug.EventSlugWellFormed | api/src/functions/createEvent.js:67-72 | the event slug has only a-z, 0-9 and `-`, no `--`, and at most 80 characters |
| Slug.CitySlugIsSlugBody | api/src/functions/chapterApproval.js:76-81 | the final `trim` of the city slug never changes anything |
| Slug.CitySlugWellFormed | api/src/functions/chapterApproval.js:76-81 | the city slug has only a-z, 0-9 and `-`, with no `--` |
| Slug.EventSlugIsCutCitySlug | api/src/functions/createEvent.js:67-72 | the event slug of a text is its city slug cut to 80 characters |
| Slug.EventSlugIdempotent | api/src/functions/createEvent.js:67-72 | the event slug of an event slug is that slug |
| Validators.IndexOf | api/src/functions/chapterApplication.js:88 | the position of the first occurrence of the character |
| Validators.SplitHasMore | api/src/functions/chapterApplication.js:88 | a separator present in the text splits it into at least two pieces |
| Validators.SplitAtOnly | api/src/functions/chapterApplication.js:88 | text with exactly one `@` splits into the parts before and after it |
| Validators.PatternImpliesValid | api/src/functions/chapterApplication.js:87-88 | a string the e-mail pattern matches passes the check |
| Validators.TwoPieces | api/src/functions/chapterApplication.js:88 | a split into two pieces has its one separator between them |
| Validators.ValidImpliesPattern | api/src/functions/chapterApplication.js:87-88 | a string passing the check is matched by the e-mail pattern |
| Validators.EmailCheckIsPattern | api/src/functions/contactForm.js:95-96 | the check accepts exactly the strings `^[^\s@]+@[^\s@]+\.[^\s@]+$` matches: one `@`, no white space, a non-empty local part, and a `.` strictly inside the domain |
| Validators.PrefixConcat | api/src/functions/chapterApplication.js:97-98 | a prefix made of two parts is the first part followed by a prefix of the rest |
| Validators.AfterSchemeHost | api/src/functions/chapterApplication.js:97-98 | what follows the scheme takes the host prefix exactly when the whole URL takes scheme and host |
| Validators.NotHttps | api/src/functions/chapterApplication.js:97-98 | an `http://` URL does not start with `https://` |
| Validators.LinkedInToPattern | api/src/functions/chapterApplication.js:97-98 | a URL passing the LinkedIn check starts, ignoring case, with one of the four prefixes |
| Validators.PatternToLinkedIn | api/src/functions/chapterApplication.js:97-98 | a URL starting, ignoring case, with one of the four prefixes passes the check |
| Validators.LinkedInCheckIsPattern | api/src/functions/chapterApplication.js:97-103 | the check passes exactly when the lower-cased URL starts with `http://` or `https://`, an optional `www.` and `linkedin.com/` |
| CreateEvent.CityStateCases | api/src/functions/createEvent.js:54 | "city state" is the city, the state, or both joined by one space, as given |
| CreateEvent.LocationLines | api/src/functions/createEvent.js:51-56 | the composed location's lines are the non-empty building and address lines in order, then "city state" exactly when either is set |
| CreateEvent.Screen | api/src/functions/createEvent.js:13-92 | a refusal has a 400, 401 or 403 status and no data; no user exactly when 401; an admitted event has every required field, tag-free title and description, the composed location, the length caps, the lower-cased trimmed chapter, the parsed cap or 0, status `published`, the caller as creator and a well-formed slug of at most 80 characters |
| CreateEvent.BodyObject | api/src/functions/createEvent.js:39-46 | the object given to `sanitiseFields` holds each body field, the single location under `legacyLocation` |
| CreateEvent.SanitiseBody | api/src/functions/createEvent.js:38-48 | each sanitised field is the body field with tags stripped |
| CreateEvent.Create | api/src/functions/createEvent.js:9-165 | a refusal changes nothing; an admitted event is inserted at its key with a 201 reply carrying id, slug and title, and a taken key gives 500 with nothing written; slug uniqueness is not checked |
| CreateEvent.CreateChecked | api/src/functions/createEvent.js:38-94 | once caller and required fields pass: the same outcome as `Screen`, with the store written only on admission |
| ChapterApproval.LinkRefusal | api/src/functions/chapterApproval.js:16-34 | a missing parameter or an action other than approve or reject gives 400; otherwise a token that fails or throws gives 403 "Invalid Token" |
| ChapterApproval.Decide | api/src/functions/chapterApproval.js:7-116 | a refused link changes nothing; an accepted link naming no application gives 404 and changes nothing; otherwise the outcome is `DecideFound` |
| ChapterApproval.DecideFound | api/src/functions/chapterApproval.js:44-111 | a non-pending application gives 200 "Already Processed" and no change; a pending one becomes `approved` on approve and `rejected` otherwise, with the reply of the GitHub step on approve |
| ChapterApproval.ApprovedReply | api/src/functions/chapterApproval.js:56-105 | missing GitHub settings give 500 "Configuration Error"; a failed dispatch gives the 500 error page; a sent dispatch gives 200 and carries the city slug it sent |
| ChapterApproval.ApprovedDespiteMissingConfig | api/src/functions/chapterApproval.js:50-65 | approving a pending application without GitHub settings answers 500 yet leaves it `approved` |
| ChapterApproval.FindIsTheRow | api/src/functions/chapterApproval.js:39 | with unique keys, the lookup of an id finds exactly the row with that key |
| ChapterApproval.StatusAfterUpdate | api/src/helpers/tableStorage.js:43-50 | after the status update the row with that id has the new status, and keys stay unique |
| ChapterApproval.FirstClickWrites | api/src/functions/chapterApproval.js:45-111 | a call that changes the table wrote `approved` or `rejected` into that row, keeping keys unique |
| ChapterApproval.RepeatedClickIsIdempotent | api/src/functions/chapterApproval.js:44-47 | after a click that changed the application, any further valid link for it answers "Already Processed" and changes nothing |
| ChapterApproval.ApproveFound | api/src/functions/chapterApproval.js:44-111 | the reply and the new application table are those of `DecideFound` |
| ChapterApproval.Approve | api/src/functions/chapterApproval.js:7-116 | the reply and the new application table are those of `Decide` |
| UpdateChapter.FirstIncomplete | api/src/functions/updateChapter.js:41-47 | the position of the first lead missing a name or an e-mail, every lead before it complete; None exactly when all are complete |
| UpdateChapter.FindIncomplete | api/src/functions/updateChapter.js:41-47 | the validation loop stops at `FirstIncomplete` |
| UpdateChapter.SanitiseLead | api/src/functions/updateChapter.js:57-64 | name cleaned, e-mail cleaned and lower-cased, every link tag-free |
| UpdateChapter.SanitiseLeads | api/src/functions/updateChapter.js:57-64 | one sanitised lead per lead, in order |
| UpdateChapter.CleanIdempotent | api/src/functions/updateChapter.js:58 | cleaning twice is cleaning once |
| UpdateChapter.CleanEmailIdempotent | api/src/functions/updateChapter.js:59 | a stored e-mail is unchanged by its own sanitising |
| UpdateChapter.SanitiseLeadIdempotent | api/src/functions/updateChapter.js:57-64 | re-submitting the stored leads stores the same leads |
| UpdateChapter.LowerKeepsTagFree | api/src/functions/updateChapter.js:59 | lower-casing tag-free text keeps it tag-free |
| UpdateChapter.Summaries | api/src/functions/updateChapter.js:139 | one name and e-mail pair per lead, in order |
| UpdateChapter.Screen | api/src/functions/updateChapter.js:18-47 | each refusal by iff, in the source's order: no user exactly when 401; a signed-in non-admin exactly when 403 "Only chapter leads can edit chapter details"; for an admin, no parsed body exactly when 400 "Invalid JSON", a missing slug or empty or missing leads exactly when 400 "Missing chapterSlug or leads array", more than 4 leads exactly when 400 "Maximum 4 leads allowed"; a refusal has no data; admitted exactly when the caller is an admin and the body has a slug and 1 to 4 complete leads; otherwise a well-formed list is refused naming the first incomplete lead's 1-based position |
| UpdateChapter.TextAppend | api/src/functions/updateChapter.js:151-171 | the newline-terminated text of two line lists is the concatenation of their texts |
| UpdateChapter.TextIsJoin | api/src/functions/updateChapter.js:151-171 | newline-terminated lines are their join with `\n` followed by an empty line |
| UpdateChapter.LeadLinesShape | api/src/functions/updateChapter.js:162-168 | each entry opens with the name and the hash of the lower-cased, trimmed e-mail, with one more line per link that is set |
| UpdateChapter.MarkdownFenced | api/src/functions/updateChapter.js:150-173 | the page begins and ends with `---\n` |
| UpdateChapter.LeadLinesSingle | api/src/functions/updateChapter.js:163-168 | no entry line breaks when no value does |
| UpdateChapter.LeadsLinesSingle | api/src/functions/updateChapter.js:161-169 | no entry line of any lead breaks when no value does |
| UpdateChapter.HeaderSingle | api/src/functions/updateChapter.js:151-159 | no front-matter line breaks when city, country and Discord ids have no line break |
| UpdateChapter.MarkdownLines | api/src/functions/updateChapter.js:150-173 | when no value holds a line break, the page splits on `\n` into exactly the front matter, one entry per lead in order, and the closing fence |
| UpdateChapter.LeadsLinesAppend | api/src/functions/updateChapter.js:161 | the entries of one more lead are the earlier entries followed by that lead's |
| UpdateChapter.AppendOptional | api/src/functions/updateChapter.js:165-168 | an optional line is appended exactly when its value is set |
| UpdateChapter.AppendLead | api/src/functions/updateChapter.js:162-168 | one loop pass appends exactly that lead's entry |
| UpdateChapter.AppendLines | api/src/functions/updateChapter.js:151-159 | each line is appended with its `\n` |
| UpdateChapter.MarkdownParts | api/src/functions/updateChapter.js:150-173 | the page is the front matter, then the entries, then the fence |
| UpdateChapter.BuildChapterMarkdown | api/src/functions/updateChapter.js:150-173 | the string the builder's loop produces is the page `ChapterMarkdown` |
| UpdateChapter.Update | api/src/functions/updateChapter.js:14-148 | a refusal changes nothing; no approved chapter for the slug gives 400; otherwise the sanitised leads are merged into that application and the reply is 200 with the summaries, `pageUpdated` true only when the page was written; the page is built from the sanitised leads whenever GitHub is configured |
| UpdateChapter.UpdateFound | api/src/functions/updateChapter.js:49-142 | from the lookup on: the same outcome as in `Update` |
| GetChapter.LeadsOf | api/src/functions/getChapter.js:28-57 | a stored `leadsJson` that parses is shown as stored; otherwise the applicant and, when named, the second lead, with empty twitter and website |
| GetChapter.View | api/src/functions/getChapter.js:8-74 | 401 exactly without a user, 403 exactly for a non-admin; 200 exactly for an admin with a slug matching an approved chapter, carrying its city, country, the slug and its leads; every other status is 400 |
| GetChapter.Get | api/src/functions/getChapter.js:8-74 | the handler reads the table, writes nothing and answers as `View` |
| GetChapter.EditedLeadsReadBack | api/src/functions/updateChapter.js:70-75 | after the chapter editor merges sanitised leads into the approved application, reading the same slug shows exactly those leads, given that parsing inverts encoding |
| GetEvent.View | api/src/functions/getEvent.js:7-48 | no slug gives 400; a slug no event has gives 404; 200 exactly when some event has the slug, showing the id and slug of the event with that slug whose key is least, and the number of its registrations |
| GetEvent.GetEvent | api/src/functions/getEvent.js:7-48 | no identity needed; the handler writes nothing and answers as `View` |
| GetEvent.ViewShowsKeyLeast | api/src/functions/getEvent.js:16-23 | when two chapters' events share a slug, the one shown has the smaller key |
| GetEvent.SameSlugTwoChapters | api/src/functions/getEvent.js:16-23 | with one slug used by a `perth` and an `adelaide` event, the page shows the `adelaide` one, whatever order they were created in |
| GetEvent.CreatedEventReadsBack | api/src/functions/getEvent.js:25-41 | an event stored with a fresh slug is shown with the id, title, dates, location, Sessionize id and cap it was created with |
| GetEvent.RegistrationRaisesCount | api/src/functions/getEvent.js:23 | a registration added to the event raises the count shown by one |
| CheckIn.CheckInUpdate | api/src/functions/checkIn.js:50-53 | the update marks the registration checked in at the given time and leaves its role alone |
| CheckIn.CheckIn | api/src/functions/checkIn.js:8-68 | no identity gives 401 and a caller who is neither admin nor volunteer 403; a non-JSON body or a missing ticket code or event id gives 400; no registration of the event with that ticket code gives 404 `invalid`; an already checked-in ticket reports its first check-in time and writes nothing; otherwise exactly that registration is rewritten as checked in now |
| CheckIn.Scan | api/src/functions/checkIn.js:37-63 | after the guards: no registration of the event with that ticket code gives 404 `invalid` and writes nothing; a checked-in one reports `already_checked_in` with its first time and writes nothing; otherwise exactly that row is marked checked in at `now` |
| CheckIn.SecondScanSeesFirstCheckIn | api/src/functions/checkIn.js:37-53 | after a first check-in the same ticket is found again as the same registration, checked in at the first call's time, so a second scan answers `already_checked_in` |
| CheckIn.CheckInTouchesOneRow | api/src/functions/checkIn.js:50-53 | a check-in leaves every other registration row as it was |
| CancelRegistration.FindOwn | api/src/functions/cancelRegistration.js:29-30 | the row found is one of the caller's registrations with the requested id, and nothing is found exactly when the caller has no registration with that id |
| CancelRegistration.Cancel | api/src/functions/cancelRegistration.js:9-59 | no identity gives 401; a non-JSON body or a missing registration id gives 400; a registration id the caller does not own gives 404; a checked-in registration cannot be cancelled (400, nothing written); otherwise the registration and the demographics row at its key are deleted and nothing else changes |
| CancelRegistration.CancelClearsDuplicate | api/src/functions/cancelRegistration.js:44-45 | after a cancellation the user has no registration left in that event, so registering again passes the duplicate check of api/src/functions/registerEvent.js:55-60 |
| RegisterEvent.Screen | api/src/functions/registerEvent.js:26-67 | bad JSON and a missing field are refused with 400 exactly when they occur; with a valid body the outcome is `ScreenEvent` of the event with the slug whose key is least; 409 only when this user already has a registration in that event's partition, whose ticket code it reports; an admission names that event |
| RegisterEvent.ScreenEvent | api/src/functions/registerEvent.js:41-67 | 404 exactly when no event was found; 400 closed exactly when it is closed; 409 exactly when it is open and the user has a registration there, reporting the ticket code of the first of them the scan finds; 400 full exactly when it is open, the user has none and the cap (0 meaning unlimited) is reached; admitted exactly in the remaining case, with that event |
| RegisterEvent.AdmitPicksKeyLeast | api/src/functions/registerEvent.js:41-47 | with two chapters' events sharing a slug, an admission registers for the one with the smaller key |
| RegisterEvent.DuplicateReportsKeyLeast | api/src/functions/registerEvent.js:53-60 | the 409 reports the ticket code of the user's registration with the least key in the event's partition |
| RegisterEvent.NewRegistrationFor | api/src/functions/registerEvent.js:73-82 | the new registration belongs to the event and the caller, has the role `attendee`, the ticket code made from the random bytes, and a tag-stripped, trimmed name and company and a trimmed e-mail |
| RegisterEvent.NewDemographicsFor | api/src/functions/registerEvent.js:87-95 | the demographics row is keyed by the event and the registration id, stores the job title tag-stripped and the other answers as given |
| RegisterEvent.TicketFor | api/src/functions/registerEvent.js:118-127 | the reply's registration carries the stored id, ticket code, name and company and the event's title, date and location |
| RegisterEvent.Register | api/src/functions/registerEvent.js:12-135 | no identity gives 401 and touches nothing; otherwise the `register` limiter of the client address is checked at 10 per hour, a denied request gets 429 and writes nothing, and an allowed one is screened: a refusal writes nothing, an admission inserts the registration and then the demographics row, answering 201, or 500 when a row with that key already exists |
| RegisterEvent.RegisterChecked | api/src/functions/registerEvent.js:26-129 | once identity and rate limit pass, the reply and the tables are as the guard chain and the admitted writes say |
| RegisterEvent.SanitiseBody | api/src/functions/registerEvent.js:39 | `sanitiseFields` strips the tags of the full name, job title and company |
| RegisterEvent.WriteRegistration | api/src/functions/registerEvent.js:70-129 | the registration is stored before the demographics row; a failing store stops the handler with 500 and leaves what was already written |
| RegisterEvent.AdmitKeepsOneRegistration | api/src/functions/registerEvent.js:53-60 | an admitted registration keeps every signed-in user to at most one registration per event |
| Tickets.HexDigit | api/src/functions/registerEvent.js:70 | a hex digit is a decimal digit or a lower-case a to f |
| Tickets.Hex | api/src/functions/registerEvent.js:70 | `toString('hex')` gives two digits per byte, high nibble first |
| Tickets.TicketCode | api/src/functions/registerEvent.js:70 | a ticket code is eight characters, each 0-9 or A-F |
| Tickets.TicketCodeUsesFourBytes | api/src/functions/adminRegister.js:65 | cutting to eight characters throws the fifth random byte away: codes agree whenever the first four bytes do |
| Tickets.TicketCodeDigits | api/src/functions/registerEvent.js:70 | each of the first four bytes gives two upper-cased hex digits of the code, in order |
| AdminRegister.AssignedRole | api/src/functions/adminRegister.js:32 | a missing role means `attendee`; a given role is kept |
| AdminRegister.Screen | api/src/functions/adminRegister.js:19-63 | a missing field, an invalid role, a missing event and a completed event each give their 400 exactly when they are the first check to fail; past those the outcome is `ScreenForEvent` over the event's registrations; admitted exactly when the body parses, the event exists and the request is admissible, and then with that event and the assigned role |
| AdminRegister.ScreenForEvent | api/src/functions/adminRegister.js:49-63 | 409 exactly when some registration of the event has the e-mail, ignoring case and surrounding white space; 400 over capacity exactly when there is none, the event is full and the role is not speaker, sponsor or organiser; admitted exactly otherwise, with that event and role |
| AdminRegister.ClosedOrFullEventAdmits | api/src/functions/adminRegister.js:44-63 | a closed event still takes administrator registrations: with no duplicate it admits when not full or for a bypass role, and refuses a full one with the capacity 400 for any other role |
| AdminRegister.NewRegistrationFor | api/src/functions/adminRegister.js:68-77 | the row written has no user and no company, the assigned role, the ticket code made from the random bytes, and a tag-stripped, trimmed name and e-mail |
| AdminRegister.AdminRegister | api/src/functions/adminRegister.js:11-111 | no identity gives 401 and a non-admin 403, both writing nothing; a refusal of the guard chain writes nothing; an admitted request inserts exactly one registration (no demographics) and answers 201 with the row's id, ticket code, role, name and e-mail, or 500 when a row with that key exists |
| AdminRegister.AdminRegisterChecked | api/src/functions/adminRegister.js:19-105 | once the caller is an admin, the reply and the registrations are as the guard chain and the write say |
| AdminRegister.AdminRegisterForEvent | api/src/functions/adminRegister.js:49-105 | the duplicate and capacity guards over the event's registrations, then the write |
| AdminRegister.WriteRegistration | api/src/functions/adminRegister.js:65-105 | the admitted write inserts the one new registration and replies 201 with it |
| AdminRegister.AdminRowKeepsOneRegistration | api/src/functions/adminRegister.js:71 | rows written without a user keep every signed-in user to one registration per event |
| IssueBadges.RoleToBadgeTypeCapitalises | api/src/functions/issueBadges.js:48-54 | the role map covers exactly the five valid roles and sends each to itself with its first letter upper-cased |
| IssueBadges.BadgeTypeOf | api/src/functions/issueBadges.js:61-62 | a missing role counts as `attendee`; a valid role gives its capitalised name and any other role `Attendee` |
| IssueBadges.BadgeFor | api/src/functions/issueBadges.js:72-79 | the badge stored for a registration carries the event id, the fresh id, the registration's e-mail, name and user id, and the type its role gives |
| IssueBadges.Step | api/src/functions/issueBadges.js:59-91 | one turn of the loop either stores the badge and counts it or, when its key is taken, stores nothing and records an error for that e-mail |
| IssueBadges.IssueOver | api/src/functions/issueBadges.js:56-92 | every eligible registration ends up counted as issued or as an error; the badges table keeps every old row and gains exactly the issued badges, all of the event and issued now |
| IssueBadges.NextKeyIsFree | api/src/functions/issueBadges.js:63 | with fresh ids the next badge's key is not yet in the table |
| IssueBadges.FreshIdsIssueAll | api/src/functions/issueBadges.js:56-92 | with fresh ids nothing fails: there are no errors, every eligible registration is counted, and the table gains exactly the badges `IssuedBadges` lists, one per eligible registration |
| IssueBadges.IssuedBadges | api/src/functions/issueBadges.js:59-79 | one badge per registration, the i-th with the i-th fresh id, of the event and issued now |
| IssueBadges.IssuedBadgesPrefix | api/src/functions/issueBadges.js:59-79 | the badges of a longer run begin with those of a shorter one |
| IssueBadges.AsWrittenHidesIssuedBadge | api/src/functions/issueBadges.js:97 | one checked-in attendee and a fresh id: the badge is stored, yet the reply as written is 500, while the intended reply reports one of one issued |
| IssueBadges.Screen | api/src/functions/issueBadges.js:14-45 | 401 exactly when there is no identity, 403 exactly for a non-admin, 400 for bad JSON and for a missing field exactly when they occur, 404 exactly when no event has that chapter and id; admitted exactly when every check passes, and then its eligible list is exactly the event's registrations whose checkedIn is `true` or `'true'` |
| IssueBadges.Prepare | api/src/functions/issueBadges.js:14-40 | the handler's checks and reads against the store decide as `Screen` |
| IssueBadges.IssueLoop | api/src/functions/issueBadges.js:56-92 | the loop leaves the badges table, the issued count and the error list as `IssueOver` describes |
| IssueBadges.Issue | api/src/functions/issueBadges.js:11-104 | a refusal writes nothing; no eligible registration gives the 200 `No eligible recipients found` reply; otherwise the badges are stored as `IssueOver` describes and the reply reports the issued count, the number of eligible registrations as total, and the errors when there are any |
| IssueBadges.IssueScreened | api/src/functions/issueBadges.js:38-103 | after the checks: no eligible registration gives the 200 `No eligible recipients found` reply and writes nothing; otherwise the loop runs as `IssueOver` describes and the reply reports it |
| IssueBadges.IssueAsWritten | api/src/functions/issueBadges.js:94-103 | the handler as written stores the same badges, but a non-empty run answers 500 |
| EventAttendance.Summary | api/src/functions/eventAttendance.js:53-63 | an event's dashboard entry carries its id, its count, its cap, and its chapter slug falling back to the partition key |
| EventAttendance.Enrich | api/src/functions/eventAttendance.js:50-64 | one entry per listed event, in order, each with the number of registrations in that event's partition |
| EventAttendance.CheckedInOrFalse | api/src/functions/eventAttendance.js:104 | `checkedIn \|\| false` keeps a truthy flag as it is and turns every falsy one into `false` |
| EventAttendance.DetailOf | api/src/functions/eventAttendance.js:76-109 | the detail's total is the number of registrations, its checked-in count is the number with a truthy flag (so never above the total), and each attendee carries its registration's ticket code and check-in state |
| EventAttendance.YesNo | api/src/functions/eventAttendance.js:84 | the CSV's check-in cell is `Yes` exactly when the flag is truthy, otherwise `No` |
| EventAttendance.CsvRows | api/src/functions/eventAttendance.js:83-85 | one CSV row per registration, in order |
| EventAttendance.NameCellRoundTrip | api/src/functions/eventAttendance.js:84 | doubling the quotes of the name is undone by reading the cell back, and leaves no unpaired quote |
| EventAttendance.CsvLines | api/src/functions/eventAttendance.js:82-89 | when no row holds a line break, the file's lines are the header followed by one row per registration |
| EventAttendance.SetStatus | api/src/functions/eventAttendance.js:22-41 | a non-JSON body, a missing field or a status other than published, closed or completed gives 400 and writes nothing; a valid status is written to the event at that key from any current status, answering 200 with it, or 500 when no such event exists |
| EventAttendance.Read | api/src/functions/eventAttendance.js:43-109 | `action=list` lists every event, or the chapter's events, each with its registration count; otherwise a missing event id gives 400, and the event's registrations are answered as the CSV file `attendance-<eventId>.csv` with `format=csv` and as the JSON detail without it; nothing is written |
| EventAttendance.Attendance | api/src/functions/eventAttendance.js:14-115 | no identity gives 401 and a non-admin 403, both writing nothing; an admin's POST answers and writes as the status branch says, and any other method answers as the read branch says and writes nothing |
| UpdateRegistrationRole.RoleUpdate | api/src/functions/updateRegistrationRole.js:45 | the merge sets the role and nothing else |
| UpdateRegistrationRole.RoleErrors | api/src/functions/updateRegistrationRole.js:39-50 | at most one error per requested id, each naming a requested id |
| UpdateRegistrationRole.NotFoundErrors | api/src/functions/updateRegistrationRole.js:41 | a `Registration not found` error for each id given, in order |
| UpdateRegistrationRole.NotFoundErrorsSnoc | api/src/functions/updateRegistrationRole.js:41 | one more unknown id adds its error at the end |
| UpdateRegistrationRole.KnownLast | api/src/functions/updateRegistrationRole.js:40-46 | a known id whose write succeeds adds no error |
| UpdateRegistrationRole.UnknownLast | api/src/functions/updateRegistrationRole.js:40-42 | an unknown id adds its `Registration not found` error at the end |
| UpdateRegistrationRole.ErrorsAreUnknownIds | api/src/functions/updateRegistrationRole.js:39-50 | when no write fails, the errors are exactly the ids the event has no registration for, in request order |
| UpdateRegistrationRole.UpdateRoles | api/src/functions/updateRegistrationRole.js:8-64 | no identity gives 401 and a non-admin 403; a non-JSON body, a missing event id or role, or a registration id list that is missing, not an array or empty gives 400, and so does a role outside the five valid ones, all writing nothing; otherwise exactly the event's registrations named in the list whose write succeeds get the role, and the reply counts the ids that did not fail and lists the errors when there are any |
| UpdateRegistrationRole.BuildRegMap | api/src/functions/updateRegistrationRole.js:33-34 | the map has an entry exactly for each row key among the registrations |
| UpdateRegistrationRole.RoleErrorsStep | api/src/functions/updateRegistrationRole.js:39-50 | handling one more id adds its own error, if any, at the end |
| UpdateRegistrationRole.SkippedStep | api/src/functions/updateRegistrationRole.js:40-49 | an unknown id or a failed write changes no row |
| UpdateRegistrationRole.WrittenStep | api/src/functions/updateRegistrationRole.js:45 | merging the role into one more known row is the rewrite over one more id |
| UpdateRegistrationRole.RoleStep | api/src/functions/updateRegistrationRole.js:40-49 | one turn of the loop keeps the errors and the rows as the loop's description over the ids handled so far |
| UpdateRegistrationRole.RoleLoop | api/src/functions/updateRegistrationRole.js:32-50 | after the loop the errors are those of every requested id, in order, and the rows are rewritten exactly where the id is known and the write succeeds |

## Left out

- Azure SDK calls: the Table client and the Communication Email client are network I/O. The tables are the in-memory `Store`. A failed or throwing e-mail send never changes a handler's reply, so sending is not modelled; only the message each send would build is (`EmailService`).
- Discord and GitHub calls (`discordBot.js`, the Octokit dispatch and content writes in `createEvent.js`, `chapterApproval.js` and `updateChapter.js`) are network I/O. Where their outcome decides the reply (the contact form's webhook, the approval page, the chapter page write), it is a parameter. `createEvent.js` ignores that outcome, so there the calls are left out entirely, including the dispatch payload's `safe.location` (line 120), which is always undefined.
- `tokenHelper.js` (HMAC-SHA256 approval tokens) is foreign cryptography. Verification is the parameter `verify`, answering true, false or "threw" (None). Generation in `chapterApplication.js` is modelled only by whether it throws: it does when a notifications channel is configured and `APPROVAL_TOKEN_SECRET` is not (the `channelSet` and `secretSet` parameters of `ChapterApplication.Apply`); the token text itself is not.
- Randomness and time: `randomBytes`, `randomUUID`, `Date.now`/`new Date()`, QR generation, base64, UTF-8 and JSON decoding and encoding, and md5 are parameters or uninterpreted functions.
- Concurrency: the model is sequential. Nothing is claimed about two instances that both pass the duplicate or capacity check before either writes (`registerEvent.js:55-84`, `adminRegister.js:50-79`). The limiter maps are per process and reset on a cold start; the model holds one limiter object per process.
- Front-end scripts under `src/js`, the service worker `src/sw.js` and the runtime registration in `api/src/app.js` are not part of this model.
- `isVolunteerOrOrganiserByRegistration` and a `volunteer` role from the roles hook: `api/tests/functions.test.js:213-229` expects them, but `roles.js` has no such code, so the hook grants only `admin`.
- `getApprovedApplicationBySlug`, `deleteRegistration` and `deleteDemographics` are imported by `getChapter.js`, `updateChapter.js` and `cancelRegistration.js` but not defined in `tableStorage.js`. They are modelled by their evident meaning: the first approved application whose city gives that slug under `citySlug`, and deletion of the row at that key (nothing when it is absent).
- `VALID_ROLES` is imported by `adminRegister.js` and `updateRegistrationRole.js` but not exported by `tableStorage.js`, so as written `VALID_ROLES.includes` throws and both handlers answer 500 for every valid request. The model uses the five roles of `api/tests/functions.test.js:30` (attendee, volunteer, speaker, sponsor, organiser), as the handlers evidently intend.
- `storeRegistration` writes no `role`, so the role `adminRegister.js` chooses is not stored; a registration has a role only after `updateRegistrationRole.js` merges one. The model keeps that: a new registration's role is None.
- A point read (`getEntity`) that would throw for a missing row gives None; a Merge update of a missing row fails, and the handler's outer `catch` answers 500.
- JSON values that are not strings (numbers, booleans, objects where text is expected) are outside the model: every body member is text, `""` when missing, null or falsy. The one exception is `registrationIds`, which is None when missing or not an array. A body that parses to `null` or to a non-object is outside the model as well: there the source's destructuring of `await request.json()` throws and the outer `catch` answers 500, whereas the model reads every body either as unparsed (None, a 400) or as an object of fields.
- String lengths are counted in Unicode scalar values; JavaScript counts UTF-16 code units, so the length caps differ for text outside the Basic Multilingual Plane. `toLowerCase`/`toUpperCase` are modelled for ASCII letters only.
- `parseInt` is modelled for decimal text (white space, optional sign, digits, anything after ignored); hexadecimal prefixes and `NaN` arithmetic are not.
- `MyTickets.CachedLookup`: `eventCache` is a plain object, so an event id such as `constructor` would find an inherited property instead of a lookup. The model's cache is a map without inherited keys.
- UpdateRegistrationRole.UpdateRoles: `regMap` is a plain `{}`, so a requested id such as `constructor` or `toString` finds an inherited property, counts as known and is merged (and fails as a missing row). The model's map has no inherited keys, so such an id is reported as `Registration not found`; `UpdateRegistrationRole.RoleLoop` carries the same simplification.
- Key order: Azure Table Storage lists rows by partition key and then row key. The model compares keys character by character by code point, with a proper prefix first; Azure compares UTF-16 code units, which orders the same for text within the Basic Multilingual Plane.
- `BadgeDownload.BadgeSvg`: the badge is regenerated with the event's id as its title and empty date and location, as the source does; the SVG text itself is not modelled.
- The fixed SVG template of `badgeGenerator.js`, the fixed HTML of the e-mails (and their footer year), and the HTML of the approval pages are not modelled; only the parts that depend on the inputs are.
- Diagnostics written with `context.log` are not modelled.

## Findings

| source | as written | input that shows it | evidently intended | confidence | as-written member | corrected member |
|---|---|---|---|---|---|---|
| api/src/functions/issueBadges.js:97 | the success reply reads `recipientList.length`, a name that is not defined, so building it throws and the outer `catch` answers 500 after the badges have been stored | an admin issues badges for an event with one checked-in attendee and a fresh badge id: the badge is stored and the reply is 500 | 200 with `issued`, `total` equal to the number of eligible registrations, and `errors` when any | not executed | IssueBadges.AsWrittenHidesIssuedBadge, IssueBadges.IssueAsWritten | IssueBadges.Issue |
