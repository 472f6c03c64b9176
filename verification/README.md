# b2bee lead and booking lifecycle, in Dafny

This project models the server core of the b2bee landing site, along with the
small pieces of admin logic around it:

- **Lead capture.** A visitor submits a lead, which is stored as NEW and may
  name a product (a "bee").
- **Booking.** The calendar provider's webhook books the lead. A booking is
  keyed by the provider's booking uid. If no booking has that uid yet, the
  webhook falls back to the most recent lead whose email matches the first
  attendee.
- **Other booking routes.** A direct booking route and a manual booking route
  also create bookings.
- **Reminders.** Leads that stay NEW get one reminder email. A scheduled job
  sends them in batches of fifty, and a manual trigger sends one for a single
  lead.
- **Admin.** Sales-outreach and marina ABM pages can be created, with their
  schema, their uniqueness rules and the two forms that post them. The
  boat-fund ledger and its admin page are modelled too.
- **Small public pieces:**
  - the active-product listing;
  - the sitemap;
  - the path-prefix gate in front of `/admin`.

Each route handler is a pure function from the store, the request and the
current instant to a reply and the new store. Names have the form
`(st, request, now) -> Step(reply, st')`.

- **The store.** A `Store` value with one sequence per table, in insertion
  order. Row ids are naturals handed out by one counter. Times are
  milliseconds.
- **Outside effects are parameters.** Anything outside the handler is a
  parameter:
  - `send: Lead -> bool` for the reminder email;
  - `notified: bool` for the lead notification;
  - `isEmail`, `isUrl` and `isDatetime` for the schema's string validators;
  - `parse` for `JSON.parse` in the page form;
  - `available: bool` for whether the sitemap could read the store.
- **JavaScript truthiness.** The code's truthiness tests on optional strings
  are written out:
  - `Text.Filled` is a present, non-empty string;
  - `Text.OrAbsent` is `x || undefined`;
  - `Text.OrDefault` is `x || fallback`.

Modules, one per source file or shared concern:

| module | file | models |
|---|---|---|
| `Wrappers`, `Text`, `Queries` | wrappers.dfy, text.dfy, queries.dfy | option type, string truthiness, `orderBy`/`take`/`where`/`findFirst` |
| `Store` | store.dfy | rows, the store, id-based lookups |
| `CalWebhook` | cal_webhook.dfy | `POST /api/webhooks/cal` |
| `Reminders` | reminders.dfy | `GET /api/cron/send-reminders`, `POST /api/test-reminder` |
| `LeadIntake` | lead_intake.dfy | `POST /api/lead` |
| `BookingRoutes` | booking_routes.dfy | `POST /api/booking`, `POST /api/manual-booking` |
| `AbmPages` | abm_pages.dfy | `POST /api/abm-pages` |
| `AbmMarinas` | abm_marinas.dfy | `GET`/`POST /api/abm-marinas` |
| `BoatFund` | boat_fund.dfy | `GET`/`POST /api/boat-fund` |
| `BoatFundPage` | boat_fund_page.dfy | the boat-fund admin page |
| `LinkedIn`, `AdminForms` | linkedin.dfy, admin_forms.dfy | the two ABM admin forms |
| `BeesApi` | bees_api.dfy | `GET /api/bees` |
| `Sitemap` | sitemap.dfy | the sitemap |
| `Middleware` | middleware.dfy | the admin gate |
| `Server` | server.dfy | the writing routes applied in sequence, and what holds of every store they reach |

Behaviour worth noting:

- **Webhook PING.** The webhook has no special case for a PING event. Every
  event without a uid is answered 400.
- **Product on fallback bookings.** A booking created by the webhook fallback
  carries no product. Only the manual booking copies the lead's product.
- **Marina identifiers.** The marina route does not look for an existing
  page with the identifier. The column is unique in the store, so a duplicate
  insert is rejected there and the route's catch answers 500. The schema file
  is not part of this model; the uniqueness is taken from the code's
  `findUnique` lookups by identifier
  (src/app/bee/smart-marina/[identifier]/page.tsx:11-12).

## Model

| member | source | states |
|---|---|---|
| Text.OrAbsent | src/app/api/lead/route.ts:50-56 | `x \|\| undefined`: the result is present exactly when the input is a non-empty string, and is then the input |
| Text.OrDefault | src/app/api/boat-fund/route.ts:47 | `x \|\| fallback`: the string when it is non-empty, the fallback otherwise |
| Text.JoinLinesEmpty | src/app/api/lead/route.ts:89-95 | the joined text is empty only for no items or a single empty item |
| Text.NatToDecimal | src/app/api/manual-booking/route.ts:35 | the decimal text of a timestamp is non-empty, all digits, with no leading zero, and read back as a decimal number it is the timestamp |
| Queries.Sort | src/app/api/abm-marinas/route.ts:7-9 | an `orderBy` result is a permutation of the rows, ordered by the key |
| Queries.Take | src/app/api/cron/send-reminders/route.ts:43 | `take: n` is the prefix of length min(n, size) |
| Queries.Top | src/app/api/boat-fund/route.ts:9-12 | `orderBy` then `take`: at most n rows, ordered, drawn from the input (all of them when there are at most n), and every row left out ranks no better than every row kept |
| Queries.Filter | src/app/api/bees/route.ts:7 | `where`: only rows satisfying the predicate, drawn from the input as a sub-multiset, and every satisfying row is kept |
| Queries.FilterExact | src/app/api/bees/route.ts:7 | `where` keeps each satisfying row exactly as often as it occurs and no other row, in the input's order |
| Queries.FirstIndex | src/app/api/webhooks/cal/route.ts:27-29 | `findFirst` in insertion order: the first match, and no match before it; none exactly when nothing matches |
| Store.LatestWithEmail | src/app/api/webhooks/cal/route.ts:36-39 | the most recently created lead with the email; none exactly when no lead has it; later rows with the email are strictly older |
| Store.LeadIndex | src/app/api/booking/route.ts:27-44 | the lead with the id; none exactly when no lead has it |
| Store.BookingWithProvider | src/app/api/webhooks/cal/route.ts:27-29 | the first booking with the provider uid; none exactly when no booking has it |
| Store.BeeBySlug | src/app/api/lead/route.ts:35-41 | a product with the slug, drawn from the store; none exactly when no product has it |
| Store.BeeById | src/app/api/manual-booking/route.ts:17-21 | the lead's product when the reference is set and names a product; none otherwise |
| Store.SetLeadStatus | src/app/api/webhooks/cal/route.ts:53-56 | only the one lead's status changes; well-formedness is kept |
| Store.AddBooking | src/app/api/webhooks/cal/route.ts:43-51 | one booking appended under the next id; nothing else changes; well-formedness is kept |
| CalWebhook.FirstAttendeeEmail | src/app/api/webhooks/cal/route.ts:35 | the first attendee's email when truthy; later attendees are never consulted |
| CalWebhook.Overwrite | src/app/api/webhooks/cal/route.ts:72-73 | an update value of `undefined` keeps the column; a supplied one replaces it |
| CalWebhook.ApplyEvent | src/app/api/webhooks/cal/route.ts:66-95 | CREATED confirms and overwrites the supplied times; CANCELLED cancels and keeps them; RESCHEDULED reschedules and overwrites them; any other trigger changes nothing; the id, lead, provider id and product never change |
| CalWebhook.FallbackLead | src/app/api/webhooks/cal/route.ts:35-39 | the most recent lead with the first attendee's email; none exactly when there is no such email or no such lead |
| CalWebhook.Handle | src/app/api/webhooks/cal/route.ts:21-97 | 400 with no change exactly when the uid is missing. A matched booking gets the trigger's update and nothing else changes. When unmatched with no lead for the attendee, nothing changes. When unmatched with a lead, exactly one booking is appended: CONFIRMED iff the trigger is CREATED, PENDING otherwise, with the payload's times and no product, and only that lead becomes BOOKED. Well-formedness is kept |
| CalWebhook.BookingsWithProvider | src/app/api/webhooks/cal/route.ts:27-29 | the count of bookings with a provider uid is zero exactly when `findFirst` finds none |
| CalWebhook.BookingsWithProviderAppend | src/app/api/webhooks/cal/route.ts:43-51 | appending a booking raises the count for its own uid by one and leaves other uids' counts alone |
| CalWebhook.BookingsWithProviderUpdate | src/app/api/webhooks/cal/route.ts:68-93 | an update that keeps the provider id keeps every count |
| CalWebhook.DeliveryKeepsProviderIdUnique | src/app/api/webhooks/cal/route.ts:27-63 | starting from at most one booking with the uid, a delivery leaves exactly one or changes nothing |
| CalWebhook.ReplayAddsNoBooking | src/app/api/webhooks/cal/route.ts:27-63 | replaying any event adds no booking and changes no lead |
| CalWebhook.ReplayIsIdempotent | src/app/api/webhooks/cal/route.ts:31-95 | a replay leaves the store as the first delivery did, unless the event was an unmatched cancellation or reschedule |
| CalWebhook.UnmatchedCancellationReplayDiffers | src/app/api/webhooks/cal/route.ts:47 | a concrete store where that exception shows: the first delivery leaves PENDING, the replay CANCELLED |
| Reminders.Cutoff | src/app/api/cron/send-reminders/route.ts:22-23 | the cutoff is never after now, and is strictly before it for a positive delay |
| Reminders.Reminded | src/app/api/cron/send-reminders/route.ts:62-65 | stamping sets the reminder time to now and changes nothing else |
| Reminders.DueIndices | src/app/api/cron/send-reminders/route.ts:27-34 | exactly the positions of the leads that are NEW, never reminded and created by the cutoff, in increasing order |
| Reminders.Batch | src/app/api/cron/send-reminders/route.ts:27-44 | at most fifty due leads, in store order; below fifty, every due lead |
| Reminders.MarkRemindedPointwise | src/app/api/cron/send-reminders/route.ts:54-74 | after the loop, a lead is stamped exactly when it was selected and its send succeeded; every other lead is unchanged |
| Reminders.SentCount | src/app/api/cron/send-reminders/route.ts:66-68 | successes are at most the batch; all succeeded iff the count equals the batch; none iff the count is zero |
| Reminders.RunJob | src/app/api/cron/send-reminders/route.ts:8-82 | 401 with no change exactly when a secret is set and the header is not `Bearer <secret>`. Otherwise the reply counts the batch (at most fifty), and sent plus failed equals total. Exactly the selected leads whose send succeeded are stamped. Every selected lead was due, and below fifty every due lead is selected |
| Reminders.DueIndicesPrefix | src/app/api/cron/send-reminders/route.ts:27-34 | the due positions of a prefix are a prefix of the due positions |
| Reminders.SelectBatch | src/app/api/cron/send-reminders/route.ts:27-44 | the scan that stops at fifty selects exactly the batch |
| Reminders.SendStep | src/app/api/cron/send-reminders/route.ts:54-74 | one more loop iteration extends the stamping and the count by that lead |
| Reminders.SendBatch | src/app/api/cron/send-reminders/route.ts:48-74 | the loop produces the stamped leads and the success count, and sent plus failed equals the batch size |
| Reminders.RunJobLoop | src/app/api/cron/send-reminders/route.ts:8-82 | the imperative handler computes the same reply and store as the functional job |
| Reminders.RunJobCompleted | src/app/api/cron/send-reminders/route.ts:48-82 | an authorized run replies with the batch size, the sent count and the rest as failed, and stores the stamped leads |
| Reminders.RunJobKeepsWellFormed | src/app/api/cron/send-reminders/route.ts:62-65 | the job keeps ids distinct |
| Reminders.SecondRunSendsNothing | src/app/api/cron/send-reminders/route.ts:27-74 | when every send succeeds and fewer than fifty are due, an immediate second run replies 0/0/0 |
| Reminders.SendTestReminder | src/app/api/test-reminder/route.ts:10-96 | 400 iff no email; 404 iff no lead has it; for the most recent lead: already reminded gives 200 with the stamp; not NEW gives 200; otherwise a successful send stamps only that lead, and a failed send gives 500 with no change |
| Reminders.ManualReminderIgnoresAge | src/app/api/test-reminder/route.ts:47-77 | a lead created this instant is reminded by hand while the job still considers it too young |
| LeadIntake.RequiredText | src/app/api/lead/route.ts:7-8 | no issue exactly when the string is present and non-empty; at most one issue, on that field: "Required" when missing, the field's own message when empty |
| LeadIntake.Validate | src/app/api/lead/route.ts:6-17 | no issues exactly when both names are non-empty and the email is valid; issues name only those fields, first name first |
| LeadIntake.ChosenBee | src/app/api/lead/route.ts:33-41 | a product only when the slug is truthy and matches; none exactly when the slug is falsy or unmatched |
| LeadIntake.PrefillNotesShape | src/app/api/lead/route.ts:89-95 | the notes are empty exactly when no item is present; they start with the first present item, in the fixed order company, product, notes |
| LeadIntake.Submit | src/app/api/lead/route.ts:30-117 | 400 with every issue and no change iff invalid. Otherwise exactly one NEW lead is appended with the next id. Empty optional strings are stored as absent, and an unmatched slug gives no product. The prefill carries the full name, the email and the notes built from what was stored |
| LeadIntake.NotificationDoesNotMatter | src/app/api/lead/route.ts:63-83 | the notification's outcome changes neither reply nor store |
| LeadIntake.NewLeadIsLatestForEmail | src/app/api/lead/route.ts:45-58 | the new lead is what a later lookup by its email finds, when no existing lead was created after it |
| BookingRoutes.DatetimeIssues | src/app/api/booking/route.ts:8-9 | an optional datetime gives an issue exactly when present and invalid |
| BookingRoutes.Validate | src/app/api/booking/route.ts:5-11 | no issues exactly when the lead id is present and each given time is a datetime |
| BookingRoutes.CreateBooking | src/app/api/booking/route.ts:13-60 | 400 iff the schema fails; 500 with no change iff the lead id names no lead. Otherwise one PENDING booking is appended with no provider-id check, with the product only for a matching slug, and only that lead becomes BOOKED |
| BookingRoutes.DirectRouteDuplicatesProviderId | src/app/api/booking/route.ts:27-38 | the direct route raises the count of bookings with a provider id even when one exists |
| BookingRoutes.ManualProviderId | src/app/api/manual-booking/route.ts:35 | the provider id is `manual_` followed by decimal digits that denote the current instant |
| BookingRoutes.ManualProviderIdsDistinct | src/app/api/manual-booking/route.ts:35 | manual bookings made at different instants get different provider ids |
| BookingRoutes.BeeName | src/app/api/manual-booking/route.ts:56 | the product name shown is the name of the product the lead refers to when that product exists and its name is non-empty; it is "None" when the lead has no product or the reference names none, and is never empty |
| BookingRoutes.CreateManualBooking | src/app/api/manual-booking/route.ts:9-60 | 400 iff no email; 404 iff no lead has it. Otherwise the most recent such lead gets one CONFIRMED booking a day ahead with its product and a `manual_` provider id, becomes BOOKED, and the reply names the lead and the product |
| AbmPages.Check | src/app/api/abm-pages/route.ts:5-31 | one field's issue list is empty exactly when the field has its shape |
| AbmPages.Validate | src/app/api/abm-pages/route.ts:5-31 | no issues exactly when the body meets the schema |
| AbmPages.BodyRoundTrip | src/app/api/abm-pages/route.ts:5-31 | encoding page data as a body and validating it succeeds exactly for acceptable data, and then parses back to the same data |
| AbmPages.Create | src/app/api/abm-pages/route.ts:35-61 | 400 with the issues iff invalid; 400 iff the identifier is already used; otherwise one page is appended with the parsed data. Identifier uniqueness is kept |
| AbmPages.SecondPageWithSameIdentifierRefused | src/app/api/abm-pages/route.ts:39-48 | after one page is created, a second valid body with the same identifier is refused |
| AbmMarinas.Create | src/app/api/abm-marinas/route.ts:22-65 | 400 with no change iff a required field is falsy; 500 with no change iff the identifier is already used. Otherwise one page is appended with those fields. An empty title or hero message is stored as null, and the page is active unless the flag is explicitly false. Identifier uniqueness is kept |
| AbmMarinas.SecondPageWithSameIdentifierFails | src/app/api/abm-marinas/route.ts:45-65 | after one page is created, a second one with the same identifier fails with 500 and changes nothing |
| AbmMarinas.List | src/app/api/abm-marinas/route.ts:5-11 | every page, each once, newest first |
| BoatFund.SumAppend | src/app/api/boat-fund/route.ts:14-18 | appending a row adds its amount to the total |
| BoatFund.SumPermutation | src/app/api/boat-fund/route.ts:14-18 | the total does not depend on the order of the rows |
| BoatFund.SumSplit | src/app/api/boat-fund/route.ts:14-18 | removing one row takes off exactly its amount |
| BoatFund.SumOfPositives | src/app/api/boat-fund/route.ts:37-42 | with only positive amounts the total is non-negative, and positive when any row exists |
| BoatFund.Post | src/app/api/boat-fund/route.ts:33-59 | 400 with no change iff the amount is missing or not positive. Otherwise exactly one row is appended with the amount, now, and the description or "Contribution" |
| BoatFund.PostRaisesTotal | src/app/api/boat-fund/route.ts:44-49 | a successful post raises the total by exactly its amount |
| BoatFund.Get | src/app/api/boat-fund/route.ts:7-31 | at most fifty rows, newest first, drawn from the ledger; an unlisted row is no newer than any listed one; the total covers every row, and equals the listed rows' total when all fit |
| BoatFund.Ones | src/app/api/boat-fund/route.ts:44-49 | a ledger of n unit contributions |
| BoatFund.OnesSum | src/app/api/boat-fund/route.ts:14-18 | unit amounts sum to their count |
| BoatFund.TotalCoversUnlistedRows | src/app/api/boat-fund/route.ts:9-22 | with fifty-one unit rows, the total is 51 while the listed rows add to 50 |
| BoatFundPage.MilestoneAmount | src/app/admin/boat-fund/page.tsx:315-316 | a milestone's amount is exactly that percentage of the goal |
| BoatFundPage.ReachedIsShareOfGoal | src/app/admin/boat-fund/page.tsx:317 | a milestone is reached iff the total is at least that share of the goal |
| BoatFundPage.MilestonesMonotone | src/app/admin/boat-fund/page.tsx:315-317 | reaching a milestone means reaching every earlier one |
| BoatFundPage.LastMilestoneIsGoal | src/app/admin/boat-fund/page.tsx:315-317 | the last marker is reached iff the goal is met |
| BoatFundPage.TierMonotone | src/app/admin/boat-fund/page.tsx:364 | a larger contribution never gets a lower icon, and a thousand pounds or more gets the top one |
| BoatFundPage.Remaining | src/app/admin/boat-fund/page.tsx:226 | remaining plus total is the goal; negative exactly when the goal is exceeded |
| BoatFundPage.SubmitRequest | src/app/admin/boat-fund/page.tsx:51-63 | nothing is sent iff the amount in pence is not positive; otherwise the amount and a non-empty description, defaulting to "Contribution" |
| BoatFundPage.Submit | src/app/admin/boat-fund/page.tsx:49-79 | a request goes out iff the amount is positive, and then the server appends it and the total grows by it; confetti plays iff it went out and is a top-tier amount |
| BoatFundPage.FormAndServerAgreeOnDescription | src/app/admin/boat-fund/page.tsx:59-62 | the stored description is the typed one or "Contribution" |
| Middleware.Gate | src/middleware.ts:4-15 | requests outside `/admin` pass; under it they pass iff the session cookie is present, and are otherwise redirected to `/sign-in` |
| Middleware.CookieValueIgnored | src/middleware.ts:7-9 | any value of the session cookie, even empty, lets a request through; only the cookie's presence decides |
| Middleware.PrefixGatesLookalikePaths | src/middleware.ts:6 | the test is on the text prefix: `/administrator` is gated and `/adm` is not |
| Sitemap.SiteUrl | src/app/sitemap.ts:9 | the configured address when non-empty, otherwise the default; never empty |
| Sitemap.BeeEntries | src/app/sitemap.ts:18-23 | one product entry per product, in order |
| Sitemap.Live | src/app/sitemap.ts:13-33 | the home entry first, then exactly one entry per active product: each entry is an active product's, and each active product has one |
| Sitemap.Fallback | src/app/sitemap.ts:38-64 | the home entry and the three fixed product pages, stamped now |
| Sitemap.Build | src/app/sitemap.ts:8-66 | the home entry first with the top priority; with the store, one entry per active product; without it, the fixed four pages |
| Sitemap.SlugOfUrl | src/app/sitemap.ts:19 | distinct slugs give distinct page addresses |
| Sitemap.InactiveBeeNotListed | src/app/sitemap.ts:13-23 | an inactive product has no page unless an active product shares its slug |
| BeesApi.Own | src/app/api/bees/route.ts:10-13 | exactly the testimonials of the product, each as often as stored, in stored order |
| BeesApi.Newest | src/app/api/bees/route.ts:10-13 | at most three of the product's testimonials, newest first; any left out is no newer than those shown; fewer than three only when the product has no more |
| BeesApi.NewestAreOwn | src/app/api/bees/route.ts:10-13 | every testimonial shown belongs to the product |
| BeesApi.Attach | src/app/api/bees/route.ts:10-14 | each product paired with its selection, in product order |
| BeesApi.BeesOf | src/app/api/bees/route.ts:6-15 | the products of a listing, in order |
| BeesApi.Shown | src/app/api/bees/route.ts:7-8 | the active products, each as often as stored, in ascending display order |
| BeesApi.AttachKeepsBees | src/app/api/bees/route.ts:6-15 | attaching testimonials keeps the products and their order |
| BeesApi.List | src/app/api/bees/route.ts:6-15 | exactly the active products, in ascending display order, each with its three newest testimonials |
| BeesApi.InactiveBeeNotListed | src/app/api/bees/route.ts:7 | an inactive product is never listed |
| LinkedIn.RunLength | src/components/abm-page-form.tsx:138 | the run of non-'/' characters stops at a '/' or at the end |
| LinkedIn.FindMatch | src/components/abm-page-form.tsx:138 | the leftmost position where the pattern matches; none exactly when it matches nowhere |
| LinkedIn.Extract | src/components/abm-page-form.tsx:138-139 | none exactly when the pattern matches nowhere; a capture is non-empty and has no '/' |
| LinkedIn.ExtractIsLeftmostMaximalRun | src/components/abm-page-form.tsx:138-141 | the capture is the text after the leftmost match, up to the next '/' or the end |
| LinkedIn.ExtractFromProfileAddress | src/components/abm-page-form.tsx:138-141 | for any prefix without a match, a profile address yields its identifier, whatever follows the next '/' |
| LinkedIn.ExtractAt | src/components/abm-page-form.tsx:138-139 | extraction reads the run after the match the search finds |
| LinkedIn.IdentifierAfterMarker | src/components/abm-page-form.tsx:138 | after the marker, the run covers exactly the identifier |
| LinkedIn.MatchAfterPrefix | src/components/abm-page-form.tsx:138 | the pattern matches where the marker is placed |
| LinkedIn.NoMatchBeforePrefix | src/components/abm-page-form.tsx:138 | text added after the prefix creates no match inside it |
| LinkedIn.FindMatchIsLeftmost | src/components/abm-page-form.tsx:138 | the search finds the first match at or after where it starts |
| LinkedIn.RunLengthStopsAtSlash | src/components/abm-marina-form.tsx:76 | a run of n non-'/' characters followed by '/' has length n |
| LinkedIn.ExtractExample | src/components/abm-marina-form.tsx:76-79 | `linkedin.com/in/jane-doe/` yields `jane-doe` |
| LinkedIn.EmptyCaptureDoesNotMatch | src/components/abm-marina-form.tsx:76 | the marker followed directly by '/' is not a match there |
| AdminForms.GenerateIdentifier | src/components/abm-page-form.tsx:136-143 | only the identifier can change: it becomes the extracted profile name when the address is non-empty and matches, and is otherwise kept |
| AdminForms.GenerateIdentifierIdempotent | src/components/abm-page-form.tsx:136-143 | pressing the button twice does what pressing it once does |
| AdminForms.NullIfEmpty | src/components/abm-page-form.tsx:79 | an empty text becomes null, any other is kept |
| AdminForms.Payload | src/components/abm-page-form.tsx:69-89 | nothing is sent iff one of the JSON fields does not parse; otherwise the texts, with null for an empty title or hero message |
| AdminForms.PayloadMeetsSchema | src/components/abm-page-form.tsx:74-89 | the form's body meets the page schema iff the texts are filled, the address is a URL and the parsed fields have their shapes; the stored title and hero message are null iff empty |
| AdminForms.PageTarget | src/components/abm-page-form.tsx:91-92 | PUT to the page's address when editing, otherwise POST to the collection |
| AdminForms.AutoFill | src/components/abm-marina-form.tsx:74-80 | only the identifier can change: it becomes the extracted name when the address matches |
| AdminForms.FormsAgreeOnIdentifier | src/components/abm-marina-form.tsx:74-80 | both forms extract the same identifier from the same address |
| AdminForms.MarinaTarget | src/components/abm-marina-form.tsx:50-51 | PUT when editing (to `.../undefined` when the id is missing), otherwise POST to the collection |
| AdminForms.MarinaFormCreates | src/components/abm-marina-form.tsx:45-72 | a post from the form is refused iff a required text is empty; otherwise the page stores null for an empty title or hero message and keeps the active flag |
| AdminForms.EmptyMarinaFormRefused | src/components/abm-marina-form.tsx:31-42 | submitting the untouched new-page form is refused |
| Server.RunJobKeepsLeads | src/app/api/cron/send-reminders/route.ts:27-74 | the job only stamps leads it selected, and it selects only unstamped ones, so no lead's id, creation time or set stamp changes |
| Server.TestReminderKeepsLeads | src/app/api/test-reminder/route.ts:47-77 | the manual trigger stamps only a lead without a stamp |
| Server.ApplyKeepsLeads | src/app/api/cron/send-reminders/route.ts:62-65 | every writing route only appends leads, keeps each lead's id and creation time, and never clears or changes a set reminder stamp |
| Server.RunKeepsLeads | src/app/api/cron/send-reminders/route.ts:27-34 | the same holds across any sequence of requests |
| Server.RemindedNeverReselected | src/app/api/cron/send-reminders/route.ts:27-65 | a selected lead whose send succeeds is stamped with now, keeps the stamp whatever requests follow, and is in no later job's batch at any time and delay |
| Server.FailedLeadStaysDue | src/app/api/cron/send-reminders/route.ts:27-69 | a lead whose send failed is unchanged; after any requests, at any later run with the same delay, it is due exactly when it is still NEW and unstamped |
| Server.ManualReminderExcludesFromJob | src/app/api/test-reminder/route.ts:74-77 | a lead reminded by hand keeps the stamp whatever requests follow, and is in no later job's batch |

## Left out

- Email delivery is left out. The reminder, notification and template code
  behind `sendReminderEmail` and the lead notification is an oracle (`send`,
  `notified`). An exception thrown by the send, or by the stamping update
  after it, counts as a failed send, which is what the job's `catch` does.
- Webhook signature logging is left out, because it has no effect on state.
- The 500 catch-alls for store failures are not modelled. The one exception
  is the direct booking's failed lead reference, which is modelled as
  `CreateFailed`.
- Concurrency between requests is not modelled. Handlers run one at a time,
  so two concurrent pages created with the same identifier cannot be
  represented.
- Validators are oracles rather than their actual checks: zod's email, URL
  and datetime checks, and `JSON.parse`.
- Reminders.RunJob: the delay is a `nat` in minutes. `parseInt` on
  `REMINDER_DELAY_MINUTES` is not modelled, so a non-numeric or negative
  setting is not covered.
- BoatFund.Post: amounts are integers. `Math.round` is therefore the
  identity, and a fractional amount below one half, which passes the guard
  and is stored as 0, is not covered.
- BoatFundPage.SubmitRequest: the form's `parseFloat` of the typed pounds and
  its `Math.round` are not modelled. The function starts from the amount in
  pence.
- Floating-point percentages are left out: the progress bar and
  `Math.min(..., 100)`.
- Display formatting is left out: currency and date rendering, icons as
  glyphs, animation and the confetti timer.
- Row ids are naturals from one counter rather than generated strings. The
  direct booking's `leadId` is therefore a number, and the manual provider id
  renders `now` in decimal.
- Ordering of equal timestamps is a modelling choice. The database leaves it
  unspecified; `Store.LatestWithEmail` prefers the later row.
- Response bodies carry only the fields the model states.
- The marina create route accepts any JSON values. The model takes strings
  and an optional boolean.
- The job's query has no `orderBy`, so the model selects in store order.
- The `GET` handlers of the manual booking and test reminder routes are not
  modelled. They return fixed usage text.
- The `[id]` update and delete routes, the admin list pages, the page
  form's delete button, data loading into the forms, and the client-side
  rendering of ABM pages are context and not part of this model.
- The middleware's `matcher` regular expression is not modelled. `Gate`
  applies to every path.
- One instant per request. The job reads the clock for its cutoff
  (src/app/api/cron/send-reminders/route.ts:23) and again for every stamp
  (:64); the manual trigger stamps with a fresh `new Date()`
  (src/app/api/test-reminder/route.ts:76); the manual booking reads
  `Date.now()` once for the provider id and once for the start time
  (src/app/api/manual-booking/route.ts:35, 37). The model uses the request's
  single `now` for all of these, so a clock that advances during a request is
  not covered.
- The webhook's `findFirst` by provider id
  (src/app/api/webhooks/cal/route.ts:27-29) has no `orderBy`. When several
  bookings share a uid, the model takes the first inserted one; the database
  may return any of them.
- AbmPages.Validate: JSON numbers are integers (`JNum(int)`). The
  `mockAnalytics` fields are `z.number()`
  (src/app/api/abm-pages/route.ts:22-27), so fractional values such as an
  open rate of 0.42 are not covered.
- LeadIntake.RequiredText: a JSON `null` and a missing field are both `None`.
  zod reports a null name as a type error ("Expected string, received null"),
  while the model reports "Required" for both.
- Server.FailedLeadStaysDue: the lead is stated to be due at later runs, not
  to be selected. With more than fifty due leads a later batch may leave it
  out, since the query has no ordering.
- The `Server` module's requests are the writing routes only. The reading routes
  (listings, sitemap, gate) do not change the store, and the admin update and
  delete routes are not part of this model, so stores they reach are not
  covered.
- Diagnostic routes and scripts are not part of this model: test-db,
  test-auth, test-webhook, create-admin and the seed.
