# Advantech Group site: form pipeline and page scripts

This project models the logic of the Advantech Group marketing site. It covers two parts.

The **backend form routes** are `/api/quotes` and `/api/contact`. For each route the model has:

- the express-validator chain: the trim sanitizers and the length, character-class, email and mobile rules;
- the record the POST handler builds;
- the append to the JSON data file, done by `saveQuoteData` or `saveContactData`;
- the 400/500/201 outcome of a POST;
- the list endpoint, with its public summaries;
- the lookup by id.

The **browser script** parts are:

- the checks `submitQuote` makes before it posts the quote form;
- the three-card product carousel;
- the counter animation;
- the top bar that hides on scroll.

Each data file is a `StoreFile`: absent, not JSON, JSON that is not an array, or an array of records. A class holds it and the save methods update it in place. The carousel, the top-bar handler and the counter loop are imperative too: a class with an array of cards, a class with the scroll state, and a `while` loop. Each is proved against a pure function: `Window` and `NextIndex`, `Step`, and `CounterValues`. Properties are stated as lemmas about those functions.

express-validator's `isEmail`, `isMobilePhone('any')` and `normalizeEmail` are foreign code. They are the fields of a `Library` value. Every property holds whatever those three functions do; `normalizeEmail` returns `None` where the library returns `false`. Four values are parameters:

- the clock reading (`Date.now()`);
- the ISO timestamp;
- the request's address and user agent;
- whether file I/O fails.

Three facts about the code shape the model:

- **Ids are not unique.** An id is the decimal clock reading. Two saves in the same millisecond store the same id, and a lookup then returns the earlier record (`Quotes.SameMillisecondSavesShareId`).
- **The list has no order or cap.** The list endpoints return every record in file order, with no "most recent first" ordering and no page-size cap.
- **The subject limit is 200 inclusive.** The contact subject rule accepts a trimmed subject of up to and including 200 characters, though its message says "less than 200".

## Model

| member | source | states |
|---|---|---|
| Text.Trim | backend/routes/quotes.js:20-21 | `trim()` leaves no JavaScript whitespace at either end, and gives the empty string exactly for an all-whitespace input |
| Text.TrimCutsWhitespace | backend/routes/quotes.js:148-152 | the trimmed string is a contiguous slice of the input, and every character outside the slice is whitespace |
| Text.TrimUnique | backend/routes/quotes.js:148-152 | trimming whitespace + `m` + whitespace gives `m` back for any trimmed `m` |
| Text.TrimIdempotent | backend/routes/quotes.js:148-152 | the handler's second `trim()` of an already sanitised field changes nothing |
| Text.LowerCase | backend/routes/quotes.js:150 | `toLowerCase()` on ASCII: same length, A-Z mapped to a-z and every other character kept, so no upper-case letter is left |
| Text.LowerCaseKeepsTrimmed | backend/routes/quotes.js:150 | lower-casing a trimmed email keeps it trimmed |
| Text.DecimalString | backend/routes/quotes.js:70 | `Date.now().toString()` is a non-empty digit string without a leading zero |
| Text.DecimalRoundTrip | backend/routes/quotes.js:70 | reading the decimal id back gives the clock value |
| Text.DecimalStringInjective | backend/routes/quotes.js:70 | two clock values give the same id exactly when they are equal |
| Validator.Details | backend/routes/quotes.js:136-141 | `errors.array()`: one `{path, msg}` entry per failed rule, in the same order, carrying that rule's field and message |
| Validator.Failures | backend/routes/quotes.js:19-47 | a chain runs every rule, with no bail-out. A rule is reported exactly when it is in the chain and fails, and the report keeps declaration order |
| Validator.ChainOrderUnique | backend/routes/quotes.js:19-47 | two reports in declaration order that hold the same rules are equal, so the set of failed rules fixes the `details` list |
| Store.ExistingRecords | backend/routes/quotes.js:59-66 | a save starts from the file's records, or from the empty list when the file is absent or unparseable |
| Store.FirstIndex | backend/routes/quotes.js:232 | `find` by id: the first position holding the key, or none exactly when no record has that id |
| Store.FirstIndexAppend | backend/routes/quotes.js:76 | appending a record never changes which earlier record a lookup finds; the new one is found only when no earlier record has its id |
| Quotes.QuoteChainRules | backend/routes/quotes.js:19-47 | `validateQuote` holds the six quote rules in declaration order |
| Quotes.QuoteChainErrors | backend/routes/quotes.js:19-47 | for any rule outcomes: each rule is reported exactly when it fails, only quote rules are reported, in declaration order, and the report is empty exactly when every rule passes |
| Quotes.QuoteErrors | backend/routes/quotes.js:19-47 | each rule reads the trimmed field. Name length is 2..100, name is letters and whitespace only, mobile and email use the library predicates, company is 2..200 and requirements 10..2000. Each is reported exactly when it fails, both name rules can fail together, and the list is empty exactly when the form is valid |
| Quotes.Sanitize | backend/routes/quotes.js:20-44 | the chain's sanitizers leave name, mobile, company and requirements trimmed, and the email is missing exactly when `normalizeEmail` of the trimmed email returned `false` (`QuoteDataFromForm` gives the resulting record) |
| Quotes.PrepareQuoteData | backend/routes/quotes.js:147-155 | a record is built exactly when the sanitised email is a string (otherwise `email.trim()` throws). Every field of the record is trimmed, the email has no upper-case letter, and the request's address and user agent are attached (`QuoteDataFromForm` gives the fields in terms of the raw body) |
| Quotes.QuoteDataFromForm | backend/routes/quotes.js:147-155 | the record holds the raw fields trimmed once and the normalised email trimmed and lower-cased, with address and user agent attached. Name and email are trimmed and the email has no upper-case letter |
| Quotes.QuoteStore.SaveQuoteData | backend/routes/quotes.js:50-86 | a save succeeds exactly when I/O works and the file is not a non-array. It then appends one record whose id is the clock in decimal, whose fields are the data's and whose timestamp and status `new` are the save's own; earlier records are unchanged. A failure reports "Failed to save quote data" and leaves the file alone |
| Quotes.PostQuote | backend/routes/quotes.js:133-180 | 400 with the details of every failed rule and nothing saved; 500 with the fixed message when the email normalised to `false`, I/O fails or the file is not an array; otherwise 201 with the saved id and timestamp. The notification input does not affect the response |
| Quotes.ListQuotes | backend/routes/quotes.js:189-211 | one summary per record in file order, carrying id, name, company, timestamp and status; `count` is the list's length; absent, malformed or non-array files list nothing |
| Quotes.ListHidesSensitiveFields | backend/routes/quotes.js:193-199 | files that differ only in email, mobile, requirements, address or user agent give the same list |
| Quotes.ListAfterSave | backend/routes/quotes.js:76 | after a save the list is the old list plus the new record's summary, and `count` grows by one |
| Quotes.GetQuote | backend/routes/quotes.js:229-257 | 200 with the eight detail fields of the first record with that id; 404 "Quote not found" exactly when no record has it or the file is not a readable array |
| Quotes.LookupAfterSave | backend/routes/quotes.js:229-238 | a saved record can be looked up by its id. It is the record returned unless an earlier record has the same id, in which case the answer is unchanged |
| Quotes.SameMillisecondSavesShareId | backend/routes/quotes.js:70 | two saves with the same clock reading get the same id, and a lookup of it returns the first of them |
| Quotes.DistinctClocksDistinctIds | backend/routes/quotes.js:70 | saves at different clock readings get different ids |
| Contact.ContactChainRules | backend/routes/contact.js:19-43 | `validateContact` holds the five contact rules in declaration order |
| Contact.ContactChainErrors | backend/routes/contact.js:19-43 | for any rule outcomes: each rule is reported exactly when it fails, only contact rules are reported, in declaration order, and the report is empty exactly when every rule passes |
| Contact.ContactErrors | backend/routes/contact.js:19-43 | name as for quotes; email by the library predicate; message 10..1000. The subject rule fails exactly when a subject is present and longer than 200 characters once trimmed. The list is empty exactly when the form is valid |
| Contact.Sanitize | backend/routes/contact.js:20-41 | the chain's sanitizers leave name and message trimmed; the email is missing exactly when `normalizeEmail` returned `false`; an optional subject stays absent when absent and otherwise is trimmed, becoming empty exactly when it was all whitespace (`ContactDataFromForm` gives the resulting record) |
| Contact.StoredSubject | backend/routes/contact.js:117 | the stored subject never has whitespace at either end; an absent or empty subject becomes "General Inquiry"; the result is empty only for a non-empty all-whitespace subject, which the sanitizer has already trimmed to empty (`ContactSubjectDefault`) |
| Contact.PrepareContactData | backend/routes/contact.js:114-121 | a record is built exactly when the sanitised email is a string (otherwise `email.trim()` throws). Name, email, subject and message are trimmed, the email has no upper-case letter, and address and user agent are attached (`ContactDataFromForm` gives the fields in terms of the raw body) |
| Contact.ContactSubjectDefault | backend/routes/contact.js:117 | the stored subject is the trimmed subject when it has a non-whitespace character, and "General Inquiry" when it is absent or blank. It is never empty and never has whitespace at either end |
| Contact.ContactDataFromForm | backend/routes/contact.js:114-121 | name and message are trimmed, the email is normalised then trimmed and lower-cased, and the subject is defaulted. Address and user agent are attached |
| Contact.ContactStore.SaveContactData | backend/routes/contact.js:46-82 | as for quotes: one record appended with the clock id and status `new`, earlier records kept. Failure ("Failed to save contact data") leaves the file alone |
| Contact.PostContact | backend/routes/contact.js:100-146 | 400 with every failed rule and nothing saved; 500 "Failed to send contact message" when building or saving throws; otherwise 201 "Contact message sent successfully" with the saved id and timestamp, whatever the notification does |
| Contact.ListContacts | backend/routes/contact.js:155-178 | one summary per record in file order, carrying id, name, subject, timestamp and status; `count` is the length; unreadable files list nothing |
| Contact.ListHidesSensitiveFields | backend/routes/contact.js:159-165 | files that differ only in email, message, address or user agent give the same list |
| Contact.ListAfterSave | backend/routes/contact.js:72 | after a save the list is the old list plus the new record's summary |
| Contact.GetContact | backend/routes/contact.js:195-221 | the seven detail fields of the first record with that id, or 404 "Contact not found" exactly when there is none or the file is unreadable |
| Contact.LookupAfterSave | backend/routes/contact.js:195-204 | a saved record can be looked up by its id and is found unless an earlier record has the same id |
| QuoteFormCheck.EmailRegexHasShape | js/script.js:245-246 | a string the email pattern accepts has no whitespace, exactly one `@` (not first), and a `.` after it that is neither right after the `@` nor last |
| QuoteFormCheck.ShapeIsEmailRegex | js/script.js:245-246 | every such string is accepted by the pattern |
| QuoteFormCheck.EmailRegexShape | js/script.js:245-246 | the email pattern accepts exactly the strings of that shape |
| QuoteFormCheck.StripSeparators | js/script.js:253 | the cleaned mobile has no whitespace, `-`, `(` or `)`, and is no longer than the input. Every separator is removed, and every other character appears as often as in the input |
| QuoteFormCheck.StripSeparatorsAppend | js/script.js:253 | cleaning a concatenation is concatenating the cleaned parts, so the kept characters stay in their input order |
| QuoteFormCheck.StripSeparatorsCons | js/script.js:253 | cleaning a string keeps its first character exactly when that character is not a separator |
| QuoteFormCheck.StripSeparatorsKeeps | js/script.js:253 | a number without separators is left unchanged |
| QuoteFormCheck.StripSeparatorsIdempotent | js/script.js:253 | cleaning twice is cleaning once |
| QuoteFormCheck.MobileAcceptedShape | js/script.js:252-254 | an accepted number, once cleaned, has 10 to 17 characters and is an optional `+` then 9 to 16 digits not starting with `0` |
| QuoteFormCheck.CheckQuoteForm | js/script.js:239-257 | fail-fast: "fill in all fields" exactly when a field is empty. Otherwise "valid email" exactly when the pattern fails. Otherwise "valid mobile" exactly when the mobile test fails. Otherwise the form goes ahead |
| QuoteFormCheck.OnlyEmailAndMobileAreChecked | js/script.js:239 | name, company and requirements are only tested for being non-empty |
| Counter.FastIncrement | js/script.js:136 | the fast increment is at least 1, and `target / 50` once the target is 100 or more |
| Counter.FastStep | js/script.js:141-143 | a fast step moves strictly up and never past `target - 3` |
| Counter.StepsClimb | js/script.js:140-158 | the displayed values strictly increase, stay above the start and never exceed the target |
| Counter.SlowPhase | js/script.js:146-157 | within three of the target the counter shows each remaining value once, one by one |
| Counter.FastPhase | js/script.js:141-158 | from `target - 3` or below, fast values never pass `target - 3`, and the display ends with `target - 2`, `target - 1`, `target` |
| Counter.CounterEnds | js/script.js:140-160 | nothing is shown for a target of 0 or less. A target of 1 or 2 shows 1 (then 2). A larger target ends with exactly three steps of one, and the last value shown is always the target |
| Counter.AnimateCounter | js/script.js:132-160 | the loop shows exactly `CounterValues(target)` and takes `min(3, target)` steps of one (none for a target of 0 or less) |
| Carousel.NextIndex | js/script.js:196 | the start index stays within the six products |
| Carousel.IndexAfterWraps | js/script.js:196 | after `n` calls the start index is the old one plus `n`, modulo six |
| Carousel.FullTurn | js/script.js:196 | after six calls the carousel starts where it started |
| Carousel.Position | js/script.js:190 | the product a card shows is a catalogue position |
| Carousel.Window | js/script.js:189-195 | the three cards show `products[(index + k) % 6]` for k = 0, 1, 2 |
| Carousel.WindowShifts | js/script.js:189-196 | each call moves every product one card to the left |
| Carousel.WindowDistinct | js/script.js:189-195 | the three cards always show three different products |
| Carousel.ProductCarousel.constructor | js/script.js:186-200 | after the initial call the cards show the first three products and the next call starts at the second |
| Carousel.ProductCarousel.Update | js/script.js:188-197 | card k gets product `(old index + k) % 6`, and the index becomes `(old index + 1) % 6` |
| TopBar.Initial | js/script.js:90-99 | the last position starts at 0, and the bar starts hidden and the header adjusted exactly when the page opens past 50 pixels |
| TopBar.Step | js/script.js:101-113 | scrolling down past 50 hides the bar and adjusts the header. Scrolling up shows the bar. Anything else keeps the classes, and the position is always remembered |
| TopBar.StepStill | js/script.js:103-112 | an event at the remembered position changes nothing |
| TopBar.StepIdempotent | js/script.js:101-113 | a repeated event at the same position has no further effect |
| TopBar.ReplayKeepsInSync | js/script.js:96-110 | the header is adjusted exactly when the bar is hidden, after any run of scroll events |
| TopBar.ReplayRemembersLast | js/script.js:112 | after a run of events the remembered position is the last one |
| TopBar.HiddenOnlyPastThreshold | js/script.js:103-106 | the bar ends up hidden only if it started hidden or some event was past 50 pixels |
| TopBar.VisibleWithinThreshold | js/script.js:103-111 | while the page stays within 50 pixels a visible bar stays visible |
| TopBar.ScrollHandler.constructor | js/script.js:90-99 | the handler's state after load is `Initial` of the opening position |
| TopBar.ScrollHandler.OnScroll | js/script.js:101-113 | the listener's new state is `Step` of the old state and the position |

## Left out

- Rate limiting (`quoteLimiter`, `contactLimiter`): it is only configuration of express-rate-limit, whose windowing code is not part of this model.
- `isEmail`, `isMobilePhone('any')` and `normalizeEmail` are parameters: express-validator is not part of this model.
- File system calls and JSON text are left out. A failed `mkdir`/`writeFile` is one boolean, and a failed write leaves the file as it was (partial writes are not modelled). Records are typed values, so non-string JSON values and non-object array entries are not modelled.
- The error entries of `details` carry `path` and `msg` only. The `type`, `value` and `location` fields express-validator adds are left out.
- The outer `catch` blocks of the GET handlers (500 "Failed to fetch …") are left out: no modelled step can reach them.
- Quotes.QuoteStore.SaveQuoteData and Contact.ContactStore.SaveContactData are atomic here. In the source each save reads the file, pushes and writes back with `await`s in between (backend/routes/quotes.js:56-79, backend/routes/contact.js:52-75). Two overlapping POSTs can therefore both read the old list, and the later write loses the other's record. Concurrency is not modelled.
- Request body values are strings only. A JSON body may hold an array or object for a field, such as `name`. Then `name.trim()` (backend/routes/quotes.js:148, backend/routes/contact.js:115) throws and the handler answers 500. Non-string body values are not modelled.
- Absent required POST fields are read as the empty string, which is what express-validator validates for them.
- Text.LowerCase: does not model `toLowerCase` beyond ASCII, because the case tables of Unicode are not part of this model.
- Validator.IsLength: lengths count Unicode characters. validator.js's `isLength` also leaves the variation selectors U+FE0E and U+FE0F out of the count, which is not modelled.
- Counter.AnimateCounter: the target is an integer. Fractional or non-numeric `data-target` values, `Math.floor` of the display and the `data-suffix` text are not modelled. The 50 ms / 100 ms / 500 ms timers and the `flip` class are left out; the loop runs the steps one after another.
- Carousel: the six-product catalogue is fixed as in the script, so the index arithmetic is modulo six. The five-second `setInterval` is left out; each call is one `Update`.
- TopBar: the position is a parameter, whatever `pageYOffset || scrollTop` returns. The about page's header transparency handler is not part of this model.
- The notification stubs only log, so they are modelled as the saved record handed to them (`notified`). The `notifyFails` parameter stands for their failure, which the response ignores.
- `backend/config/database.js`, `backend/test-api.js`, `animateCardsOnScroll`, the modal, `fetch`, alerts and other DOM code are not part of this model.
