/**
  * The quote-request route (`/api/quotes`): the validation chain, the record the POST handler
  * builds, the append to `data/quotes.json`, the POST outcome, the sanitised list and the lookup
  * by id. The clock, the request's address and user agent, and the success of file I/O are
  * parameters.
  */
module Quotes {
  import opened Wrappers
  import opened Text
  import opened Validator
  import opened Store

  /** The five fields of a POST body; a field the body lacks reads as the empty string. */
  datatype QuoteForm = QuoteForm(name: string, mobile: string, email: string, company: string, requirements: string)

  // ---------------------------------------------------------------------------------------------
  // Validation chain

  predicate MobileOk(lib: Library, f: QuoteForm) { lib.isMobilePhone(Trim(f.mobile)) }
  predicate EmailOk(lib: Library, f: QuoteForm) { lib.isEmail(Trim(f.email)) }
  predicate NameOk(f: QuoteForm) { IsLength(Trim(f.name), 2, 100) && LettersAndSpaces(Trim(f.name)) }
  predicate CompanyOk(f: QuoteForm) { IsLength(Trim(f.company), 2, 200) }
  predicate RequirementsOk(f: QuoteForm) { IsLength(Trim(f.requirements), 10, 2000) }

  /** Every rule of the quote form holds. */
  predicate ValidQuote(lib: Library, f: QuoteForm) {
    NameOk(f) && MobileOk(lib, f) && EmailOk(lib, f) && CompanyOk(f) && RequirementsOk(f)
  }

  /** `validateQuote`: the quote form's rules in the order they are declared. */
  const QuoteChain: seq<Check> := [NameLength, NameLetters, MobilePhone, EmailFormat, CompanyLength, RequirementsLength]

  /** The quote chain holds the six quote rules, in rule order. */
  lemma QuoteChainRules()
    ensures InChainOrder(QuoteChain)
    ensures NameLength in QuoteChain && NameLetters in QuoteChain && MobilePhone in QuoteChain
    ensures EmailFormat in QuoteChain && CompanyLength in QuoteChain && RequirementsLength in QuoteChain
  {
    assert QuoteChain[0] == NameLength && QuoteChain[1] == NameLetters && QuoteChain[2] == MobilePhone;
    assert QuoteChain[3] == EmailFormat && QuoteChain[4] == CompanyLength && QuoteChain[5] == RequirementsLength;
  }

  /** The rule outcomes of the quote chain on one form, in declaration order. */
  datatype QuoteOutcome = QuoteOutcome(
    nameLength: bool, nameLetters: bool, mobile: bool, email: bool, company: bool, requirements: bool)
  {
    predicate Fails(c: Check) {
      match c
      case NameLength => !nameLength
      case NameLetters => !nameLetters
      case MobilePhone => !mobile
      case EmailFormat => !email
      case CompanyLength => !company
      case RequirementsLength => !requirements
      case _ => false
    }
  }

  /** The failed rules of the quote chain for given rule outcomes. */
  function QuoteChainErrors(o: QuoteOutcome): (r: seq<Check>)
    ensures InChainOrder(r)
    ensures forall c :: c in r ==> c in QuoteChain
    ensures r == [] <==> o.nameLength && o.nameLetters && o.mobile && o.email && o.company && o.requirements
    ensures NameLength in r <==> !o.nameLength
    ensures NameLetters in r <==> !o.nameLetters
    ensures MobilePhone in r <==> !o.mobile
    ensures EmailFormat in r <==> !o.email
    ensures CompanyLength in r <==> !o.company
    ensures RequirementsLength in r <==> !o.requirements
  {
    QuoteChainRules();
    var r := Failures(QuoteChain, o.Fails);
    assert r != [] ==> r[0] in r;
    assert NameLength in r <==> !o.nameLength;
    assert NameLetters in r <==> !o.nameLetters;
    assert MobilePhone in r <==> !o.mobile;
    assert EmailFormat in r <==> !o.email;
    assert CompanyLength in r <==> !o.company;
    assert RequirementsLength in r <==> !o.requirements;
    r
  }

  /** The outcome of each quote rule on `f`, every rule reading the trimmed field. */
  function QuoteOutcomes(lib: Library, f: QuoteForm): QuoteOutcome {
    var name := Trim(f.name);
    QuoteOutcome(IsLength(name, 2, 100), LettersAndSpaces(name), MobileOk(lib, f), EmailOk(lib, f), CompanyOk(f), RequirementsOk(f))
  }

  /**
    * `validationResult(req)` after `validateQuote`: each rule runs on the trimmed field, every
    * failure is kept (the two name rules can both fail), the failures come in the order the
    * rules are declared, and the list is empty exactly when the form is valid.
    */
  function QuoteErrors(lib: Library, f: QuoteForm): (r: seq<Check>)
    ensures InChainOrder(r)
    ensures forall c :: c in r ==> c in QuoteChain
    ensures r == [] <==> ValidQuote(lib, f)
    ensures NameLength in r <==> !IsLength(Trim(f.name), 2, 100)
    ensures NameLetters in r <==> !LettersAndSpaces(Trim(f.name))
    ensures MobilePhone in r <==> !MobileOk(lib, f)
    ensures EmailFormat in r <==> !EmailOk(lib, f)
    ensures CompanyLength in r <==> !CompanyOk(f)
    ensures RequirementsLength in r <==> !RequirementsOk(f)
  {
    QuoteChainErrors(QuoteOutcomes(lib, f))
  }

  /**
    * The body the handler reads after the chain's sanitizers rewrote it: every field trimmed,
    * and the email passed through `normalizeEmail` (`None` where that returned `false`).
    */
  datatype SanitizedQuote = SanitizedQuote(name: string, mobile: string, email: Option<string>, company: string, requirements: string)

  function Sanitize(lib: Library, f: QuoteForm): (r: SanitizedQuote)
    ensures IsTrimmed(r.name) && IsTrimmed(r.mobile) && IsTrimmed(r.company) && IsTrimmed(r.requirements)
    ensures r.email.None? <==> lib.normalizeEmail(Trim(f.email)).None?
  {
    SanitizedQuote(Trim(f.name), Trim(f.mobile), lib.normalizeEmail(Trim(f.email)), Trim(f.company), Trim(f.requirements))
  }

  // ---------------------------------------------------------------------------------------------
  // Records

  /** The object the POST handler passes to `saveQuoteData`. */
  datatype QuoteData = QuoteData(
    name: string, mobile: string, email: string, company: string, requirements: string,
    ipAddress: string, userAgent: Option<string>)

  /** A stored quote: the data spread between the assigned id and the save's timestamp and status. */
  datatype Quote = Quote(
    id: string, name: string, mobile: string, email: string, company: string, requirements: string,
    ipAddress: string, userAgent: Option<string>, timestamp: string, status: string)

  /**
    * The handler's record builder: trims every field again and lower-cases the email. When the
    * sanitizer left `false` in place of the email, `email.trim()` throws (`None`).
    */
  function PrepareQuoteData(b: SanitizedQuote, ip: string, userAgent: Option<string>): (r: Option<QuoteData>)
    ensures r.Some? <==> b.email.Some?
    ensures r.Some? ==>
      && IsTrimmed(r.value.name) && IsTrimmed(r.value.mobile) && IsTrimmed(r.value.email)
      && IsTrimmed(r.value.company) && IsTrimmed(r.value.requirements)
      && (forall i :: 0 <= i < |r.value.email| ==> !IsAsciiUpper(r.value.email[i]))
      && r.value.ipAddress == ip && r.value.userAgent == userAgent
  {
    match b.email
    case None => None
    case Some(email) =>
      LowerCaseKeepsTrimmed(Trim(email));
      Some(QuoteData(Trim(b.name), Trim(b.mobile), LowerCase(Trim(email)), Trim(b.company), Trim(b.requirements), ip, userAgent))
  }

  /**
    * From the raw body to the stored fields: name, mobile, company and requirements are the raw
    * fields trimmed once; the email is the normalised address, trimmed and lower-cased; the
    * caller's address and user agent are attached; no field has whitespace at either end.
    */
  lemma QuoteDataFromForm(lib: Library, f: QuoteForm, ip: string, userAgent: Option<string>)
    requires lib.normalizeEmail(Trim(f.email)).Some?
    ensures var d := PrepareQuoteData(Sanitize(lib, f), ip, userAgent);
      && d.Some?
      && d.value.name == Trim(f.name) && d.value.mobile == Trim(f.mobile)
      && d.value.company == Trim(f.company) && d.value.requirements == Trim(f.requirements)
      && d.value.email == LowerCase(Trim(lib.normalizeEmail(Trim(f.email)).value))
      && d.value.ipAddress == ip && d.value.userAgent == userAgent
      && IsTrimmed(d.value.name) && IsTrimmed(d.value.email)
      && forall i :: 0 <= i < |d.value.email| ==> !IsAsciiUpper(d.value.email[i])
  {
    TrimIdempotent(f.name);
    TrimIdempotent(f.mobile);
    TrimIdempotent(f.company);
    TrimIdempotent(f.requirements);
    LowerCaseKeepsTrimmed(Trim(lib.normalizeEmail(Trim(f.email)).value));
  }

  // ---------------------------------------------------------------------------------------------
  // The data file and the POST handler

  const SaveFailed := "Failed to save quote data"
  const SubmitFailed := "Failed to submit quote request"
  const Submitted := "Quote request submitted successfully"

  /** `data/quotes.json`, which `saveQuoteData` reads, extends by one record and writes back. */
  class QuoteStore {
    var file: StoreFile<Quote>

    constructor (initial: StoreFile<Quote>)
      ensures file == initial
    {
      file := initial;
    }

    /**
      * `saveQuoteData`: loads the list (absent or unparseable reads as empty), pushes one record
      * whose id is the clock reading in decimal, whose fields are `data`'s and whose timestamp and
      * status are the save's own, and writes the list back. `ioFails` stands for a failed
      * `mkdir` or `writeFile`; a file holding a non-array makes `push` throw. A failure leaves the
      * file as it was.
      */
    method SaveQuoteData(data: QuoteData, clock: nat, isoTime: string, ioFails: bool) returns (r: Result<Quote>)
      modifies this
      ensures r.Success? <==> !ioFails && !old(file).NotAnArray?
      ensures r.Success? ==>
        && r.value == Quote(DecimalString(clock), data.name, data.mobile, data.email, data.company,
                            data.requirements, data.ipAddress, data.userAgent, isoTime, StatusNew)
        && file == Records(ExistingRecords(old(file)) + [r.value])
      ensures r.Failure? ==> r.error == SaveFailed && file == old(file)
    {
      var quotes: seq<Quote>;
      match file {
        case Records(items) => quotes := items;
        case NotAnArray => return Failure(SaveFailed);
        case _ => quotes := [];
      }
      var newQuote := Quote(DecimalString(clock), data.name, data.mobile, data.email, data.company,
                            data.requirements, data.ipAddress, data.userAgent, isoTime, StatusNew);
      quotes := quotes + [newQuote];
      if ioFails {
        return Failure(SaveFailed);
      }
      file := Records(quotes);
      return Success(newQuote);
    }
  }

  /**
    * POST /api/quotes after the rate limiter: 400 with every failed rule when validation fails,
    * 500 with a fixed message when building or saving the record throws, otherwise 201 with the
    * saved id and timestamp. The notification gets the saved record; its outcome
    * (`notifyFails`) is never read, so the response does not depend on it.
    */
  method PostQuote(store: QuoteStore, lib: Library, form: QuoteForm, ip: string, userAgent: Option<string>,
                   clock: nat, isoTime: string, ioFails: bool, notifyFails: bool)
    returns (response: SubmitResponse, notified: Option<Quote>)
    modifies store
    ensures !ValidQuote(lib, form) ==>
      && response == ValidationFailed(ValidationFailedError, Details(QuoteErrors(lib, form)))
      && store.file == old(store.file) && notified == None
    ensures ValidQuote(lib, form) && (lib.normalizeEmail(Trim(form.email)).None? || ioFails || old(store.file).NotAnArray?) ==>
      && response == ServerError(SubmitFailed, TryLaterMessage)
      && store.file == old(store.file) && notified == None
    ensures ValidQuote(lib, form) && lib.normalizeEmail(Trim(form.email)).Some? && !ioFails && !old(store.file).NotAnArray? ==>
      && store.file.Records? && |store.file.items| > 0
      && var saved := store.file.items[|store.file.items| - 1];
      && store.file.items == ExistingRecords(old(store.file)) + [saved]
      && Some(QuoteData(saved.name, saved.mobile, saved.email, saved.company, saved.requirements, saved.ipAddress, saved.userAgent))
         == PrepareQuoteData(Sanitize(lib, form), ip, userAgent)
      && saved.id == DecimalString(clock) && saved.timestamp == isoTime && saved.status == StatusNew
      && response == Created(Submitted, saved.id, saved.timestamp)
      && notified == Some(saved)
  {
    var errors := QuoteErrors(lib, form);
    if errors != [] {
      return ValidationFailed(ValidationFailedError, Details(errors)), None;
    }
    var body := Sanitize(lib, form);
    var data := PrepareQuoteData(body, ip, userAgent);
    if data.None? {
      return ServerError(SubmitFailed, TryLaterMessage), None;
    }
    var saved := store.SaveQuoteData(data.value, clock, isoTime, ioFails);
    if saved.Failure? {
      return ServerError(SubmitFailed, TryLaterMessage), None;
    }
    // sendEmailNotification(savedQuote) is dispatched and its failure only logged.
    notified := Some(saved.value);
    response := Created(Submitted, saved.value.id, saved.value.timestamp);
  }

  // ---------------------------------------------------------------------------------------------
  // GET /api/quotes and GET /api/quotes/:id

  /** The public view of a quote: no email, mobile, requirements, address or user agent. */
  datatype QuoteSummary = QuoteSummary(id: string, name: string, company: string, timestamp: string, status: string)

  datatype QuoteList = QuoteList(success: bool, count: nat, quotes: seq<QuoteSummary>)

  function Summary(q: Quote): QuoteSummary {
    QuoteSummary(q.id, q.name, q.company, q.timestamp, q.status)
  }

  /**
    * GET /api/quotes: one summary per stored record, in file order and without a cap, carrying
    * that record's id, name, company, timestamp and status; `count` is the number of summaries.
    * A file that is absent, malformed or not an array lists nothing.
    */
  function ListQuotes(f: StoreFile<Quote>): (r: QuoteList)
    ensures r.success && r.count == |r.quotes|
    ensures f.Records? ==> |r.quotes| == |f.items|
    ensures f.Records? ==> forall i :: 0 <= i < |f.items| ==>
      && r.quotes[i].id == f.items[i].id && r.quotes[i].name == f.items[i].name
      && r.quotes[i].company == f.items[i].company && r.quotes[i].timestamp == f.items[i].timestamp
      && r.quotes[i].status == f.items[i].status
    ensures !f.Records? ==> r.quotes == []
  {
    match f
    case Records(items) =>
      var quotes := seq(|items|, i requires 0 <= i < |items| => Summary(items[i]));
      QuoteList(true, |quotes|, quotes)
    case _ => QuoteList(true, 0, [])
  }

  /** Two quotes that agree on their public fields. */
  predicate SamePublicFields(a: Quote, b: Quote) {
    a.id == b.id && a.name == b.name && a.company == b.company && a.timestamp == b.timestamp && a.status == b.status
  }

  /**
    * The list does not reveal the sensitive fields: stores that differ only in email, mobile,
    * requirements, address or user agent give the same list.
    */
  lemma ListHidesSensitiveFields(xs: seq<Quote>, ys: seq<Quote>)
    requires |xs| == |ys|
    requires forall i :: 0 <= i < |xs| ==> SamePublicFields(xs[i], ys[i])
    ensures ListQuotes(Records(xs)) == ListQuotes(Records(ys))
  {
  }

  /** A successful save makes the list one entry longer, with the new record's summary last. */
  lemma ListAfterSave(f: StoreFile<Quote>, q: Quote)
    requires !f.NotAnArray?
    ensures var after := ListQuotes(Records(ExistingRecords(f) + [q]));
      && after.count == ListQuotes(f).count + 1
      && after.quotes == ListQuotes(f).quotes + [Summary(q)]
  {
  }

  /** The detail view: every stored field except the address and user agent. */
  datatype QuoteDetail = QuoteDetail(
    id: string, name: string, email: string, mobile: string, company: string, requirements: string,
    timestamp: string, status: string)

  function Detail(q: Quote): QuoteDetail {
    QuoteDetail(q.id, q.name, q.email, q.mobile, q.company, q.requirements, q.timestamp, q.status)
  }

  const QuoteNotFound := "Quote not found"

  /** The response of GET /api/quotes/:id: 200 with the detail view, or 404. */
  datatype QuoteLookup = Found(quote: QuoteDetail) | NotFound(error: string)

  function Ids(items: seq<Quote>): (r: seq<string>)
    ensures |r| == |items| && forall i :: 0 <= i < |items| ==> r[i] == items[i].id
  {
    seq(|items|, i requires 0 <= i < |items| => items[i].id)
  }

  /**
    * GET /api/quotes/:id: the detail view of the FIRST stored record whose id is `id`; 404 when
    * no record has that id or the file is absent, malformed or not an array.
    */
  function GetQuote(f: StoreFile<Quote>, id: string): (r: QuoteLookup)
    ensures r.Found? <==> f.Records? && id in Ids(f.items)
    ensures r.Found? ==> exists i :: 0 <= i && IsFirst(Ids(f.items), i, id) && r.quote == Detail(f.items[i])
    ensures r.NotFound? ==> r.error == QuoteNotFound
  {
    match f
    case Records(items) =>
      (match FirstIndex(Ids(items), id)
       case Some(i) => Found(Detail(items[i]))
       case None => NotFound(QuoteNotFound))
    case _ => NotFound(QuoteNotFound)
  }

  /**
    * After a successful save the new record can be looked up by its id, and it is the one found
    * unless an earlier record already carries that id.
    */
  lemma LookupAfterSave(f: StoreFile<Quote>, q: Quote)
    requires !f.NotAnArray?
    ensures var r := GetQuote(Records(ExistingRecords(f) + [q]), q.id);
      && r.Found?
      && (q.id !in Ids(ExistingRecords(f)) ==> r.quote == Detail(q))
      && (q.id in Ids(ExistingRecords(f)) ==> r == GetQuote(f, q.id))
  {
    var xs := ExistingRecords(f);
    assert Ids(xs + [q]) == Ids(xs) + [q.id];
    FirstIndexAppend(Ids(xs), q.id, q.id);
  }

  /**
    * Ids are not unique: two saves in the same millisecond store the same id, and a lookup of
    * that id then returns the earlier record, never the later one.
    */
  lemma SameMillisecondSavesShareId(xs: seq<Quote>, d1: QuoteData, d2: QuoteData, clock: nat, t1: string, t2: string)
    ensures var q1 := Quote(DecimalString(clock), d1.name, d1.mobile, d1.email, d1.company, d1.requirements,
                            d1.ipAddress, d1.userAgent, t1, StatusNew);
            var q2 := Quote(DecimalString(clock), d2.name, d2.mobile, d2.email, d2.company, d2.requirements,
                            d2.ipAddress, d2.userAgent, t2, StatusNew);
      q1.id == q2.id &&
      (q1.id !in Ids(xs) ==> GetQuote(Records(xs + [q1] + [q2]), q2.id) == Found(Detail(q1)))
  {
    var q1 := Quote(DecimalString(clock), d1.name, d1.mobile, d1.email, d1.company, d1.requirements,
                    d1.ipAddress, d1.userAgent, t1, StatusNew);
    var q2 := Quote(DecimalString(clock), d2.name, d2.mobile, d2.email, d2.company, d2.requirements,
                    d2.ipAddress, d2.userAgent, t2, StatusNew);
    if q1.id !in Ids(xs) {
      LookupAfterSave(Records(xs), q1);
      LookupAfterSave(Records(xs + [q1]), q2);
    }
  }

  /** Saves at different milliseconds get different ids. */
  lemma DistinctClocksDistinctIds(a: nat, b: nat)
    requires a != b
    ensures DecimalString(a) != DecimalString(b)
  {
    DecimalStringInjective(a, b);
  }
}
