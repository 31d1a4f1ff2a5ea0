/**
  * The contact route (`/api/contact`): the validation chain with its optional subject, the record
  * the POST handler builds (with the "General Inquiry" default), the append to
  * `data/contacts.json`, the POST outcome, the sanitised list and the lookup by id. The clock, the
  * request's address and user agent, and the success of file I/O are parameters.
  */
module Contact {
  import opened Wrappers
  import opened Text
  import opened Validator
  import opened Store

  /**
    * The four fields of a POST body. A missing name, email or message reads as the empty string;
    * the subject may be absent (`None`), which is what `optional()` tests for.
    */
  datatype ContactForm = ContactForm(name: string, email: string, subject: Option<string>, message: string)

  // ---------------------------------------------------------------------------------------------
  // Validation chain

  predicate NameOk(f: ContactForm) { IsLength(Trim(f.name), 2, 100) && LettersAndSpaces(Trim(f.name)) }
  predicate EmailOk(lib: Library, f: ContactForm) { lib.isEmail(Trim(f.email)) }
  /** An absent subject skips its rule; a present one may have at most 200 characters once trimmed. */
  predicate SubjectOk(f: ContactForm) { f.subject.None? || IsLength(Trim(f.subject.value), 0, 200) }
  predicate MessageOk(f: ContactForm) { IsLength(Trim(f.message), 10, 1000) }

  /** Every rule of the contact form holds. */
  predicate ValidContact(lib: Library, f: ContactForm) {
    NameOk(f) && EmailOk(lib, f) && SubjectOk(f) && MessageOk(f)
  }

  /** `validateContact`: the contact form's rules in the order they are declared. */
  const ContactChain: seq<Check> := [NameLength, NameLetters, EmailFormat, SubjectLength, MessageLength]

  /** The contact chain holds the five contact rules, in rule order. */
  lemma ContactChainRules()
    ensures InChainOrder(ContactChain)
    ensures NameLength in ContactChain && NameLetters in ContactChain && EmailFormat in ContactChain
    ensures SubjectLength in ContactChain && MessageLength in ContactChain
  {
    assert ContactChain[0] == NameLength && ContactChain[1] == NameLetters && ContactChain[2] == EmailFormat;
    assert ContactChain[3] == SubjectLength && ContactChain[4] == MessageLength;
  }

  /** The rule outcomes of the contact chain on one form, in declaration order. */
  datatype ContactOutcome = ContactOutcome(nameLength: bool, nameLetters: bool, email: bool, subject: bool, message: bool)
  {
    predicate Fails(c: Check) {
      match c
      case NameLength => !nameLength
      case NameLetters => !nameLetters
      case EmailFormat => !email
      case SubjectLength => !subject
      case MessageLength => !message
      case _ => false
    }
  }

  /** The failed rules of the contact chain for given rule outcomes. */
  function ContactChainErrors(o: ContactOutcome): (r: seq<Check>)
    ensures InChainOrder(r)
    ensures forall c :: c in r ==> c in ContactChain
    ensures r == [] <==> o.nameLength && o.nameLetters && o.email && o.subject && o.message
    ensures NameLength in r <==> !o.nameLength
    ensures NameLetters in r <==> !o.nameLetters
    ensures EmailFormat in r <==> !o.email
    ensures SubjectLength in r <==> !o.subject
    ensures MessageLength in r <==> !o.message
  {
    ContactChainRules();
    var r := Failures(ContactChain, o.Fails);
    assert r != [] ==> r[0] in r;
    assert NameLength in r <==> !o.nameLength;
    assert NameLetters in r <==> !o.nameLetters;
    assert EmailFormat in r <==> !o.email;
    assert SubjectLength in r <==> !o.subject;
    assert MessageLength in r <==> !o.message;
    r
  }

  /** The outcome of each contact rule on `f`, every rule reading the trimmed field. */
  function ContactOutcomes(lib: Library, f: ContactForm): ContactOutcome {
    var name := Trim(f.name);
    ContactOutcome(IsLength(name, 2, 100), LettersAndSpaces(name), EmailOk(lib, f), SubjectOk(f), MessageOk(f))
  }

  /**
    * `validationResult(req)` after `validateContact`: each rule runs on the trimmed field, an
    * absent subject is not checked, every failure is kept in declaration order, and the list is
    * empty exactly when the form is valid.
    */
  function ContactErrors(lib: Library, f: ContactForm): (r: seq<Check>)
    ensures InChainOrder(r)
    ensures forall c :: c in r ==> c in ContactChain
    ensures r == [] <==> ValidContact(lib, f)
    ensures NameLength in r <==> !IsLength(Trim(f.name), 2, 100)
    ensures NameLetters in r <==> !LettersAndSpaces(Trim(f.name))
    ensures EmailFormat in r <==> !EmailOk(lib, f)
    ensures SubjectLength in r <==> f.subject.Some? && |Trim(f.subject.value)| > 200
    ensures MessageLength in r <==> !MessageOk(f)
  {
    ContactChainErrors(ContactOutcomes(lib, f))
  }

  /**
    * The body the handler reads after the chain's sanitizers rewrote it: name and message
    * trimmed, the email passed through `normalizeEmail` (`None` where that returned `false`), and
    * a present subject trimmed.
    */
  datatype SanitizedContact = SanitizedContact(name: string, email: Option<string>, subject: Option<string>, message: string)

  function Sanitize(lib: Library, f: ContactForm): (r: SanitizedContact)
    ensures IsTrimmed(r.name) && IsTrimmed(r.message)
    ensures r.email.None? <==> lib.normalizeEmail(Trim(f.email)).None?
    ensures r.subject.Some? <==> f.subject.Some?
    ensures r.subject.Some? ==> IsTrimmed(r.subject.value) && (r.subject.value == [] <==> AllWhitespace(f.subject.value))
  {
    var subject := match f.subject case None => None case Some(s) => Some(Trim(s));
    SanitizedContact(Trim(f.name), lib.normalizeEmail(Trim(f.email)), subject, Trim(f.message))
  }

  // ---------------------------------------------------------------------------------------------
  // Records

  /** The object the POST handler passes to `saveContactData`. */
  datatype ContactData = ContactData(
    name: string, email: string, subject: string, message: string, ipAddress: string, userAgent: Option<string>)

  /** A stored contact message: the data spread between the assigned id and the save's timestamp and status. */
  datatype ContactRecord = ContactRecord(
    id: string, name: string, email: string, subject: string, message: string,
    ipAddress: string, userAgent: Option<string>, timestamp: string, status: string)

  const DefaultSubject := "General Inquiry"

  /** `subject ? subject.trim() : 'General Inquiry'`: an absent or empty subject is falsy. */
  function StoredSubject(subject: Option<string>): (r: string)
    ensures IsTrimmed(r)
    ensures subject.None? || subject.value == [] ==> r == DefaultSubject
    ensures r == [] <==> subject.Some? && subject.value != [] && AllWhitespace(subject.value)
  {
    match subject
    case Some(s) => if s != [] then Trim(s) else DefaultSubject
    case None => DefaultSubject
  }

  /**
    * The handler's record builder: trims name and message again, lower-cases the email and fills
    * in the default subject. When the sanitizer left `false` in place of the email,
    * `email.trim()` throws (`None`).
    */
  function PrepareContactData(b: SanitizedContact, ip: string, userAgent: Option<string>): (r: Option<ContactData>)
    ensures r.Some? <==> b.email.Some?
    ensures r.Some? ==>
      && IsTrimmed(r.value.name) && IsTrimmed(r.value.email) && IsTrimmed(r.value.subject) && IsTrimmed(r.value.message)
      && (forall i :: 0 <= i < |r.value.email| ==> !IsAsciiUpper(r.value.email[i]))
      && r.value.ipAddress == ip && r.value.userAgent == userAgent
  {
    match b.email
    case None => None
    case Some(email) =>
      LowerCaseKeepsTrimmed(Trim(email));
      Some(ContactData(Trim(b.name), LowerCase(Trim(email)), StoredSubject(b.subject), Trim(b.message), ip, userAgent))
  }

  /**
    * The stored subject is the trimmed subject the client sent when that has any non-whitespace
    * character, and "General Inquiry" when the subject is absent or blank; it is never empty and
    * never has whitespace at either end.
    */
  lemma ContactSubjectDefault(subject: Option<string>)
    ensures var s := StoredSubject(match subject case None => None case Some(x) => Some(Trim(x)));
      && (subject.Some? && !AllWhitespace(subject.value) ==> s == Trim(subject.value))
      && (subject.None? || AllWhitespace(subject.value) ==> s == DefaultSubject)
      && s != [] && IsTrimmed(s)
  {
  }

  /**
    * From the raw body to the stored fields: name and message are the raw fields trimmed once;
    * the email is the normalised address, trimmed and lower-cased; the subject follows
    * `ContactSubjectDefault`; the caller's address and user agent are attached.
    */
  lemma ContactDataFromForm(lib: Library, f: ContactForm, ip: string, userAgent: Option<string>)
    requires lib.normalizeEmail(Trim(f.email)).Some?
    ensures var d := PrepareContactData(Sanitize(lib, f), ip, userAgent);
      && d.Some?
      && d.value.name == Trim(f.name) && d.value.message == Trim(f.message)
      && d.value.email == LowerCase(Trim(lib.normalizeEmail(Trim(f.email)).value))
      && d.value.subject == StoredSubject(Sanitize(lib, f).subject)
      && d.value.ipAddress == ip && d.value.userAgent == userAgent
      && IsTrimmed(d.value.name) && IsTrimmed(d.value.email) && IsTrimmed(d.value.subject)
      && d.value.subject != []
  {
    TrimIdempotent(f.name);
    TrimIdempotent(f.message);
    LowerCaseKeepsTrimmed(Trim(lib.normalizeEmail(Trim(f.email)).value));
    ContactSubjectDefault(f.subject);
  }

  // ---------------------------------------------------------------------------------------------
  // The data file and the POST handler

  const SaveFailed := "Failed to save contact data"
  const SendFailed := "Failed to send contact message"
  const Sent := "Contact message sent successfully"

  /** `data/contacts.json`, which `saveContactData` reads, extends by one record and writes back. */
  class ContactStore {
    var file: StoreFile<ContactRecord>

    constructor (initial: StoreFile<ContactRecord>)
      ensures file == initial
    {
      file := initial;
    }

    /**
      * `saveContactData`: loads the list (absent or unparseable reads as empty), pushes one
      * record whose id is the clock reading in decimal, whose fields are `data`'s and whose
      * timestamp and status are the save's own, and writes the list back. `ioFails` stands for a
      * failed `mkdir` or `writeFile`; a file holding a non-array makes `push` throw. A failure
      * leaves the file as it was.
      */
    method SaveContactData(data: ContactData, clock: nat, isoTime: string, ioFails: bool) returns (r: Result<ContactRecord>)
      modifies this
      ensures r.Success? <==> !ioFails && !old(file).NotAnArray?
      ensures r.Success? ==>
        && r.value == ContactRecord(DecimalString(clock), data.name, data.email, data.subject, data.message,
                                    data.ipAddress, data.userAgent, isoTime, StatusNew)
        && file == Records(ExistingRecords(old(file)) + [r.value])
      ensures r.Failure? ==> r.error == SaveFailed && file == old(file)
    {
      var contacts: seq<ContactRecord>;
      match file {
        case Records(items) => contacts := items;
        case NotAnArray => return Failure(SaveFailed);
        case _ => contacts := [];
      }
      var newContact := ContactRecord(DecimalString(clock), data.name, data.email, data.subject, data.message,
                                      data.ipAddress, data.userAgent, isoTime, StatusNew);
      contacts := contacts + [newContact];
      if ioFails {
        return Failure(SaveFailed);
      }
      file := Records(contacts);
      return Success(newContact);
    }
  }

  /**
    * POST /api/contact after the rate limiter: 400 with every failed rule when validation fails,
    * 500 with a fixed message when building or saving the record throws, otherwise 201 with the
    * saved id and timestamp. The notification gets the saved record; its outcome
    * (`notifyFails`) is never read, so the response does not depend on it.
    */
  method PostContact(store: ContactStore, lib: Library, form: ContactForm, ip: string, userAgent: Option<string>,
                     clock: nat, isoTime: string, ioFails: bool, notifyFails: bool)
    returns (response: SubmitResponse, notified: Option<ContactRecord>)
    modifies store
    ensures !ValidContact(lib, form) ==>
      && response == ValidationFailed(ValidationFailedError, Details(ContactErrors(lib, form)))
      && store.file == old(store.file) && notified == None
    ensures ValidContact(lib, form) && (lib.normalizeEmail(Trim(form.email)).None? || ioFails || old(store.file).NotAnArray?) ==>
      && response == ServerError(SendFailed, TryLaterMessage)
      && store.file == old(store.file) && notified == None
    ensures ValidContact(lib, form) && lib.normalizeEmail(Trim(form.email)).Some? && !ioFails && !old(store.file).NotAnArray? ==>
      && store.file.Records? && |store.file.items| > 0
      && var saved := store.file.items[|store.file.items| - 1];
      && store.file.items == ExistingRecords(old(store.file)) + [saved]
      && Some(ContactData(saved.name, saved.email, saved.subject, saved.message, saved.ipAddress, saved.userAgent))
         == PrepareContactData(Sanitize(lib, form), ip, userAgent)
      && saved.id == DecimalString(clock) && saved.timestamp == isoTime && saved.status == StatusNew
      && response == Created(Sent, saved.id, saved.timestamp)
      && notified == Some(saved)
  {
    var errors := ContactErrors(lib, form);
    if errors != [] {
      return ValidationFailed(ValidationFailedError, Details(errors)), None;
    }
    var body := Sanitize(lib, form);
    var data := PrepareContactData(body, ip, userAgent);
    if data.None? {
      return ServerError(SendFailed, TryLaterMessage), None;
    }
    var saved := store.SaveContactData(data.value, clock, isoTime, ioFails);
    if saved.Failure? {
      return ServerError(SendFailed, TryLaterMessage), None;
    }
    // sendContactEmailNotification(savedContact) is dispatched and its failure only logged.
    notified := Some(saved.value);
    response := Created(Sent, saved.value.id, saved.value.timestamp);
  }

  // ---------------------------------------------------------------------------------------------
  // GET /api/contact and GET /api/contact/:id

  /** The public view of a contact message: no email, message, address or user agent. */
  datatype ContactSummary = ContactSummary(id: string, name: string, subject: string, timestamp: string, status: string)

  datatype ContactList = ContactList(success: bool, count: nat, contacts: seq<ContactSummary>)

  function Summary(c: ContactRecord): ContactSummary {
    ContactSummary(c.id, c.name, c.subject, c.timestamp, c.status)
  }

  /**
    * GET /api/contact: one summary per stored record, in file order and without a cap, carrying
    * that record's id, name, subject, timestamp and status; `count` is the number of summaries.
    * A file that is absent, malformed or not an array lists nothing.
    */
  function ListContacts(f: StoreFile<ContactRecord>): (r: ContactList)
    ensures r.success && r.count == |r.contacts|
    ensures f.Records? ==> |r.contacts| == |f.items|
    ensures f.Records? ==> forall i :: 0 <= i < |f.items| ==>
      && r.contacts[i].id == f.items[i].id && r.contacts[i].name == f.items[i].name
      && r.contacts[i].subject == f.items[i].subject && r.contacts[i].timestamp == f.items[i].timestamp
      && r.contacts[i].status == f.items[i].status
    ensures !f.Records? ==> r.contacts == []
  {
    match f
    case Records(items) =>
      var contacts := seq(|items|, i requires 0 <= i < |items| => Summary(items[i]));
      ContactList(true, |contacts|, contacts)
    case _ => ContactList(true, 0, [])
  }

  /** Two contact records that agree on their public fields. */
  predicate SamePublicFields(a: ContactRecord, b: ContactRecord) {
    a.id == b.id && a.name == b.name && a.subject == b.subject && a.timestamp == b.timestamp && a.status == b.status
  }

  /**
    * The list does not reveal the sensitive fields: stores that differ only in email, message,
    * address or user agent give the same list.
    */
  lemma ListHidesSensitiveFields(xs: seq<ContactRecord>, ys: seq<ContactRecord>)
    requires |xs| == |ys|
    requires forall i :: 0 <= i < |xs| ==> SamePublicFields(xs[i], ys[i])
    ensures ListContacts(Records(xs)) == ListContacts(Records(ys))
  {
  }

  /** A successful save makes the list one entry longer, with the new record's summary last. */
  lemma ListAfterSave(f: StoreFile<ContactRecord>, c: ContactRecord)
    requires !f.NotAnArray?
    ensures var after := ListContacts(Records(ExistingRecords(f) + [c]));
      && after.count == ListContacts(f).count + 1
      && after.contacts == ListContacts(f).contacts + [Summary(c)]
  {
  }

  /** The detail view: every stored field except the address and user agent. */
  datatype ContactDetail = ContactDetail(
    id: string, name: string, email: string, subject: string, message: string, timestamp: string, status: string)

  function Detail(c: ContactRecord): ContactDetail {
    ContactDetail(c.id, c.name, c.email, c.subject, c.message, c.timestamp, c.status)
  }

  const ContactNotFound := "Contact not found"

  /** The response of GET /api/contact/:id: 200 with the detail view, or 404. */
  datatype ContactLookup = Found(contact: ContactDetail) | NotFound(error: string)

  function Ids(items: seq<ContactRecord>): (r: seq<string>)
    ensures |r| == |items| && forall i :: 0 <= i < |items| ==> r[i] == items[i].id
  {
    seq(|items|, i requires 0 <= i < |items| => items[i].id)
  }

  /**
    * GET /api/contact/:id: the detail view of the FIRST stored record whose id is `id`; 404 when
    * no record has that id or the file is absent, malformed or not an array.
    */
  function GetContact(f: StoreFile<ContactRecord>, id: string): (r: ContactLookup)
    ensures r.Found? <==> f.Records? && id in Ids(f.items)
    ensures r.Found? ==> exists i :: 0 <= i && IsFirst(Ids(f.items), i, id) && r.contact == Detail(f.items[i])
    ensures r.NotFound? ==> r.error == ContactNotFound
  {
    match f
    case Records(items) =>
      (match FirstIndex(Ids(items), id)
       case Some(i) => Found(Detail(items[i]))
       case None => NotFound(ContactNotFound))
    case _ => NotFound(ContactNotFound)
  }

  /**
    * After a successful save the new record can be looked up by its id, and it is the one found
    * unless an earlier record already carries that id.
    */
  lemma LookupAfterSave(f: StoreFile<ContactRecord>, c: ContactRecord)
    requires !f.NotAnArray?
    ensures var r := GetContact(Records(ExistingRecords(f) + [c]), c.id);
      && r.Found?
      && (c.id !in Ids(ExistingRecords(f)) ==> r.contact == Detail(c))
      && (c.id in Ids(ExistingRecords(f)) ==> r == GetContact(f, c.id))
  {
    var xs := ExistingRecords(f);
    assert Ids(xs + [c]) == Ids(xs) + [c.id];
    FirstIndexAppend(Ids(xs), c.id, c.id);
  }
}
