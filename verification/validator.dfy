/**
  * The part of express-validator the two form routes use. The checks that live inside the
  * validator.js library (`isEmail`, `isMobilePhone('any')`, `normalizeEmail`) are parameters:
  * every property proved about the routes holds whatever those functions are. The length bounds
  * and the name pattern are stated outright.
  */
module Validator {
  import opened Wrappers
  import opened Text

  /** The library checks the model leaves uninterpreted. */
  datatype Library = Library(
    isEmail: string -> bool,
    /** `isMobilePhone('any')` */
    isMobilePhone: string -> bool,
    /** `normalizeEmail()`; `None` where validator.js returns `false` instead of a string */
    normalizeEmail: string -> Option<string>
  )

  /** The body fields the two forms validate. */
  datatype Field = Name | Mobile | Email | Company | Requirements | Subject | Message {
    /** The field's key in the request body, reported as the error's `path`. */
    function Path(): string {
      match this
      case Name => "name"
      case Mobile => "mobile"
      case Email => "email"
      case Company => "company"
      case Requirements => "requirements"
      case Subject => "subject"
      case Message => "message"
    }
  }

  /**
    * The rules of the two chains, each with the field it checks and the message it reports.
    * Both routes declare their rules in the order listed here (a route uses a subsequence).
    */
  datatype Check =
    | NameLength | NameLetters | MobilePhone | EmailFormat | CompanyLength | RequirementsLength
    | SubjectLength | MessageLength
  {
    function Target(): Field {
      match this
      case NameLength => Name
      case NameLetters => Name
      case MobilePhone => Mobile
      case EmailFormat => Email
      case CompanyLength => Company
      case RequirementsLength => Requirements
      case SubjectLength => Subject
      case MessageLength => Message
    }

    function Msg(): string {
      match this
      case NameLength => "Name must be between 2 and 100 characters"
      case NameLetters => "Name can only contain letters and spaces"
      case MobilePhone => "Please enter a valid mobile number"
      case EmailFormat => "Please enter a valid email address"
      case CompanyLength => "Company name must be between 2 and 200 characters"
      case RequirementsLength => "Requirements must be between 10 and 2000 characters"
      case SubjectLength => "Subject must be less than 200 characters"
      case MessageLength => "Message must be between 10 and 1000 characters"
    }

    /** The rule's place in the declaration order. */
    function Rank(): nat {
      match this
      case NameLength => 0
      case NameLetters => 1
      case MobilePhone => 2
      case EmailFormat => 3
      case CompanyLength => 4
      case RequirementsLength => 5
      case SubjectLength => 6
      case MessageLength => 7
    }
  }

  /** One entry of `validationResult(req).array()`: the offending field's path and the rule's message. */
  datatype FieldError = FieldError(path: string, msg: string)

  function Report(c: Check): FieldError {
    FieldError(c.Target().Path(), c.Msg())
  }

  /** The error entries of a list of failed rules, in the same order. */
  function Details(failed: seq<Check>): (r: seq<FieldError>)
    ensures |r| == |failed|
    ensures forall i :: 0 <= i < |failed| ==> r[i] == FieldError(failed[i].Target().Path(), failed[i].Msg())
  {
    seq(|failed|, i requires 0 <= i < |failed| => Report(failed[i]))
  }

  /** Failed rules listed in declaration order, each at most once. */
  predicate InChainOrder(failed: seq<Check>) {
    forall i, j :: 0 <= i < j < |failed| ==> failed[i].Rank() < failed[j].Rank()
  }

  /** `isLength({ min, max })`, counted in characters. */
  predicate IsLength(s: string, min: nat, max: nat) {
    min <= |s| <= max
  }

  predicate IsAsciiLetter(c: char) {
    ('a' <= c <= 'z') || ('A' <= c <= 'Z')
  }

  /** `matches(/^[a-zA-Z\s]+$/)`: at least one character, each an ASCII letter or whitespace. */
  predicate LettersAndSpaces(s: string) {
    |s| >= 1 && forall i :: 0 <= i < |s| ==> IsAsciiLetter(s[i]) || IsWhitespace(s[i])
  }

  /**
    * `validationResult(req)` for a chain of rules: the rules of `chain` that are in `failed`, in
    * chain order. A rule is reported exactly when it is in the chain and failed, and a chain
    * declared in rule order reports its failures in rule order.
    */
  function Failures(chain: seq<Check>, failed: Check -> bool): (r: seq<Check>)
    ensures forall c :: c in r <==> c in chain && failed(c)
    ensures InChainOrder(chain) ==> InChainOrder(r)
  {
    if chain == [] then []
    else
      var rest := Failures(chain[1..], failed);
      assert forall c :: c in chain <==> c == chain[0] || c in chain[1..];
      if failed(chain[0]) then
        var r := [chain[0]] + rest;
        assert InChainOrder(chain) ==> InChainOrder(r) by {
          if InChainOrder(chain) {
            HeadBeforeRest(chain);
            ConsInChainOrder(chain[0], rest);
          }
        }
        r
      else rest
  }

  /** In a list in declaration order the head comes before every later rule. */
  lemma HeadBeforeRest(chain: seq<Check>)
    requires chain != [] && InChainOrder(chain)
    ensures InChainOrder(chain[1..])
    ensures forall d :: d in chain[1..] ==> chain[0].Rank() < d.Rank()
  {
  }

  /** A rule ranked before every rule of an ordered list can go in front of it. */
  lemma ConsInChainOrder(c: Check, rest: seq<Check>)
    requires InChainOrder(rest)
    requires forall d :: d in rest ==> c.Rank() < d.Rank()
    ensures InChainOrder([c] + rest)
  {
  }

  /**
    * Two lists of failed rules in declaration order that hold the same rules are the same list:
    * membership and `InChainOrder` together fix the error list a chain reports.
    */
  lemma {:induction false} ChainOrderUnique(a: seq<Check>, b: seq<Check>)
    requires InChainOrder(a) && InChainOrder(b)
    requires forall c :: c in a <==> c in b
    ensures a == b
  {
    assert a != [] ==> a[0] in b;
    assert b != [] ==> b[0] in a;
    if a != [] && b != [] {
      assert a[0] == b[0] by {
        // each list starts with the lowest-ranked rule of the pair, since each holds the other's head
        assert a[0].Rank() <= b[0].Rank();
        assert b[0].Rank() <= a[0].Rank();
        RankInjective(a[0], b[0]);
      }
      forall c | c in a[1..] ensures c in b[1..] {
        var i :| 1 <= i < |a| && a[i] == c;
        assert c in b;
        var j :| 0 <= j < |b| && b[j] == c;
      }
      forall c | c in b[1..] ensures c in a[1..] {
        var j :| 1 <= j < |b| && b[j] == c;
        assert c in a;
        var i :| 0 <= i < |a| && a[i] == c;
      }
      ChainOrderUnique(a[1..], b[1..]);
      assert a == [a[0]] + a[1..] && b == [b[0]] + b[1..];
    }
  }

  lemma RankInjective(c: Check, d: Check)
    requires c.Rank() == d.Rank()
    ensures c == d
  {
  }
}
