/**
  * The browser-side check `submitQuote` runs before it posts the quote form: every field must be
  * non-empty, then the email must match `^[^\s@]+@[^\s@]+\.[^\s@]+$`, then the mobile number,
  * with whitespace, `-`, `(` and `)` removed, must match `^[\+]?[1-9][\d]{0,15}$` and have at
  * least ten characters. The first failing step decides the alert; the fields are not trimmed.
  */
module QuoteFormCheck {
  import opened Text
  import opened Validator
  import opened Quotes

  // ---------------------------------------------------------------------------------------------
  // The email pattern

  /** A run of `[^\s@]`: no whitespace and no `@`. */
  predicate EmailRun(t: string) {
    forall i :: 0 <= i < |t| ==> t[i] != '@' && !IsWhitespace(t[i])
  }

  /**
    * `^[^\s@]+@[^\s@]+\.[^\s@]+$`: `s` splits at an `@` (position `p`) and a later `.`
    * (position `q`) into three non-empty runs of `[^\s@]`.
    */
  predicate EmailRegex(s: string) {
    exists p, q :: 0 < p && p + 1 < q < |s| - 1 && s[p] == '@' && s[q] == '.'
      && EmailRun(s[..p]) && EmailRun(s[p + 1..q]) && EmailRun(s[q + 1..])
  }

  /** The position of the only `@` of `s`. */
  predicate OnlyAt(s: string, p: int) {
    0 <= p < |s| && s[p] == '@' && forall i :: 0 <= i < |s| && i != p ==> s[i] != '@'
  }

  /**
    * The strings the email pattern accepts, described without splitting: no whitespace, exactly
    * one `@`, not in front, and some `.` after the `@` that neither follows it directly nor ends
    * the string. Dots elsewhere are allowed, since `[^\s@]` matches them.
    */
  predicate EmailShape(s: string) {
    && (forall i :: 0 <= i < |s| ==> !IsWhitespace(s[i]))
    && exists p, q :: 0 < p && p + 1 < q < |s| - 1 && OnlyAt(s, p) && s[q] == '.'
  }

  lemma EmailRegexHasShape(s: string)
    requires EmailRegex(s)
    ensures EmailShape(s)
  {
    var p, q :| 0 < p && p + 1 < q < |s| - 1 && s[p] == '@' && s[q] == '.'
      && EmailRun(s[..p]) && EmailRun(s[p + 1..q]) && EmailRun(s[q + 1..]);
    forall i | 0 <= i < |s| && i != p ensures s[i] != '@' && !IsWhitespace(s[i]) {
      if i < p { assert s[i] == s[..p][i]; }
      else if i < q { assert s[i] == s[p + 1..q][i - p - 1]; }
      else if i > q { assert s[i] == s[q + 1..][i - q - 1]; }
    }
    assert OnlyAt(s, p);
  }

  lemma ShapeIsEmailRegex(s: string)
    requires EmailShape(s)
    ensures EmailRegex(s)
  {
  }

  /** The email pattern accepts exactly the strings of `EmailShape`. */
  lemma EmailRegexShape(s: string)
    ensures EmailRegex(s) <==> EmailShape(s)
  {
    if EmailRegex(s) { EmailRegexHasShape(s); }
    if EmailShape(s) { ShapeIsEmailRegex(s); }
  }

  // ---------------------------------------------------------------------------------------------
  // The mobile pattern

  /** What `/[\s\-\(\)]/g` removes. */
  predicate IsSeparator(c: char) {
    IsWhitespace(c) || c == '-' || c == '(' || c == ')'
  }

  /**
    * `mobile.replace(/[\s\-\(\)]/g, '')`: the characters of `s` that are not separators, in
    * their order.
    */
  function StripSeparators(s: string): (r: string)
    ensures |r| <= |s|
    ensures forall i :: 0 <= i < |r| ==> !IsSeparator(r[i])
    ensures multiset(r) <= multiset(s)
    ensures forall c :: multiset(r)[c] == if IsSeparator(c) then 0 else multiset(s)[c]
  {
    if s == [] then []
    else
      assert s == [s[0]] + s[1..];
      assert multiset(s) == multiset{s[0]} + multiset(s[1..]);
      if IsSeparator(s[0]) then StripSeparators(s[1..])
      else [s[0]] + StripSeparators(s[1..])
  }

  /** Removing the separators keeps every other character, so a string without any is unchanged. */
  lemma {:induction false} StripSeparatorsKeeps(s: string)
    requires forall i :: 0 <= i < |s| ==> !IsSeparator(s[i])
    ensures StripSeparators(s) == s
  {
    if s != [] {
      StripSeparatorsKeeps(s[1..]);
    }
  }

  /**
    * Removing the separators works character by character, so it keeps the order of what it
    * keeps: cleaning a concatenation is concatenating the cleaned parts.
    */
  lemma {:induction false} StripSeparatorsAppend(a: string, b: string)
    ensures StripSeparators(a + b) == StripSeparators(a) + StripSeparators(b)
  {
    if a == [] {
      assert a + b == b;
    } else {
      var x, rest := a[0], a[1..];
      var kept := if IsSeparator(x) then [] else [x];
      assert a == [x] + rest;
      calc {
        StripSeparators(a + b);
        { assert a + b == [x] + (rest + b); }
        StripSeparators([x] + (rest + b));
        { StripSeparatorsCons(x, rest + b); }
        kept + StripSeparators(rest + b);
        { StripSeparatorsAppend(rest, b); }
        kept + (StripSeparators(rest) + StripSeparators(b));
        { ConcatAssoc(kept, StripSeparators(rest), StripSeparators(b)); }
        (kept + StripSeparators(rest)) + StripSeparators(b);
        { StripSeparatorsCons(x, rest); }
        StripSeparators(a) + StripSeparators(b);
      }
    }
  }

  lemma ConcatAssoc(x: string, y: string, z: string)
    ensures x + (y + z) == (x + y) + z
  {
    assert forall k :: 0 <= k < |x| + |y| + |z| ==> (x + (y + z))[k] == ((x + y) + z)[k];
  }

  /** Cleaning a string that starts with `x` keeps `x` exactly when it is not a separator. */
  lemma StripSeparatorsCons(x: char, s: string)
    ensures StripSeparators([x] + s) == (if IsSeparator(x) then [] else [x]) + StripSeparators(s)
  {
    assert ([x] + s)[0] == x && ([x] + s)[1..] == s;
  }

  /** Removing the separators twice is removing them once. */
  lemma StripSeparatorsIdempotent(s: string)
    ensures StripSeparators(StripSeparators(s)) == StripSeparators(s)
  {
    StripSeparatorsKeeps(StripSeparators(s));
  }

  /** `[1-9][\d]{0,15}`: one to sixteen ASCII digits, the first not `0`. */
  predicate LeadingDigits(d: string) {
    1 <= |d| <= 16 && AllDigits(d) && d[0] != '0'
  }

  /** `^[\+]?[1-9][\d]{0,15}$` */
  predicate MobileRegex(c: string) {
    LeadingDigits(c) || (|c| >= 1 && c[0] == '+' && LeadingDigits(c[1..]))
  }

  /** The mobile test: the cleaned number matches the pattern and has at least ten characters. */
  predicate MobileAccepted(mobile: string) {
    var clean := StripSeparators(mobile);
    MobileRegex(clean) && |clean| >= 10
  }

  /**
    * An accepted number has, once cleaned, ten to seventeen characters, is digits after an
    * optional `+`, and does not start its digits with `0`.
    */
  lemma MobileAcceptedShape(mobile: string)
    requires MobileAccepted(mobile)
    ensures var clean := StripSeparators(mobile);
      && 10 <= |clean| <= 17
      && var digits := if clean[0] == '+' then clean[1..] else clean;
         AllDigits(digits) && digits[0] != '0' && 9 <= |digits| <= 16
  {
  }

  // ---------------------------------------------------------------------------------------------
  // The check

  /** The outcome of the check: the alert it shows, or the form going ahead to be posted. */
  datatype Verdict = MissingField | BadEmail | BadMobile | Accepted {
    /** The alert shown for a rejection. */
    function Alert(): string {
      match this
      case MissingField => "Please fill in all required fields."
      case BadEmail => "Please enter a valid email address."
      case BadMobile => "Please enter a valid mobile number."
      case Accepted => ""
    }
  }

  /** Every field is truthy, that is, non-empty (the field values are not trimmed). */
  predicate AllFilled(f: QuoteForm) {
    f.name != [] && f.mobile != [] && f.email != [] && f.company != [] && f.requirements != []
  }

  /**
    * The validation part of `submitQuote`: missing fields first, then the email, then the mobile
    * number; the first failure decides. A form goes ahead exactly when all three steps pass.
    */
  function CheckQuoteForm(f: QuoteForm): (r: Verdict)
    ensures r == MissingField <==> !AllFilled(f)
    ensures r == BadEmail <==> AllFilled(f) && !EmailRegex(f.email)
    ensures r == BadMobile <==> AllFilled(f) && EmailRegex(f.email) && !MobileAccepted(f.mobile)
    ensures r == Accepted <==> AllFilled(f) && EmailRegex(f.email) && MobileAccepted(f.mobile)
  {
    if !AllFilled(f) then MissingField
    else if !EmailRegex(f.email) then BadEmail
    else if !MobileAccepted(f.mobile) then BadMobile
    else Accepted
  }

  /**
    * The browser looks at the name, the company and the requirements only to see that they are
    * non-empty: their length, their characters and surrounding whitespace are left to the
    * server, so replacing them by any other non-empty values gives the same verdict.
    */
  lemma OnlyEmailAndMobileAreChecked(f: QuoteForm, name: string, company: string, requirements: string)
    requires name != [] && company != [] && requirements != []
    requires f.name != [] && f.company != [] && f.requirements != []
    ensures CheckQuoteForm(f.(name := name, company := company, requirements := requirements)) == CheckQuoteForm(f)
  {
  }
}
