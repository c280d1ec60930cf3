/** E-mail address checks (internal/services/validation/email.go; the same
    list and functions appear in email-handling.go, lines 10-199): the
    address syntax, the domain after the "@", the lookup in the list of
    disposable-mail providers, and how ValidateEmail fills in its result.

    The DNS lookups behind isValidDomain and verifyMxRecords are network
    I/O: their answers are parameters here. */
module Email {
  import opened Text

  /** disposableEmailDomains. */
  const DisposableEmailDomains: seq<string> := [
    "mailinator.com",
    "10minutemail.com",
    "guerrillamail.com",
    "tempmail.net",
    "throwawaymail.com",
    "yopmail.com",
    "maildrop.cc",
    "getnada.com",
    "dispostable.com",
    "fakeinbox.com",
    "tempmail.org",
    "spamgourmet.com",
    "trashmail.com"
  ]

  /** EmailValidation. */
  datatype EmailValidation = EmailValidation(
    email: string,
    isSyntaxValid: bool,
    isDomainValid: bool,
    mxRecordsFound: bool,
    isDisposable: bool)

  // ---------------------------------------------------------------------------
  // isValidEmailSyntax

  predicate IsAsciiLetter(c: char) {
    IsUpper(c) || IsLower(c)
  }

  /** `[a-zA-Z0-9._%+-]`. */
  predicate IsLocalChar(c: char) {
    IsAsciiLetter(c) || IsDigit(c) || c == '.' || c == '_' || c == '%' || c == '+' || c == '-'
  }

  /** `[a-zA-Z0-9.-]`. */
  predicate IsDomainChar(c: char) {
    IsAsciiLetter(c) || IsDigit(c) || c == '.' || c == '-'
  }

  /** `[a-zA-Z0-9._%+-]+`. */
  predicate IsLocalPart(s: string) {
    |s| > 0 && forall i :: 0 <= i < |s| ==> IsLocalChar(s[i])
  }

  /** `[a-zA-Z0-9.-]+\.[a-zA-Z]{2,}`: a host name, a dot, and a top-level
      label of two letters or more. */
  predicate IsDomainPart(d: string) {
    exists j :: 0 < j < |d| - 2 && d[j] == '.'
      && (forall i :: 0 <= i < j ==> IsDomainChar(d[i]))
      && (forall i :: j < i < |d| ==> IsAsciiLetter(d[i]))
  }

  /** isValidEmailSyntax: the anchored pattern
      `^[a-zA-Z0-9._%+-]+@[a-zA-Z0-9.-]+\.[a-zA-Z]{2,}$`. Neither character
      class holds "@", so the "@" of a match is the first one. */
  predicate IsValidEmailSyntax(email: string) {
    var at := IndexOf(email, '@');
    at >= 0 && IsLocalPart(email[..at]) && IsDomainPart(email[at + 1..])
  }

  // ---------------------------------------------------------------------------
  // extractDomain

  /** extractDomain: the text after the "@" when there is exactly one, and
      "" otherwise. */
  function ExtractDomain(email: string): (domain: string)
    ensures Count(email, '@') != 1 ==> domain == ""
    ensures Count(email, '@') == 1 ==>
      var at := IndexOf(email, '@'); 0 <= at && email == email[..at] + "@" + domain
    ensures '@' !in domain
  {
    var parts := Split(email, '@');
    SplitCount(email, '@');
    if |parts| == 2 then
      SplitOnce(email);
      assert parts[1] == email[IndexOf(email, '@') + 1..];
      parts[1]
    else
      assert Count(email, '@') != 1;
      ""
  }

  /** An address with one "@" splits into the text before and after it. */
  lemma SplitOnce(email: string)
    requires |Split(email, '@')| == 2
    ensures var i := IndexOf(email, '@');
      0 <= i && Split(email, '@') == [email[..i], email[i + 1..]]
      && email == email[..i] + "@" + email[i + 1..]
  {
    var i := IndexOf(email, '@');
    var rest := email[i + 1..];
    assert Split(email, '@') == [email[..i]] + Split(rest, '@');
    JoinSplit(rest, '@');
    assert '@' !in rest;
    SplitNone(rest, '@');
  }

  /** Any local part and domain without "@": the domain is what comes back. */
  lemma ExtractDomainOfAddress(local: string, domain: string)
    requires '@' !in local && '@' !in domain
    ensures ExtractDomain(local + "@" + domain) == domain
  {
    assert local + "@" + domain == local + ['@'] + domain;
    SplitAt(local, domain, '@');
    SplitNone(domain, '@');
  }

  /** No character of a domain part is an "@". */
  lemma DomainPartHasNoAt(d: string)
    requires IsDomainPart(d)
    ensures '@' !in d
  {
    var j :| 0 < j < |d| - 2 && d[j] == '.'
      && (forall i :: 0 <= i < j ==> IsDomainChar(d[i]))
      && (forall i :: j < i < |d| ==> IsAsciiLetter(d[i]));
    forall i | 0 <= i < |d| ensures d[i] != '@' {
      if i < j {
        assert IsDomainChar(d[i]);
      } else if i > j {
        assert IsAsciiLetter(d[i]);
      }
    }
  }

  /** A syntactically valid address always has a non-empty domain, the text
      after its "@". */
  lemma ValidSyntaxHasDomain(email: string)
    requires IsValidEmailSyntax(email)
    ensures var at := IndexOf(email, '@');
      ExtractDomain(email) == email[at + 1..] && ExtractDomain(email) != ""
  {
    var at := IndexOf(email, '@');
    var local, domain := email[..at], email[at + 1..];
    DomainPartHasNoAt(domain);
    assert email == local + "@" + domain;
    ExtractDomainOfAddress(local, domain);
  }

  // ---------------------------------------------------------------------------
  // isDisposableEmail

  /** The specification of isDisposableEmail: a domain was extracted and,
      lower-cased, it is one of the listed providers. */
  predicate Disposable(email: string) {
    var domain := ExtractDomain(email);
    domain != "" && ToLower(domain) in DisposableEmailDomains
  }

  /** isDisposableEmail: a linear search of the list, returning at the first
      provider equal to the lower-cased domain. */
  method IsDisposableEmail(email: string) returns (disposable: bool)
    ensures disposable == Disposable(email)
    ensures ExtractDomain(email) == "" ==> !disposable
  {
    var domain := ExtractDomain(email);
    if domain == "" {
      return false;
    }
    var lowered := ToLower(domain);
    for i := 0 to |DisposableEmailDomains|
      invariant lowered !in DisposableEmailDomains[..i]
    {
      if lowered == DisposableEmailDomains[i] {
        return true;
      }
    }
    assert DisposableEmailDomains[..|DisposableEmailDomains|] == DisposableEmailDomains;
    return false;
  }

  /** Lower-casing neither adds nor removes an "@". */
  lemma LowerKeepsAt(s: string)
    ensures '@' in s <==> '@' in ToLower(s)
  {
    var t := ToLower(s);
    if '@' in s {
      var i :| 0 <= i < |s| && s[i] == '@';
      assert t[i] == '@';
    }
    if '@' in t {
      var i :| 0 <= i < |t| && t[i] == '@';
      assert s[i] == '@';
    }
  }

  lemma ToLowerIdempotent(s: string)
    ensures ToLower(ToLower(s)) == ToLower(s)
  {
    var t := ToLower(s);
    assert forall i :: 0 <= i < |t| ==> LowerRune(t[i]) == t[i];
  }

  /** The lookup ignores ASCII case: the domain as typed and its lower-case
      form are judged alike. */
  lemma DisposableIgnoresCase(local: string, domain: string)
    requires '@' !in local && '@' !in domain
    ensures Disposable(local + "@" + domain) == Disposable(local + "@" + ToLower(domain))
  {
    ExtractDomainOfAddress(local, domain);
    LowerKeepsAt(domain);
    ExtractDomainOfAddress(local, ToLower(domain));
    ToLowerIdempotent(domain);
  }

  // ---------------------------------------------------------------------------
  // verifyMxRecords and ValidateEmail

  /** verifyMxRecords: false without a domain, otherwise whether the MX
      lookup for it returned records. `hasMx` stands for that lookup. */
  function VerifyMxRecords(email: string, hasMx: string -> bool): (found: bool)
    ensures found ==> ExtractDomain(email) != "" && hasMx(ExtractDomain(email))
    ensures ExtractDomain(email) != "" && hasMx(ExtractDomain(email)) ==> found
  {
    var domain := ExtractDomain(email);
    if domain == "" then false else hasMx(domain)
  }

  /** ValidateEmail: every field is filled in independently of the others.
      `resolves` stands for isValidDomain (an MX or a host lookup succeeds)
      and `hasMx` for the MX lookup of verifyMxRecords. */
  method ValidateEmail(email: string, resolves: string -> bool, hasMx: string -> bool)
    returns (r: EmailValidation)
    ensures r.email == email
    ensures r.isSyntaxValid == IsValidEmailSyntax(email)
    ensures r.isDomainValid == resolves(ExtractDomain(email))
    ensures r.mxRecordsFound == VerifyMxRecords(email, hasMx)
    ensures r.isDisposable == Disposable(email)
    ensures r.isDisposable || r.mxRecordsFound ==> ExtractDomain(email) != ""
  {
    r := EmailValidation(email, false, false, false, false);
    if IsValidEmailSyntax(email) {
      r := r.(isSyntaxValid := true);
    }
    var domain := ExtractDomain(email);
    if resolves(domain) {
      r := r.(isDomainValid := true);
    }
    if VerifyMxRecords(email, hasMx) {
      r := r.(mxRecordsFound := true);
    }
    var disposable := IsDisposableEmail(email);
    if disposable {
      r := r.(isDisposable := true);
    }
  }
}
