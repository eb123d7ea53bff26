/** The controller's input validators for e-mail addresses and phone numbers
    (UserInterface.isValidEmail and UserInterface.isValidPhone), as pure
    functions over strings. Java strings are sequences of UTF-16 code units;
    here a string is a seq<char>. */
module Validation {

  // ---------------------------------------------------------------------
  // String.indexOf(char) and String.lastIndexOf(char)
  // ---------------------------------------------------------------------

  /** i is the position of the first occurrence of c in s. */
  predicate IsFirst(s: string, c: char, i: int) {
    0 <= i < |s| && s[i] == c && forall j :: 0 <= j < i ==> s[j] != c
  }

  /** i is the position of the last occurrence of c in s. */
  predicate IsLast(s: string, c: char, i: int) {
    0 <= i < |s| && s[i] == c && forall j :: i < j < |s| ==> s[j] != c
  }

  /** String.indexOf: the first position of c in s, or -1 when c does not occur. */
  function IndexOf(s: string, c: char): (r: int)
    ensures -1 <= r < |s|
    ensures r == -1 <==> c !in s
    ensures r != -1 ==> IsFirst(s, c, r)
  {
    if s == [] then -1
    else if s[0] == c then 0
    else
      var k := IndexOf(s[1..], c);
      assert s == [s[0]] + s[1..];
      if k == -1 then -1 else k + 1
  }

  /** String.lastIndexOf: the last position of c in s, or -1 when c does not occur. */
  function LastIndexOf(s: string, c: char): (r: int)
    ensures -1 <= r < |s|
    ensures r == -1 <==> c !in s
    ensures r != -1 ==> IsLast(s, c, r)
  {
    if s == [] then -1
    else if s[|s| - 1] == c then |s| - 1
    else
      assert s == s[..|s| - 1] + [s[|s| - 1]];
      LastIndexOf(s[..|s| - 1], c)
  }

  /** Only one position can be the first (or the last) occurrence. */
  lemma FirstIsUnique(s: string, c: char, i: int, k: int)
    requires IsFirst(s, c, i) && IsFirst(s, c, k)
    ensures i == k
  {
  }

  lemma LastIsUnique(s: string, c: char, i: int, k: int)
    requires IsLast(s, c, i) && IsLast(s, c, k)
    ensures i == k
  {
  }

  // ---------------------------------------------------------------------
  // isValidEmail
  // ---------------------------------------------------------------------

  /** isValidEmail as BankingApp.java computes it: non-empty, the first '@' is not
      at the start, and the last '.' lies at least two places after that '@'
      and before the final character. An accepted address therefore has at
      least five characters, does not start with '@' and does not end in '.'. */
  predicate IsValidEmail(email: string)
    ensures IsValidEmail(email) ==>
      && |email| >= 5
      && email[0] != '@'
      && email[|email| - 1] != '.'
  {
    |email| > 0 &&
    var at := IndexOf(email, '@');
    var dot := LastIndexOf(email, '.');
    at > 0 && dot > at + 1 && dot < |email| - 1
  }

  /** The same rule stated without the index functions: there are a first '@'
      and a last '.' with at least one character before the '@', at least one
      between them and at least one after the '.'. */
  ghost predicate WellFormedEmail(s: string) {
    exists at, dot :: IsFirst(s, '@', at) && IsLast(s, '.', dot) && 0 < at && at + 1 < dot < |s| - 1
  }

  lemma EmailValidIff(s: string)
    ensures IsValidEmail(s) <==> WellFormedEmail(s)
  {
    var at, dot := IndexOf(s, '@'), LastIndexOf(s, '.');
    if IsValidEmail(s) {
      assert IsFirst(s, '@', at) && IsLast(s, '.', dot);
    }
    if WellFormedEmail(s) {
      var a, d :| IsFirst(s, '@', a) && IsLast(s, '.', d) && 0 < a && a + 1 < d < |s| - 1;
      assert s[a] == '@' && s[d] == '.';
      FirstIsUnique(s, '@', a, at);
      LastIsUnique(s, '.', d, dot);
    }
  }

  /** Where the last '.' comes before the first '@' (as in "first.last@host"),
      no '.' follows the '@' at all, and the address is refused. */
  lemma EmailDotBeforeAtRefused(s: string, at: int, dot: int)
    requires IsFirst(s, '@', at) && IsLast(s, '.', dot) && dot < at
    ensures forall j :: at < j < |s| ==> s[j] != '.'
    ensures !IsValidEmail(s)
  {
    FirstIsUnique(s, '@', at, IndexOf(s, '@'));
    LastIsUnique(s, '.', dot, LastIndexOf(s, '.'));
  }

  /** Only the last '.' is examined: "a@b.c." is refused although "a@b.c"
      before its final '.' is well formed, and a '.' before the '@' does no
      harm when another one follows it. */
  lemma EmailOnlyLastDotCounts()
    ensures !IsValidEmail("a@b.c.")
    ensures IsValidEmail("a.b@c.d")
  {
  }

  lemma EmailExamples()
    ensures IsValidEmail("a@b.c")
    ensures !IsValidEmail("abc")
    ensures !IsValidEmail("@b.c")
    ensures !IsValidEmail("a@.c")
    ensures !IsValidEmail("a@b.")
    ensures !IsValidEmail("")
  {
  }

  // ---------------------------------------------------------------------
  // isValidPhone
  // ---------------------------------------------------------------------

  /** Java's \d without the UNICODE_CHARACTER_CLASS flag: the ASCII digits. */
  predicate IsDigit(c: char) {
    '0' <= c <= '9'
  }

  /** phone.replaceAll("\\D", ""): the digits of s, in order. */
  function Digits(s: string): (r: string)
    ensures |r| <= |s|
    ensures forall i :: 0 <= i < |r| ==> IsDigit(r[i])
    ensures forall c :: multiset(r)[c] == if IsDigit(c) then multiset(s)[c] else 0
  {
    if s == [] then []
    else
      assert s == [s[0]] + s[1..];
      (if IsDigit(s[0]) then [s[0]] else []) + Digits(s[1..])
  }

  /** isValidPhone: between 7 and 15 digits once every non-digit is removed;
      so an accepted number has at least seven characters and at least one digit. */
  predicate IsValidPhone(phone: string)
    ensures IsValidPhone(phone) ==> |phone| >= 7 && exists i :: 0 <= i < |phone| && IsDigit(phone[i])
  {
    7 <= |Digits(phone)| <= 15
  }

  lemma {:induction false} DigitsOfConcat(a: string, b: string)
    ensures Digits(a + b) == Digits(a) + Digits(b)
  {
    if a == [] {
      assert a + b == b;
    } else {
      var head := if IsDigit(a[0]) then [a[0]] else [];
      assert (a + b)[0] == a[0] && (a + b)[1..] == a[1..] + b;
      DigitsOfConcat(a[1..], b);
      calc {
        Digits(a + b);
        head + Digits(a[1..] + b);
        head + (Digits(a[1..]) + Digits(b));
        (head + Digits(a[1..])) + Digits(b);
        Digits(a) + Digits(b);
      }
    }
  }

  /** A string of digits only is left as it is by the filter. */
  lemma {:induction false} DigitsOfAllDigits(s: string)
    requires forall i :: 0 <= i < |s| ==> IsDigit(s[i])
    ensures Digits(s) == s
  {
    if s != [] {
      DigitsOfAllDigits(s[1..]);
    }
  }

  /** Formatting characters (spaces, dashes, parentheses, ...) anywhere in the
      number do not change whether it is accepted. */
  lemma PhoneIgnoresNonDigit(a: string, c: char, b: string)
    requires !IsDigit(c)
    ensures IsValidPhone(a + [c] + b) <==> IsValidPhone(a + b)
  {
    DigitsOfConcat(a + [c], b);
    DigitsOfConcat(a, [c]);
    DigitsOfConcat(a, b);
    assert Digits([c]) == [];
  }

  /** For a number written with digits only, validity is its length. */
  lemma PhoneOfDigitsOnly(s: string)
    requires forall i :: 0 <= i < |s| ==> IsDigit(s[i])
    ensures IsValidPhone(s) <==> 7 <= |s| <= 15
  {
    DigitsOfAllDigits(s);
  }

  lemma PhoneSevenDigitsAccepted()
    ensures IsValidPhone("1234567")
  {
    PhoneOfDigitsOnly("1234567");
  }

  lemma PhoneSixDigitsRefused()
    ensures !IsValidPhone("123456")
  {
    PhoneOfDigitsOnly("123456");
  }

  lemma PhoneSixteenDigitsRefused()
    ensures !IsValidPhone("1234567890123456")
  {
    PhoneOfDigitsOnly("1234567890123456");
  }

  /** Punctuation and spaces are stripped before the digits are counted. */
  lemma PhoneFormattedAccepted()
    ensures IsValidPhone("(123) 456-7890")
  {
  }
}
