/** The static site's two form validators: an email is "something@something.something"
    without white space, a phone number is ten ASCII digits once white space is
    removed. */
module Validation {
  import opened Text

  /** A character the email pattern's `[^\s@]` class accepts. */
  predicate EmailChar(c: char)
  {
    !IsSpace(c) && c != '@'
  }

  /** No white space and no '@' anywhere (the empty run included). */
  predicate Clean(x: string)
  {
    forall i :: 0 <= i < |x| ==> EmailChar(x[i])
  }

  /** A run the email pattern's `[^\s@]+` accepts. */
  predicate EmailPart(x: string)
  {
    |x| > 0 && Clean(x)
  }

  /** The language of `^[^\s@]+@[^\s@]+\.[^\s@]+$`: the input splits at an '@'
      (index i) and a later '.' (index j) into three runs the class accepts. */
  ghost predicate EmailShape(s: string)
  {
    exists i, j :: 0 <= i < j < |s| && s[i] == '@' && s[j] == '.'
      && EmailPart(s[..i]) && EmailPart(s[i + 1..j]) && EmailPart(s[j + 1..])
  }

  /** The domain part has a dot that is neither its first nor its last character. */
  predicate HasInnerDot(x: string)
  {
    exists j :: 1 <= j < |x| - 1 && x[j] == '.'
  }

  /** The test `validateEmail` performs, in the order a reader checks it: a
      non-empty clean local part before the first '@', and after it a clean
      domain with an inner dot. */
  predicate EmailAccepts(s: string)
  {
    var at := FirstIndexOf(s, '@');
    0 < at < |s| && Clean(s[..at]) && Clean(s[at + 1..]) && HasInnerDot(s[at + 1..])
  }

  /** `validateEmail`. */
  function ValidateEmail(s: string): (r: bool)
    ensures r <==> EmailShape(s)
  {
    EmailAccepted(s);
    EmailShapeAccepted(s);
    EmailAccepts(s)
  }

  lemma CleanSlice(x: string, i: int, j: int)
    requires Clean(x) && 0 <= i <= j <= |x|
    ensures Clean(x[i..j])
  {
    assert forall k :: 0 <= k < j - i ==> x[i..j][k] == x[i + k];
  }

  lemma EmailAccepted(s: string)
    ensures EmailAccepts(s) ==> EmailShape(s)
  {
    if EmailAccepts(s) {
      var at := FirstIndexOf(s, '@');
      var rest := s[at + 1..];
      var d :| 1 <= d < |rest| - 1 && rest[d] == '.';
      var j := at + 1 + d;
      assert s[j] == '.';
      CleanSlice(rest, 0, d);
      assert rest[..d] == s[at + 1..j];
      CleanSlice(rest, d + 1, |rest|);
      assert rest[d + 1..] == s[j + 1..];
      assert EmailPart(s[..at]) && EmailPart(s[at + 1..j]) && EmailPart(s[j + 1..]);
    }
  }

  lemma EmailShapeAccepted(s: string)
    ensures EmailShape(s) ==> EmailAccepts(s)
  {
    if EmailShape(s) {
      var i, j :| 0 <= i < j < |s| && s[i] == '@' && s[j] == '.'
        && EmailPart(s[..i]) && EmailPart(s[i + 1..j]) && EmailPart(s[j + 1..]);
      AtIsFirst(s, i);
      DomainJoins(s, i, j);
    }
  }

  /** An '@' after a clean local part is the first '@'. */
  lemma AtIsFirst(s: string, i: int)
    requires 0 <= i < |s| && s[i] == '@' && Clean(s[..i])
    ensures FirstIndexOf(s, '@') == i
  {
    assert forall k :: 0 <= k < i ==> s[k] == s[..i][k];
  }

  /** Two clean parts joined by a dot form a clean domain with an inner dot. */
  lemma DomainJoins(s: string, i: int, j: int)
    requires 0 <= i < j < |s| && s[j] == '.'
    requires EmailPart(s[i + 1..j]) && EmailPart(s[j + 1..])
    ensures Clean(s[i + 1..]) && HasInnerDot(s[i + 1..])
  {
    var rest := s[i + 1..];
    forall k | 0 <= k < |rest| ensures EmailChar(rest[k]) {
      if k < j - i - 1 {
        assert rest[k] == s[i + 1..j][k];
      } else if k > j - i - 1 {
        assert rest[k] == s[j + 1..][k - (j - i)];
      }
    }
    assert rest[j - i - 1] == '.';
  }

  /** `validatePhone`: ten digits after removing every white-space character. */
  function ValidatePhone(phone: string): (r: bool)
    ensures r <==> NonSpaceCount(phone) == 10 && forall i :: 0 <= i < |phone| && !IsSpace(phone[i]) ==> IsDigit(phone[i])
  {
    var digits := StripSpaces(phone);
    StripSpacesCharacterised(phone);
    |digits| == 10 && AllDigits(digits)
  }

  /** Inserting white space anywhere does not change the verdict. */
  lemma {:induction false} PhoneIgnoresSpaces(a: string, b: string, gap: string)
    requires forall i :: 0 <= i < |gap| ==> IsSpace(gap[i])
    ensures ValidatePhone(a + gap + b) == ValidatePhone(a + b)
  {
    StripSpacesAppend(a + gap, b);
    StripSpacesAppend(a, gap);
    StripSpacesAppend(a, b);
    GapStrips(gap);
    assert StripSpaces(a + gap) == StripSpaces(a);
    assert StripSpaces(a + gap + b) == StripSpaces(a + b);
  }

  lemma {:induction false} GapStrips(gap: string)
    requires forall i :: 0 <= i < |gap| ==> IsSpace(gap[i])
    ensures StripSpaces(gap) == ""
    decreases |gap|
  {
    if |gap| > 0 {
      GapStrips(gap[1..]);
    }
  }
}
