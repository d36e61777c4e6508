/** The e-mail shape check `^[^\s@]+@[^\s@]+\.[^\s@]+$` that both the server
    (on `/register`) and the registration form apply, and the address
    normalisation (trim, lower case) applied before a lookup or a request. */
module EmailShape {
  import opened Js

  /** A character of the class `[^\s@]`. */
  predicate PlainChar(c: char) {
    c != '@' && !IsWhitespace(c)
  }

  predicate AllPlain(s: string) {
    forall i | 0 <= i < |s| :: PlainChar(s[i])
  }

  /** The regular expression read literally: `s` splits as
      local + "@" + host + "." + tld, three non-empty runs of `[^\s@]`, with the
      '@' at `at` and the '.' at `dot`. */
  ghost predicate MatchesAt(s: string, at: int, dot: int) {
    && 0 < at && at + 1 < dot && dot + 1 < |s|
    && s[at] == '@' && s[dot] == '.'
    && AllPlain(s[..at]) && AllPlain(s[at + 1..dot]) && AllPlain(s[dot + 1..])
  }

  ghost predicate MatchesEmailRegex(s: string) {
    exists at, dot :: MatchesAt(s, at, dot)
  }

  function CountChar(s: string, c: char): nat {
    if s == [] then 0 else (if s[0] == c then 1 else 0) + CountChar(s[1..], c)
  }

  /** The index of the first `c` in `s`, or `|s|` when there is none. */
  function IndexOf(s: string, c: char): (i: nat)
    ensures i <= |s|
    ensures i < |s| ==> s[i] == c
    ensures forall k | 0 <= k < i :: s[k] != c
  {
    if s == [] then 0 else if s[0] == c then 0 else 1 + IndexOf(s[1..], c)
  }

  /** `d` has a '.' with at least one character on each side. */
  predicate HasInnerDot(d: string) {
    exists k | 0 < k < |d| - 1 :: d[k] == '.'
  }

  /** The check as the server and the form compute it: no white space, exactly
      one '@', a non-empty part before it, and a '.' strictly inside the part
      after it. */
  predicate ValidEmail(s: string) {
    && NoWhitespace(s)
    && CountChar(s, '@') == 1
    && var at := IndexOf(s, '@');
       0 < at < |s| && HasInnerDot(s[at + 1..])
  }

  /** The address the server looks up: `(email || '').trim().toLowerCase()`. */
  function LookupKey(email: string): string {
    ToLower(Trim(email))
  }

  /** The address the registration form sends: `email.toLowerCase().trim()`. */
  function PayloadEmail(email: string): string {
    Trim(ToLower(email))
  }

  // ---------------------------------------------------------------------
  // Counting
  // ---------------------------------------------------------------------

  lemma {:induction false} CountConcat(a: string, b: string, c: char)
    ensures CountChar(a + b, c) == CountChar(a, c) + CountChar(b, c)
  {
    if a != [] {
      assert (a + b)[1..] == a[1..] + b;
      CountConcat(a[1..], b, c);
    } else {
      assert a + b == b;
    }
  }

  lemma {:induction false} CountAbsent(s: string, c: char)
    requires forall i | 0 <= i < |s| :: s[i] != c
    ensures CountChar(s, c) == 0
  {
    if s != [] {
      CountAbsent(s[1..], c);
    }
  }

  /** With exactly one `c` in `s`, no position other than that one holds `c`. */
  lemma OnlyOccurrence(s: string, c: char, i: nat, j: nat)
    requires CountChar(s, c) == 1 && i < |s| && j < |s| && s[i] == c && i != j
    ensures s[j] != c
  {
    var lo, hi := if i < j then i else j, if i < j then j else i;
    assert s == s[..lo] + s[lo..hi] + s[hi..];
    CountConcat(s[..lo] + s[lo..hi], s[hi..], c);
    CountConcat(s[..lo], s[lo..hi], c);
    assert s[lo..hi] == [s[lo]] + s[lo + 1..hi];
    CountConcat([s[lo]], s[lo + 1..hi], c);
    assert s[hi..] == [s[hi]] + s[hi + 1..];
    CountConcat([s[hi]], s[hi + 1..], c);
  }

  // ---------------------------------------------------------------------
  // The computed check is the regular expression
  // ---------------------------------------------------------------------

  lemma ValidEmailMatches(s: string)
    requires ValidEmail(s)
    ensures MatchesEmailRegex(s)
  {
    var at := IndexOf(s, '@');
    var d := s[at + 1..];
    var k :| 0 < k < |d| - 1 && d[k] == '.';
    var dot := at + 1 + k;
    forall i | 0 <= i < |s| && i != at ensures PlainChar(s[i]) {
      OnlyOccurrence(s, '@', at, i);
    }
    assert AllPlain(s[..at]);
    assert AllPlain(s[at + 1..dot]);
    assert AllPlain(s[dot + 1..]);
    assert MatchesAt(s, at, dot);
  }

  lemma MatchesValidEmail(s: string, at: int, dot: int)
    requires MatchesAt(s, at, dot)
    ensures ValidEmail(s)
  {
    assert s == s[..at] + [s[at]] + s[at + 1..];
    forall i | 0 <= i < |s| ensures !IsWhitespace(s[i]) {
      if i < at {
        assert s[i] == s[..at][i];
      } else if at < i < dot {
        assert s[i] == s[at + 1..dot][i - at - 1];
      } else if dot < i {
        assert s[i] == s[dot + 1..][i - dot - 1];
      }
    }
    CountAbsent(s[..at], '@');
    var rest := s[at + 1..];
    assert rest == s[at + 1..dot] + [s[dot]] + s[dot + 1..];
    CountAbsent(s[at + 1..dot], '@');
    CountAbsent(s[dot + 1..], '@');
    CountConcat(s[at + 1..dot], [s[dot]], '@');
    CountConcat(s[at + 1..dot] + [s[dot]], s[dot + 1..], '@');
    CountConcat(s[..at], [s[at]], '@');
    CountConcat(s[..at] + [s[at]], rest, '@');
    assert forall k | 0 <= k < at :: s[k] == s[..at][k];
    assert IndexOf(s, '@') == at;
    assert rest[dot - at - 1] == '.';
  }

  /** The computed check accepts exactly the strings the regular expression
      matches. */
  lemma ValidEmailIsRegex(s: string)
    ensures ValidEmail(s) <==> MatchesEmailRegex(s)
  {
    if ValidEmail(s) {
      ValidEmailMatches(s);
    }
    if MatchesEmailRegex(s) {
      var at, dot :| MatchesAt(s, at, dot);
      MatchesValidEmail(s, at, dot);
    }
  }

  lemma AllPlainLower(s: string)
    ensures AllPlain(ToLower(s)) == AllPlain(s)
  {
    if AllPlain(s) {
      forall i | 0 <= i < |s| ensures PlainChar(ToLower(s)[i]) {
        LowerCharKeepsClass(s[i]);
      }
    }
    if AllPlain(ToLower(s)) {
      forall i | 0 <= i < |s| ensures PlainChar(s[i]) {
        LowerCharKeepsClass(s[i]);
        assert PlainChar(ToLower(s)[i]);
      }
    }
  }

  lemma MatchesAtLower(s: string, at: int, dot: int)
    requires MatchesAt(s, at, dot)
    ensures MatchesAt(ToLower(s), at, dot)
  {
    var t := ToLower(s);
    LowerCharKeepsClass(s[at]);
    LowerCharKeepsClass(s[dot]);
    assert t[..at] == ToLower(s[..at]);
    assert t[at + 1..dot] == ToLower(s[at + 1..dot]);
    assert t[dot + 1..] == ToLower(s[dot + 1..]);
    AllPlainLower(s[..at]);
    AllPlainLower(s[at + 1..dot]);
    AllPlainLower(s[dot + 1..]);
  }

  /** An address the form accepts is carried to the server unchanged up to
      case, and the server's own check accepts it too. */
  lemma PayloadKeepsValidEmail(email: string)
    requires ValidEmail(email)
    ensures ValidEmail(PayloadEmail(email))
    ensures PayloadEmail(email) == ToLower(email)
  {
    ValidEmailMatches(email);
    var at, dot :| MatchesAt(email, at, dot);
    MatchesAtLower(email, at, dot);
    MatchesValidEmail(ToLower(email), at, dot);
    assert NoWhitespace(ToLower(email));
    TrimNoWhitespace(ToLower(email));
  }

  /** The form's normalisation and the server's lookup normalisation agree,
      and the address the form registers is already a lookup key: logging in
      with it, or with any spelling that normalises to it, looks up that same
      row. */
  lemma LookupKeyOfPayload(email: string)
    ensures PayloadEmail(email) == LookupKey(email)
    ensures LookupKey(PayloadEmail(email)) == PayloadEmail(email)
  {
    TrimLowerCommute(email);
    var t := Trim(email);
    var k := ToLower(t);
    TrimLowerCommute(t);
    TrimIdempotent(email);
    assert Trim(k) == k;
    LowerIdempotent(t);
    assert LookupKey(k) == ToLower(k) == k;
  }
}
