/**
 The email, card and SSN patterns read declaratively, as the spans each
 regular expression admits, and the proof in both directions that the
 backtracking matchers of module Scanner match exactly where such a span
 starts; for the phone pattern, that the last group of a match (line number,
 extension, final boundary) is what the pattern admits.
 */
module ScannerSpans {
  import opened Wire
  import opened Scanner
  import opened ScannerFacts
  import opened SensitiveDataHandler

  /** n class characters from p: the run there is at least n long. */
  lemma {:induction false} RunCovers(s: string, p: nat, k: Class, n: nat)
    requires p + n <= |s| && forall j | p <= j < p + n :: InClass(s[j], k)
    ensures Run(s, p, k) >= n
    decreases n
  {
    if n > 0 {
      RunCovers(s, p + 1, k, n - 1);
    }
  }

  // ----- /\b[A-Za-z0-9._%+-]+@[A-Za-z0-9.-]+\.[A-Z|a-z]{2,}\b/g -----

  /** s[i..at] is the local part, s[at] the '@', s[at+1..dot] the domain, s[dot] the '.', s[dot+1..e] the top-level part. */
  ghost predicate EmailParts(s: string, i: nat, at: nat, dot: nat, e: nat) {
    && i < at && at + 1 < dot && dot + 3 <= e <= |s|
    && Boundary(s, i)
    && (forall k | i <= k < at :: InClass(s[k], Local))
    && s[at] == '@'
    && (forall k | at < k < dot :: InClass(s[k], Domain))
    && s[dot] == '.'
    && (forall k | dot < k < e :: InClass(s[k], Tld))
    && Boundary(s, e)
  }

  ghost predicate EmailSpan(s: string, i: nat, e: nat) {
    exists at: nat, dot: nat :: EmailParts(s, i, at, dot, e)
  }

  /** The top-level part: two or more class characters, then `\b`. */
  lemma {:induction false} EmailTldSound(s: string, ts: nat, n: nat)
    requires ts <= |s| && n <= Run(s, ts, Tld) && EmailTld(s, ts, n).Some?
    ensures var e := EmailTld(s, ts, n).value;
            ts + 2 <= e && Boundary(s, e) && forall k | ts <= k < e :: InClass(s[k], Tld)
    decreases n
  {
    if !Boundary(s, ts + n) {
      EmailTldSound(s, ts, n - 1);
    }
  }

  /** The domain: one or more class characters up to the '.' that the top-level part follows. */
  lemma {:induction false} EmailDomainSound(s: string, ds: nat, m: nat) returns (dot: nat)
    requires ds <= |s| && m <= Run(s, ds, Domain) && EmailDomain(s, ds, m).Some?
    ensures var e := EmailDomain(s, ds, m).value;
            && ds < dot && dot + 3 <= e <= |s| && s[dot] == '.'
            && (forall k | ds <= k < dot :: InClass(s[k], Domain))
            && (forall k | dot < k < e :: InClass(s[k], Tld))
            && Boundary(s, e)
    decreases m
  {
    if ds + m < |s| && s[ds + m] == '.' && EmailTld(s, ds + m + 1, Run(s, ds + m + 1, Tld)).Some? {
      dot := ds + m;
      EmailTldSound(s, ds + m + 1, Run(s, ds + m + 1, Tld));
    } else {
      dot := EmailDomainSound(s, ds, m - 1);
    }
  }

  /** Every match of the email matcher is a span the email pattern admits. */
  lemma EmailMatchAtSound(s: string, i: nat)
    requires i <= |s| && EmailMatchAt(s, i).Some?
    ensures EmailSpan(s, i, EmailMatchAt(s, i).value)
  {
    var at := i + Run(s, i, Local);
    var dot := EmailDomainSound(s, at + 1, Run(s, at + 1, Domain));
    assert EmailParts(s, i, at, dot, EmailMatchAt(s, i).value);
  }

  /** A top-level part of two or more characters ending at `\b` within the first n: the greedy retreat reaches it. */
  lemma {:induction false} EmailTldComplete(s: string, ts: nat, n: nat, e: nat)
    requires ts <= |s| && n <= Run(s, ts, Tld)
    requires ts + 2 <= e <= ts + n && Boundary(s, e)
    ensures EmailTld(s, ts, n).Some?
    decreases n
  {
    if !Boundary(s, ts + n) {
      EmailTldComplete(s, ts, n - 1, e);
    }
  }

  /** A '.' at dot within the first m domain characters, followed by a top-level part: the domain retreat reaches it. */
  lemma {:induction false} EmailDomainComplete(s: string, ds: nat, m: nat, dot: nat, e: nat)
    requires ds <= |s| && m <= Run(s, ds, Domain)
    requires ds < dot <= ds + m && dot < |s| && s[dot] == '.'
    requires dot + 3 <= e <= |s| && Boundary(s, e)
    requires forall k | dot < k < e :: InClass(s[k], Tld)
    ensures EmailDomain(s, ds, m).Some?
    decreases m
  {
    if ds + m == dot {
      RunCovers(s, dot + 1, Tld, e - (dot + 1));
      EmailTldComplete(s, dot + 1, Run(s, dot + 1, Tld), e);
    } else {
      EmailDomainComplete(s, ds, m - 1, dot, e);
    }
  }

  /** Every span the email pattern admits is found: the matcher matches where it starts. */
  lemma EmailMatchAtComplete(s: string, i: nat, e: nat)
    requires i <= |s| && EmailSpan(s, i, e)
    ensures EmailMatchAt(s, i).Some?
  {
    var at: nat, dot: nat :| EmailParts(s, i, at, dot, e);
    EmailPartsComplete(s, i, at, dot, e);
  }

  /** The same, for the parts named one by one. */
  lemma EmailPartsComplete(s: string, i: nat, at: nat, dot: nat, e: nat)
    requires EmailParts(s, i, at, dot, e)
    ensures EmailMatchAt(s, i).Some?
  {
    RunExact(s, i, Local, at - i);
    RunCovers(s, at + 1, Domain, dot - (at + 1));
    EmailDomainComplete(s, at + 1, Run(s, at + 1, Domain), dot, e);
    EmailLocalComplete(s, i, at);
  }

  /** `\b`, the whole local run up to the '@', then a domain that matches. */
  lemma EmailLocalComplete(s: string, i: nat, at: nat)
    requires i < at < |s| && Boundary(s, i) && Run(s, i, Local) == at - i && s[at] == '@'
    requires EmailDomain(s, at + 1, Run(s, at + 1, Domain)).Some?
    ensures EmailMatchAt(s, i).Some?
  {
  }

  /** The email matcher matches at i exactly when some span the pattern admits starts at i. */
  lemma EmailMatchAtIffSpan(s: string, i: nat)
    requires i <= |s|
    ensures EmailMatchAt(s, i).Some? <==> exists e: nat :: EmailSpan(s, i, e)
  {
    if EmailMatchAt(s, i).Some? {
      EmailMatchAtSound(s, i);
    }
    if e: nat :| EmailSpan(s, i, e) {
      EmailMatchAtComplete(s, i, e);
    }
  }

  // ----- /\b(?:\d[ -]*?){13,16}\b/g -----

  /** The number of digits in s[a..b]. */
  function Digits(s: string, a: nat, b: nat): (n: nat)
    requires a <= b <= |s|
    ensures n <= b - a
    decreases b - a
  {
    if a == b then 0 else (if IsDigit(s[a]) then 1 else 0) + Digits(s, a + 1, b)
  }

  /** A card number: from a digit, only digits and `[ -]`, thirteen to sixteen digits, `\b` at both ends. */
  ghost predicate CardSpan(s: string, i: nat, e: nat) {
    && i < e <= |s|
    && Boundary(s, i) && Boundary(s, e)
    && IsDigit(s[i])
    && (forall k | i <= k < e :: IsDigit(s[k]) || InClass(s[k], CardSep))
    && 13 <= Digits(s, i, e) <= 16
  }

  /** Separators add no digit. */
  lemma {:induction false} SepsAddNoDigit(s: string, q: nat, k: nat, e: nat)
    requires q + k <= e <= |s|
    requires forall x | q <= x < q + k :: InClass(s[x], CardSep)
    ensures Digits(s, q, e) == Digits(s, q + k, e)
    decreases k
  {
    if k > 0 {
      SepsAddNoDigit(s, q + 1, k - 1, e);
    }
  }

  /** After n groups, what is left of a card match holds 13 - n to 16 - n more digits. */
  lemma {:induction false} CardFromSound(s: string, p: nat, n: nat)
    requires p <= |s| && n <= 16 && CardFrom(s, p, n).Some?
    ensures var e := CardFrom(s, p, n).value;
            && (forall k | p <= k < e :: IsDigit(s[k]) || InClass(s[k], CardSep))
            && 13 <= n + Digits(s, p, e) <= 16
            && Boundary(s, e)
            && (n < 13 ==> p < |s| && IsDigit(s[p]))
    decreases 17 - n, 0, 0
  {
    if n < 16 && p < |s| && IsDigit(s[p]) && CardSeps(s, p + 1, n + 1, 0).Some? {
      CardSepsSound(s, p + 1, n + 1, 0);
    }
  }

  /** The lazy separators of a group, then the groups after it. */
  lemma {:induction false} CardSepsSound(s: string, q: nat, n: nat, k: nat)
    requires q <= |s| && 1 <= n <= 16 && k <= Run(s, q, CardSep) && CardSeps(s, q, n, k).Some?
    ensures var e := CardSeps(s, q, n, k).value;
            && (forall x | q <= x < e :: IsDigit(s[x]) || InClass(s[x], CardSep))
            && 13 <= n + Digits(s, q, e) <= 16
            && Boundary(s, e)
    decreases 17 - n, 1, Run(s, q, CardSep) - k
  {
    if CardFrom(s, q + k, n).Some? {
      CardFromSound(s, q + k, n);
      SepsAddNoDigit(s, q, k, CardSeps(s, q, n, k).value);
    } else {
      CardSepsSound(s, q, n, k + 1);
    }
  }

  /** Every match of the card matcher is a span the card pattern admits. */
  lemma CardMatchAtSound(s: string, i: nat)
    requires i <= |s| && CardMatchAt(s, i).Some?
    ensures CardSpan(s, i, CardMatchAt(s, i).value)
  {
    CardFromSound(s, i, 0);
  }

  /** The first digit at or after q, or e when s[q..e] holds none. */
  ghost function NextDigit(s: string, q: nat, e: nat): (j: nat)
    requires q <= e <= |s|
    ensures q <= j <= e && (j < e ==> IsDigit(s[j]))
    ensures forall x | q <= x < j :: !IsDigit(s[x])
    decreases e - q
  {
    if q == e || IsDigit(s[q]) then q else NextDigit(s, q + 1, e)
  }

  /** The lazy separators grow one at a time, from k, until they reach a count t that lets the groups go on. */
  lemma {:induction false} CardSepsReach(s: string, q: nat, n: nat, k: nat, t: nat)
    requires q <= |s| && 1 <= n <= 16 && k <= t <= Run(s, q, CardSep)
    requires CardFrom(s, q + t, n).Some?
    ensures CardSeps(s, q, n, k).Some?
    decreases t - k
  {
    if CardFrom(s, q + k, n).None? {
      CardSepsReach(s, q, n, k + 1, t);
    }
  }

  /** From p, after n groups, a rest of digits and separators that starts with a digit, with 13 - n to 16 - n digits and `\b` at its end, is matched. */
  lemma {:induction false} CardFromComplete(s: string, p: nat, n: nat, e: nat)
    requires p <= e <= |s| && n <= 16
    requires forall k | p <= k < e :: IsDigit(s[k]) || InClass(s[k], CardSep)
    requires p < e ==> IsDigit(s[p])
    requires 13 <= n + Digits(s, p, e) <= 16 && Boundary(s, e)
    ensures CardFrom(s, p, n).Some?
    decreases 17 - n
  {
    if p < e {
      var j := NextDigit(s, p + 1, e);
      RunCovers(s, p + 1, CardSep, j - (p + 1));
      SepsAddNoDigit(s, p + 1, j - (p + 1), e);
      CardFromComplete(s, j, n + 1, e);
      CardSepsReach(s, p + 1, n + 1, 0, j - (p + 1));
      CardGroupComplete(s, p, n);
    } else {
      CardEndComplete(s, p, n);
    }
  }

  /** A digit at p whose separators and later groups match: the group is taken. */
  lemma CardGroupComplete(s: string, p: nat, n: nat)
    requires p < |s| && n < 16 && IsDigit(s[p]) && CardSeps(s, p + 1, n + 1, 0).Some?
    ensures CardFrom(s, p, n).Some?
  {
  }

  /** 13 to 16 groups done and `\b` at p: the match can end there. */
  lemma CardEndComplete(s: string, p: nat, n: nat)
    requires p <= |s| && 13 <= n <= 16 && Boundary(s, p)
    ensures CardFrom(s, p, n).Some?
  {
  }

  /** Every span the card pattern admits is found: the matcher matches where it starts. */
  lemma CardMatchAtComplete(s: string, i: nat, e: nat)
    requires CardSpan(s, i, e)
    ensures CardMatchAt(s, i).Some?
  {
    CardFromComplete(s, i, 0, e);
  }

  /** The card matcher matches at i exactly when some span the pattern admits starts at i. */
  lemma CardMatchAtIffSpan(s: string, i: nat)
    requires i <= |s|
    ensures CardMatchAt(s, i).Some? <==> exists e: nat :: CardSpan(s, i, e)
  {
    if CardMatchAt(s, i).Some? {
      CardMatchAtSound(s, i);
    }
    if e: nat :| CardSpan(s, i, e) {
      CardMatchAtComplete(s, i, e);
    }
  }

  // ----- /\b(\d{3}[-]?|\d{2}[-]?)\d{2}[-]?\d{4}\b/g -----

  /** g (2 or 3) digits, a '-' if d1 is 1, two digits, a '-' if d2 is 1, four digits; `\b` at both ends. */
  ghost predicate SsnParts(s: string, i: nat, g: nat, d1: nat, d2: nat, e: nat) {
    && (g == 2 || g == 3) && d1 <= 1 && d2 <= 1
    && e == i + g + d1 + 2 + d2 + 4 <= |s|
    && Boundary(s, i) && Boundary(s, e)
    && (forall k | i <= k < i + g :: IsDigit(s[k]))
    && (d1 == 1 ==> s[i + g] == '-')
    && (forall k | i + g + d1 <= k < i + g + d1 + 2 :: IsDigit(s[k]))
    && (d2 == 1 ==> s[i + g + d1 + 2] == '-')
    && (forall k | i + g + d1 + 2 + d2 <= k < e :: IsDigit(s[k]))
  }

  ghost predicate SsnSpan(s: string, i: nat, e: nat) {
    exists g: nat, d1: nat, d2: nat :: SsnParts(s, i, g, d1, d2, e)
  }

  /** The middle two digits, the optional '-', the last four digits and `\b`. */
  lemma SsnMiddleSound(s: string, p: nat) returns (d2: nat)
    requires p <= |s| && SsnMiddle(s, p).Some?
    ensures var e := SsnMiddle(s, p).value;
            && d2 <= 1 && e == p + 2 + d2 + 4 <= |s|
            && (forall k | p <= k < p + 2 :: IsDigit(s[k]))
            && (d2 == 1 ==> s[p + 2] == '-')
            && (forall k | p + 2 + d2 <= k < e :: IsDigit(s[k]))
            && Boundary(s, e)
  {
    if p + 2 < |s| && s[p + 2] == '-' && SsnLast(s, p + 3).Some? {
      d2 := 1;
    } else {
      d2 := 0;
    }
  }

  /** The optional '-' after the first group, then the rest. */
  lemma SsnDashSound(s: string, p: nat) returns (d1: nat, d2: nat)
    requires p <= |s| && SsnDash(s, p).Some?
    ensures var e := SsnDash(s, p).value;
            && d1 <= 1 && d2 <= 1 && e == p + d1 + 2 + d2 + 4 <= |s|
            && (d1 == 1 ==> s[p] == '-')
            && (forall k | p + d1 <= k < p + d1 + 2 :: IsDigit(s[k]))
            && (d2 == 1 ==> s[p + d1 + 2] == '-')
            && (forall k | p + d1 + 2 + d2 <= k < e :: IsDigit(s[k]))
            && Boundary(s, e)
  {
    if p < |s| && s[p] == '-' && SsnMiddle(s, p + 1).Some? {
      d1 := 1;
      d2 := SsnMiddleSound(s, p + 1);
    } else {
      d1 := 0;
      d2 := SsnMiddleSound(s, p);
    }
  }

  /** Every match of the SSN matcher is a span the SSN pattern admits. */
  lemma SsnMatchAtSound(s: string, i: nat)
    requires i <= |s| && SsnMatchAt(s, i).Some?
    ensures SsnSpan(s, i, SsnMatchAt(s, i).value)
  {
    var g := SsnGroupPick(s, i);
    var d1, d2 := SsnDashSound(s, i + g);
    assert SsnParts(s, i, g, d1, d2, SsnMatchAt(s, i).value);
  }

  /** Which first group the alternation settles on: three digits when the rest matches after them, else two. */
  lemma SsnGroupPick(s: string, i: nat) returns (g: nat)
    requires i <= |s| && SsnMatchAt(s, i).Some?
    ensures (g == 2 || g == 3) && i + g <= |s| && Boundary(s, i)
    ensures forall k | i <= k < i + g :: IsDigit(s[k])
    ensures SsnDash(s, i + g) == SsnMatchAt(s, i)
  {
    if Run(s, i, Digit) >= 3 && SsnDash(s, i + 3).Some? {
      g := 3;
    } else {
      g := 2;
    }
  }

  /** Four digits then `\b`. */
  lemma SsnLastComplete(s: string, p: nat)
    requires p + 4 <= |s| && (forall k | p <= k < p + 4 :: IsDigit(s[k])) && Boundary(s, p + 4)
    ensures SsnLast(s, p).Some?
  {
    RunCovers(s, p, Digit, 4);
  }

  /** Two digits, a '-' if d2 is 1, four digits, `\b`. */
  lemma SsnMiddleComplete(s: string, p: nat, d2: nat)
    requires d2 <= 1 && p + 2 + d2 + 4 <= |s|
    requires forall k | p <= k < p + 2 :: IsDigit(s[k])
    requires d2 == 1 ==> s[p + 2] == '-'
    requires forall k | p + 2 + d2 <= k < p + 2 + d2 + 4 :: IsDigit(s[k])
    requires Boundary(s, p + 2 + d2 + 4)
    ensures SsnMiddle(s, p).Some?
  {
    RunCovers(s, p, Digit, 2);
    SsnLastComplete(s, p + 2 + d2);
  }

  /** A '-' if d1 is 1, then the middle and last parts. */
  lemma SsnDashComplete(s: string, p: nat, d1: nat, d2: nat)
    requires d1 <= 1 && d2 <= 1 && p + d1 + 2 + d2 + 4 <= |s|
    requires d1 == 1 ==> s[p] == '-'
    requires forall k | p + d1 <= k < p + d1 + 2 :: IsDigit(s[k])
    requires d2 == 1 ==> s[p + d1 + 2] == '-'
    requires forall k | p + d1 + 2 + d2 <= k < p + d1 + 2 + d2 + 4 :: IsDigit(s[k])
    requires Boundary(s, p + d1 + 2 + d2 + 4)
    ensures SsnDash(s, p).Some?
  {
    SsnMiddleComplete(s, p + d1, d2);
  }

  /** Every span the SSN pattern admits is found: the matcher matches where it starts. */
  lemma SsnMatchAtComplete(s: string, i: nat, e: nat)
    requires i <= |s| && SsnSpan(s, i, e)
    ensures SsnMatchAt(s, i).Some?
  {
    var g: nat, d1: nat, d2: nat :| SsnParts(s, i, g, d1, d2, e);
    SsnPartsComplete(s, i, g, d1, d2, e);
  }

  /** The same, for the parts named one by one. */
  lemma SsnPartsComplete(s: string, i: nat, g: nat, d1: nat, d2: nat, e: nat)
    requires SsnParts(s, i, g, d1, d2, e)
    ensures SsnMatchAt(s, i).Some?
  {
    RunCovers(s, i, Digit, g);
    SsnDashComplete(s, i + g, d1, d2);
    SsnGroupComplete(s, i, g);
  }

  /** After `\b`, g digits (3 or 2) whose rest matches: the alternation takes the three-digit branch or falls back on the two-digit one. */
  lemma SsnGroupComplete(s: string, i: nat, g: nat)
    requires i + g <= |s| && (g == 2 || g == 3) && Boundary(s, i)
    requires Run(s, i, Digit) >= g && SsnDash(s, i + g).Some?
    ensures SsnMatchAt(s, i).Some?
  {
  }

  /** The SSN matcher matches at i exactly when some span the pattern admits starts at i. */
  lemma SsnMatchAtIffSpan(s: string, i: nat)
    requires i <= |s|
    ensures SsnMatchAt(s, i).Some? <==> exists e: nat :: SsnSpan(s, i, e)
  {
    if SsnMatchAt(s, i).Some? {
      SsnMatchAtSound(s, i);
    }
    if e: nat :| SsnSpan(s, i, e) {
      SsnMatchAtComplete(s, i, e);
    }
  }

  // ----- the `(\d{4})(?: *x(\d+))?\b` end of the phone pattern -----

  /** `(?: *x(\d+))?` from q to e: nothing (xp is q), or spaces up to the 'x' at xp and one or more digits. */
  ghost predicate PhoneExtFrom(s: string, q: nat, xp: nat, e: nat) {
    || (e == q == xp)
    || (&& q <= xp && xp + 1 < e <= |s|
        && (forall k | q <= k < xp :: s[k] == ' ')
        && s[xp] == 'x'
        && (forall k | xp < k < e :: IsDigit(s[k])))
  }

  /** `(\d{4})`, the extension and `\b`, from l to e. */
  ghost predicate PhoneLineFrom(s: string, l: nat, xp: nat, e: nat) {
    && l + 4 <= |s| && (forall k | l <= k < l + 4 :: IsDigit(s[k]))
    && PhoneExtFrom(s, l + 4, xp, e) && e <= |s| && Boundary(s, e)
  }

  lemma {:induction false} PhoneExtDigitsSound(s: string, p: nat, m: nat)
    requires p <= |s| && m <= Run(s, p, Digit) && PhoneExtDigits(s, p, m).Some?
    ensures var e := PhoneExtDigits(s, p, m).value;
            p < e <= |s| && Boundary(s, e) && forall k | p <= k < e :: IsDigit(s[k])
    decreases m
  {
    if !Boundary(s, p + m) {
      PhoneExtDigitsSound(s, p, m - 1);
    }
  }

  lemma {:induction false} PhoneExtTrySound(s: string, q: nat, k: nat) returns (xp: nat)
    requires q <= |s| && k <= Run(s, q, Blank) && PhoneExtTry(s, q, k).Some?
    ensures PhoneExtFrom(s, q, xp, PhoneExtTry(s, q, k).value) && Boundary(s, PhoneExtTry(s, q, k).value)
    ensures q < PhoneExtTry(s, q, k).value
    decreases k
  {
    if q + k < |s| && s[q + k] == 'x' && PhoneExtDigits(s, q + k + 1, Run(s, q + k + 1, Digit)).Some? {
      xp := q + k;
      PhoneExtDigitsSound(s, q + k + 1, Run(s, q + k + 1, Digit));
    } else {
      xp := PhoneExtTrySound(s, q, k - 1);
    }
  }

  lemma PhoneLineSound(s: string, q: nat) returns (xp: nat)
    requires q <= |s| && PhoneLine(s, q).Some?
    ensures PhoneLineFrom(s, q, xp, PhoneLine(s, q).value)
  {
    if PhoneExtTry(s, q + 4, Run(s, q + 4, Blank)).Some? {
      xp := PhoneExtTrySound(s, q + 4, Run(s, q + 4, Blank));
    } else {
      xp := q + 4;
    }
  }

  // ----- the flag -----

  /** A match of category c anywhere in the message makes that pattern's `test` succeed. */
  lemma MatchTested(c: Category, message: string, i: nat)
    requires i <= |message| && MatchAt(c, message, i).Some?
    ensures Test(c, message)
  {
  }

  /** A labelled ID, an email address, a card number or an SSN anywhere in the message raises the flag. */
  lemma SpanFlagged(message: string, i: nat, d: nat, e: nat)
    requires i <= |message|
    requires IdSpan(message, i, d, e) || EmailSpan(message, i, e) || CardSpan(message, i, e) || SsnSpan(message, i, e)
    ensures CheckForSensitiveData(message).containsSensitiveData
  {
    if IdSpan(message, i, d, e) {
      IdMatchAtComplete(message, i, d, e);
      MatchTested(Id, message, i);
    } else if EmailSpan(message, i, e) {
      EmailMatchAtComplete(message, i, e);
      MatchTested(Email, message, i);
    } else if CardSpan(message, i, e) {
      CardMatchAtComplete(message, i, e);
      MatchTested(Card, message, i);
    } else {
      SsnMatchAtComplete(message, i, e);
      MatchTested(Ssn, message, i);
    }
  }
}
