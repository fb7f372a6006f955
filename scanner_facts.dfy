/**
 What checkForSensitiveData promises, proved about the model in module Scanner.
 */
module ScannerFacts {
  import opened Wire
  import opened Scanner

  // ----- the ID matcher against the pattern read declaratively -----

  /** A run that is followed by a non-class character is the whole run. */
  lemma {:induction false} RunExact(s: string, i: nat, k: Class, n: nat)
    requires i + n <= |s|
    requires forall j | i <= j < i + n :: InClass(s[j], k)
    requires i + n == |s| || !InClass(s[i + n], k)
    ensures Run(s, i, k) == n
    decreases n
  {
    if n > 0 {
      RunExact(s, i + 1, k, n - 1);
    }
  }

  /** Every match the ID matcher returns is a span the pattern admits. */
  lemma IdMatchAtSound(s: string, i: nat)
    requires i <= |s| && IdMatchAt(s, i).Some?
    ensures IdSpan(s, i, IdMatchAt(s, i).value.digits, IdMatchAt(s, i).value.end)
  {
    var colon := i + 2 + Run(s, i + 2, Space);
    assert IdLabel(s, i, colon, IdMatchAt(s, i).value.digits);
  }

  /** The white space around the colon of a label is exactly the maximal runs the matcher skips. */
  lemma IdLabelRuns(s: string, i: nat, colon: nat, d: nat)
    requires IdLabel(s, i, colon, d) && d < |s| && IsDigit(s[d])
    ensures i + 2 + Run(s, i + 2, Space) == colon
    ensures colon + 1 + Run(s, colon + 1, Space) == d
  {
    RunExact(s, i + 2, Space, colon - (i + 2));
    RunExact(s, colon + 1, Space, d - (colon + 1));
  }

  /** Every span the pattern admits at i is the one the ID matcher returns. */
  lemma IdMatchAtComplete(s: string, i: nat, d: nat, e: nat)
    requires IdSpan(s, i, d, e)
    ensures IdMatchAt(s, i) == Some(IdMatch(d, e))
  {
    var colon: nat :| IdLabel(s, i, colon, d);
    IdLabelRuns(s, i, colon, d);
    assert e == |s| || !IsDigit(s[e]) by {
      assert IsWordChar(s[e - 1]);
    }
    RunExact(s, d, Digit, e - d);
    IdMatchAtSteps(s, i, colon, d, e);
  }

  /** The matcher's steps, one guard at a time, when each run ends where the span says. */
  lemma IdMatchAtSteps(s: string, i: nat, colon: nat, d: nat, e: nat)
    requires i + 2 <= |s| && Boundary(s, i) && s[i] in "iI" && s[i + 1] in "dD"
    requires i + 2 + Run(s, i + 2, Space) == colon < |s| && s[colon] == ':'
    requires colon + 1 + Run(s, colon + 1, Space) == d
    requires d < e <= |s| && Run(s, d, Digit) == e - d && Boundary(s, e)
    ensures IdMatchAt(s, i) == Some(IdMatch(d, e))
  {
    IdDigitsAt(s, d, e);
    IdAfterLettersAt(s, colon, d, e);
  }

  lemma IdDigitsAt(s: string, d: nat, e: nat)
    requires d < e <= |s| && Run(s, d, Digit) == e - d && Boundary(s, e)
    ensures IdDigits(s, d) == Some(IdMatch(d, e))
  {
  }

  lemma IdAfterLettersAt(s: string, colon: nat, d: nat, e: nat)
    requires colon < |s| && s[colon] == ':' && colon + 1 + Run(s, colon + 1, Space) == d
    requires d <= |s| && IdDigits(s, d) == Some(IdMatch(d, e))
    ensures IdAfterLetters(s, colon) == Some(IdMatch(d, e))
  {
  }

  /** The ID matcher finds a span exactly when the pattern admits one, and the span at i is unique. */
  lemma IdMatchAtIffSpan(s: string, i: nat, d: nat, e: nat)
    requires i <= |s|
    ensures IdMatchAt(s, i) == Some(IdMatch(d, e)) <==> IdSpan(s, i, d, e)
  {
    if IdMatchAt(s, i) == Some(IdMatch(d, e)) {
      IdMatchAtSound(s, i);
    }
    if IdSpan(s, i, d, e) {
      IdMatchAtComplete(s, i, d, e);
    }
  }

  // ----- the ID pass keeps everything but the digits -----

  /** Replacing the trailing digit run of a string whose head has no digit replaces that run in place. */
  lemma ReplaceTrailingDigits(whole: string, at: nat, rep: string)
    requires at < |whole|
    requires forall k | 0 <= k < at :: !IsDigit(whole[k])
    requires IsDigit(whole[at])
    ensures ReplaceFirst(whole, whole[at..], rep) == whole[..at] + rep
  {
    var id := whole[at..];
    assert OccursAt(whole, id, at);
    var j := IndexOf(whole, id, 0);
    assert j == at;
    assert whole[j + |id|..] == [];
  }

  /** The callback replaces the captured digits and keeps the label, the spaces and the colon before them. */
  lemma IdMaskKeepsLabel(s: string, i: nat)
    requires i <= |s| && IdMatchAt(s, i).Some?
    ensures var m := IdMatchAt(s, i).value;
            IdMask(s, i, m) == s[i..m.digits] + Stars(m.end - m.digits)
  {
    var m := IdMatchAt(s, i).value;
    var whole := s[i..m.end];
    var at := m.digits - i;
    assert whole[at..] == s[m.digits..m.end];
    assert whole[..at] == s[i..m.digits];
    ReplaceTrailingDigits(whole, at, Stars(m.end - m.digits));
  }

  /** out stands for s[i..] with some digits turned into '*' and nothing else changed. */
  ghost predicate DigitsMasked(s: string, i: nat, out: string)
    requires i <= |s|
  {
    && |out| == |s| - i
    && forall k | 0 <= k < |out| :: out[k] == s[i + k] || (IsDigit(s[i + k]) && out[k] == '*')
  }

  /** Masking an ID keeps the length and changes only digits, each into '*'. */
  lemma {:induction false} IdPassMasksDigitsOnly(s: string, i: nat)
    requires i <= |s|
    ensures DigitsMasked(s, i, ReplaceFrom(Id, s, i))
    decreases |s| - i
  {
    if i < |s| {
      match MatchAt(Id, s, i)
      case Some(e) =>
        IdPassMasksDigitsOnly(s, e);
        IdMaskedAtMatch(s, i, e);
      case None =>
        IdPassMasksDigitsOnly(s, i + 1);
        IdMaskedAtCopy(s, i);
    }
  }

  /** The match step of the induction above. */
  lemma IdMaskedAtMatch(s: string, i: nat, e: nat)
    requires i < |s| && MatchAt(Id, s, i) == Some(e)
    requires DigitsMasked(s, e, ReplaceFrom(Id, s, e))
    ensures DigitsMasked(s, i, ReplaceFrom(Id, s, i))
  {
    IdMaskKeepsLabel(s, i);
    var m := IdMatchAt(s, i).value;
    var rest := ReplaceFrom(Id, s, e);
    assert ReplaceFrom(Id, s, i) == IdMask(s, i, m) + rest;
    MaskedStep(s, i, m.digits, e, rest);
  }

  /** The copy step of the induction above. */
  lemma IdMaskedAtCopy(s: string, i: nat)
    requires i < |s| && MatchAt(Id, s, i).None?
    requires DigitsMasked(s, i + 1, ReplaceFrom(Id, s, i + 1))
    ensures DigitsMasked(s, i, ReplaceFrom(Id, s, i))
  {
    var rest := ReplaceFrom(Id, s, i + 1);
    assert ReplaceFrom(Id, s, i) == [s[i]] + rest;
    CopyMasked(s, i, rest);
  }

  lemma CopyMasked(s: string, i: nat, rest: string)
    requires i < |s| && DigitsMasked(s, i + 1, rest)
    ensures DigitsMasked(s, i, [s[i]] + rest)
  {
    var out := [s[i]] + rest;
    forall k | 0 <= k < |out|
      ensures out[k] == s[i + k] || (IsDigit(s[i + k]) && out[k] == '*')
    {
      if k > 0 {
        assert out[k] == rest[k - 1];
      }
    }
  }

  /** The label is copied, the digits become stars, then the rest follows. */
  lemma MaskedStep(s: string, i: nat, d: nat, e: nat, rest: string)
    requires i <= d <= e <= |s|
    requires forall k | d <= k < e :: IsDigit(s[k])
    requires DigitsMasked(s, e, rest)
    ensures DigitsMasked(s, i, s[i..d] + Stars(e - d) + rest)
  {
    var out := s[i..d] + Stars(e - d) + rest;
    forall k | 0 <= k < |out|
      ensures out[k] == s[i + k] || (IsDigit(s[i + k]) && out[k] == '*')
    {
      if k < d - i {
        assert out[k] == s[i + k];
      } else if k < e - i {
        assert out[k] == Stars(e - d)[k - (d - i)];
      } else {
        assert out[k] == rest[k - (e - i)];
      }
    }
  }

  /** The ID pass preserves the length of the message. */
  lemma IdPassKeepsLength(s: string)
    ensures |Pass(Id, s)| == |s|
  {
    IdPassMasksDigitsOnly(s, 0);
  }

  // ----- passes that find nothing -----

  /** Positions i to j where no match starts are copied as they are. */
  lemma {:induction false} NoMatchBetween(c: Category, s: string, i: nat, j: nat)
    requires i <= j <= |s|
    requires forall k | i <= k < j :: MatchAt(c, s, k).None?
    ensures ReplaceFrom(c, s, i) == s[i..j] + ReplaceFrom(c, s, j)
    decreases j - i
  {
    if i < j {
      NoMatchBetween(c, s, i + 1, j);
      NoMatchStep(c, s, i, j);
    }
  }

  /** One step of the induction above: copy s[i], then what the pass does from i + 1. */
  lemma NoMatchStep(c: Category, s: string, i: nat, j: nat)
    requires i < j <= |s| && MatchAt(c, s, i).None?
    requires ReplaceFrom(c, s, i + 1) == s[i + 1..j] + ReplaceFrom(c, s, j)
    ensures ReplaceFrom(c, s, i) == s[i..j] + ReplaceFrom(c, s, j)
  {
    CopyStep(c, s, i);
    ConsSlice(s, i, j, ReplaceFrom(c, s, j));
  }

  lemma ConsSlice(s: string, i: nat, j: nat, rest: string)
    requires i < j <= |s|
    ensures [s[i]] + (s[i + 1..j] + rest) == s[i..j] + rest
  {
    assert s[i..j] == [s[i]] + s[i + 1..j];
  }

  /** Where no match starts, a pass copies the character and goes on. */
  lemma CopyStep(c: Category, s: string, i: nat)
    requires i < |s| && MatchAt(c, s, i).None?
    ensures ReplaceFrom(c, s, i) == [s[i]] + ReplaceFrom(c, s, i + 1)
  {
  }

  lemma MatchStep(c: Category, s: string, i: nat, e: nat)
    requires i < |s| && MatchAt(c, s, i) == Some(e)
    ensures ReplaceFrom(c, s, i) == Replacement(c, s, i, e) + ReplaceFrom(c, s, e)
  {
  }

  /** A pass over a message whose only match runs from i to its end. */
  lemma PassWithLastMatch(c: Category, s: string, i: nat)
    requires i < |s| && MatchAt(c, s, i) == Some(|s|)
    requires forall k | 0 <= k < i :: MatchAt(c, s, k).None?
    ensures Pass(c, s) == s[..i] + Replacement(c, s, i, |s|)
  {
    NoMatchBetween(c, s, 0, i);
    MatchStep(c, s, i, |s|);
    assert ReplaceFrom(c, s, |s|) == "";
  }

  /** The flag is the disjunction of the five categories, each tested on the original message. */
  lemma FoundIffSomeCategoryMatches(message: string)
    ensures ContainsSensitiveData(message)
            <==> exists c: Category, j: nat | j <= |message| :: MatchAt(c, message, j).Some?
  {
    var found := ContainsSensitiveData(message);
    if found {
      var c := if Test(Id, message) then Id else if Test(Email, message) then Email
               else if Test(Phone, message) then Phone else if Test(Card, message) then Card else Ssn;
      var j := Search(c, message, 0).value;
      assert MatchAt(c, message, j).Some?;
    } else {
      forall c: Category, j: nat | j <= |message| ensures MatchAt(c, message, j).None? {
        assert !Test(c, message);
      }
    }
  }

  /** When nothing is found the redacted message is the message itself. */
  lemma NotFoundUnchanged(message: string)
    requires !ContainsSensitiveData(message)
    ensures Redacted(message) == message
  {
  }

  // ----- masks are out of reach of the digit-based patterns -----

  predicate DigitFree(t: string) { forall k | 0 <= k < |t| :: !IsDigit(t[k]) }

  /** A digit-based pass leaves a string without digits as it is. */
  lemma DigitFreeFixed(c: Category, t: string)
    requires DigitBased(c) && DigitFree(t)
    ensures Pass(c, t) == t
  {
  }

  lemma EmailMaskDigitFree()
    ensures DigitFree(EmailMask)
  {
    assert forall k | 0 <= k < |EmailMask| :: EmailMask[k] in "*@.";
  }

  lemma SsnMaskDigitFree()
    ensures DigitFree(SsnMask)
  {
    assert forall k | 0 <= k < |SsnMask| :: SsnMask[k] in "*-";
  }

  lemma StarMasks()
    ensures PhoneMask == Stars(10) && CardMask == Stars(12)
  {
  }

  /** A run of stars survives a digit-based pass. */
  lemma StarsSurvive(c: Category, n: nat)
    requires DigitBased(c)
    ensures Pass(c, Stars(n)) == Stars(n)
  {
    DigitFreeFixed(c, Stars(n));
  }

  /** No mask token holds a digit, so no later digit-based pass rewrites a mask. */
  lemma MasksSurviveDigitPasses(c: Category, n: nat)
    requires DigitBased(c)
    ensures Pass(c, EmailMask) == EmailMask && Pass(c, PhoneMask) == PhoneMask
    ensures Pass(c, CardMask) == CardMask && Pass(c, SsnMask) == SsnMask && Pass(c, Stars(n)) == Stars(n)
  {
    EmailMaskDigitFree();
    DigitFreeFixed(c, EmailMask);
    SsnMaskDigitFree();
    DigitFreeFixed(c, SsnMask);
    StarMasks();
    StarsSurvive(c, 10);
    StarsSurvive(c, 12);
    StarsSurvive(c, n);
  }

  /** A mask token: at least one character, a '*' at each end and no digit. */
  predicate StarFenced(m: string) {
    |m| > 0 && m[0] == '*' && m[|m| - 1] == '*' && DigitFree(m)
  }

  /** Every replacement text is star-fenced, and so is the run of stars that replaces an ID's digits. */
  lemma MasksAreStarFenced(n: nat)
    requires n > 0
    ensures StarFenced(EmailMask) && StarFenced(PhoneMask) && StarFenced(CardMask) && StarFenced(SsnMask)
    ensures StarFenced(Stars(n))
  {
    EmailMaskDigitFree();
    SsnMaskDigitFree();
    StarMasks();
    DigitFreeFixed(Phone, Stars(n));
  }

  /**
   Inside a partly redacted message, a match of a digit-based pattern never
   overlaps a star-fenced mask: it cannot take a '*', so it would have to lie
   strictly inside the mask, where there is no digit for it.
   */
  lemma MaskOutOfReach(c: Category, s: string, m: string, a: nat, j: nat, e: nat)
    requires DigitBased(c) && StarFenced(m)
    requires a + |m| <= |s| && s[a..a + |m|] == m
    requires j <= |s| && MatchAt(c, s, j) == Some(e)
    ensures e <= a || a + |m| <= j
  {
    SpanOutOfReach(s, m, a, j, e);
  }

  /** A span with a digit and no '*' does not overlap a star-fenced mask. */
  lemma SpanOutOfReach(s: string, m: string, a: nat, j: nat, e: nat)
    requires StarFenced(m) && a + |m| <= |s| && s[a..a + |m|] == m
    requires j < e <= |s| && Clean(s, j, e) && HasDigit(s, j, e)
    ensures e <= a || a + |m| <= j
  {
    assert s[a] == m[0] && s[a + |m| - 1] == m[|m| - 1];
    forall k | a <= k < a + |m|
      ensures !IsDigit(s[k])
    {
      assert s[k] == m[k - a];
    }
  }
}

/** Star counting: a pass never loses a '*' and adds one per replacement. */
module ScannerStars {
  import opened Wire
  import opened Scanner
  import opened ScannerFacts


  function StarCount(s: string): nat {
    if |s| == 0 then 0 else (if s[0] == '*' then 1 else 0) + StarCount(s[1..])
  }

  lemma {:induction false} StarCountConcat(a: string, b: string)
    ensures StarCount(a + b) == StarCount(a) + StarCount(b)
  {
    if |a| > 0 {
      assert (a + b)[0] == a[0];
      assert (a + b)[1..] == a[1..] + b;
      StarCountConcat(a[1..], b);
      assert StarCount(a + b) == (if a[0] == '*' then 1 else 0) + StarCount(a[1..] + b);
    } else {
      assert a + b == b;
    }
  }

  lemma {:induction false} StarCountStars(n: nat)
    ensures StarCount(Stars(n)) == n
  {
    if n > 0 {
      StarCountConcat(Stars(n - 1), "*");
      StarCountStars(n - 1);
    }
  }

  lemma {:induction false} CleanHasNoStar(s: string, a: nat, b: nat)
    requires a <= b <= |s| && Clean(s, a, b)
    ensures StarCount(s[a..b]) == 0
    decreases b - a
  {
    if a < b {
      assert s[a..b][1..] == s[a + 1..b];
      CleanHasNoStar(s, a + 1, b);
    }
  }

  /** Every replacement holds at least one '*'. */
  lemma ReplacementHasStar(c: Category, s: string, i: nat, e: nat)
    requires i <= |s| && MatchAt(c, s, i) == Some(e)
    ensures StarCount(Replacement(c, s, i, e)) >= 1
  {
    match c
    case Id =>
      IdMaskKeepsLabel(s, i);
      var m := IdMatchAt(s, i).value;
      StarCountConcat(s[i..m.digits], Stars(m.end - m.digits));
      StarCountStars(m.end - m.digits);
    case Email => assert EmailMask[0] == '*';
    case Phone => assert PhoneMask[0] == '*';
    case Card => assert CardMask[0] == '*';
    case Ssn => assert SsnMask[0] == '*';
  }

  lemma SplitStars(s: string, i: nat, e: nat)
    requires i <= e <= |s| && Clean(s, i, e)
    ensures StarCount(s[i..]) == StarCount(s[e..])
  {
    assert s[i..] == s[i..e] + s[e..];
    StarCountConcat(s[i..e], s[e..]);
    CleanHasNoStar(s, i, e);
  }

  /** The star count of a replacement step: the mask, then the rest of the pass. */
  lemma StarsAtMatch(c: Category, s: string, i: nat, e: nat)
    requires i <= |s| && MatchAt(c, s, i) == Some(e)
    ensures StarCount(ReplaceFrom(c, s, i)) == StarCount(Replacement(c, s, i, e)) + StarCount(ReplaceFrom(c, s, e))
    ensures StarCount(s[i..]) == StarCount(s[e..])
  {
    var rep, rest := Replacement(c, s, i, e), ReplaceFrom(c, s, e);
    assert ReplaceFrom(c, s, i) == rep + rest;
    StarCountConcat(rep, rest);
    SplitStars(s, i, e);
  }

  /** The star count of a copying step: the character, then the rest of the pass. */
  lemma StarsAtCopy(c: Category, s: string, i: nat)
    requires i < |s| && MatchAt(c, s, i).None?
    ensures StarCount(ReplaceFrom(c, s, i)) == StarCount([s[i]]) + StarCount(ReplaceFrom(c, s, i + 1))
  {
    CopyStep(c, s, i);
    StarCountConcat([s[i]], ReplaceFrom(c, s, i + 1));
  }

  /** The star count of a suffix: its first character, then the rest. */
  lemma StarsOfSuffix(s: string, i: nat)
    requires i < |s|
    ensures StarCount(s[i..]) == StarCount([s[i]]) + StarCount(s[i + 1..])
  {
    assert s[i..] == [s[i]] + s[i + 1..];
    StarCountConcat([s[i]], s[i + 1..]);
  }

  /** Where no match starts, the leftmost match from i is the leftmost one from i + 1. */
  lemma SearchSkips(c: Category, s: string, i: nat)
    requires i < |s| && MatchAt(c, s, i).None?
    ensures Search(c, s, i) == Search(c, s, i + 1)
  {
  }

  /** A pass never removes a '*', and adds one as soon as it replaces something. */
  lemma {:induction false} PassAddsStars(c: Category, s: string, i: nat)
    requires i <= |s|
    ensures StarCount(ReplaceFrom(c, s, i)) >= StarCount(s[i..])
    ensures Search(c, s, i).Some? ==> StarCount(ReplaceFrom(c, s, i)) > StarCount(s[i..])
    decreases |s| - i
  {
    if i < |s| {
      match MatchAt(c, s, i)
      case Some(e) =>
        PassAddsStars(c, s, e);
        MatchStepStars(c, s, i, e);
      case None =>
        PassAddsStars(c, s, i + 1);
        CopyStepStars(c, s, i);
    }
  }

  /** A replacement step adds the mask's stars to what the rest of the pass keeps. */
  lemma MatchStepStars(c: Category, s: string, i: nat, e: nat)
    requires i < |s| && MatchAt(c, s, i) == Some(e)
    requires StarCount(ReplaceFrom(c, s, e)) >= StarCount(s[e..])
    ensures StarCount(ReplaceFrom(c, s, i)) > StarCount(s[i..])
  {
    ReplacementHasStar(c, s, i, e);
    StarsAtMatch(c, s, i, e);
  }

  /** A copying step keeps both star-count facts of the rest of the pass. */
  lemma CopyStepStars(c: Category, s: string, i: nat)
    requires i < |s| && MatchAt(c, s, i).None?
    requires StarCount(ReplaceFrom(c, s, i + 1)) >= StarCount(s[i + 1..])
    requires Search(c, s, i + 1).Some? ==> StarCount(ReplaceFrom(c, s, i + 1)) > StarCount(s[i + 1..])
    ensures StarCount(ReplaceFrom(c, s, i)) >= StarCount(s[i..])
    ensures Search(c, s, i).Some? ==> StarCount(ReplaceFrom(c, s, i)) > StarCount(s[i..])
  {
    StarsAtCopy(c, s, i);
    StarsOfSuffix(s, i);
    SearchSkips(c, s, i);
  }

  /** The message comes back changed exactly when sensitive data was found. */
  lemma FoundIffChanged(message: string)
    ensures ContainsSensitiveData(message) <==> Redacted(message) != message
  {
    var t1 := Pass(Id, message);
    var t2 := Pass(Email, t1);
    var t3 := Pass(Phone, t2);
    var t4 := Pass(Card, t3);
    var t5 := Pass(Ssn, t4);
    PassAddsStars(Id, message, 0);
    PassAddsStars(Email, t1, 0);
    PassAddsStars(Phone, t2, 0);
    PassAddsStars(Card, t3, 0);
    PassAddsStars(Ssn, t4, 0);
    assert message[0..] == message && t1[0..] == t1 && t2[0..] == t2 && t3[0..] == t3 && t4[0..] == t4;
    if ContainsSensitiveData(message) {
      assert StarCount(t5) > StarCount(message);
    } else {
      NotFoundUnchanged(message);
    }
  }
}

module ScannerExample {
  import opened Wire
  import opened Scanner
  import opened ScannerFacts
  import opened SensitiveDataHandler

  const Sample: string := "my email is a@b.com"

  /** An email match needs `\b` and a non-empty local part followed by '@'. */
  lemma EmailNeedsLocalPart(s: string, j: nat, n: nat)
    requires j <= |s| && Run(s, j, Local) == n
    requires !Boundary(s, j) || n == 0 || j + n == |s| || (j + n < |s| && s[j + n] != '@')
    ensures EmailMatchAt(s, j).None?
  {
  }

  /** No email starts inside a word of the sample: `\b` fails there. */
  lemma SampleNoEmailInWords()
    ensures EmailMatchAt(Sample, 1).None? && EmailMatchAt(Sample, 4).None? && EmailMatchAt(Sample, 5).None?
    ensures EmailMatchAt(Sample, 6).None? && EmailMatchAt(Sample, 7).None? && EmailMatchAt(Sample, 10).None?
  {
    assert !Boundary(Sample, 1) && !Boundary(Sample, 4) && !Boundary(Sample, 5);
    assert !Boundary(Sample, 6) && !Boundary(Sample, 7) && !Boundary(Sample, 10);
  }

  /** No email starts at a space of the sample: the local part would be empty. */
  lemma SampleNoEmailAtSpaces()
    ensures EmailMatchAt(Sample, 2).None? && EmailMatchAt(Sample, 8).None? && EmailMatchAt(Sample, 11).None?
  {
    RunExact(Sample, 2, Local, 0);
    RunExact(Sample, 8, Local, 0);
    RunExact(Sample, 11, Local, 0);
  }

  /** "my" and "is" are followed by a space, not by '@'. */
  lemma SampleNoEmailAtShortWords()
    ensures EmailMatchAt(Sample, 0).None? && EmailMatchAt(Sample, 9).None?
  {
    RunExact(Sample, 0, Local, 2);
    EmailNeedsLocalPart(Sample, 0, 2);
    RunExact(Sample, 9, Local, 2);
    EmailNeedsLocalPart(Sample, 9, 2);
  }

  /** "email" is followed by a space, not by '@'. */
  lemma SampleNoEmailAt3()
    ensures EmailMatchAt(Sample, 3).None?
  {
    assert forall k | 3 <= k < 8 :: IsAsciiLetter(Sample[k]);
    RunExact(Sample, 3, Local, 5);
    EmailNeedsLocalPart(Sample, 3, 5);
  }

  /** No email starts before position 12 of the sample. */
  lemma SampleNoEarlyEmail()
    ensures forall j | 0 <= j < 12 :: EmailMatchAt(Sample, j).None?
  {
    SampleNoEmailInWords();
    SampleNoEmailAtSpaces();
    SampleNoEmailAtShortWords();
    SampleNoEmailAt3();
    forall j | 0 <= j < 12 ensures EmailMatchAt(Sample, j).None? {
      assert j in {0, 1, 2, 3, 4, 5, 6, 7, 8, 9, 10, 11};
    }
  }

  /** The top-level part "com" of the sample ends the match at 19. */
  lemma SampleTld()
    ensures Run(Sample, 16, Tld) == 3 && EmailTld(Sample, 16, 3) == Some(19)
  {
    RunExact(Sample, 16, Tld, 3);
    assert Boundary(Sample, 19);
  }

  /** The greedy domain run "b.com" gives back characters until the '.' before "com". */
  lemma SampleDomain()
    ensures Run(Sample, 14, Domain) == 5 && EmailDomain(Sample, 14, 5) == Some(19)
  {
    assert Sample[14..] == "b.com";
    RunExact(Sample, 14, Domain, 5);
    SampleTld();
    assert EmailDomain(Sample, 14, 1) == Some(19);
    assert EmailDomain(Sample, 14, 2) == Some(19) by { assert Sample[16] == 'c'; }
    assert EmailDomain(Sample, 14, 3) == Some(19) by { assert Sample[17] == 'o'; }
    assert EmailDomain(Sample, 14, 4) == Some(19) by { assert Sample[18] == 'm'; }
  }

  /** The email of the sample is a@b.com, at positions 12 to 19. */
  lemma SampleEmailAt12()
    ensures EmailMatchAt(Sample, 12) == Some(19)
  {
    SampleLocal();
    SampleDomain();
  }

  /** The local part "a" of the sample starts at a word boundary and stops at the '@' at 13. */
  lemma SampleLocal()
    ensures Boundary(Sample, 12) && Run(Sample, 12, Local) == 1 && Sample[13] == '@'
  {
    assert Sample[11] == ' ' && Sample[12] == 'a' && Sample[13] == '@';
    RunExact(Sample, 12, Local, 1);
  }

  /** An ID match needs a 'd' or 'D' right after its first character. */
  lemma IdNeedsD(s: string, j: nat)
    requires j <= |s| && IdMatchAt(s, j).Some?
    ensures j + 1 < |s| && (s[j + 1] == 'd' || s[j + 1] == 'D')
  {
  }

  /** The sample holds no 'd' or 'D', so no ID label. */
  lemma SampleNoId()
    ensures Search(Id, Sample, 0).None?
  {
    assert forall k | 0 <= k < |Sample| :: Sample[k] != 'd' && Sample[k] != 'D';
    forall j | 0 <= j <= |Sample| ensures MatchAt(Id, Sample, j).None? {
      if IdMatchAt(Sample, j).Some? {
        IdNeedsD(Sample, j);
      }
    }
  }

  /** The email pass masks a@b.com and keeps the twelve characters before it. */
  lemma SampleEmailPass()
    ensures Pass(Email, Sample) == "my email is " + EmailMask
  {
    SampleNoEarlyEmail();
    SampleEmailAt12();
    PassWithLastMatch(Email, Sample, 12);
    SampleHead();
  }

  lemma SampleHead()
    ensures Sample[..12] == "my email is "
  {
  }

  /** The email-masked sample has no digit left. */
  lemma SampleMaskedDigitFree()
    ensures DigitFree("my email is " + EmailMask)
  {
    var r := "my email is " + EmailMask;
    assert forall k | 0 <= k < |r| :: r[k] in "myemailsa*@. ";
  }

  lemma SampleMaskedText()
    ensures "my email is " + EmailMask == "my email is *********@****.***"
  {
  }

  /** No ID label in the sample, so the ID pass leaves it alone. */
  lemma SampleIdPass()
    ensures Pass(Id, Sample) == Sample
  {
    SampleNoId();
  }

  /** The email pattern matches the sample, so the flag is raised. */
  lemma SampleFlag()
    ensures ContainsSensitiveData(Sample)
  {
    SampleEmailAt12();
    assert MatchAt(Email, Sample, 12).Some?;
    assert Test(Email, Sample);
  }

  /** The digit-based passes leave the email-masked sample alone. */
  lemma SampleLaterPasses()
    ensures Pass(Ssn, Pass(Card, Pass(Phone, "my email is " + EmailMask))) == "my email is " + EmailMask
  {
    SampleMaskedDigitFree();
    var r := "my email is " + EmailMask;
    DigitFreeFixed(Phone, r);
    DigitFreeFixed(Card, r);
    DigitFreeFixed(Ssn, r);
  }

  /** The five passes over the sample mask only its email. */
  lemma SampleRedacted()
    ensures Redacted(Sample) == "my email is *********@****.***"
  {
    SampleIdPass();
    SampleEmailPass();
    SampleLaterPasses();
    SampleMaskedText();
  }

  /** The email of the sample is masked and the flag is raised. */
  lemma EmailExample()
    ensures CheckForSensitiveData(Sample) == Verdict(true, "my email is *********@****.***")
  {
    SampleFlag();
    SampleRedacted();
  }
}
