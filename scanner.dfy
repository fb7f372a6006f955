/**
 checkForSensitiveData: five regular expressions, a flag that is true when any of
 them matches the message, and a redacted copy built by five global
 replacements applied one after the other.

 Each regular expression is written out as a small family of first-order
 functions, one per step of the pattern. A step that has several ways to proceed
 tries them in the order a backtracking ECMAScript matcher does: a greedy
 quantifier tries its longest count first, a lazy one its shortest, an optional
 group tries to match before it is skipped, and the first way that lets the rest
 of the pattern succeed decides the match. A string is a sequence of characters.
 */
module Scanner {
  import opened Wire

  // ----- character classes -----

  predicate IsDigit(c: char) { '0' <= c <= '9' }

  predicate IsAsciiLetter(c: char) { 'a' <= c <= 'z' || 'A' <= c <= 'Z' }

  /** `\w`, which also decides `\b` (no `u` flag on any of the patterns). */
  predicate IsWordChar(c: char) { IsAsciiLetter(c) || IsDigit(c) || c == '_' }

  /** `\s`: white space and line terminators as ECMAScript defines them. */
  predicate IsSpace(c: char) {
    var n := c as int;
    (9 <= n <= 13) || n == 32 || n == 0xA0 || n == 0x1680 || (0x2000 <= n <= 0x200A)
    || n == 0x2028 || n == 0x2029 || n == 0x202F || n == 0x205F || n == 0x3000 || n == 0xFEFF
  }


  /** `\b` at position i: exactly one of the neighbouring characters is a word character. */
  predicate Boundary(s: string, i: nat)
    requires i <= |s|
  {
    (i > 0 && IsWordChar(s[i - 1])) != (i < |s| && IsWordChar(s[i]))
  }

  /** The bracketed classes and escapes that the five patterns repeat. */
  datatype Class =
    | Digit       // \d
    | Space       // \s
    | Local       // [A-Za-z0-9._%+-]
    | Domain      // [A-Za-z0-9.-]
    | Tld         // [A-Z|a-z], which also admits '|'
    | PhoneLead   // [-. (]
    | PhoneMid    // [-. )]
    | PhoneTail   // [-. ]
    | Blank       // the literal space of ` *`
    | CardSep     // [ -]

  predicate InClass(c: char, k: Class) {
    match k
    case Digit => IsDigit(c)
    case Space => IsSpace(c)
    case Local => IsAsciiLetter(c) || IsDigit(c) || c == '.' || c == '_' || c == '%' || c == '+' || c == '-'
    case Domain => IsAsciiLetter(c) || IsDigit(c) || c == '.' || c == '-'
    case Tld => IsAsciiLetter(c) || c == '|'
    case PhoneLead => c == '-' || c == '.' || c == ' ' || c == '('
    case PhoneMid => c == '-' || c == '.' || c == ' ' || c == ')'
    case PhoneTail => c == '-' || c == '.' || c == ' '
    case Blank => c == ' '
    case CardSep => c == ' ' || c == '-'
  }

  /** Length of the longest run of class-k characters starting at i. */
  function Run(s: string, i: nat, k: Class): (n: nat)
    requires i <= |s|
    ensures i + n <= |s|
    ensures forall j | i <= j < i + n :: InClass(s[j], k)
    ensures i + n == |s| || !InClass(s[i + n], k)
    decreases |s| - i
  {
    if i < |s| && InClass(s[i], k) then 1 + Run(s, i + 1, k) else 0
  }

  function Min(a: nat, b: nat): nat { if a <= b then a else b }

  /** No '*' in s[a..b]: no pattern consumes a '*'. */
  predicate Clean(s: string, a: nat, b: nat)
    requires b <= |s|
  {
    forall k | a <= k < b :: s[k] != '*'
  }

  /** Some digit in s[a..b]. */
  predicate HasDigit(s: string, a: nat, b: nat)
    requires b <= |s|
  {
    exists k | a <= k < b :: IsDigit(s[k])
  }

  // ----- /\b(?:ID|Id)\s*:\s*(\d+)\b/gi -----

  /** A match of the ID pattern: `digits` is where capture group 1 starts, `end` where the match ends. */
  datatype IdMatch = IdMatch(digits: nat, end: nat)

  /**
   With the `i` flag both alternatives ID and Id accept [iI][dD], so the
   alternation is one pair of classes. No quantifier of this pattern can give
   back characters usefully: the character after each maximal `\s*` must be ':'
   or a digit, and `\b` cannot hold between two digits, so the match at i is
   the single one computed here.
   */
  function IdMatchAt(s: string, i: nat): (r: Option<IdMatch>)
    requires i <= |s|
    ensures r.Some? ==> i + 3 <= r.value.digits < r.value.end <= |s|
    ensures r.Some? ==> forall k | i <= k < r.value.digits :: !IsDigit(s[k]) && s[k] != '*'
    ensures r.Some? ==> forall k | r.value.digits <= k < r.value.end :: IsDigit(s[k])
  {
    if i + 2 <= |s| && Boundary(s, i) && s[i] in "iI" && s[i + 1] in "dD" then
      IdAfterLetters(s, i + 2 + Run(s, i + 2, Space))
    else None
  }

  /** The rest of the ID pattern once the `\s*` after the two letters has ended at colon. */
  function IdAfterLetters(s: string, colon: nat): (r: Option<IdMatch>)
    requires colon <= |s|
    ensures r.Some? ==> colon + 1 <= r.value.digits < r.value.end <= |s|
    ensures r.Some? ==> forall k | colon <= k < r.value.digits :: !IsDigit(s[k]) && s[k] != '*'
    ensures r.Some? ==> forall k | r.value.digits <= k < r.value.end :: IsDigit(s[k])
  {
    if colon < |s| && s[colon] == ':' then IdDigits(s, colon + 1 + Run(s, colon + 1, Space))
    else None
  }

  /** The captured `(\d+)` from d, then `\b`. */
  function IdDigits(s: string, d: nat): (r: Option<IdMatch>)
    requires d <= |s|
    ensures r.Some? ==> r.value.digits == d < r.value.end <= |s|
    ensures r.Some? ==> forall k | d <= k < r.value.end :: IsDigit(s[k])
  {
    var n := Run(s, d, Digit);
    if n > 0 && Boundary(s, d + n) then Some(IdMatch(d, d + n)) else None
  }

  /** The ID pattern read declaratively: the span s[i..e] with its digits starting at d. */
  ghost predicate IdSpan(s: string, i: nat, d: nat, e: nat) {
    && i + 2 <= d < e <= |s|
    && Boundary(s, i) && s[i] in "iI" && s[i + 1] in "dD"
    && (exists colon: nat :: IdLabel(s, i, colon, d))
    && (forall k | d <= k < e :: IsDigit(s[k]))
    && Boundary(s, e)
  }

  /** s[i+2..colon] is white space, s[colon] is ':', and s[colon+1..d] is white space. */
  ghost predicate IdLabel(s: string, i: nat, colon: nat, d: nat) {
    && i + 2 <= colon < d <= |s|
    && (forall k | i + 2 <= k < colon :: IsSpace(s[k]))
    && s[colon] == ':'
    && (forall k | colon < k < d :: IsSpace(s[k]))
  }

  // ----- /\b[A-Za-z0-9._%+-]+@[A-Za-z0-9.-]+\.[A-Z|a-z]{2,}\b/g -----

  /** The local part is the maximal run of its class: a shorter run would leave a class character where '@' is needed. */
  function EmailMatchAt(s: string, i: nat): (r: Option<nat>)
    requires i <= |s|
    ensures r.Some? ==> i < r.value <= |s| && Clean(s, i, r.value)
  {
    if !Boundary(s, i) then None
    else
      var at := i + Run(s, i, Local);
      if at == i || at >= |s| || s[at] != '@' then None
      else EmailDomain(s, at + 1, Run(s, at + 1, Domain))
  }

  /** `[A-Za-z0-9.-]+` from ds, greedy: m domain characters, then `\.`, then the top-level part; fewer on failure. */
  function EmailDomain(s: string, ds: nat, m: nat): (r: Option<nat>)
    requires ds <= |s| && m <= Run(s, ds, Domain)
    ensures r.Some? ==> ds < r.value <= |s| && Clean(s, ds, r.value)
    decreases m
  {
    if m == 0 then None
    else
      var tail :=
        if ds + m < |s| && s[ds + m] == '.' then EmailTld(s, ds + m + 1, Run(s, ds + m + 1, Tld)) else None;
      if tail.Some? then tail else EmailDomain(s, ds, m - 1)
  }

  /** `[A-Z|a-z]{2,}\b` from ts, greedy: n characters if `\b` holds after them, fewer otherwise. */
  function EmailTld(s: string, ts: nat, n: nat): (r: Option<nat>)
    requires ts <= |s| && n <= Run(s, ts, Tld)
    ensures r.Some? ==> ts + 2 <= r.value <= ts + n && Clean(s, ts, r.value)
    decreases n
  {
    if n < 2 then None
    else if Boundary(s, ts + n) then Some(ts + n)
    else EmailTld(s, ts, n - 1)
  }

  // ----- /\b(?:\+?(\d{1,3}))?[-. (]*(\d{3})[-. )]*(\d{3})[-. ]*(\d{4})(?: *x(\d+))?\b/g -----

  /** The optional country group is tried first; the pattern then goes on without it. */
  function PhoneMatchAt(s: string, i: nat): (r: Option<nat>)
    requires i <= |s|
    ensures r.Some? ==> i < r.value <= |s| && Clean(s, i, r.value) && HasDigit(s, i, r.value)
  {
    if !Boundary(s, i) then None
    else
      var country := PhoneCountry(s, i);
      if country.Some? then country else PhoneLeadSep(s, i)
  }

  /** `\+?(\d{1,3})`: with the '+' if there is one, then without it. */
  function PhoneCountry(s: string, i: nat): (r: Option<nat>)
    requires i <= |s|
    ensures r.Some? ==> i < r.value <= |s| && Clean(s, i, r.value) && HasDigit(s, i, r.value)
  {
    var plus := if i < |s| && s[i] == '+' then PhoneCc(s, i + 1, Min(3, Run(s, i + 1, Digit))) else None;
    if plus.Some? then plus else PhoneCc(s, i, Min(3, Run(s, i, Digit)))
  }

  /** `\d{1,3}` from p, greedy: k digits, then fewer. */
  function PhoneCc(s: string, p: nat, k: nat): (r: Option<nat>)
    requires p <= |s| && k <= Run(s, p, Digit)
    ensures r.Some? ==> p < r.value <= |s| && Clean(s, p, r.value) && HasDigit(s, p, r.value)
    decreases k
  {
    if k == 0 then None
    else
      var rest := PhoneLeadSep(s, p + k);
      if rest.Some? then rest else PhoneCc(s, p, k - 1)
  }

  /** `[-. (]*` from p, greedy. */
  function PhoneLeadSep(s: string, p: nat): (r: Option<nat>)
    requires p <= |s|
    ensures r.Some? ==> p < r.value <= |s| && Clean(s, p, r.value) && HasDigit(s, p, r.value)
  {
    PhoneLeadTry(s, p, Run(s, p, PhoneLead))
  }

  function PhoneLeadTry(s: string, p: nat, k: nat): (r: Option<nat>)
    requires p <= |s| && k <= Run(s, p, PhoneLead)
    ensures r.Some? ==> p < r.value <= |s| && Clean(s, p, r.value) && HasDigit(s, p, r.value)
    decreases k
  {
    var rest := PhoneArea(s, p + k);
    if rest.Some? then rest else if k == 0 then None else PhoneLeadTry(s, p, k - 1)
  }

  /** `(\d{3})` then `[-. )]*`. */
  function PhoneArea(s: string, q: nat): (r: Option<nat>)
    requires q <= |s|
    ensures r.Some? ==> q < r.value <= |s| && Clean(s, q, r.value) && HasDigit(s, q, r.value)
  {
    if Run(s, q, Digit) >= 3 then PhoneMidTry(s, q + 3, Run(s, q + 3, PhoneMid)) else None
  }

  function PhoneMidTry(s: string, p: nat, k: nat): (r: Option<nat>)
    requires p <= |s| && k <= Run(s, p, PhoneMid)
    ensures r.Some? ==> p < r.value <= |s| && Clean(s, p, r.value)
    decreases k
  {
    var rest := PhoneExchange(s, p + k);
    if rest.Some? then rest else if k == 0 then None else PhoneMidTry(s, p, k - 1)
  }

  /** `(\d{3})` then `[-. ]*`. */
  function PhoneExchange(s: string, q: nat): (r: Option<nat>)
    requires q <= |s|
    ensures r.Some? ==> q < r.value <= |s| && Clean(s, q, r.value)
  {
    if Run(s, q, Digit) >= 3 then PhoneTailTry(s, q + 3, Run(s, q + 3, PhoneTail)) else None
  }

  function PhoneTailTry(s: string, p: nat, k: nat): (r: Option<nat>)
    requires p <= |s| && k <= Run(s, p, PhoneTail)
    ensures r.Some? ==> p < r.value <= |s| && Clean(s, p, r.value)
    decreases k
  {
    var rest := PhoneLine(s, p + k);
    if rest.Some? then rest else if k == 0 then None else PhoneTailTry(s, p, k - 1)
  }

  /** `(\d{4})` then the extension and the final `\b`. */
  function PhoneLine(s: string, q: nat): (r: Option<nat>)
    requires q <= |s|
    ensures r.Some? ==> q < r.value <= |s| && Clean(s, q, r.value)
  {
    if Run(s, q, Digit) >= 4 then PhoneExt(s, q + 4) else None
  }

  /** `(?: *x(\d+))?\b`: the extension is tried first, then the bare `\b`. */
  function PhoneExt(s: string, q: nat): (r: Option<nat>)
    requires q <= |s|
    ensures r.Some? ==> q <= r.value <= |s| && Clean(s, q, r.value)
  {
    var ext := PhoneExtTry(s, q, Run(s, q, Blank));
    if ext.Some? then ext else if Boundary(s, q) then Some(q) else None
  }

  /** ` *` greedy, then 'x', then `(\d+)\b`. */
  function PhoneExtTry(s: string, q: nat, k: nat): (r: Option<nat>)
    requires q <= |s| && k <= Run(s, q, Blank)
    ensures r.Some? ==> q < r.value <= |s| && Clean(s, q, r.value)
    decreases k
  {
    var rest :=
      if q + k < |s| && s[q + k] == 'x' then PhoneExtDigits(s, q + k + 1, Run(s, q + k + 1, Digit)) else None;
    if rest.Some? then rest else if k == 0 then None else PhoneExtTry(s, q, k - 1)
  }

  function PhoneExtDigits(s: string, p: nat, m: nat): (r: Option<nat>)
    requires p <= |s| && m <= Run(s, p, Digit)
    ensures r.Some? ==> p < r.value <= p + m && Clean(s, p, r.value)
    decreases m
  {
    if m == 0 then None
    else if Boundary(s, p + m) then Some(p + m)
    else PhoneExtDigits(s, p, m - 1)
  }

  // ----- /\b(?:\d[ -]*?){13,16}\b/g -----

  function CardMatchAt(s: string, i: nat): (r: Option<nat>)
    requires i <= |s|
    ensures r.Some? ==> i < r.value <= |s| && Clean(s, i, r.value) && HasDigit(s, i, r.value)
  {
    if Boundary(s, i) then CardFrom(s, i, 0) else None
  }

  /**
   n repetitions of the group are done and the next one would start at p. Below
   13 another one is required; from 13 on another one is tried first (greedy)
   and `\b` after that; at 16 only `\b` remains.
   */
  function CardFrom(s: string, p: nat, n: nat): (r: Option<nat>)
    requires p <= |s| && n <= 16
    ensures r.Some? ==> p <= r.value <= |s| && Clean(s, p, r.value)
    ensures r.Some? && n < 13 ==> p < r.value && HasDigit(s, p, r.value)
    decreases 17 - n, 0, 0
  {
    if n == 16 then (if Boundary(s, p) then Some(p) else None)
    else
      var more := if p < |s| && IsDigit(s[p]) then CardSeps(s, p + 1, n + 1, 0) else None;
      if n < 13 || more.Some? then more
      else if Boundary(s, p) then Some(p)
      else None
  }

  /** The lazy `[ -]*?` after a group's digit: k separators first, then one more. */
  function CardSeps(s: string, q: nat, n: nat, k: nat): (r: Option<nat>)
    requires q <= |s| && 1 <= n <= 16 && k <= Run(s, q, CardSep)
    ensures r.Some? ==> q <= r.value <= |s| && Clean(s, q, r.value)
    decreases 17 - n, 1, Run(s, q, CardSep) - k
  {
    var rest := CardFrom(s, q + k, n);
    if rest.Some? then rest
    else if k < Run(s, q, CardSep) then CardSeps(s, q, n, k + 1)
    else None
  }

  // ----- /\b(\d{3}[-]?|\d{2}[-]?)\d{2}[-]?\d{4}\b/g -----

  /** The three-digit alternative is tried before the two-digit one. */
  function SsnMatchAt(s: string, i: nat): (r: Option<nat>)
    requires i <= |s|
    ensures r.Some? ==> i < r.value <= |s| && Clean(s, i, r.value) && HasDigit(s, i, r.value)
  {
    if !Boundary(s, i) then None
    else
      var three := if Run(s, i, Digit) >= 3 then SsnDash(s, i + 3) else None;
      if three.Some? then three
      else if Run(s, i, Digit) >= 2 then SsnDash(s, i + 2)
      else None
  }

  /** `[-]?` (greedy) before the middle `\d{2}`. */
  function SsnDash(s: string, p: nat): (r: Option<nat>)
    requires p <= |s|
    ensures r.Some? ==> p < r.value <= |s| && Clean(s, p, r.value)
  {
    var dashed := if p < |s| && s[p] == '-' then SsnMiddle(s, p + 1) else None;
    if dashed.Some? then dashed else SsnMiddle(s, p)
  }

  /** `\d{2}[-]?` then the last part. */
  function SsnMiddle(s: string, p: nat): (r: Option<nat>)
    requires p <= |s|
    ensures r.Some? ==> p < r.value <= |s| && Clean(s, p, r.value)
  {
    if Run(s, p, Digit) < 2 then None
    else
      var q := p + 2;
      var dashed := if q < |s| && s[q] == '-' then SsnLast(s, q + 1) else None;
      if dashed.Some? then dashed else SsnLast(s, q)
  }

  /** `\d{4}\b`. */
  function SsnLast(s: string, p: nat): (r: Option<nat>)
    requires p <= |s|
    ensures r.Some? ==> r.value == p + 4 <= |s| && Clean(s, p, r.value)
  {
    if Run(s, p, Digit) >= 4 && Boundary(s, p + 4) then Some(p + 4) else None
  }

  // ----- the five categories as one interface -----

  datatype Category = Id | Email | Phone | Card | Ssn

  /** Categories whose every match holds a digit. */
  predicate DigitBased(c: Category) { c == Phone || c == Card || c == Ssn }

  /** Where the match of category c that starts at i ends, if there is one. */
  function MatchAt(c: Category, s: string, i: nat): (r: Option<nat>)
    requires i <= |s|
    ensures r.Some? ==> i < r.value <= |s| && Clean(s, i, r.value)
    ensures r.Some? && DigitBased(c) ==> HasDigit(s, i, r.value)
  {
    match c
    case Id => (var m := IdMatchAt(s, i); if m.Some? then Some(m.value.end) else None)
    case Email => EmailMatchAt(s, i)
    case Phone => PhoneMatchAt(s, i)
    case Card => CardMatchAt(s, i)
    case Ssn => SsnMatchAt(s, i)
  }

  /** RegExp.prototype.test on a fresh pattern: the leftmost start at or after i of some match. */
  function Search(c: Category, s: string, i: nat): (r: Option<nat>)
    requires i <= |s|
    ensures r.Some? ==> i <= r.value < |s| && MatchAt(c, s, r.value).Some?
    ensures r.Some? ==> forall j | i <= j < r.value :: MatchAt(c, s, j).None?
    ensures r.None? ==> forall j | i <= j <= |s| :: MatchAt(c, s, j).None?
    decreases |s| - i
  {
    if i == |s| then None
    else
      var m := MatchAt(c, s, i);
      if m.Some? then Some(i)
      else
        var r := Search(c, s, i + 1);
        assert forall j | i <= j < i + 1 :: MatchAt(c, s, j).None?;
        r
  }

  predicate Test(c: Category, s: string) { Search(c, s, 0).Some? }

  // ----- replacement -----

  const EmailMask: string := "*********@****.***"
  const PhoneMask: string := "**********"
  const CardMask: string := "************"
  const SsnMask: string := "***-**-****"

  /** '*'.repeat(n). */
  function Stars(n: nat): (r: string)
    ensures |r| == n && forall k | 0 <= k < n :: r[k] == '*'
  {
    if n == 0 then "" else Stars(n - 1) + "*"
  }

  /** pat occurs in str at position j. */
  predicate OccursAt(str: string, pat: string, j: nat) {
    j + |pat| <= |str| && str[j..j + |pat|] == pat
  }

  /** str.indexOf(pat, from): the first position at or after from where pat occurs, or -1. */
  function IndexOf(str: string, pat: string, from: nat): (r: int)
    requires from <= |str|
    ensures r == -1 || (from <= r && OccursAt(str, pat, r))
    ensures r == -1 ==> forall j: nat | from <= j :: !OccursAt(str, pat, j)
    ensures r != -1 ==> forall j: nat | from <= j < r :: !OccursAt(str, pat, j)
    decreases |str| - from
  {
    if from + |pat| > |str| then -1
    else if OccursAt(str, pat, from) then from
    else IndexOf(str, pat, from + 1)
  }

  /** str.replace(pat, rep) with a string pattern: only the first occurrence; rep holds no '$'. */
  function ReplaceFirst(str: string, pat: string, rep: string): string {
    var j := IndexOf(str, pat, 0);
    if j < 0 then str else str[..j] + rep + str[j + |pat|..]
  }

  /** The ID callback: match.replace(id, '*'.repeat(id.length)). */
  function IdMask(s: string, i: nat, m: IdMatch): string
    requires i <= m.digits <= m.end <= |s|
  {
    var id := s[m.digits..m.end];
    ReplaceFirst(s[i..m.end], id, Stars(|id|))
  }

  /** What the match s[i..e] of category c is replaced with. */
  function Replacement(c: Category, s: string, i: nat, e: nat): string
    requires i <= |s| && MatchAt(c, s, i) == Some(e)
  {
    match c
    case Id => IdMask(s, i, IdMatchAt(s, i).value)
    case Email => EmailMask
    case Phone => PhoneMask
    case Card => CardMask
    case Ssn => SsnMask
  }

  /** String.prototype.replace with a global pattern, from position i: leftmost, non-overlapping matches. */
  function ReplaceFrom(c: Category, s: string, i: nat): string
    requires i <= |s|
    decreases |s| - i
  {
    if i == |s| then ""
    else match MatchAt(c, s, i)
      case Some(e) => Replacement(c, s, i, e) + ReplaceFrom(c, s, e)
      case None => [s[i]] + ReplaceFrom(c, s, i + 1)
  }

  /** A replace pass with no match from i on copies the rest of the string. */
  lemma {:induction false} NoMatchFixed(c: Category, s: string, i: nat)
    requires i <= |s| && Search(c, s, i).None?
    ensures ReplaceFrom(c, s, i) == s[i..]
    decreases |s| - i
  {
    if i < |s| {
      assert MatchAt(c, s, i).None?;
      assert Search(c, s, i + 1).None?;
      NoMatchFixed(c, s, i + 1);
      assert s[i..] == [s[i]] + s[i + 1..];
    }
  }

  /** One `.replace(pattern, …)` of the chain: a pattern that does not match leaves the text alone. */
  function Pass(c: Category, s: string): (r: string)
    ensures !Test(c, s) ==> r == s
  {
    if !Test(c, s) then NoMatchFixed(c, s, 0); assert s[0..] == s; ReplaceFrom(c, s, 0)
    else ReplaceFrom(c, s, 0)
  }

  /** The flag: every pattern is tested on the original message. */
  predicate ContainsSensitiveData(message: string) {
    Test(Id, message) || Test(Email, message) || Test(Phone, message) || Test(Card, message) || Test(Ssn, message)
  }

  /** The redacted text: the five replacements run in series. */
  function Redacted(message: string): string {
    Pass(Ssn, Pass(Card, Pass(Phone, Pass(Email, Pass(Id, message)))))
  }
}
