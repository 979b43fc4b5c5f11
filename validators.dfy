/** The per-step validators and parsers that both front ends share: email
    shape, phone digit count, years of experience, and the comma-separated
    choice lists for positions and technologies. */
module Validators {
  import opened Wrappers
  import opened Text

  // ---------------------------------------------------------------- email

  /** `[a-zA-Z0-9._%+-]` */
  predicate LocalChar(c: char) {
    IsLetter(c) || IsDigit(c) || c == '.' || c == '_' || c == '%' || c == '+' || c == '-'
  }

  /** `[a-zA-Z0-9.-]` */
  predicate DomainChar(c: char) {
    IsLetter(c) || IsDigit(c) || c == '.' || c == '-'
  }

  predicate AllLocal(s: string) {
    forall i :: 0 <= i < |s| ==> LocalChar(s[i])
  }

  predicate AllDomain(s: string) {
    forall i :: 0 <= i < |s| ==> DomainChar(s[i])
  }

  predicate AllLetters(s: string) {
    forall i :: 0 <= i < |s| ==> IsLetter(s[i])
  }

  /** `s` reads as `L+ '@' D+ '.' A{2,}` with the `@` at `p` and the final dot
      at `q`. */
  ghost predicate EmailShapeAt(s: string, p: int, q: int) {
    && 0 < p && p + 1 < q && q + 3 <= |s|
    && AllLocal(s[..p]) && s[p] == '@'
    && AllDomain(s[p + 1..q]) && s[q] == '.'
    && AllLetters(s[q + 1..])
  }

  /** The whole of `s` matches `[a-zA-Z0-9._%+-]+@[a-zA-Z0-9.-]+\.[a-zA-Z]{2,}`. */
  ghost predicate EmailShape(s: string) {
    exists p, q :: EmailShapeAt(s, p, q)
  }

  /** What `re.match` with that pattern between `^` and `$` accepts: `$` also
      matches just before a final newline. */
  ghost predicate EmailPattern(s: string) {
    EmailShape(s) || (s != [] && s[|s| - 1] == '\n' && EmailShape(s[..|s| - 1]))
  }

  /** Index of the first `c` in `s`, or `|s|` when there is none. */
  function IndexOf(s: string, c: char): (i: nat)
    ensures i <= |s| && c !in s[..i]
    ensures i < |s| ==> s[i] == c
  {
    if s == [] || s[0] == c then 0 else 1 + IndexOf(s[1..], c)
  }

  /** Length of the longest all-letter suffix of `s`. */
  function TrailingLetters(s: string): (n: nat)
    ensures n <= |s| && AllLetters(s[|s| - n..])
    ensures n == |s| || !IsLetter(s[|s| - n - 1])
  {
    if s == [] || !IsLetter(s[|s| - 1]) then 0
    else
      var n := TrailingLetters(s[..|s| - 1]);
      LettersExtend(s, n);
      n + 1
  }

  /** A letter after an all-letter suffix of the rest extends that suffix. */
  lemma LettersExtend(s: string, n: nat)
    requires s != [] && IsLetter(s[|s| - 1]) && n < |s|
    requires AllLetters(s[..|s| - 1][|s| - 1 - n..])
    ensures AllLetters(s[|s| - (n + 1)..])
  {
    var u := s[|s| - (n + 1)..];
    var v := s[..|s| - 1][|s| - 1 - n..];
    forall i | 0 <= i < |u| ensures IsLetter(u[i]) {
      if i < n {
        assert u[i] == v[i];
      }
    }
  }

  /** The part after the `@`: domain characters throughout, ending in a dot
      and at least two letters, with something before that dot. */
  predicate DomainOk(d: string) {
    var m := TrailingLetters(d);
    AllDomain(d) && m >= 2 && m + 2 <= |d| && d[|d| - m - 1] == '.'
  }

  predicate EmailBody(s: string) {
    var p := IndexOf(s, '@');
    0 < p < |s| && AllLocal(s[..p]) && DomainOk(s[p + 1..])
  }

  /** `validate_email`: the email check of both front ends. It accepts
      exactly what the regular expression matches. */
  predicate ValidEmail(s: string): (r: bool)
    ensures r <==> EmailPattern(s)
  {
    EmailBodyCorrect(s);
    EmailBodyCorrectBeforeNewline(s);
    EmailBody(s) || (s != [] && s[|s| - 1] == '\n' && EmailBody(s[..|s| - 1]))
  }

  /** The longest letter suffix is the one that a non-letter bounds. */
  lemma TrailingLettersExact(d: string, k: nat)
    requires k < |d| && AllLetters(d[|d| - k..]) && !IsLetter(d[|d| - k - 1])
    ensures TrailingLetters(d) == k
  {
  }

  /** The first occurrence is the one with none before it. */
  lemma IndexOfExact(s: string, c: char, p: nat)
    requires p < |s| && s[p] == c && c !in s[..p]
    ensures IndexOf(s, c) == p
  {
  }

  lemma EmailBodyToShape(s: string)
    requires EmailBody(s)
    ensures EmailShape(s)
  {
    var p := IndexOf(s, '@');
    var d := s[p + 1..];
    var m := TrailingLetters(d);
    var q := p + 1 + |d| - m - 1;
    assert s[p + 1..q] == d[..|d| - m - 1];
    assert s[q + 1..] == d[|d| - m..];
    assert EmailShapeAt(s, p, q);
  }

  lemma EmailShapeToBody(s: string, p: int, q: int)
    requires EmailShapeAt(s, p, q)
    ensures EmailBody(s)
  {
    assert '@' !in s[..p] by {
      forall i | 0 <= i < p ensures s[..p][i] != '@' {
        assert LocalChar(s[..p][i]);
      }
    }
    IndexOfExact(s, '@', p);
    var d := s[p + 1..];
    var k := |s| - q - 1;
    assert d[|d| - k..] == s[q + 1..];
    TrailingLettersExact(d, k);
    DomainAfterAt(s, p, q);
  }

  lemma DomainAfterAt(s: string, p: int, q: int)
    requires EmailShapeAt(s, p, q)
    ensures AllDomain(s[p + 1..])
  {
    var d := s[p + 1..];
    forall i | 0 <= i < |d| ensures DomainChar(d[i]) {
      if i < q - p - 1 {
        assert d[i] == s[p + 1..q][i];
      } else if i > q - p - 1 {
        assert d[i] == s[q + 1..][i - (q - p)];
      }
    }
  }

  lemma EmailBodyCorrect(s: string)
    ensures EmailBody(s) <==> EmailShape(s)
  {
    if EmailBody(s) {
      EmailBodyToShape(s);
    }
    if EmailShape(s) {
      var p, q :| EmailShapeAt(s, p, q);
      EmailShapeToBody(s, p, q);
    }
  }

  /** The same for the text before a final character. */
  lemma EmailBodyCorrectBeforeNewline(s: string)
    ensures s != [] ==> (EmailBody(s[..|s| - 1]) <==> EmailShape(s[..|s| - 1]))
  {
    if s != [] {
      EmailBodyCorrect(s[..|s| - 1]);
    }
  }

  // ---------------------------------------------------------------- phone

  /** `validate_phone`: at least ten digits once every non-digit is removed,
      that is, at least ten digit characters, wherever they stand. */
  predicate ValidPhone(s: string): (r: bool)
    ensures r <==> |DigitPositions(s)| >= 10
  {
    DigitsCount(s);
    |Digits(s)| >= 10
  }

  /** Separators do not matter to the phone check: dropping a non-digit
      character leaves the verdict unchanged. */
  lemma PhoneIgnoresSeparators(a: string, c: char, b: string)
    requires !IsDigit(c)
    ensures ValidPhone(a + [c] + b) == ValidPhone(a + b)
  {
    DigitsAppend(a + [c], b);
    DigitsAppend(a, [c]);
    DigitsAppend(a, b);
  }

  // ----------------------------------------------------------- experience

  /** The experience buttons and the years each one stands for. */
  const ExperienceBuckets: map<string, nat> :=
    map["0-1 years" := 0, "1-3 years" := 2, "3-5 years" := 4, "5-10 years" := 7, "10+ years" := 12]

  /** The years of experience an answer gives: the exact bucket label's
      value, else the first run of digits, else nothing. */
  function ParseYears(text: string): (r: Option<nat>)
    ensures text in ExperienceBuckets ==> r == Some(ExperienceBuckets[text])
    ensures text !in ExperienceBuckets ==> r == FirstNumber(text)
    ensures r.None? <==> NoDigit(text)
  {
    if text in ExperienceBuckets then
      assert IsDigit(text[0]);
      Some(ExperienceBuckets[text])
    else FirstNumber(text)
  }

  // ------------------------------------------------------------- choices

  const PositionOptions: seq<string> := [
    "Software Engineer", "Frontend Developer", "Backend Developer", "Full Stack Developer",
    "Data Scientist", "Machine Learning Engineer", "DevOps Engineer", "Cloud Engineer",
    "Mobile Developer", "QA Engineer"
  ]

  const TechStackOptions: seq<string> := [
    "Python", "JavaScript", "TypeScript", "Java", "C++", "C#", "Go", "Rust", "Ruby", "PHP",
    "React", "Vue.js", "Angular", "Next.js", "Node.js", "Express.js", "Django", "Flask", "FastAPI", "Spring Boot",
    "PostgreSQL", "MySQL", "MongoDB", "Redis", "Elasticsearch", "SQLite",
    "AWS", "GCP", "Azure", "Docker", "Kubernetes", "Terraform",
    "TensorFlow", "PyTorch", "Scikit-learn", "Pandas", "NumPy",
    "Git", "Linux", "REST APIs", "GraphQL", "CI/CD"
  ]

  /** The minimum lengths (exclusive) of a free-form position and technology. */
  const PositionMinLength: nat := 2
  const TechMinLength: nat := 1

  /** An entry is kept when it is a known option or longer than `minLen`. */
  predicate Keep(item: string, options: seq<string>, minLen: nat) {
    item in options || |item| > minLen
  }

  /** `[p.strip() for p in parts]` */
  function StripAll(parts: seq<string>): (r: seq<string>)
    ensures |r| == |parts|
    ensures forall i :: 0 <= i < |parts| ==> r[i] == Strip(parts[i])
  {
    seq(|parts|, i requires 0 <= i < |parts| => Strip(parts[i]))
  }

  /** `[p for p in items if p in options or len(p) > minLen]` */
  function FilterChoices(items: seq<string>, options: seq<string>, minLen: nat): (r: seq<string>)
    ensures |r| <= |items|
    ensures forall x :: x in r <==> x in items && Keep(x, options, minLen)
  {
    if items == [] then []
    else
      var rest := FilterChoices(items[1..], options, minLen);
      assert forall x :: x in items <==> x == items[0] || x in items[1..];
      if Keep(items[0], options, minLen) then [items[0]] + rest else rest
  }

  /** The trimmed entries are exactly the trimmings of the pieces. */
  lemma StripAllMembers(parts: seq<string>)
    ensures forall x :: x in StripAll(parts) <==> exists p :: p in parts && x == Strip(p)
  {
    var items := StripAll(parts);
    forall x | x in items ensures exists p :: p in parts && x == Strip(p) {
      var i :| 0 <= i < |items| && items[i] == x;
      assert parts[i] in parts;
    }
    forall x | exists p :: p in parts && x == Strip(p) ensures x in items {
      var p :| p in parts && x == Strip(p);
      var i :| 0 <= i < |parts| && parts[i] == p;
      assert items[i] == x;
    }
  }

  /** Filtering keeps the input order: it distributes over concatenation. */
  lemma {:induction false} FilterAppend(a: seq<string>, b: seq<string>, options: seq<string>, minLen: nat)
    ensures FilterChoices(a + b, options, minLen)
         == FilterChoices(a, options, minLen) + FilterChoices(b, options, minLen)
  {
    if a == [] {
      assert a + b == b;
    } else {
      assert (a + b)[0] == a[0] && (a + b)[1..] == a[1..] + b;
      FilterAppend(a[1..], b, options, minLen);
    }
  }

  /** The list the position or tech-stack step stores: the comma-separated
      entries of `text`, trimmed, that pass `Keep`. */
  function ParseChoices(text: string, options: seq<string>, minLen: nat): (r: seq<string>)
    ensures forall x :: x in r ==> Keep(x, options, minLen) && IsStripped(x)
    ensures forall x :: x in r <==>
      Keep(x, options, minLen) && exists p :: p in Split(text, ',') && x == Strip(p)
  {
    var items := StripAll(Split(text, ','));
    StripAllMembers(Split(text, ','));
    FilterChoices(items, options, minLen)
  }

  /** Every listed position is longer than the free-form threshold, so the
      option list never changes the verdict: a position is kept exactly when
      it has more than 2 characters. */
  lemma PositionOptionsAreLong()
    ensures forall x :: Keep(x, PositionOptions, PositionMinLength) <==> |x| > PositionMinLength
  {
    forall i | 0 <= i < |PositionOptions| ensures |PositionOptions[i]| > PositionMinLength { }
  }

  /** Likewise a technology is kept exactly when it has more than 1 character. */
  lemma TechOptionsAreLong()
    ensures forall x :: Keep(x, TechStackOptions, TechMinLength) <==> |x| > TechMinLength
  {
    forall i | 0 <= i < |TechStackOptions| ensures |TechStackOptions[i]| > TechMinLength { }
  }
}
