/** The question side of the Streamlit front end: the answer check, the
    keyword sentiment, the canned question bank and the generator that asks
    the model for one question per technology. */
module AppQuestions {
  import opened Wrappers
  import opened Text

  // ------------------------------------------------------------- answers

  /** The outcome of `validate_answer`; each rejection has its own message. */
  datatype Verdict = Accepted | TooShort | NonAnswer | TooFewWords

  /** The placeholder answers `validate_answer` turns down. */
  const NonAnswers: seq<string> := ["idk", "i don't know", "no idea", "not sure", "na", "n/a", "pass", "skip"]

  /** The shortest answer, in characters once stripped, and the fewest
      whitespace-separated words an accepted answer has. */
  const MinAnswerLength: nat := 10
  const MinAnswerWords: nat := 3

  /** `validate_answer`: the checks run in order on the stripped answer, and
      the first that fails decides. */
  function ValidateAnswer(answer: string): (v: Verdict)
    ensures v == TooShort <==> |Strip(answer)| < MinAnswerLength
    ensures v == Accepted ==> |Strip(answer)| >= MinAnswerLength && |Words(Strip(answer))| >= MinAnswerWords
  {
    Judge(Strip(answer))
  }

  /** The checks of `validate_answer` on the already stripped answer `a`.
      Every placeholder but one is shorter than the length check, so only
      "i don't know", in any case, is refused as a placeholder. */
  function Judge(a: string): (v: Verdict)
    ensures v == TooShort <==> |a| < MinAnswerLength
    ensures v == NonAnswer <==> Lower(a) == "i don't know"
  {
    assert NonAnswers[1] == "i don't know";
    if |a| < MinAnswerLength then TooShort
    else if Lower(a) in NonAnswers then
      LongNonAnswer(Lower(a));
      NonAnswer
    else if |Words(a)| < MinAnswerWords then TooFewWords
    else Accepted
  }

  /** The only placeholder as long as the length check demands. */
  lemma LongNonAnswer(x: string)
    requires x in NonAnswers && |x| >= MinAnswerLength
    ensures x == "i don't know"
  {
  }

  /** Every placeholder but one is shorter than the length check, so only
      "i don't know" (in any case, with any padding) is ever refused as a
      placeholder; "idk" or "not sure" are refused as too short. */
  lemma OnlyIDontKnowIsNonAnswer(answer: string)
    ensures ValidateAnswer(answer) == NonAnswer <==> Lower(Strip(answer)) == "i don't know"
  {
    assert ValidateAnswer(answer) == Judge(Strip(answer));
  }

  /** An accepted answer has at least 3 words and 10 characters, and is not
      a placeholder; every answer with these three properties is accepted. */
  lemma AcceptedExactly(answer: string)
    ensures ValidateAnswer(answer) == Accepted <==>
      var a := Strip(answer);
      |a| >= MinAnswerLength && Lower(a) !in NonAnswers && |Words(a)| >= MinAnswerWords
  {
  }

  /** The check strips first, so padding never changes the verdict. */
  lemma ValidateIgnoresPadding(answer: string)
    ensures ValidateAnswer(Strip(answer)) == ValidateAnswer(answer)
  {
    var a := Strip(answer);
    StripIdempotent(answer);
    assert Strip(a) == a;
  }

  // ----------------------------------------------------------- sentiment

  datatype Sentiment = Positive | Negative | Neutral

  const PositiveWords: seq<string> := ["great", "good", "excellent", "love", "excited", "happy", "awesome"]
  const NegativeWords: seq<string> := ["bad", "terrible", "hate", "difficult", "hard", "frustrated", "poor"]

  /** The positions of the keywords that occur in `text`. */
  function Occurring(text: string, words: seq<string>): set<nat> {
    set j: nat | j < |words| && Contains(text, words[j])
  }

  /** `sum(1 for word in words if word in text)`: the number of keyword
      positions whose keyword occurs in the text. */
  function CountContained(text: string, words: seq<string>): (n: nat)
    ensures n == |Occurring(text, words)|
    ensures n <= |words|
    ensures n == 0 <==> !ContainsAny(text, words)
    decreases |words|
  {
    if words == [] then
      assert Occurring(text, words) == {};
      0
    else
      var init := words[..|words| - 1];
      var last := words[|words| - 1];
      OccurringSnoc(text, words);
      ContainsAnySnoc(text, words);
      CountContained(text, init) + (if Contains(text, last) then 1 else 0)
  }

  /** The keyword positions of `words` are those of all but its last
      keyword, plus the last position when that keyword occurs. */
  lemma OccurringSnoc(text: string, words: seq<string>)
    requires words != []
    ensures var n := |words| - 1;
      Occurring(text, words) == Occurring(text, words[..n]) + (if Contains(text, words[n]) then {n} else {})
  {
    var n := |words| - 1;
    var init := words[..n];
    forall j: nat | j < n ensures (j in Occurring(text, words)) == (j in Occurring(text, init)) {
      assert init[j] == words[j];
    }
  }

  /** `analyze_sentiment`: positive when more positive than negative
      keywords occur in the lowercased text, negative when fewer, neutral
      when as many. So a positive verdict needs a positive keyword, a
      negative one a negative keyword, a text with keywords of one kind only
      leans that way, and a text with neither kind is neutral. */
  function AnalyzeSentiment(text: string): (r: Sentiment)
    ensures r == Positive <==> |Occurring(Lower(text), PositiveWords)| > |Occurring(Lower(text), NegativeWords)|
    ensures r == Negative <==> |Occurring(Lower(text), NegativeWords)| > |Occurring(Lower(text), PositiveWords)|
    ensures r == Positive ==> ContainsAny(Lower(text), PositiveWords)
    ensures r == Negative ==> ContainsAny(Lower(text), NegativeWords)
    ensures ContainsAny(Lower(text), PositiveWords) && !ContainsAny(Lower(text), NegativeWords) ==> r == Positive
    ensures ContainsAny(Lower(text), NegativeWords) && !ContainsAny(Lower(text), PositiveWords) ==> r == Negative
    ensures !ContainsAny(Lower(text), PositiveWords) && !ContainsAny(Lower(text), NegativeWords) ==> r == Neutral
  {
    var t := Lower(text);
    var positive := CountContained(t, PositiveWords);
    var negative := CountContained(t, NegativeWords);
    if positive > negative then Positive
    else if negative > positive then Negative
    else Neutral
  }

  /** The sentiment ignores letter case. */
  lemma SentimentIgnoresCase(text: string)
    ensures AnalyzeSentiment(Lower(text)) == AnalyzeSentiment(text)
  {
    LowerIdempotent(text);
  }

  lemma LowerIdempotent(s: string)
    ensures Lower(Lower(s)) == Lower(s)
  {
    assert forall i :: 0 <= i < |s| ==> LowerChar(LowerChar(s[i])) == LowerChar(s[i]);
  }

  // ------------------------------------------------------- question bank

  /** A question as the Streamlit front end stores it: its text, the
      technology it is about, and the number shown with it. */
  datatype AppQuestion = AppQuestion(question: string, tech: string, number: nat)

  /** `tech_questions_map`. The literal names "Python" twice; as in the
      dictionary literal it models, the later entry is the one kept. */
  const AppBank: map<string, seq<string>> := map[
    "Python" := [
      "Explain the difference between a list and a tuple in Python. When would you use each?",
      "What are Python decorators and how would you implement one for timing function execution?"],
    "JavaScript" := [
      "Explain how closures work in JavaScript and provide a practical use case.",
      "What is the difference between '==' and '===' in JavaScript? Provide examples."],
    "React" := [
      "Explain the useEffect hook and when you would use its cleanup function.",
      "How does React's virtual DOM improve performance compared to direct DOM manipulation?"],
    "Node.js" := [
      "How does the event loop work in Node.js? Why is it important?",
      "Explain the difference between process.nextTick() and setImmediate()."],
    "Python" := [
      "What are list comprehensions in Python and when should you use them?",
      "Explain the Global Interpreter Lock (GIL) and its implications."],
    "SQL" := [
      "Explain the difference between INNER JOIN and LEFT JOIN with examples.",
      "How would you optimize a slow-running SQL query?"],
    "MongoDB" := [
      "When would you choose MongoDB over a relational database?",
      "Explain indexing in MongoDB and why it's important for performance."],
    "Docker" := [
      "What is the difference between a Docker image and a container?",
      "How would you optimize a Dockerfile for production deployment?"],
    "AWS" := [
      "Explain the difference between EC2 and Lambda. When would you use each?",
      "How would you design a highly available application architecture on AWS?"]
  ]

  /** `generic_questions`; all of them are about "General". */
  const GenericTexts: seq<string> := [
    "Describe a challenging technical problem you solved recently and your approach.",
    "How do you approach debugging a complex issue in a production environment?",
    "Explain how you would design a scalable REST API from scratch.",
    "What testing strategies do you implement in your development workflow?"
  ]

  const FallbackSize: nat := 4

  /** Python resolves to the list-comprehension question of the second entry. */
  lemma PythonUsesLaterEntry()
    ensures "Python" in AppBank
    ensures AppBank["Python"][0] == "What are list comprehensions in Python and when should you use them?"
  {
  }

  /** Every technology of the bank has a first canned question. */
  lemma BankHasFirst(tech: string)
    requires tech in AppBank
    ensures |AppBank[tech]| >= 1
  {
  }

  predicate FromBank(q: AppQuestion) {
    q.tech in AppBank && |AppBank[q.tech]| >= 1 && q.question == AppBank[q.tech][0]
  }

  /** The questions the first loop of `get_fallback_questions` appends for
      `techs`: the first canned question of each banked technology, in
      order, numbered from 1. */
  function Hits(techs: seq<string>): (r: seq<AppQuestion>)
    ensures |r| <= |techs|
    ensures forall i :: 0 <= i < |r| ==> r[i].number == i + 1 && FromBank(r[i]) && r[i].tech in techs
    decreases |techs|
  {
    if techs == [] then []
    else
      var init := Hits(techs[..|techs| - 1]);
      var tech := techs[|techs| - 1];
      if tech in AppBank then
        BankHasFirst(tech);
        init + [AppQuestion(AppBank[tech][0], tech, |init| + 1)]
      else init
  }

  /** The questions and technologies of `qs`, without their numbers. */
  function Unnumbered(qs: seq<AppQuestion>): (r: seq<(string, string)>)
    ensures |r| == |qs|
    ensures forall i :: 0 <= i < |qs| ==> r[i] == (qs[i].question, qs[i].tech)
  {
    seq(|qs|, i requires 0 <= i < |qs| => (qs[i].question, qs[i].tech))
  }

  lemma UnnumberedAppend(a: seq<AppQuestion>, b: seq<AppQuestion>)
    ensures Unnumbered(a + b) == Unnumbered(a) + Unnumbered(b)
  {
  }

  /** Numbers aside, each technology contributes its own hit, in input
      order: the hits of a concatenation are those of the first part, then
      those of the second. */
  lemma {:induction false} HitsAppend(a: seq<string>, b: seq<string>)
    ensures Unnumbered(Hits(a + b)) == Unnumbered(Hits(a)) + Unnumbered(Hits(b))
    decreases |b|
  {
    if b == [] {
      assert a + b == a;
    } else {
      var n := |b| - 1;
      HitsAppend(a, b[..n]);
      HitsSnoc(a + b[..n], b[n]);
      HitsSnoc(b[..n], b[n]);
      SnocSplit(a, b);
      Assoc(Unnumbered(Hits(a)), Unnumbered(Hits(b[..n])), Unnumbered(Hits([b[n]])));
    }
  }

  lemma HitsSnoc(t: seq<string>, x: string)
    ensures Unnumbered(Hits(t + [x])) == Unnumbered(Hits(t)) + Unnumbered(Hits([x]))
  {
    assert (t + [x])[..|t|] == t;
    HitsOne(x);
    if x in AppBank {
      var q := AppQuestion(AppBank[x][0], x, |Hits(t)| + 1);
      UnnumberedAppend(Hits(t), [q]);
      assert Unnumbered([q]) == Unnumbered(Hits([x]));
    } else {
      assert Unnumbered(Hits(t)) + [] == Unnumbered(Hits(t));
    }
  }

  /** One technology gives its first canned question, numbered 1, when the
      bank knows it, and nothing otherwise. */
  lemma HitsOne(tech: string)
    ensures Hits([tech]) == if tech in AppBank then [AppQuestion(AppBank[tech][0], tech, 1)] else []
  {
    assert [tech][..0] == [];
  }

  /** The generic question the padding loop appends when the list has `k`
      entries. */
  function GenericAt(k: nat): AppQuestion {
    AppQuestion(GenericTexts[k % |GenericTexts|], "General", k + 1)
  }

  /** The padding loop of `get_fallback_questions`. */
  function Pad(qs: seq<AppQuestion>): (r: seq<AppQuestion>)
    ensures |qs| <= FallbackSize ==> |r| == FallbackSize
    ensures |qs| > FallbackSize ==> r == qs
    ensures |qs| <= |r| && r[..|qs|] == qs
    ensures forall i :: |qs| <= i < |r| ==> r[i] == GenericAt(i)
    decreases FallbackSize - |qs|
  {
    if |qs| >= FallbackSize then qs
    else
      var r := Pad(qs + [GenericAt(|qs|)]);
      assert r[..|qs|] == (qs + [GenericAt(|qs|)])[..|qs|];
      r
  }

  /** `get_fallback_questions` */
  function Fallback(techStack: seq<string>): (r: seq<AppQuestion>) {
    Take(Pad(Hits(Take(techStack, FallbackSize))), FallbackSize)
  }

  /** At most four technologies give at most four hits, so the final slice
      of `get_fallback_questions` keeps everything the padding made. */
  lemma FallbackIsPadded(techStack: seq<string>)
    ensures Fallback(techStack) == Pad(Hits(Take(techStack, FallbackSize)))
    ensures |Fallback(techStack)| == FallbackSize
  {
  }

  /** Four questions numbered 1 to 4: first the canned question of each
      banked technology among the first four, in order, then generic ones. */
  lemma FallbackShape(techStack: seq<string>)
    ensures var r := Fallback(techStack); var hits := Hits(Take(techStack, FallbackSize));
      && |r| == FallbackSize
      && r[..|hits|] == hits
      && (forall i :: 0 <= i < |r| ==> r[i].number == i + 1)
      && (forall i :: 0 <= i < |hits| ==> FromBank(r[i]) && r[i].tech in techStack)
      && (forall i :: |hits| <= i < |r| ==> r[i].tech == "General" && r[i].question == GenericTexts[i])
  {
    var first := Take(techStack, FallbackSize);
    var hits := Hits(first);
    FallbackIsPadded(techStack);
    PadShape(hits);
    forall i | 0 <= i < |hits| ensures hits[i].tech in techStack {
      assert hits[i].tech in first;
    }
  }

  /** Padding numbered questions with generic ones keeps the numbering, and
      the generic question in slot `i` is the `i`-th generic text. */
  lemma PadShape(hits: seq<AppQuestion>)
    requires |hits| <= FallbackSize
    requires forall i :: 0 <= i < |hits| ==> hits[i].number == i + 1
    ensures var r := Pad(hits);
      && (forall i :: 0 <= i < |r| ==> r[i].number == i + 1)
      && (forall i :: 0 <= i < |hits| ==> r[i] == hits[i])
      && (forall i :: |hits| <= i < |r| ==> r[i].tech == "General" && r[i].question == GenericTexts[i])
  {
    var r := Pad(hits);
    forall i | 0 <= i < |hits| ensures r[i] == hits[i] {
      assert r[..|hits|][i] == r[i];
    }
    forall i | |hits| <= i < |r| ensures r[i] == AppQuestion(GenericTexts[i], "General", i + 1) {
      assert r[i] == GenericAt(i);
    }
  }

  /** The first question of the fallback for the one technology `tech`:
      its canned question when the bank has it, else the first generic one,
      numbered 1 either way. */
  function SoloFallback(tech: string): AppQuestion {
    if tech in AppBank then
      BankHasFirst(tech);
      AppQuestion(AppBank[tech][0], tech, 1)
    else AppQuestion(GenericTexts[0], "General", 1)
  }

  /** The fallback for a one-technology list starts with that technology's
      canned question when the bank has it, and with the first generic
      question otherwise; either way it is numbered 1. */
  lemma FallbackOfOne(tech: string)
    ensures var q := Fallback([tech])[0];
      && q == SoloFallback(tech)
      && q.number == 1
      && (tech in AppBank ==> q == AppQuestion(AppBank[tech][0], tech, 1))
      && (tech !in AppBank ==> q == AppQuestion(GenericTexts[0], "General", 1))
  {
    assert Take([tech], FallbackSize) == [tech];
    assert [tech][..0] == [];
    FallbackShape([tech]);
  }

  /** `get_fallback_questions` as the front end runs it. */
  method FallbackQuestions(techStack: seq<string>) returns (questions: seq<AppQuestion>)
    ensures questions == Fallback(techStack)
  {
    var first := Take(techStack, FallbackSize);
    questions := CannedQuestions(first);
    questions := PadQuestions(questions);
    questions := Take(questions, FallbackSize);
  }

  /** The first loop of `get_fallback_questions`. */
  method CannedQuestions(first: seq<string>) returns (questions: seq<AppQuestion>)
    ensures questions == Hits(first)
  {
    questions := [];
    for i := 0 to |first|
      invariant questions == Hits(first[..i])
    {
      assert first[..i + 1][..i] == first[..i];
      var tech := first[i];
      if tech in AppBank {
        questions := questions + [AppQuestion(AppBank[tech][0], tech, |questions| + 1)];
      }
    }
    assert first[..|first|] == first;
  }

  /** The padding loop of `get_fallback_questions`. */
  method PadQuestions(hits: seq<AppQuestion>) returns (questions: seq<AppQuestion>)
    ensures questions == Pad(hits)
  {
    questions := hits;
    while |questions| < FallbackSize
      invariant Pad(questions) == Pad(hits)
      decreases FallbackSize - |questions|
    {
      var generic := GenericTexts[|questions| % |GenericTexts|];
      questions := questions + [AppQuestion(generic, "General", |questions| + 1)];
    }
  }

  // ----------------------------------------------------------- generation

  /** Length of the run of whitespace that starts `t`. */
  function SpaceRun(t: string): (n: nat)
    ensures n <= |t| && AllSpace(t[..n])
    ensures n == |t| || !IsSpace(t[n])
  {
    |t| - |TrimStart(t)|
  }

  /** Whether `t` starts with "question" in any case. */
  predicate StartsWithQuestion(t: string) {
    |t| >= 8 && Lower(t[..8]) == "question"
  }

  /** Whether `t` starts with `Q` or `q` and a digit. */
  predicate StartsWithQNumber(t: string) {
    |t| >= 2 && (t[0] == 'Q' || t[0] == 'q') && IsDigit(t[1])
  }

  /** `[:\.]?` */
  function Punctuation(t: string): (n: nat)
    ensures n <= |t|
  {
    if t != [] && (t[0] == ':' || t[0] == '.') then 1 else 0
  }

  /** The end of an optional colon or period and the whitespace after it,
      from `i` on. */
  function Tail(t: string, i: nat): (n: nat)
    requires i <= |t|
    ensures i <= n <= |t|
    ensures n == |t| || !IsSpace(t[n])
  {
    var b := i + Punctuation(t[i..]);
    var n := b + SpaceRun(t[b..]);
    assert n == |t| || t[n] == t[b..][SpaceRun(t[b..])];
    n
  }

  /** Length of the prefix `re.sub(r'^(Q\d+[:\.]?\s*|Question\s*\d*[:\.]?\s*)',
      '', t, flags=re.IGNORECASE)` removes: `Q` and digits, or the word
      "question" and optional digits, each followed by an optional colon or
      period and whitespace. */
  function QuestionPrefix(t: string): (n: nat)
    ensures n <= |t|
    ensures n == 0 <==> !StartsWithQNumber(t) && !StartsWithQuestion(t)
    ensures n == 0 || n == |t| || !IsSpace(t[n])
  {
    if StartsWithQNumber(t) then
      Tail(t, 1 + LeadingDigits(t[1..]))
    else if StartsWithQuestion(t) then
      var a := 8 + SpaceRun(t[8..]);
      Tail(t, a + LeadingDigits(t[a..]))
    else 0
  }

  /** The clean-up of a generated question: it removes only a prefix, removes
      nothing from a text that starts neither with Q and a digit nor with
      "question", and, when it does remove something, leaves no leading
      whitespace. */
  function CleanQuestion(t: string): (r: string)
    ensures |r| <= |t| && r == t[|t| - |r|..]
    ensures !StartsWithQNumber(t) && !StartsWithQuestion(t) ==> r == t
    ensures StartsWithQNumber(t) || StartsWithQuestion(t) ==> |r| < |t| && (r == [] || !IsSpace(r[0]))
  {
    t[QuestionPrefix(t)..]
  }

  /** One space before a non-space ends a whitespace run of length one. */
  lemma OneSpace(t: string, k: nat)
    requires k < |t| && t[k] == ' ' && (k + 1 == |t| || !IsSpace(t[k + 1]))
    ensures SpaceRun(t[k..]) == 1
  {
    assert t[k..][1..] == t[k + 1..];
  }

  /** After a label's number, one colon or period and one space end the
      label when the question itself does not start with whitespace. */
  lemma TailOfLabel(t: string, i: nat, q: string)
    requires i + 2 <= |t| && (t[i] == ':' || t[i] == '.') && t[i + 1] == ' ' && t[i + 2..] == q
    requires q == [] || !IsSpace(q[0])
    ensures Tail(t, i) == i + 2
  {
    assert Punctuation(t[i..]) == 1;
    OneSpace(t, i + 1);
  }

  /** `"Q<n>: " + q` is a `Q`-and-digits label whose digits end at the colon. */
  lemma QLabelShape(ds: string, q: string)
    requires ds != [] && AllDigits(ds)
    ensures var t := "Q" + ds + ": " + q;
      && StartsWithQNumber(t) && LeadingDigits(t[1..]) == |ds|
      && t[1 + |ds|] == ':' && t[2 + |ds|] == ' ' && t[3 + |ds|..] == q
  {
    var t := "Q" + ds + ": " + q;
    assert t[1..] == ds + (": " + q);
    LeadingDigitsOf(ds, ": " + q);
  }

  /** Cleaning removes exactly a `Q<n>: ` label. */
  lemma QLabelRemoved(n: nat, q: string)
    requires q == [] || !IsSpace(q[0])
    ensures CleanQuestion("Q" + NatToDecimal(n) + ": " + q) == q
  {
    var ds := NatToDecimal(n);
    var t := "Q" + ds + ": " + q;
    QLabelShape(ds, q);
    TailOfLabel(t, 1 + |ds|, q);
    assert QuestionPrefix(t) == 3 + |ds|;
  }

  /** `"Question <n>. " + q` starts with the word, one space, and digits that
      end at the period. */
  lemma QuestionLabelShape(ds: string, q: string)
    requires ds != [] && AllDigits(ds)
    ensures var t := "Question " + ds + ". " + q;
      && !StartsWithQNumber(t) && StartsWithQuestion(t)
      && SpaceRun(t[8..]) == 1 && LeadingDigits(t[9..]) == |ds|
      && t[9 + |ds|] == '.' && t[10 + |ds|] == ' ' && t[11 + |ds|..] == q
  {
    var t := "Question " + ds + ". " + q;
    assert t[1] == 'u';
    assert t[..8] == "Question";
    QuestionLowered();
    OneSpace(t, 8);
    assert t[9..] == ds + (". " + q);
    LeadingDigitsOf(ds, ". " + q);
  }

  lemma QuestionLowered()
    ensures Lower("Question") == "question"
  {
  }

  /** Cleaning removes exactly a `Question <n>. ` label. */
  lemma QuestionLabelRemoved(n: nat, q: string)
    requires q == [] || !IsSpace(q[0])
    ensures CleanQuestion("Question " + NatToDecimal(n) + ". " + q) == q
  {
    var ds := NatToDecimal(n);
    var t := "Question " + ds + ". " + q;
    QuestionLabelShape(ds, q);
    TailOfLabel(t, 9 + |ds|, q);
    assert QuestionPrefix(t) == 11 + |ds|;
  }

  /** The reply for the `i`-th call, `None` when that call raised. */
  function ReplyAt(replies: seq<Option<string>>, i: nat): Option<string> {
    if i < |replies| then replies[i] else None
  }

  /** One turn of the per-technology loop: the stripped and cleaned reply,
      numbered by position, or, when the call raised, the first fallback
      question for that technology alone. */
  function TechQuestion(tech: string, i: nat, reply: Option<string>): AppQuestion {
    match reply
    case Some(text) => AppQuestion(CleanQuestion(Strip(text)), tech, i + 1)
    case None => SoloFallback(tech)
  }

  /** One turn of the loop for each technology of `techs`, in order; the
      turn for the `i`-th technology is `ask(techs[i], i)`. */
  function Asked(techs: seq<string>, ask: (string, nat) -> AppQuestion): (r: seq<AppQuestion>)
    ensures |r| == |techs|
    decreases |techs|
  {
    if techs == [] then []
    else
      var i := |techs| - 1;
      Asked(techs[..i], ask) + [ask(techs[i], i)]
  }

  lemma {:induction false} AskedAt(techs: seq<string>, ask: (string, nat) -> AppQuestion, i: nat)
    requires i < |techs|
    ensures Asked(techs, ask)[i] == ask(techs[i], i)
    decreases |techs|
  {
    var n := |techs| - 1;
    if i < n {
      AskedAt(techs[..n], ask, i);
    }
  }

  lemma AskedSnoc(techs: seq<string>, ask: (string, nat) -> AppQuestion, i: nat)
    requires i < |techs|
    ensures Asked(techs[..i + 1], ask) == Asked(techs[..i], ask) + [ask(techs[i], i)]
  {
    assert techs[..i + 1][..i] == techs[..i];
  }

  /** The turn the loop takes for the `i`-th technology, given the replies. */
  function Asker(replies: seq<Option<string>>): (string, nat) -> AppQuestion {
    (tech: string, i: nat) => TechQuestion(tech, i, ReplyAt(replies, i))
  }

  /** The loop over the first four technologies. */
  function PerTech(techStack: seq<string>, replies: seq<Option<string>>): (r: seq<AppQuestion>)
    ensures |r| == |Take(techStack, FallbackSize)|
  {
    Asked(Take(techStack, FallbackSize), Asker(replies))
  }

  /** `generate_technical_questions`. `configured` says whether the API key
      is set and the model could be set up; `replies[i]` is what the call for
      the `i`-th technology returned, `None` when it raised. */
  function Generate(techStack: seq<string>, configured: bool, replies: seq<Option<string>>): seq<AppQuestion> {
    if !configured then Fallback(techStack)
    else
      var questions := PerTech(techStack, replies);
      if |questions| < 3 then Fallback(techStack) else questions
  }

  /** With the model set up, the loop yields exactly one question per
      technology among the first four, whether or not its call succeeded; so
      the generator returns 3 or 4 questions, and the fallback only for
      fewer than three technologies. */
  lemma GenerateCount(techStack: seq<string>, configured: bool, replies: seq<Option<string>>)
    ensures |PerTech(techStack, replies)| == (if |techStack| < FallbackSize then |techStack| else FallbackSize)
    ensures 3 <= |Generate(techStack, configured, replies)| <= FallbackSize
    ensures configured && |techStack| >= 3 ==> Generate(techStack, configured, replies) == PerTech(techStack, replies)
  {
    FallbackShape(techStack);
  }

  /** A call that succeeded gives the cleaned reply, numbered by position; a
      call that raised gives a question numbered 1, whatever its position. */
  lemma PerTechEntry(techStack: seq<string>, replies: seq<Option<string>>, i: nat)
    requires i < |techStack| && i < FallbackSize
    ensures var q := PerTech(techStack, replies)[i];
      && (ReplyAt(replies, i).Some? ==>
            q == AppQuestion(CleanQuestion(Strip(ReplyAt(replies, i).value)), techStack[i], i + 1))
      && (ReplyAt(replies, i).None? ==> q.number == 1 && q == Fallback([techStack[i]])[0])
  {
    AskedAt(Take(techStack, FallbackSize), Asker(replies), i);
    FallbackOfOne(techStack[i]);
  }

  /** One turn of the per-technology loop as the front end runs it. */
  method AskAbout(tech: string, i: nat, reply: Option<string>) returns (question: AppQuestion)
    ensures question == TechQuestion(tech, i, reply)
  {
    if reply.Some? {
      var text := CleanQuestion(Strip(reply.value));
      question := AppQuestion(text, tech, i + 1);
    } else {
      var fallback := FallbackQuestions([tech]);
      FallbackOfOne(tech);
      question := fallback[0];
    }
  }

  /** `generate_technical_questions` as the front end runs it. */
  method GenerateQuestions(techStack: seq<string>, configured: bool, replies: seq<Option<string>>)
    returns (questions: seq<AppQuestion>)
    ensures questions == Generate(techStack, configured, replies)
  {
    if !configured {
      questions := FallbackQuestions(techStack);
      return;
    }
    questions := PerTechQuestions(techStack, replies);
    if |questions| < 3 {
      questions := FallbackQuestions(techStack);
    }
  }

  /** The per-technology loop of `generate_technical_questions`. */
  method PerTechQuestions(techStack: seq<string>, replies: seq<Option<string>>) returns (questions: seq<AppQuestion>)
    ensures questions == PerTech(techStack, replies)
  {
    var first := Take(techStack, FallbackSize);
    questions := [];
    for i := 0 to |first|
      invariant questions == Asked(first[..i], Asker(replies))
    {
      var question := AskAbout(first[i], i, ReplyAt(replies, i));
      AskedSnoc(first, Asker(replies), i);
      questions := questions + [question];
    }
    assert first[..|first|] == first;
  }
}
