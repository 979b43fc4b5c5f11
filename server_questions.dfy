/** Question generation of the FastAPI back end: one batched model call
    whose numbered-list answer is parsed into questions, with the static
    question bank as fallback. The model call itself is an input: `None`
    when the key is missing or the call raises, `Some(text)` otherwise. */
module ServerQuestions {
  import opened Wrappers
  import opened Text
  import opened Conversation

  /** One entry of `questions_asked`: the question, the technology it is
      about, and the candidate's answer once given. */
  datatype Question = Question(question: string, tech: string, answer: Option<string>)

  // ------------------------------------------------ parsing the model answer

  /** `[\d\.\-\)\*]` */
  predicate IsMarkerChar(c: char) {
    IsDigit(c) || c == '.' || c == '-' || c == ')' || c == '*'
  }

  /** A line that opens a new question: it starts with a digit or a dash. */
  predicate IsMarkerLine(line: string) {
    line != [] && (IsDigit(line[0]) || line[0] == '-')
  }

  /** Length of the longest prefix of list-marker characters. */
  function MarkerPrefix(s: string): (n: nat)
    ensures n <= |s|
    ensures forall i :: 0 <= i < n ==> IsMarkerChar(s[i])
    ensures n == |s| || !IsMarkerChar(s[n])
  {
    if s == [] || !IsMarkerChar(s[0]) then 0 else 1 + MarkerPrefix(s[1..])
  }

  /** `re.sub(r'^[\d\.\-\)\*]+\s*', '', line)` */
  function StripMarker(line: string): string {
    var n := MarkerPrefix(line);
    if n == 0 then line else TrimStart(line[n..])
  }

  /** Where the parsing loop stands: the question being accumulated and the
      questions emitted so far. */
  datatype ParseState = ParseState(current: string, questions: seq<string>)

  /** The accumulated question is emitted, stripped, when non-empty. */
  function Flush(st: ParseState): seq<string> {
    if st.current != [] then st.questions + [Strip(st.current)] else st.questions
  }

  /** One turn of the parsing loop, on the stripped `line`: a marker line
      emits the question so far and starts the next one; another non-empty
      line continues the current question, if there is one. */
  function Feed(st: ParseState, line: string): ParseState {
    if IsMarkerLine(line) then ParseState(StripMarker(line), Flush(st))
    else if line != [] && st.current != [] then ParseState(st.current + " " + line, st.questions)
    else st
  }

  /** The parsing loop over the remaining `lines`. */
  function ParseLines(lines: seq<string>, st: ParseState): seq<string>
    decreases |lines|
  {
    if lines == [] then Flush(st) else ParseLines(lines[1..], Feed(st, Strip(lines[0])))
  }

  lemma AppendHead<T>(a: seq<T>, s: seq<T>)
    requires s != []
    ensures a + [s[0]] + s[1..] == a + s
  {
    assert [s[0]] + s[1..] == s;
  }

  lemma ParseLinesStep(lines: seq<string>, st: ParseState, next: ParseState, rest: seq<string>)
    requires lines != [] && Feed(st, Strip(lines[0])) == next && ParseLines(lines[1..], next) == rest
    ensures ParseLines(lines, st) == rest
  {
  }

  lemma ParseLinesNext(lines: seq<string>, i: nat, st: ParseState)
    requires i < |lines|
    ensures ParseLines(lines[i..], st) == ParseLines(lines[i + 1..], Feed(st, Strip(lines[i])))
  {
    assert lines[i..][1..] == lines[i + 1..];
  }

  const Start := ParseState([], [])

  /** The questions parsed out of the model's answer. */
  function ParseResponse(response: string): (qs: seq<string>)
    ensures forall i :: 0 <= i < |qs| ==> qs[i] != [] && IsStripped(qs[i])
  {
    ParseLinesOk(Split(Strip(response), '\n'), Start);
    ParseLines(Split(Strip(response), '\n'), Start)
  }

  /** The parsing loop as the back end runs it. */
  method ParseQuestions(response: string) returns (questions: seq<string>)
    ensures questions == ParseResponse(response)
  {
    var lines := Split(Strip(response), '\n');
    questions := [];
    var current: string := [];
    var i := 0;
    while i < |lines|
      invariant 0 <= i <= |lines|
      invariant ParseLines(lines[i..], ParseState(current, questions)) == ParseResponse(response)
    {
      var line := Strip(lines[i]);
      ghost var next := Feed(ParseState(current, questions), line);
      ParseLinesNext(lines, i, ParseState(current, questions));
      if line != [] && (IsDigit(line[0]) || line[0] == '-') {
        if current != [] {
          questions := questions + [Strip(current)];
        }
        current := StripMarker(line);
      } else if line != [] && current != [] {
        current := current + " " + line;
      }
      assert ParseState(current, questions) == next;
      i := i + 1;
    }
    if current != [] {
      questions := questions + [Strip(current)];
    }
  }

  /** What the loop keeps: the question under construction is empty or free
      of whitespace at both ends, and every emitted one is non-empty and free
      of whitespace at both ends. */
  predicate StateOk(st: ParseState) {
    && (st.current == [] || IsStripped(st.current))
    && forall i :: 0 <= i < |st.questions| ==> st.questions[i] != [] && IsStripped(st.questions[i])
  }

  lemma StripMarkerOk(line: string)
    requires IsStripped(line)
    ensures var r := StripMarker(line); r == [] || IsStripped(r)
  {
    var n := MarkerPrefix(line);
    if n > 0 {
      var r := TrimStart(line[n..]);
      if r != [] {
        assert r[|r| - 1] == line[|line| - 1];
      }
    }
  }

  lemma FlushOk(st: ParseState)
    requires StateOk(st)
    ensures StateOk(ParseState([], Flush(st)))
  {
    if st.current != [] {
      StripOfStripped(st.current);
    }
  }

  lemma FeedOk(st: ParseState, line: string)
    requires StateOk(st) && IsStripped(line)
    ensures StateOk(Feed(st, line))
  {
    if IsMarkerLine(line) {
      FlushOk(st);
      StripMarkerOk(line);
      assert Feed(st, line) == ParseState(StripMarker(line), Flush(st));
    } else if line != [] && st.current != [] {
      var next := st.current + " " + line;
      assert next[0] == st.current[0] && next[|next| - 1] == line[|line| - 1];
      assert Feed(st, line) == ParseState(next, st.questions);
    } else {
      assert Feed(st, line) == st;
    }
  }

  lemma {:induction false} ParseLinesOk(lines: seq<string>, st: ParseState)
    requires StateOk(st)
    ensures StateOk(ParseState([], ParseLines(lines, st)))
    decreases |lines|
  {
    if lines == [] {
      FlushOk(st);
    } else {
      FeedOk(st, Strip(lines[0]));
      ParseLinesOk(lines[1..], Feed(st, Strip(lines[0])));
    }
  }

  /** Every parsed question is non-empty and has no whitespace at either end. */
  /** Lines before the first list marker are dropped: text that comes before
      the first question cannot become part of any question. */
  lemma {:induction false} PreambleDropped(preamble: seq<string>, rest: seq<string>, questions: seq<string>)
    requires forall i :: 0 <= i < |preamble| ==> !IsMarkerLine(Strip(preamble[i]))
    ensures ParseLines(preamble + rest, ParseState([], questions)) == ParseLines(rest, ParseState([], questions))
  {
    if preamble == [] {
      assert preamble + rest == rest;
    } else {
      var all := preamble + rest;
      assert all[0] == preamble[0] && all[1..] == preamble[1..] + rest;
      assert Feed(ParseState([], questions), Strip(preamble[0])) == ParseState([], questions);
      PreambleDropped(preamble[1..], rest, questions);
    }
  }

  // -------------------------------------- round trip with a numbered list

  /** A question that survives being written as one numbered-list line. */
  predicate Listable(q: string) {
    q != [] && IsStripped(q) && '\n' !in q && !IsMarkerChar(q[0])
  }

  /** The lines `"<n>. <q>"`, numbered from `n`. */
  function NumberedLines(questions: seq<string>, n: nat): (lines: seq<string>)
    ensures |lines| == |questions|
  {
    if questions == [] then []
    else [NatToDecimal(n) + ". " + questions[0]] + NumberedLines(questions[1..], n + 1)
  }

  /** The answer a model gives when it follows the prompt: a numbered list. */
  function NumberedList(questions: seq<string>): string {
    Join(NumberedLines(questions, 1), "\n")
  }

  lemma {:induction false} MarkerPrefixOfNumber(ds: string, q: string)
    requires AllDigits(ds) && Listable(q)
    ensures MarkerPrefix(ds + ". " + q) == |ds| + 1
    decreases |ds|
  {
    var line := ds + ". " + q;
    if ds == [] {
      var rest := " " + q;
      assert line[0] == '.' && line[1..] == rest;
      assert MarkerPrefix(rest) == 0;
    } else {
      assert line[0] == ds[0] && line[1..] == ds[1..] + ". " + q;
      MarkerPrefixOfNumber(ds[1..], q);
    }
  }

  lemma NumberedLineShape(ds: string, q: string)
    requires ds != [] && AllDigits(ds) && Listable(q)
    ensures var line := ds + ". " + q;
      IsStripped(line) && IsMarkerLine(line) && '\n' !in line
  {
    var line := ds + ". " + q;
    assert line[|line| - 1] == q[|q| - 1];
    assert line[0] == ds[0];
    forall i | 0 <= i < |line| ensures line[i] != '\n' {
      if i >= |ds| + 2 { assert line[i] == q[i - |ds| - 2]; }
    }
  }

  lemma NumberedLineMarker(ds: string, q: string)
    requires AllDigits(ds) && Listable(q)
    ensures StripMarker(ds + ". " + q) == q
  {
    var line := ds + ". " + q;
    MarkerPrefixOfNumber(ds, q);
    assert line[|ds| + 1..] == " " + q;
    assert TrimStart(" " + q) == TrimStart(q);
  }

  lemma NumberedLineParses(n: nat, q: string)
    requires Listable(q)
    ensures var line := NatToDecimal(n) + ". " + q;
      IsStripped(line) && IsMarkerLine(line) && '\n' !in line && StripMarker(line) == q
  {
    NumberedLineShape(NatToDecimal(n), q);
    NumberedLineMarker(NatToDecimal(n), q);
  }

  /** `line` opens the question `q`, which is already in its final form. */
  predicate Opens(line: string, q: string) {
    && IsMarkerLine(Strip(line)) && StripMarker(Strip(line)) == q
    && q != [] && IsStripped(q)
  }

  lemma OpensFeed(st: ParseState, line: string, q: string)
    requires Opens(line, q)
    ensures Feed(st, Strip(line)) == ParseState(q, Flush(st))
    ensures Flush(ParseState(q, Flush(st))) == Flush(st) + [q]
  {
    StripOfStripped(q);
  }

  /** Numbered lines of questions that survive the list form parse back
      into exactly those questions, after whatever was pending in `st`. */
  lemma {:induction false} NumberedLinesParse(questions: seq<string>, n: nat, st: ParseState)
    requires forall i :: 0 <= i < |questions| ==> Listable(questions[i])
    ensures ParseLines(NumberedLines(questions, n), st) == Flush(st) + questions
    decreases |questions|
  {
    if questions == [] {
      assert Flush(st) + questions == Flush(st);
    } else {
      var q := questions[0];
      NumberedLinesParse(questions[1..], n + 1, ParseState(q, Flush(st)));
      var lines := NumberedLines(questions, n);
      assert lines[0] == NatToDecimal(n) + ". " + q && lines[1..] == NumberedLines(questions[1..], n + 1);
      NumberedLineOpens(n, q);
      OpensStep(lines, st, q, questions[1..]);
      AppendHead(Flush(st), questions);
    }
  }

  /** A line that opens `q`, followed by lines that parse into `q` and then
      `rest`, parses into `q` and then `rest`. */
  lemma OpensStep(lines: seq<string>, st: ParseState, q: string, rest: seq<string>)
    requires lines != [] && Opens(lines[0], q)
    requires ParseLines(lines[1..], ParseState(q, Flush(st))) == Flush(ParseState(q, Flush(st))) + rest
    ensures ParseLines(lines, st) == Flush(st) + [q] + rest
  {
    OpensFeed(st, lines[0], q);
    ParseLinesStep(lines, st, ParseState(q, Flush(st)), Flush(ParseState(q, Flush(st))) + rest);
  }

  lemma NumberedLineOpens(n: nat, q: string)
    requires Listable(q)
    ensures Opens(NatToDecimal(n) + ". " + q, q)
  {
    var line := NatToDecimal(n) + ". " + q;
    NumberedLineParses(n, q);
    StripOfStripped(line);
  }

  lemma {:induction false} JoinLinesStripped(lines: seq<string>)
    requires forall i :: 0 <= i < |lines| ==> lines[i] != [] && IsStripped(lines[i])
    ensures IsStripped(Join(lines, "\n"))
    ensures |lines| > 0 ==> Join(lines, "\n") != []
  {
    if |lines| > 1 {
      JoinLinesStripped(lines[1..]);
      var rest := Join(lines[1..], "\n");
      assert Join(lines, "\n")[|Join(lines, "\n")| - 1] == rest[|rest| - 1];
    }
  }

  /** Parsing a well-formed numbered list gives back exactly its questions. */
  lemma NumberedListRoundTrip(questions: seq<string>)
    requires forall i :: 0 <= i < |questions| ==> Listable(questions[i])
    ensures ParseResponse(NumberedList(questions)) == questions
  {
    var lines := NumberedLines(questions, 1);
    forall i | 0 <= i < |lines| ensures lines[i] != [] && IsStripped(lines[i]) && '\n' !in lines[i] {
      NumberedLinesAt(questions, 1, i);
      NumberedLineParses(1 + i, questions[i]);
    }
    JoinLinesStripped(lines);
    StripOfStripped(NumberedList(questions));
    if questions == [] {
      assert Split([], '\n') == [[]];
    } else {
      SplitJoin(lines, '\n');
    }
    NumberedLinesParse(questions, 1, Start);
  }

  lemma {:induction false} NumberedLinesAt(questions: seq<string>, n: nat, i: nat)
    requires i < |questions|
    ensures NumberedLines(questions, n)[i] == NatToDecimal(n + i) + ". " + questions[i]
    decreases i
  {
    if i > 0 {
      NumberedLinesAt(questions[1..], n + 1, i - 1);
    }
  }

  // ------------------------------------ questions written over several lines

  /** A line that carries on the question before it: non-empty, free of
      whitespace at both ends, one line, and not a marker line itself. */
  predicate Continuation(line: string) {
    line != [] && IsStripped(line) && '\n' !in line && !IsMarkerLine(line)
  }

  /** The continuation rule of the parsing loop: a non-empty line that opens
      no question is appended to the pending question after one space. */
  lemma {:induction false} ContinuationJoins(st: ParseState, line: string)
    requires st.current != [] && Strip(line) != [] && !IsMarkerLine(Strip(line))
    ensures Feed(st, Strip(line)) == ParseState(st.current + " " + Strip(line), st.questions)
  {
  }

  /** The pending question `cur` after the continuation lines `more`. */
  function Continued(cur: string, more: seq<string>): string
    decreases |more|
  {
    if more == [] then cur else Continued(cur + " " + more[0], more[1..])
  }

  /** Continuation lines extend the pending question and emit nothing. */
  lemma {:induction false} ContinuationLines(more: seq<string>, cur: string, qs: seq<string>, tail: seq<string>)
    requires cur != []
    requires forall k :: 0 <= k < |more| ==> Continuation(more[k])
    ensures ParseLines(more + tail, ParseState(cur, qs)) == ParseLines(tail, ParseState(Continued(cur, more), qs))
    decreases |more|
  {
    if more == [] {
      assert more + tail == tail;
    } else {
      var line := more[0];
      assert (more + tail)[0] == line && (more + tail)[1..] == more[1..] + tail;
      ContinuationStep(more + tail, more[1..] + tail, cur, qs);
      ContinuationLines(more[1..], cur + " " + line, qs, tail);
    }
  }

  /** One continuation line, then `rest`. */
  lemma {:induction false} ContinuationStep(lines: seq<string>, rest: seq<string>, cur: string, qs: seq<string>)
    requires cur != [] && lines != [] && Continuation(lines[0]) && lines[1..] == rest
    ensures ParseLines(lines, ParseState(cur, qs)) == ParseLines(rest, ParseState(cur + " " + lines[0], qs))
  {
    StripOfStripped(lines[0]);
    ContinuationJoins(ParseState(cur, qs), lines[0]);
  }

  /** The pending question is the lines joined with single spaces. */
  lemma {:induction false} ContinuedJoin(cur: string, more: seq<string>)
    ensures Continued(cur, more) == Join([cur] + more, " ")
    decreases |more|
  {
    if more != [] {
      ContinuedJoin(cur + " " + more[0], more[1..]);
      JoinTwo(cur, more, " ");
    }
  }

  /** A pending question built from stripped lines is itself stripped. */
  lemma {:induction false} ContinuedStripped(cur: string, more: seq<string>)
    requires cur != [] && IsStripped(cur)
    requires forall k :: 0 <= k < |more| ==> Continuation(more[k])
    ensures Continued(cur, more) != [] && IsStripped(Continued(cur, more))
    decreases |more|
  {
    if more != [] {
      var next := cur + " " + more[0];
      assert next[0] == cur[0] && next[|next| - 1] == more[0][|more[0]| - 1];
      ContinuedStripped(next, more[1..]);
    }
  }

  /** A question given as lines: the first is numbered, the rest continue it. */
  predicate EntryOk(entry: seq<string>) {
    entry != [] && Listable(entry[0]) && forall k :: 1 <= k < |entry| ==> Continuation(entry[k])
  }

  predicate EntriesOk(entries: seq<seq<string>>) {
    forall i :: 0 <= i < |entries| ==> EntryOk(entries[i])
  }

  /** The lines of one entry: `"<n>. "` before the first, the rest as they are. */
  function EntryLines(entry: seq<string>, n: nat): seq<string>
    requires entry != []
  {
    [NatToDecimal(n) + ". " + entry[0]] + entry[1..]
  }

  /** Lines the parser reads back unchanged, one at a time. */
  predicate LinesOk(lines: seq<string>) {
    forall i :: 0 <= i < |lines| ==> lines[i] != [] && IsStripped(lines[i]) && '\n' !in lines[i]
  }

  lemma LinesOkAppend(a: seq<string>, b: seq<string>)
    requires LinesOk(a) && LinesOk(b)
    ensures LinesOk(a + b)
  {
    forall i | |a| <= i < |a + b| ensures (a + b)[i] == b[i - |a|] { }
  }

  lemma {:induction false} EntryLinesOk(entry: seq<string>, n: nat)
    requires EntryOk(entry)
    ensures LinesOk(EntryLines(entry, n))
  {
    NumberedLineParses(n, entry[0]);
    ContinuationsOk(entry);
    LinesOkAppend([NatToDecimal(n) + ". " + entry[0]], entry[1..]);
  }

  lemma ContinuationsOk(entry: seq<string>)
    requires EntryOk(entry)
    ensures LinesOk(entry[1..])
    ensures forall k :: 0 <= k < |entry[1..]| ==> Continuation(entry[1..][k])
  {
    forall i | 0 <= i < |entry| - 1 ensures Continuation(entry[1..][i]) {
      assert entry[1..][i] == entry[i + 1];
    }
  }

  /** The lines of the entries, numbered from `n`. */
  function MultiLines(entries: seq<seq<string>>, n: nat): (lines: seq<string>)
    requires EntriesOk(entries)
    ensures LinesOk(lines)
    decreases |entries|
  {
    if entries == [] then []
    else
      var head := EntryLines(entries[0], n);
      var rest := MultiLines(entries[1..], n + 1);
      EntryLinesOk(entries[0], n);
      LinesOkAppend(head, rest);
      head + rest
  }

  /** The question each entry stands for: its lines joined with single spaces. */
  function EntryTexts(entries: seq<seq<string>>): (r: seq<string>)
    ensures |r| == |entries|
    ensures forall i :: 0 <= i < |entries| ==> r[i] == Join(entries[i], " ")
  {
    seq(|entries|, i requires 0 <= i < |entries| => Join(entries[i], " "))
  }

  /** One entry parses into the question its lines join to, left pending. */
  lemma {:induction false} EntryParse(entry: seq<string>, n: nat, st: ParseState, tail: seq<string>)
    requires EntryOk(entry)
    ensures ParseLines(EntryLines(entry, n) + tail, st)
         == ParseLines(tail, ParseState(Continued(entry[0], entry[1..]), Flush(st)))
  {
    var lines := EntryLines(entry, n) + tail;
    var x := ParseLines(tail, ParseState(Continued(entry[0], entry[1..]), Flush(st)));
    EntryLinesSplit(entry, n, tail);
    EntryContinues(entry, Flush(st), tail);
    NumberedLineOpens(n, entry[0]);
    OpensThen(lines, st, entry[0], x);
  }

  lemma {:induction false} EntryLinesSplit(entry: seq<string>, n: nat, tail: seq<string>)
    requires entry != []
    ensures var lines := EntryLines(entry, n) + tail;
      lines != [] && lines[0] == NatToDecimal(n) + ". " + entry[0] && lines[1..] == entry[1..] + tail
  {
    var lines := EntryLines(entry, n) + tail;
    assert lines[1..] == entry[1..] + tail;
  }

  /** A line that opens `q`, followed by lines that parse into `x` once `q`
      is pending, parses into `x`. */
  lemma {:induction false} OpensThen(lines: seq<string>, st: ParseState, q: string, x: seq<string>)
    requires lines != [] && Opens(lines[0], q)
    requires ParseLines(lines[1..], ParseState(q, Flush(st))) == x
    ensures ParseLines(lines, st) == x
  {
    OpensFeed(st, lines[0], q);
    ParseLinesStep(lines, st, ParseState(q, Flush(st)), x);
  }

  /** After its first line, an entry's other lines extend its question. */
  lemma {:induction false} EntryContinues(entry: seq<string>, qs: seq<string>, tail: seq<string>)
    requires EntryOk(entry)
    ensures ParseLines(entry[1..] + tail, ParseState(entry[0], qs))
         == ParseLines(tail, ParseState(Continued(entry[0], entry[1..]), qs))
  {
    ContinuationsOk(entry);
    ContinuationLines(entry[1..], entry[0], qs, tail);
  }

  /** The pending question of an entry, once emitted, is its joined text. */
  lemma {:induction false} EntryFlushed(entry: seq<string>, qs: seq<string>)
    requires EntryOk(entry)
    ensures Flush(ParseState(Continued(entry[0], entry[1..]), qs)) == qs + [Join(entry, " ")]
  {
    ContinuedStripped(entry[0], entry[1..]);
    ContinuedJoin(entry[0], entry[1..]);
    assert [entry[0]] + entry[1..] == entry;
    StripOfStripped(Continued(entry[0], entry[1..]));
  }

  /** Entries written over several lines parse back into their joined texts,
      after whatever was pending in `st`. */
  lemma {:induction false} MultiLinesParse(entries: seq<seq<string>>, n: nat, st: ParseState)
    requires EntriesOk(entries)
    ensures ParseLines(MultiLines(entries, n), st) == Flush(st) + EntryTexts(entries)
    decreases |entries|
  {
    if entries == [] {
      assert Flush(st) + EntryTexts(entries) == Flush(st);
    } else {
      var e := entries[0];
      var pending := ParseState(Continued(e[0], e[1..]), Flush(st));
      MultiLinesSplit(entries, n);
      EntryParse(e, n, st, MultiLines(entries[1..], n + 1));
      MultiLinesParse(entries[1..], n + 1, pending);
      EntryFlushed(e, Flush(st));
      Assoc(Flush(st), [Join(e, " ")], EntryTexts(entries[1..]));
    }
  }

  lemma {:induction false} MultiLinesSplit(entries: seq<seq<string>>, n: nat)
    requires EntriesOk(entries) && entries != []
    ensures EntryOk(entries[0]) && EntriesOk(entries[1..])
    ensures MultiLines(entries, n) == EntryLines(entries[0], n) + MultiLines(entries[1..], n + 1)
    ensures EntryTexts(entries) == [Join(entries[0], " ")] + EntryTexts(entries[1..])
  {
    assert EntriesOk(entries[1..]) by {
      forall i | 0 <= i < |entries| - 1 ensures EntryOk(entries[1..][i]) {
        assert entries[1..][i] == entries[i + 1];
      }
    }
  }

  /** Parsing a numbered list whose questions run over several lines gives
      back each question with its lines joined by single spaces. */
  lemma {:induction false} MultiLineRoundTrip(entries: seq<seq<string>>)
    requires EntriesOk(entries)
    ensures ParseResponse(Join(MultiLines(entries, 1), "\n")) == EntryTexts(entries)
  {
    var lines := MultiLines(entries, 1);
    assert forall i :: 0 <= i < |lines| ==> lines[i] != [] && IsStripped(lines[i]);
    JoinLinesStripped(lines);
    StripOfStripped(Join(lines, "\n"));
    if entries == [] {
      assert Split([], '\n') == [[]];
    } else {
      SplitJoin(lines, '\n');
    }
    MultiLinesParse(entries, 1, Start);
  }

  // --------------------------------------------------------- question bank

  /** `tech_questions_map` */
  const Bank: map<string, seq<string>> := map[
    "Python" := [
      "Explain the difference between a list and a tuple in Python. When would you use each?",
      "What are decorators in Python and how would you implement one?"],
    "JavaScript" := [
      "Explain the concept of closures in JavaScript with an example.",
      "What is the difference between == and === in JavaScript?"],
    "React" := [
      "Explain the useEffect hook and its cleanup function.",
      "What are the benefits of using React hooks over class components?"],
    "Node.js" := [
      "How does the event loop work in Node.js?",
      "Explain the difference between process.nextTick() and setImmediate()."],
    "SQL" := [
      "Explain the difference between INNER JOIN and LEFT JOIN.",
      "How would you optimize a slow-running SQL query?"],
    "MongoDB" := [
      "When would you use MongoDB over a relational database?",
      "Explain indexing in MongoDB and its importance."],
    "Docker" := [
      "What is the difference between a Docker image and a container?",
      "How would you optimize a Dockerfile for production?"],
    "AWS" := [
      "Explain the difference between EC2 and Lambda. When would you use each?",
      "How would you design a highly available application on AWS?"]
  ]

  const GenericQuestions: seq<Question> := [
    Question("Describe a challenging technical problem you solved recently.", "General", None),
    Question("How do you approach debugging a complex issue in production?", "General", None),
    Question("Explain how you would design a scalable REST API.", "General", None),
    Question("What testing strategies do you use in your projects?", "General", None)
  ]

  /** Every technology in the bank has a non-empty first canned question. */
  lemma BankNonEmpty(tech: string)
    requires tech in Bank
    ensures |Bank[tech]| >= 1 && Bank[tech][0] != []
  {
  }

  /** What a bank hit is: the first canned question of a technology the
      bank knows, tagged with that technology and not yet answered. */
  predicate FromBank(q: Question) {
    q.tech in Bank && |Bank[q.tech]| >= 1 && q.question == Bank[q.tech][0]
    && q.question != [] && q.answer.None?
  }

  /** The bank's first question for `tech`, if the bank knows `tech`. */
  function BankHit(tech: string): (r: seq<Question>)
    ensures |r| == (if tech in Bank then 1 else 0)
    ensures forall i :: 0 <= i < |r| ==> r[i].tech == tech && FromBank(r[i])
  {
    if tech in Bank then
      BankNonEmpty(tech);
      [Question(Bank[tech][0], tech, None)]
    else []
  }

  /** The canned questions for the technologies of `techs` the bank knows,
      in the order of `techs`. */
  function BankHits(techs: seq<string>): (r: seq<Question>)
    ensures |r| <= |techs|
    ensures forall i :: 0 <= i < |r| ==> FromBank(r[i])
  {
    if techs == [] then [] else BankHits(techs[..|techs| - 1]) + BankHit(techs[|techs| - 1])
  }

  /** Each technology contributes its own hit, in input order: the hits of
      a concatenation are the hits of the first part, then of the second. */
  lemma {:induction false} BankHitsAppend(a: seq<string>, b: seq<string>)
    ensures BankHits(a + b) == BankHits(a) + BankHits(b)
    decreases |b|
  {
    if b == [] {
      assert a + b == a;
    } else {
      var n := |b| - 1;
      BankHitsAppend(a, b[..n]);
      BankHitsSnoc(a + b[..n], b[n]);
      BankHitsSnoc(b[..n], b[n]);
      SnocSplit(a, b);
      Assoc(BankHits(a), BankHits(b[..n]), BankHit(b[n]));
    }
  }

  lemma BankHitsSnoc(t: seq<string>, x: string)
    ensures BankHits(t + [x]) == BankHits(t) + BankHit(x)
  {
    assert (t + [x])[..|t|] == t;
  }

  /** One technology gives its own hit. */
  lemma BankHitsOne(tech: string)
    ensures BankHits([tech]) == BankHit(tech)
  {
    assert [tech][..0] == [];
  }

  /** `get_fallback_questions`: the hits among the first four technologies,
      then the generic questions from the hit count on. */
  function Fallback(techStack: seq<string>): (r: seq<Question>)
    ensures |r| == 4
    ensures var hits := BankHits(Take(techStack, 4));
      r[..|hits|] == hits && r[|hits|..] == GenericQuestions[|hits|..]
    ensures forall i :: 0 <= i < 4 ==> r[i].answer.None? && r[i].question != []
  {
    var hits := BankHits(Take(techStack, 4));
    GenericReady();
    Padded(hits, GenericQuestions);
    hits + GenericQuestions[|hits|..]
  }

  /** Every generic question is unanswered and non-empty. */
  lemma GenericReady()
    ensures |GenericQuestions| == 4
    ensures forall i :: 0 <= i < 4 ==> GenericQuestions[i].answer.None? && GenericQuestions[i].question != []
  {
  }

  /** Padding unanswered, non-empty questions with such questions from `g`,
      starting at the position the hits end, fills `|g|` slots. */
  lemma Padded(hits: seq<Question>, g: seq<Question>)
    requires |hits| <= |g|
    requires forall i :: 0 <= i < |hits| ==> hits[i].answer.None? && hits[i].question != []
    requires forall i :: 0 <= i < |g| ==> g[i].answer.None? && g[i].question != []
    ensures var r := hits + g[|hits|..];
      && |r| == |g| && r[..|hits|] == hits && r[|hits|..] == g[|hits|..]
      && forall i :: 0 <= i < |r| ==> r[i].answer.None? && r[i].question != []
  {
    var r := hits + g[|hits|..];
    assert r[..|hits|] == hits;
    forall i | 0 <= i < |r| ensures r[i].answer.None? && r[i].question != [] {
      if i >= |hits| { assert r[i] == g[i]; }
    }
  }

  lemma AppendSlice<T>(a: seq<T>, g: seq<T>, lo: nat)
    requires lo <= |g|
    ensures a + g[lo..lo] == a && g[lo..|g|] == g[lo..]
  {
  }

  lemma SliceExtend<T>(q: seq<T>, a: seq<T>, g: seq<T>, lo: nat, hi: nat)
    requires lo <= hi < |g| && q == a + g[lo..hi]
    ensures q + [g[hi]] == a + g[lo..hi + 1]
  {
    assert g[lo..hi] + [g[hi]] == g[lo..hi + 1];
  }

  /** The appending loops of `get_fallback_questions`. */
  method FallbackQuestions(techStack: seq<string>) returns (questions: seq<Question>)
    ensures questions == Fallback(techStack)
  {
    var first := Take(techStack, 4);
    questions := CannedQuestions(first);
    questions := PadQuestions(questions);
    questions := Take(questions, 4);
  }

  /** The first loop of `get_fallback_questions`. */
  method CannedQuestions(first: seq<string>) returns (questions: seq<Question>)
    ensures questions == BankHits(first)
  {
    questions := [];
    for i := 0 to |first|
      invariant questions == BankHits(first[..i])
    {
      assert first[..i + 1][..i] == first[..i];
      if first[i] in Bank {
        BankNonEmpty(first[i]);
        questions := questions + [Question(Bank[first[i]][0], first[i], None)];
      }
    }
    assert first[..|first|] == first;
  }

  /** The padding loop of `get_fallback_questions`: generic questions from
      the position the hits end, up to four questions. */
  method PadQuestions(hits: seq<Question>) returns (questions: seq<Question>)
    requires |hits| <= 4
    ensures questions == hits + GenericQuestions[|hits|..]
  {
    questions := hits;
    AppendSlice(hits, GenericQuestions, |hits|);
    while |questions| < 4
      invariant |hits| <= |questions| <= 4
      invariant questions == hits + GenericQuestions[|hits|..|questions|]
      decreases 4 - |questions|
    {
      ghost var before := questions;
      assert |questions| % |GenericQuestions| == |questions|;
      questions := questions + [GenericQuestions[|questions| % |GenericQuestions|]];
      SliceExtend(before, hits, GenericQuestions, |hits|, |before|);
    }
    AppendSlice(hits, GenericQuestions, |hits|);
  }

  // -------------------------------------------------------------- generator

  /** The technologies the prompt names, joined as `", ".join(tech_stack[:5])`. */
  function TechLabel(techStack: seq<string>): string {
    Join(Take(techStack, 5), ", ")
  }

  /** Each parsed question, tagged with `tech` and not yet answered. */
  function Tag(texts: seq<string>, tech: string): (r: seq<Question>)
    ensures |r| == |texts|
    ensures forall i :: 0 <= i < |r| ==> r[i] == Question(texts[i], tech, None)
  {
    seq(|texts|, i requires 0 <= i < |texts| => Question(texts[i], tech, None))
  }

  /** `generate_technical_questions`, given what the model call produced. */
  function Generate(techStack: seq<string>, reply: Option<string>): (r: seq<Question>)
    ensures 3 <= |r| <= 4
  {
    match reply
    case None => Fallback(techStack)
    case Some(text) =>
      var parsed := ParseResponse(text);
      if |parsed| < 3 then Fallback(techStack)
      else
        FirstFour(parsed, TechLabel(techStack))
  }

  /** The generator returns unanswered, non-empty questions: the fallback
      when the call failed or fewer than three questions parse, and
      otherwise the first four parsed questions, tagged with the label of
      the technologies. */
  lemma GenerateSpec(techStack: seq<string>, reply: Option<string>)
    ensures var r := Generate(techStack, reply);
      && (forall i :: 0 <= i < |r| ==> r[i].answer.None? && r[i].question != [])
      && (reply.None? ==> r == Fallback(techStack))
      && (reply.Some? && |ParseResponse(reply.value)| < 3 ==> r == Fallback(techStack))
      && (reply.Some? && |ParseResponse(reply.value)| >= 3 ==>
            var parsed := ParseResponse(reply.value);
            && |r| == (if |parsed| < 4 then |parsed| else 4)
            && forall i :: 0 <= i < |r| ==> r[i] == Question(parsed[i], TechLabel(techStack), None))
  {
    if reply.Some? && |ParseResponse(reply.value)| >= 3 {
      var parsed := ParseResponse(reply.value);
      assert Generate(techStack, reply) == FirstFour(parsed, TechLabel(techStack));
    }
  }

  /** The first four parsed questions, tagged with `tech`. */
  function FirstFour(parsed: seq<string>, tech: string): (r: seq<Question>)
    requires forall i :: 0 <= i < |parsed| ==> parsed[i] != []
    ensures |r| == (if |parsed| < 4 then |parsed| else 4)
    ensures forall i :: 0 <= i < |r| ==> r[i] == Question(parsed[i], tech, None) && r[i].question != []
  {
    Take(Tag(parsed, tech), 4)
  }

  /** The generator as the back end runs it. */
  method GenerateQuestions(techStack: seq<string>, reply: Option<string>) returns (questions: seq<Question>)
    ensures questions == Generate(techStack, reply)
  {
    GenerateSpec(techStack, reply);
    if reply.None? {
      questions := FallbackQuestions(techStack);
      return;
    }
    var parsed := ParseQuestions(reply.value);
    if |parsed| < 3 {
      questions := FallbackQuestions(techStack);
      return;
    }
    questions := FirstFour(parsed, TechLabel(techStack));
  }

  /** Python, JavaScript and React are all in the bank, so the fallback for
      that stack gives their three canned questions and the fourth generic
      question. */
  lemma FallbackForPythonJavaScriptReact()
    ensures var r := Fallback(["Python", "JavaScript", "React"]);
      && r[0].tech == "Python" && r[1].tech == "JavaScript" && r[2].tech == "React"
      && r[3] == GenericQuestions[3]
  {
    var ts := ["Python", "JavaScript", "React"];
    assert Take(ts, 4) == ts;
    assert ts[..1] == ["Python"] && ts[..2][..1] == ts[..1] && ts[..1][..0] == [];
    assert ts[..2] == ["Python", "JavaScript"];
    var h1 := BankHits(ts[..1]);
    assert h1 == BankHits([]) + BankHit("Python");
    var h2 := BankHits(ts[..2]);
    assert h2 == h1 + BankHit("JavaScript");
    var h3 := BankHits(ts);
    assert h3 == h2 + BankHit("React");
    assert |h3| == 3;
  }
}
