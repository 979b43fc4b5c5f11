/** The conversation engine of the FastAPI back end: one session, its
    transcript, and the turn taken for every message the candidate sends.
    The model call made when the questions are generated is an input to the
    turn (see `ServerQuestions`). */
module ServerEngine {
  import opened Wrappers
  import opened Text
  import opened Validators
  import opened Conversation
  import opened ServerQuestions

  // ---------------------------------------------------------------- messages

  datatype Role = Bot | User

  /** The option lists a message can offer. */
  datatype Choices = ExperienceChoices | PositionChoices | TechChoices

  /** `message_type`, with the `options` a message offers. */
  datatype Kind = PlainText | OptionsList(choices: Choices) | TechPicker | QuestionCard

  /** What a message says. Bot texts are fixed templates, so each is named by
      the values it interpolates; the candidate's text is kept verbatim. */
  datatype Content =
    | Welcome
    | AskName
    | AskEmail(name: Option<string>)
    | AskPhone
    | AskExperience
    | AskPosition
    | AskLocation
    | AskTechStack
    | SummaryOf(info: Profile)
    | Closing
    | NameTooShort
    | BadEmail
    | BadPhone
    | NoPosition
    | LocationTooShort
    | NoTech
    | QuestionsIntro(count: nat)
    | AskQuestion(number: nat, total: nat, question: string)
    | UserText(text: string)

  datatype Message = Message(role: Role, content: Content, kind: Kind)

  function BotText(c: Content): Message {
    Message(Bot, c, PlainText)
  }

  const ExperienceOptions: seq<string> := ["0-1 years", "1-3 years", "3-5 years", "5-10 years", "10+ years"]

  /** The `options` list sent with a message of kind `OptionsList(c)`, or
      with the tech-stack picker. */
  function ChoiceList(c: Choices): seq<string> {
    match c
    case ExperienceChoices => ExperienceOptions
    case PositionChoices => PositionOptions
    case TechChoices => TechStackOptions
  }

  const ClosingMessage := BotText(Closing)

  /** `get_step_prompt`: the bot's prompt on entering `step`. */
  function StepPrompt(step: Step, info: Profile): (r: seq<Message>)
    ensures r == [] <==> step == Greeting || step == Questions
    ensures |r| <= 1 && forall i :: 0 <= i < |r| ==> r[i].role == Bot
    ensures step == Ended ==> r == [ClosingMessage]
    ensures step == Summary ==> r == [BotText(SummaryOf(info))]
  {
    match step
    case Name => [BotText(AskName)]
    case Email => [BotText(AskEmail(info.fullName))]
    case Phone => [BotText(AskPhone)]
    case Experience => [Message(Bot, AskExperience, OptionsList(ExperienceChoices))]
    case Position => [Message(Bot, AskPosition, OptionsList(PositionChoices))]
    case Location => [BotText(AskLocation)]
    case TechStack => [Message(Bot, AskTechStack, TechPicker)]
    case Summary => [BotText(SummaryOf(info))]
    case Ended => [ClosingMessage]
    case _ => []
  }

  // -------------------------------------------------------------- exit check

  const ExitKeywords: seq<string> :=
    ["bye", "goodbye", "exit", "quit", "end", "stop", "thank you", "thanks", "done"]

  /** `check_exit_intent`: some keyword occurs anywhere in the lowercased,
      stripped message. */
  predicate ExitIntent(message: string): (r: bool)
    ensures r <==> exists j, i :: 0 <= j < |ExitKeywords| && OccursAt(Strip(Lower(message)), ExitKeywords[j], i)
  {
    ContainsAnyOccurs(Strip(Lower(message)), ExitKeywords);
    ContainsAny(Strip(Lower(message)), ExitKeywords)
  }

  /** A keyword anywhere in the message ends the session, even inside a word. */
  lemma EndInsideWordExits(message: string, i: int)
    requires OccursAt(Strip(Lower(message)), "end", i)
    ensures ExitIntent(message)
  {
    EndIsKeyword();
    OccursContainsAny(Strip(Lower(message)), ExitKeywords, 4, i);
  }

  lemma EndIsKeyword()
    ensures ExitKeywords[4] == "end"
  {
  }

  /** So the position "Frontend Developer" ends the session. */
  lemma FrontendDeveloperExits()
    ensures ExitIntent("Frontend Developer")
  {
    var m := "Frontend Developer";
    assert OccursAt(Strip(Lower(m)), "end", 5) by {
      var l := Lower(m);
      assert l[0] == LowerChar(m[0]) == 'f';
      assert l[|l| - 1] == LowerChar(m[17]) == 'r';
      StripOfStripped(l);
      assert l[5] == 'e' && l[6] == 'n' && l[7] == 'd';
      assert l[5..8] == "end";
    }
    EndInsideWordExits(m, 5);
  }

  // ------------------------------------------------------------ question log

  /** `len([q for q in questions_asked if 'answer' in q])` */
  function AnsweredCount(qs: seq<Question>): (n: nat)
    ensures n <= |qs|
  {
    if qs == [] then 0
    else AnsweredCount(qs[..|qs| - 1]) + (if qs[|qs| - 1].answer.Some? then 1 else 0)
  }

  /** The first `k` questions are answered and the others are not. */
  predicate AnsweredPrefix(qs: seq<Question>, k: nat) {
    && k <= |qs|
    && (forall i :: 0 <= i < k ==> qs[i].answer.Some?)
    && (forall i :: k <= i < |qs| ==> qs[i].answer.None?)
  }

  lemma {:induction false} PrefixCount(qs: seq<Question>, k: nat)
    requires AnsweredPrefix(qs, k)
    ensures AnsweredCount(qs) == k
    decreases |qs|
  {
    if qs != [] {
      var init := qs[..|qs| - 1];
      if k == |qs| {
        PrefixCount(init, k - 1);
      } else {
        PrefixCount(init, k);
      }
    }
  }

  /** Writing the answer of the first unanswered question extends the
      answered prefix by one and leaves every other entry as it was. */
  function RecordAnswer(qs: seq<Question>, k: nat, answer: string): (r: seq<Question>)
    requires k < |qs|
    ensures |r| == |qs| && r[k] == qs[k].(answer := Some(answer))
    ensures forall i :: 0 <= i < |qs| && i != k ==> r[i] == qs[i]
  {
    qs[k := qs[k].(answer := Some(answer))]
  }

  lemma RecordAnswerPrefix(qs: seq<Question>, k: nat, answer: string)
    requires AnsweredPrefix(qs, k) && k < |qs|
    ensures AnsweredPrefix(RecordAnswer(qs, k, answer), k + 1)
    ensures AnsweredCount(RecordAnswer(qs, k, answer)) == k + 1
  {
    PrefixCount(RecordAnswer(qs, k, answer), k + 1);
  }

  // -------------------------------------------------------------------- turn

  /** The persisted part of a `ChatSession`. */
  datatype State = State(info: Profile, step: Step, questions: seq<Question>, messages: seq<Message>)

  /** `create_session`: the greeting is sent and the name is asked for. */
  const Created := State(EmptyProfile, Name, [], [BotText(Welcome)])

  /** What the branch of the current step decided. */
  datatype Handled = Handled(info: Profile, next: Step, questions: seq<Question>, bot: seq<Message>)

  /** What the step branches of `send_message` read off the stripped
      message. Each branch only looks at its own field; computing them all
      up front changes nothing, as every one of them is total. */
  datatype Reading = Reading(
    text: string,
    exit: bool,
    validEmail: bool,
    validPhone: bool,
    years: nat,
    positions: seq<string>,
    techs: seq<string>)

  function Read(msg: string): Reading {
    Reading(msg, ExitIntent(msg), ValidEmail(msg), ValidPhone(msg), ParseYears(msg).GetOr(0),
      ParseChoices(msg, PositionOptions, PositionMinLength), ParseChoices(msg, TechStackOptions, TechMinLength))
  }

  /** The `questions` branch: record the answer to the first unanswered
      question, then take the `generated` questions if there are none yet,
      ask the next one, or move on to the summary. */
  function HandleQuestions(s: State, msg: string, generated: seq<Question>): Handled {
    var qs := if s.questions != [] && AnsweredCount(s.questions) < |s.questions|
      then RecordAnswer(s.questions, AnsweredCount(s.questions), msg) else s.questions;
    if qs == [] then
      Handled(s.info, Questions, generated,
        [BotText(QuestionsIntro(|generated|))]
        + (if generated != [] then [Message(Bot, AskQuestion(1, |generated|, generated[0].question), QuestionCard)] else []))
    else
      var answered := AnsweredCount(qs);
      if answered < |qs| then
        Handled(s.info, Questions, qs, [Message(Bot, AskQuestion(answered + 1, |qs|, qs[answered].question), QuestionCard)])
      else Handled(s.info, Summary, qs, [])
  }

  /** The step-specific branch of `send_message`. */
  function HandleStep(s: State, r: Reading, generated: seq<Question>): Handled {
    var info := s.info;
    var qs := s.questions;
    var msg := r.text;
    match s.step
    case Name =>
      if |msg| >= 2 then Handled(info.(fullName := Some(msg)), Email, qs, [])
      else Handled(info, Name, qs, [BotText(NameTooShort)])
    case Email =>
      if r.validEmail then Handled(info.(email := Some(msg)), Phone, qs, [])
      else Handled(info, Email, qs, [BotText(BadEmail)])
    case Phone =>
      if r.validPhone then Handled(info.(phone := Some(msg)), Experience, qs, [])
      else Handled(info, Phone, qs, [BotText(BadPhone)])
    case Experience =>
      Handled(info.(years := Some(r.years)), Position, qs, [])
    case Position =>
      if r.positions != [] then Handled(info.(positions := r.positions), Location, qs, [])
      else Handled(info, Position, qs, [Message(Bot, NoPosition, OptionsList(PositionChoices))])
    case Location =>
      if |msg| >= 2 then Handled(info.(location := Some(msg)), TechStack, qs, [])
      else Handled(info, Location, qs, [BotText(LocationTooShort)])
    case TechStack =>
      if r.techs != [] then Handled(info.(techStack := r.techs), Questions, qs, [])
      else Handled(info, TechStack, qs, [Message(Bot, NoTech, TechPicker)])
    case Questions => HandleQuestions(s, msg, generated)
    case Summary => Handled(info, Ended, qs, [])
    case _ => Handled(info, s.step, qs, [])
  }

  /** The prompts added after the step branch: those of the new step, when the
      step changed and either the branch said nothing or the new step is not
      `questions`. */
  function FollowUp(current: Step, h: Handled): seq<Message> {
    if h.next != current && (h.bot == [] || h.next != Questions) then StepPrompt(h.next, h.info) else []
  }

  datatype Outcome = Outcome(state: State, bot: seq<Message>)

  /** Only the `questions` branch looks at the generated questions. */
  lemma StepIgnoresGenerated(s: State, r: Reading, generated: seq<Question>)
    requires s.step != Questions
    ensures HandleStep(s, r, generated) == HandleStep(s, r, [])
  {
  }

  /** The generated questions matter only to the first non-exit turn at
      `questions`. */
  lemma TurnIgnoresGenerated(s: State, r: Reading, generated: seq<Question>)
    requires !(s.step == Questions && s.questions == [] && !r.exit)
    ensures ServerTurn(s, r, generated) == ServerTurn(s, r, [])
  {
  }

  /** `send_message` on a session in state `s`, for the message read as `r`
      once stripped; `generated` is what `generate_technical_questions`
      returns if this turn calls it. */
  function ServerTurn(s: State, r: Reading, generated: seq<Question>): Outcome {
    var withUser := s.messages + [Message(User, UserText(r.text), PlainText)];
    if r.exit then
      Outcome(s.(step := Ended, messages := withUser + [ClosingMessage] + [ClosingMessage]), [ClosingMessage])
    else
      var h := HandleStep(s, r, generated);
      var bot := h.bot + FollowUp(s.step, h);
      Outcome(State(h.info, h.next, h.questions, withUser + bot), bot)
  }

  // -------------------------------------------------------------- invariant

  /** What every reachable session satisfies: answers fill the questions from
      the front, no question exists before the `questions` step, and while the
      step is `questions` some generated question is still unanswered. */
  predicate Inv(s: State) {
    && AnsweredPrefix(s.questions, AnsweredCount(s.questions))
    && (StepIndex(s.step) < StepIndex(Questions) ==> s.questions == [])
    && (s.step == Questions && s.questions != [] ==> AnsweredCount(s.questions) < |s.questions|)
  }

  lemma CreatedInv()
    ensures Inv(Created)
  {
  }

  /** No generated question carries an answer yet. */
  predicate Unanswered(qs: seq<Question>) {
    forall i :: 0 <= i < |qs| ==> qs[i].answer.None?
  }

  lemma GeneratedUnanswered(techStack: seq<string>, reply: Option<string>)
    ensures var qs := Generate(techStack, reply);
      Unanswered(qs) && qs != [] && AnsweredCount(qs) == 0
  {
    GenerateSpec(techStack, reply);
    PrefixCount(Generate(techStack, reply), 0);
  }

  // ------------------------------------------------------------- properties

  /** An exit keyword wins over every step: the session ends, the closing
      prompt is the only reply (and is written to the transcript twice), and
      neither the profile nor the questions change. */
  lemma ExitPrecedence(s: State, r: Reading, generated: seq<Question>)
    requires r.exit
    ensures var o := ServerTurn(s, r, generated);
      && o.state.step == Ended && o.bot == [ClosingMessage]
      && o.state.info == s.info && o.state.questions == s.questions
      && o.state.messages == s.messages + [Message(User, UserText(r.text), PlainText), ClosingMessage, ClosingMessage]
  {
    var u := Message(User, UserText(r.text), PlainText);
    AppendThree(s.messages, u, ClosingMessage, ClosingMessage);
  }

  lemma AppendThree<T>(a: seq<T>, x: T, y: T, z: T)
    ensures a + [x] + [y] + [z] == a + [x, y, z]
  {
  }

  /** Whether the profile step `step` accepts the message read as `r`. */
  predicate Accepts(step: Step, r: Reading) {
    match step
    case Name => |r.text| >= 2
    case Email => r.validEmail
    case Phone => r.validPhone
    case Experience => true
    case Position => r.positions != []
    case Location => |r.text| >= 2
    case TechStack => r.techs != []
    case _ => false
  }

  /** The value an accepting profile step stores in its field. */
  predicate Stores(step: Step, info: Profile, r: Reading) {
    match step
    case Name => info.fullName == Some(r.text)
    case Email => info.email == Some(r.text)
    case Phone => info.phone == Some(r.text)
    case Experience => info.years == Some(r.years)
    case Position => info.positions == r.positions
    case Location => info.location == Some(r.text)
    case TechStack => info.techStack == r.techs
    case _ => false
  }

  /** A profile step either accepts the message, stores its field, changes no
      other field and moves to the next step, or rejects it, changes nothing
      and re-prompts with exactly one message. */
  lemma ProfileStep(s: State, r: Reading, generated: seq<Question>)
    requires OwnedField(s.step).Some? && !r.exit
    ensures var o := ServerTurn(s, r, generated);
      && o.state.questions == s.questions
      && (Accepts(s.step, r) ==>
            && o.state.step == NextStep(s.step)
            && Stores(s.step, o.state.info, r)
            && SameExcept(s.info, o.state.info, OwnedField(s.step).value))
      && (!Accepts(s.step, r) ==>
            o.state.step == s.step && o.state.info == s.info && |o.bot| == 1 && o.bot[0].role == Bot)
  {
  }

  /** The experience step never rejects: it stores the bucket value, else the
      first number, else 0. */
  lemma ExperienceNeverFails(s: State, msg: string, generated: seq<Question>)
    requires s.step == Experience && !ExitIntent(msg)
    ensures var o := ServerTurn(s, Read(msg), generated);
      && o.state.step == Position
      && (msg in ExperienceBuckets ==> o.state.info.years == Some(ExperienceBuckets[msg]))
      && (msg !in ExperienceBuckets && !NoDigit(msg) ==> o.state.info.years == FirstNumber(msg))
      && (NoDigit(msg) ==> o.state.info.years == Some(0))
  {
  }

  /** Accepting the tech stack enters `questions` without a bot message. */
  lemma QuestionsEnteredSilently(s: State, r: Reading, generated: seq<Question>)
    requires s.step == TechStack && !r.exit && r.techs != []
    ensures var o := ServerTurn(s, r, generated);
      o.state.step == Questions && o.bot == [] && o.state.questions == s.questions
  {
  }

  /** The first turn at `questions` only takes in the generated questions: its
      text is not recorded as an answer, and the first question is asked. */
  lemma FirstQuestionTurnConsumed(s: State, r: Reading, generated: seq<Question>)
    requires s.step == Questions && s.questions == [] && !r.exit
    requires generated != []
    ensures var o := ServerTurn(s, r, generated);
      && o.state.questions == generated
      && o.state.step == Questions
      && o.bot == [BotText(QuestionsIntro(|generated|)), Message(Bot, AskQuestion(1, |generated|, generated[0].question), QuestionCard)]
  {
  }

  /** Every later turn at `questions` answers the first unanswered question,
      leaves the others as they were, and then asks the next question or, after
      the last one, moves to the summary with the summary prompt. */
  lemma AnswerRecorded(s: State, r: Reading, generated: seq<Question>)
    requires Inv(s) && s.step == Questions && s.questions != [] && !r.exit
    ensures var o := ServerTurn(s, r, generated); var k := AnsweredCount(s.questions);
      var qs := o.state.questions;
      && |qs| == |s.questions| && k < |qs|
      && qs[k] == s.questions[k].(answer := Some(r.text))
      && (forall i :: 0 <= i < |qs| && i != k ==> qs[i] == s.questions[i])
      && AnsweredCount(qs) == k + 1
      && o.state.info == s.info
      && (k + 1 < |qs| ==>
            o.state.step == Questions
            && o.bot == [Message(Bot, AskQuestion(k + 2, |qs|, qs[k + 1].question), QuestionCard)])
      && (k + 1 == |qs| ==>
            o.state.step == Summary && o.bot == [BotText(SummaryOf(s.info))])
  {
    RecordAnswerPrefix(s.questions, AnsweredCount(s.questions), r.text);
  }

  /** Any message at `summary` that is not an exit ends the session with the
      closing prompt. */
  lemma SummaryEnds(s: State, r: Reading, generated: seq<Question>)
    requires s.step == Summary && !r.exit
    ensures var o := ServerTurn(s, r, generated);
      o.state.step == Ended && o.bot == [ClosingMessage] && o.state.info == s.info
  {
  }

  /** A turn stays on its step, moves to the next one, or ends the session;
      the transcript only grows, by the user's message and the replies. */
  lemma StepsInOrder(s: State, r: Reading, generated: seq<Question>)
    ensures var o := ServerTurn(s, r, generated);
      && (o.state.step == s.step || o.state.step == NextStep(s.step) || o.state.step == Ended)
      && StepIndex(s.step) <= StepIndex(o.state.step)
      && |o.state.messages| > |s.messages|
      && o.state.messages[..|s.messages|] == s.messages
      && o.state.messages[|s.messages|] == Message(User, UserText(r.text), PlainText)
  {
  }

  /** Every turn keeps the invariant, given unanswered generated questions. */
  lemma InvPreserved(s: State, r: Reading, generated: seq<Question>)
    requires Inv(s) && Unanswered(generated)
    ensures Inv(ServerTurn(s, r, generated).state)
  {
    if !r.exit && s.step == Questions {
      if s.questions == [] {
        PrefixCount(generated, 0);
      } else {
        AnswerRecorded(s, r, generated);
      }
    } else if !r.exit {
      OffQuestionsTurn(s, r, generated);
      StepsInOrder(s, r, generated);
    }
  }

  /** Away from the `questions` step the question list is untouched, and the
      step becomes `questions` only from the tech-stack step. */
  lemma OffQuestionsTurn(s: State, r: Reading, generated: seq<Question>)
    requires s.step != Questions && !r.exit
    ensures var o := ServerTurn(s, r, generated);
      o.state.questions == s.questions && (o.state.step == Questions ==> s.step == TechStack)
  {
  }

  // ------------------------------------------------------------------ session

  /** A `ChatSession` as `send_message` mutates it. */
  class Session {
    var info: Profile
    var step: Step
    var questions: seq<Question>
    var messages: seq<Message>

    function Snapshot(): State
      reads this
    {
      State(info, step, questions, messages)
    }

    /** `create_session` */
    constructor ()
      ensures Snapshot() == Created
    {
      info := EmptyProfile;
      step := Name;
      questions := [];
      messages := [BotText(Welcome)];
    }

    /** The step logic of `send_message`. The question generator runs only
        on the turn that finds the `questions` step with no questions yet,
        and before the message is handled: nothing it reads is changed by
        the handling that precedes it in `send_message`. */
    method SendMessage(text: string, reply: Option<string>) returns (bot: seq<Message>)
      modifies this
      ensures var o := ServerTurn(old(Snapshot()), Read(Strip(text)), Generate(old(info).techStack, reply));
        Snapshot() == o.state && bot == o.bot
      ensures old(Inv(Snapshot())) ==> Inv(Snapshot())
    {
      var msg := Strip(text);
      var generated: seq<Question> := [];
      if step == Questions && questions == [] && !ExitIntent(msg) {
        generated := GenerateQuestions(info.techStack, reply);
      } else {
        TurnIgnoresGenerated(Snapshot(), Read(msg), Generate(info.techStack, reply));
      }
      GeneratedUnanswered(info.techStack, reply);
      bot := Advance(Read(msg), generated);
    }

    /** `send_message` once the message is read and the generator has run,
        if it had to. */
    method Advance(r: Reading, generated: seq<Question>) returns (bot: seq<Message>)
      modifies this
      ensures var o := ServerTurn(old(Snapshot()), r, generated);
        Snapshot() == o.state && bot == o.bot
      ensures old(Inv(Snapshot())) && Unanswered(generated) ==> Inv(Snapshot())
    {
      ghost var s := Snapshot();
      var msg := r.text;
      messages := messages + [Message(User, UserText(msg), PlainText)];
      bot := [];
      if r.exit {
        step := Ended;
        var endMessages := StepPrompt(Ended, info);
        bot := bot + endMessages;
        messages := messages + endMessages;
      } else {
        assert HandleStep(Snapshot(), r, generated) == HandleStep(s, r, generated);
        bot := Respond(r, generated);
      }
      messages := messages + bot;
      if Inv(s) && Unanswered(generated) {
        InvPreserved(s, r, generated);
      }
    }

    /** The step branches of `send_message` for a message that is not an
        exit: the step is handled, and the next step's prompt follows when
        the step changed, unless the questions step already replied. */
    method Respond(r: Reading, generated: seq<Question>) returns (bot: seq<Message>)
      requires !r.exit
      modifies this
      ensures var h := HandleStep(old(Snapshot()), r, generated);
        && info == h.info && step == h.next && questions == h.questions && messages == old(messages)
        && bot == h.bot + FollowUp(old(step), h)
    {
      ghost var s := Snapshot();
      var current := step;
      var next, replies;
      if current == Questions {
        next, replies := AnswerOrAsk(r.text, generated);
      } else {
        next, replies := Dispatch(r);
        StepIgnoresGenerated(s, r, generated);
      }
      ghost var h := HandleStep(s, r, generated);
      assert Handled(info, next, questions, replies) == h;
      bot := replies;
      if next != current && bot == [] {
        bot := bot + StepPrompt(next, info);
      } else if next != current && next != Questions {
        bot := bot + StepPrompt(next, info);
      }
      assert bot == h.bot + FollowUp(current, h);
      step := next;
    }

    /** The profile and summary branches of `send_message`: they update the
        profile and say which step comes next and what to reply before that
        step's prompt. */
    method Dispatch(r: Reading) returns (next: Step, bot: seq<Message>)
      requires step != Questions
      modifies this
      ensures Handled(info, next, questions, bot) == HandleStep(old(Snapshot()), r, [])
      ensures step == old(step) && messages == old(messages)
    {
      var msg := r.text;
      var current := step;
      next := current;
      bot := [];
      if current == Name {
        if |msg| >= 2 {
          info := info.(fullName := Some(msg));
          next := Email;
        } else {
          bot := bot + [BotText(NameTooShort)];
        }
      } else if current == Email {
        if r.validEmail {
          info := info.(email := Some(msg));
          next := Phone;
        } else {
          bot := bot + [BotText(BadEmail)];
        }
      } else if current == Phone {
        if r.validPhone {
          info := info.(phone := Some(msg));
          next := Experience;
        } else {
          bot := bot + [BotText(BadPhone)];
        }
      } else if current == Experience {
        info := info.(years := Some(r.years));
        next := Position;
      } else if current == Position {
        if r.positions != [] {
          info := info.(positions := r.positions);
          next := Location;
        } else {
          bot := bot + [Message(Bot, NoPosition, OptionsList(PositionChoices))];
        }
      } else if current == Location {
        if |msg| >= 2 {
          info := info.(location := Some(msg));
          next := TechStack;
        } else {
          bot := bot + [BotText(LocationTooShort)];
        }
      } else if current == TechStack {
        if r.techs != [] {
          info := info.(techStack := r.techs);
          next := Questions;
        } else {
          bot := bot + [Message(Bot, NoTech, TechPicker)];
        }
      } else if current == Summary {
        next := Ended;
      }
    }

    /** The `questions` branch of `send_message`: it writes the answer to the
        first unanswered question, then takes in the generated questions if
        there were none, asks the next question, or moves to the summary. */
    method AnswerOrAsk(msg: string, generated: seq<Question>) returns (next: Step, bot: seq<Message>)
      requires step == Questions
      modifies this
      ensures Handled(info, next, questions, bot) == HandleQuestions(old(Snapshot()), msg, generated)
      ensures step == old(step) && messages == old(messages)
    {
      next := Questions;
      bot := [];
      if questions != [] {
        var index := AnsweredCount(questions);
        if index < |questions| {
          questions := questions[index := questions[index].(answer := Some(msg))];
        }
      }
      if questions == [] {
        questions := generated;
        bot := bot + [BotText(QuestionsIntro(|generated|))];
        if generated != [] {
          bot := bot + [Message(Bot, AskQuestion(1, |generated|, generated[0].question), QuestionCard)];
        }
      } else {
        var answered := AnsweredCount(questions);
        var total := |questions|;
        if answered < total {
          var nextQuestion := questions[answered];
          bot := bot + [Message(Bot, AskQuestion(answered + 1, total, nextQuestion.question), QuestionCard)];
        } else {
          next := Summary;
        }
      }
    }
  }

  // --------------------------------------------------------------- candidates

  /** The sessions that reached the summary, in store order. */
  function Completed(sessions: seq<State>): (r: seq<State>)
    ensures |r| <= |sessions|
    ensures forall x :: x in r <==> x in sessions && (x.step == Summary || x.step == Ended)
  {
    if sessions == [] then []
    else
      var init := Completed(sessions[..|sessions| - 1]);
      var last := sessions[|sessions| - 1];
      assert sessions == sessions[..|sessions| - 1] + [last];
      if last.step == Summary || last.step == Ended then init + [last] else init
  }

  /** The profiles of `sessions` that have a non-empty name. */
  function Named(sessions: seq<State>): (r: seq<Profile>)
    ensures |r| <= |sessions|
    ensures forall p :: p in r <==> exists x :: x in sessions && x.info == p && x.info.fullName.Some? && x.info.fullName.value != []
  {
    if sessions == [] then []
    else
      var init := Named(sessions[..|sessions| - 1]);
      var last := sessions[|sessions| - 1];
      assert sessions == sessions[..|sessions| - 1] + [last];
      if last.info.fullName.Some? && last.info.fullName.value != [] then init + [last.info] else init
  }

  /** `get_candidates`: the profiles, with a name, among the first 100
      sessions that reached the summary. Every such profile is listed, and
      nothing else is; when at most 100 sessions are finished, that is every
      named, finished session. */
  function Candidates(sessions: seq<State>): (r: seq<Profile>)
    ensures |r| <= 100
    ensures forall p :: p in r ==>
      && p.fullName.Some? && p.fullName.value != []
      && exists x :: x in sessions && x.info == p && (x.step == Summary || x.step == Ended)
    ensures forall x :: x in Take(Completed(sessions), 100) && x.info.fullName.Some? && x.info.fullName.value != [] ==>
      x.info in r
    ensures |Completed(sessions)| <= 100 ==>
      forall x :: x in sessions && (x.step == Summary || x.step == Ended) && x.info.fullName.Some? && x.info.fullName.value != [] ==>
        x.info in r
  {
    var kept := Take(Completed(sessions), 100);
    TakenCompleted(sessions, kept);
    Named(kept)
  }

  /** The first 100 finished sessions are finished sessions, and when there
      are no more than 100 of those, they are all of them. */
  lemma TakenCompleted(sessions: seq<State>, kept: seq<State>)
    requires kept == Take(Completed(sessions), 100)
    ensures forall x :: x in kept ==> x in Completed(sessions)
    ensures |Completed(sessions)| <= 100 ==> forall x :: x in Completed(sessions) ==> x in kept
  {
    forall x | x in kept ensures x in Completed(sessions) {
      var i :| 0 <= i < |kept| && kept[i] == x;
      assert Completed(sessions)[i] == x;
    }
  }
}
