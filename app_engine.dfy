/** The conversation engine of the Streamlit front end: the session state,
    the greeting, and the turn taken for every line the candidate submits.
    The calls to the model made while generating the questions are inputs
    to the turn (see `AppQuestions`). */
module AppEngine {
  import opened Wrappers
  import opened Text
  import opened Validators
  import opened Conversation
  import opened AppQuestions

  // ---------------------------------------------------------------- messages

  datatype Role = Bot | User

  /** `message_type` */
  datatype Kind = PlainText | Html

  /** What a message says. Bot texts are fixed templates, so each is named by
      the values it interpolates; the candidate's text is kept verbatim. */
  datatype Content =
    | Welcome
    | Goodbye
    | NiceToMeet(name: string)
    | AskPhone
    | AskExperience
    | AskPosition
    | AskLocation
    | AskTechStack
    | StackIntro(techs: seq<string>, count: nat)
    | AskQuestion(number: nat, total: nat, tech: string, question: string)
    | NextQuestion(number: nat, total: nat, tech: string, question: string)
    | Reask(verdict: Verdict, question: string)
    | SummaryOf(info: Profile, answered: nat)
    | Farewell
    | NameTooShort
    | BadEmail
    | BadPhone
    | NoYears
    | NoPosition
    | LocationTooShort
    | NoTech
    | UserText(text: string)

  datatype Message = Message(role: Role, content: Content, kind: Kind)

  function BotSays(c: Content): Message {
    Message(Bot, c, PlainText)
  }

  function UserSays(text: string): Message {
    Message(User, UserText(text), PlainText)
  }

  /** An entry of `answers`. */
  datatype Answer = Answer(question: string, answer: string, sentiment: Sentiment)

  // -------------------------------------------------------------------- exit

  const AppExitKeywords: seq<string> := ["bye", "goodbye", "exit", "quit", "end", "stop", "no thanks", "done"]

  /** `check_exit_intent`: some keyword occurs anywhere in the lowercased
      text, which is not stripped. */
  predicate AppExitIntent(text: string): (r: bool)
    ensures r <==> exists j, i :: 0 <= j < |AppExitKeywords| && OccursAt(Lower(text), AppExitKeywords[j], i)
  {
    ContainsAnyOccurs(Lower(text), AppExitKeywords);
    ContainsAny(Lower(text), AppExitKeywords)
  }

  /** "no thanks" ends the session here, while "thanks" alone does not. */
  lemma NoThanksExits(text: string, i: int)
    requires OccursAt(Lower(text), "no thanks", i)
    ensures AppExitIntent(text)
  {
    ContainsSpec(Lower(text), "no thanks");
    assert AppExitKeywords[6] == "no thanks";
  }

  /** "thanks" on its own is no exit: no keyword occurs in it. */
  lemma ThanksAloneStays()
    ensures !AppExitIntent("thanks")
  {
    var t := "thanks";
    assert Lower(t) == t;
    forall j | 0 <= j < |AppExitKeywords| ensures !Contains(t, AppExitKeywords[j]) {
      ContainsSpec(t, AppExitKeywords[j]);
      var k := AppExitKeywords[j];
      forall i ensures !OccursAt(t, k, i) {
        if 0 <= i && i + |k| <= |t| {
          assert t[i..i + |k|][0] == t[i];
        }
      }
    }
  }

  // ------------------------------------------------------------------ state

  /** The part of `st.session_state` the conversation uses. */
  datatype AppState = AppState(
    info: Profile,
    step: Step,
    questions: seq<AppQuestion>,
    idx: nat,
    answers: seq<Answer>,
    messages: seq<Message>)

  /** `init_session_state` */
  const Initial := AppState(EmptyProfile, Greeting, [], 0, [], [])

  /** What the step branches of `process_user_input` read off the input line.
      Each branch only looks at its own fields; computing them all up front
      changes nothing, as every one of them is total. */
  datatype Input = Input(
    raw: string,
    exit: bool,
    stripped: string,
    validEmail: bool,
    validPhone: bool,
    years: Option<nat>,
    positions: seq<string>,
    techs: seq<string>,
    verdict: Verdict,
    sentiment: Sentiment)

  function ReadInput(raw: string): Input {
    var stripped := Strip(raw);
    Input(raw, AppExitIntent(raw), stripped, ValidEmail(stripped), ValidPhone(stripped), ParseYears(raw),
      ParseChoices(raw, PositionOptions, PositionMinLength), ParseChoices(raw, TechStackOptions, TechMinLength),
      ValidateAnswer(raw), AnalyzeSentiment(raw))
  }

  /** `process_user_input` on state `s` for the line read as `r`;
      `generated` is what `generate_technical_questions` returns if this turn
      calls it. At `questions` the source indexes the question list with
      `current_question_idx`, which must therefore be in range. */
  function AppTurn(s: AppState, r: Input, generated: seq<AppQuestion>): AppState
    requires s.step == Questions ==> s.idx < |s.questions|
  {
    var user := UserSays(r.raw);
    var info := s.info;
    if r.exit then
      s.(step := Ended, messages := s.messages + [user, BotSays(Goodbye)])
    else
      match s.step
      case Name =>
        if |r.stripped| >= 2 then
          s.(info := info.(fullName := Some(r.stripped)), step := Email,
             messages := s.messages + [user, BotSays(NiceToMeet(r.raw))])
        else s.(messages := s.messages + [user, BotSays(NameTooShort)])
      case Email =>
        if r.validEmail then
          s.(info := info.(email := Some(r.stripped)), step := Phone, messages := s.messages + [user, BotSays(AskPhone)])
        else s.(messages := s.messages + [user, BotSays(BadEmail)])
      case Phone =>
        if r.validPhone then
          s.(info := info.(phone := Some(r.stripped)), step := Experience,
             messages := s.messages + [user, BotSays(AskExperience)])
        else s.(messages := s.messages + [user, BotSays(BadPhone)])
      case Experience =>
        if r.years.Some? then
          s.(info := info.(years := r.years), step := Position, messages := s.messages + [user, BotSays(AskPosition)])
        else s.(messages := s.messages + [user, BotSays(NoYears)])
      case Position =>
        if r.positions != [] then
          s.(info := info.(positions := r.positions), step := Location,
             messages := s.messages + [user, BotSays(AskLocation)])
        else s.(messages := s.messages + [user, BotSays(NoPosition)])
      case Location =>
        if |r.stripped| >= 2 then
          s.(info := info.(location := Some(r.stripped)), step := TechStack,
             messages := s.messages + [user, BotSays(AskTechStack)])
        else s.(messages := s.messages + [user, BotSays(LocationTooShort)])
      case TechStack =>
        if r.techs != [] then
          var intro := Message(Bot, StackIntro(r.techs, |generated|), Html);
          var first := if generated != [] then [BotSays(FirstQuestion(generated))] else [];
          s.(info := info.(techStack := r.techs), questions := generated, idx := 0,
             step := if generated != [] then Questions else TechStack,
             messages := s.messages + [user, intro] + first)
        else s.(messages := s.messages + [user, BotSays(NoTech)])
      case Questions =>
        var q := s.questions[s.idx];
        if r.verdict != Accepted then
          s.(messages := s.messages + [user, BotSays(Reask(r.verdict, q.question))])
        else
          var answers := s.answers + [Answer(q.question, r.raw, r.sentiment)];
          var idx := s.idx + 1;
          if idx < |s.questions| then
            var next := s.questions[idx];
            s.(answers := answers, idx := idx,
               messages := s.messages + [user, BotSays(NextQuestion(next.number, |s.questions|, next.tech, next.question))])
          else
            s.(answers := answers, idx := idx, step := Summary,
               messages := s.messages + [user, BotSays(SummaryOf(info, |answers|))])
      case Summary =>
        s.(step := Ended, messages := s.messages + [user, BotSays(Farewell)])
      case _ => s
  }

  /** The first question, as the tech-stack step asks it. */
  function FirstQuestion(qs: seq<AppQuestion>): Content
    requires qs != []
  {
    AskQuestion(qs[0].number, |qs|, qs[0].tech, qs[0].question)
  }

  /** Whether the transcript holds a bot message. */
  predicate HasBotMessage(messages: seq<Message>) {
    exists i :: 0 <= i < |messages| && messages[i].role == Bot
  }

  /** `handle_greeting`: greet and ask for the name, unless the bot has
      spoken already. */
  function Greet(s: AppState): (t: AppState)
    ensures HasBotMessage(t.messages)
    ensures !HasBotMessage(s.messages) ==> t == s.(step := Name, messages := s.messages + [BotSays(Welcome)])
    ensures HasBotMessage(s.messages) ==> t == s
  {
    if HasBotMessage(s.messages) then s
    else
      var t := s.(step := Name, messages := s.messages + [BotSays(Welcome)]);
      assert t.messages[|s.messages|].role == Bot;
      t
  }

  /** Greeting a new session asks for the name; greeting again does
      nothing. */
  lemma GreetOnce()
    ensures Greet(Initial) == Initial.(step := Name, messages := [BotSays(Welcome)])
    ensures Greet(Greet(Initial)) == Greet(Initial)
  {
    assert !HasBotMessage(Initial.messages);
  }

  // --------------------------------------------------------------- invariant

  /** From the tech-stack turn on, the answers are exactly the first `idx`
      questions answered; at `questions` there is a question left to ask;
      before that step nothing is answered. */
  predicate Inv(s: AppState) {
    && |s.answers| == s.idx <= |s.questions|
    && (s.step == Questions ==> s.idx < |s.questions|)
    && (StepIndex(s.step) < StepIndex(Questions) ==> s.idx == 0 && s.answers == [])
  }

  lemma InitialInv()
    ensures Inv(Initial) && Inv(Greet(Initial))
  {
    GreetOnce();
  }

  lemma GreetInv(s: AppState)
    requires Inv(s) && s.step == Greeting
    ensures Inv(Greet(s))
  {
  }

  // -------------------------------------------------------------- properties

  /** An exit keyword wins over every step: the line and the goodbye are
      added, the session ends, and nothing else changes. */
  lemma AppExitPrecedence(s: AppState, r: Input, generated: seq<AppQuestion>)
    requires s.step == Questions ==> s.idx < |s.questions|
    requires r.exit
    ensures var t := AppTurn(s, r, generated);
      t == s.(step := Ended, messages := s.messages + [UserSays(r.raw), BotSays(Goodbye)])
  {
  }

  /** Whether a profile step accepts the line read as `r`. */
  predicate Accepts(step: Step, r: Input) {
    match step
    case Name => |r.stripped| >= 2
    case Email => r.validEmail
    case Phone => r.validPhone
    case Experience => r.years.Some?
    case Position => r.positions != []
    case Location => |r.stripped| >= 2
    case TechStack => r.techs != []
    case _ => false
  }

  /** The value an accepting profile step stores: the stripped line for the
      text fields, the parsed value for the others. */
  predicate Stores(step: Step, info: Profile, r: Input) {
    match step
    case Name => info.fullName == Some(r.stripped)
    case Email => info.email == Some(r.stripped)
    case Phone => info.phone == Some(r.stripped)
    case Experience => info.years == r.years
    case Position => info.positions == r.positions
    case Location => info.location == Some(r.stripped)
    case TechStack => info.techStack == r.techs
    case _ => false
  }

  /** A profile step either accepts the line, stores its field, changes no
      other field and moves on (the tech-stack step only when questions
      came back), or rejects it: the line and one error message are added
      and nothing else changes. The answers are untouched either way. */
  lemma AppProfileStep(s: AppState, r: Input, generated: seq<AppQuestion>)
    requires OwnedField(s.step).Some? && !r.exit
    ensures var t := AppTurn(s, r, generated);
      && t.answers == s.answers
      && |t.messages| >= |s.messages| + 2 && t.messages[..|s.messages|] == s.messages
      && t.messages[|s.messages|] == UserSays(r.raw)
      && (Accepts(s.step, r) ==>
            && Stores(s.step, t.info, r)
            && SameExcept(s.info, t.info, OwnedField(s.step).value)
            && (s.step != TechStack ==> t.step == NextStep(s.step))
            && (s.step == TechStack ==>
                  t.questions == generated && t.idx == 0 && (t.step == Questions <==> generated != [])))
      && (!Accepts(s.step, r) ==>
            && t == s.(messages := s.messages + [UserSays(r.raw), t.messages[|s.messages| + 1]])
            && t.messages[|s.messages| + 1].role == Bot)
  {
    if s.step == TechStack {
      TechStackStep(s, r, generated);
    }
  }

  lemma TechStackStep(s: AppState, r: Input, generated: seq<AppQuestion>)
    requires s.step == TechStack && !r.exit
    ensures var t := AppTurn(s, r, generated);
      && t.answers == s.answers
      && |t.messages| >= |s.messages| + 2 && t.messages[..|s.messages|] == s.messages
      && t.messages[|s.messages|] == UserSays(r.raw)
      && (r.techs != [] ==>
            && t.info == s.info.(techStack := r.techs)
            && t.questions == generated && t.idx == 0 && (t.step == Questions <==> generated != []))
      && (r.techs == [] ==> t == s.(messages := s.messages + [UserSays(r.raw), BotSays(NoTech)]))
  {
    var user := UserSays(r.raw);
    if r.techs != [] {
      var intro := Message(Bot, StackIntro(r.techs, |generated|), Html);
      var first := if generated != [] then [BotSays(FirstQuestion(generated))] else [];
      var t := AppTurn(s, r, generated);
      assert t.messages == s.messages + [user, intro] + first;
      assert (s.messages + [user, intro] + first)[..|s.messages|] == s.messages;
    }
  }

  /** Unlike the back end, the experience step rejects a line without a
      digit that is not one of the bucket labels. */
  lemma ExperienceNeedsDigits(s: AppState, raw: string, generated: seq<AppQuestion>)
    requires s.step == Experience && !AppExitIntent(raw)
    ensures var t := AppTurn(s, ReadInput(raw), generated);
      && (t.step == Experience <==> NoDigit(raw))
      && (raw in ExperienceBuckets ==> t.info.years == Some(ExperienceBuckets[raw]))
      && (raw !in ExperienceBuckets ==> t.info.years == (if NoDigit(raw) then s.info.years else FirstNumber(raw)))
  {
    var r := ReadInput(raw);
    assert r.years == ParseYears(raw) && !r.exit;
    ExperienceTurn(s, r, generated);
  }

  /** The experience step moves on exactly when the line gives a number of
      years, and records that number. */
  lemma ExperienceTurn(s: AppState, r: Input, generated: seq<AppQuestion>)
    requires s.step == Experience && !r.exit
    ensures var t := AppTurn(s, r, generated);
      && (t.step == Experience <==> r.years.None?)
      && t.info.years == (if r.years.Some? then r.years else s.info.years)
  {
  }

  /** An invalid answer leaves the question index, the answers and the step
      as they were, and asks the same question again. */
  lemma InvalidAnswerKeepsState(s: AppState, r: Input, generated: seq<AppQuestion>)
    requires s.step == Questions && s.idx < |s.questions| && !r.exit && r.verdict != Accepted
    ensures AppTurn(s, r, generated) ==
      s.(messages := s.messages + [UserSays(r.raw), BotSays(Reask(r.verdict, s.questions[s.idx].question))])
  {
  }

  /** A valid answer appends exactly one entry, for the question asked, and
      moves the index on by one; the step becomes `summary` exactly when the
      index reaches the number of questions, and the summary reports all the
      answers. */
  lemma ValidAnswerAdvances(s: AppState, r: Input, generated: seq<AppQuestion>)
    requires s.step == Questions && s.idx < |s.questions| && !r.exit && r.verdict == Accepted
    ensures var t := AppTurn(s, r, generated);
      && t.answers == s.answers + [Answer(s.questions[s.idx].question, r.raw, r.sentiment)]
      && t.idx == s.idx + 1
      && t.questions == s.questions && t.info == s.info
      && (t.step == Summary <==> t.idx == |s.questions|)
      && (t.step != Summary ==> t.step == Questions)
      && (t.step == Summary ==> t.messages[|t.messages| - 1] == BotSays(SummaryOf(s.info, |t.answers|)))
  {
  }

  /** Any line at `summary` that is not an exit ends the session. */
  lemma AppSummaryEnds(s: AppState, r: Input, generated: seq<AppQuestion>)
    requires s.step == Summary && !r.exit
    ensures var t := AppTurn(s, r, generated);
      t.step == Ended && t.info == s.info && t.answers == s.answers
  {
  }

  /** A line at `greeting` or `ended` that is not an exit changes nothing. */
  lemma IdleSteps(s: AppState, r: Input, generated: seq<AppQuestion>)
    requires (s.step == Greeting || s.step == Ended) && !r.exit
    ensures AppTurn(s, r, generated) == s
  {
  }

  /** A turn stays on its step, moves to the next one, or ends the session,
      and the transcript only grows. */
  lemma AppStepsInOrder(s: AppState, r: Input, generated: seq<AppQuestion>)
    requires s.step == Questions ==> s.idx < |s.questions|
    ensures var t := AppTurn(s, r, generated);
      && (t.step == s.step || t.step == NextStep(s.step) || t.step == Ended)
      && StepIndex(s.step) <= StepIndex(t.step)
      && |t.messages| >= |s.messages| && t.messages[..|s.messages|] == s.messages
  {
  }

  /** Every turn keeps the invariant, whatever the generator returned. */
  lemma AppInvPreserved(s: AppState, r: Input, generated: seq<AppQuestion>)
    requires Inv(s)
    ensures Inv(AppTurn(s, r, generated))
  {
  }

  /** The generated questions matter only to a tech-stack turn that accepts
      the line. */
  lemma AppTurnIgnoresGenerated(s: AppState, r: Input, generated: seq<AppQuestion>)
    requires s.step == Questions ==> s.idx < |s.questions|
    requires !(s.step == TechStack && !r.exit && r.techs != [])
    ensures AppTurn(s, r, generated) == AppTurn(s, r, [])
  {
  }

  // ---------------------------------------------------------------- progress

  const StepNames: seq<string> :=
    ["greeting", "name", "email", "phone", "experience", "position", "location", "tech_stack", "questions", "summary", "ended"]

  function StepName(step: Step): string {
    StepNames[StepIndex(step)]
  }

  /** `steps.index(name)`: the first position of `name` in `names`. */
  function IndexOf(names: seq<string>, name: string): (i: nat)
    requires name in names
    ensures i < |names| && names[i] == name
    ensures forall j :: 0 <= j < i ==> names[j] != name
  {
    if names[0] == name then 0 else 1 + IndexOf(names[1..], name)
  }

  /** `get_progress` for the step called `name`; `len(steps)` is 11, and the
      source's `int((i / 11) * 100)` is `i * 100 / 11`, as no `i` in 1..10
      makes the quotient a whole number. */
  function Progress(name: string): (p: nat)
    ensures name !in StepNames ==> p == 0
  {
    var i := if name in StepNames then IndexOf(StepNames, name) else 0;
    i * 100 / 11
  }

  lemma StepNamesDistinct()
    ensures |StepNames| == |StepOrder| == 11
    ensures forall i, j :: 0 <= i < j < |StepNames| ==> StepNames[i] != StepNames[j]
  {
  }

  /** The progress of a step is its position times 100, divided by 11: from
      0 at the greeting to 90 once ended, and strictly increasing along the
      steps. */
  lemma ProgressOfStep(step: Step, later: Step)
    ensures Progress(StepName(step)) == StepIndex(step) * 100 / 11
    ensures Progress(StepName(step)) <= 90
    ensures StepIndex(step) < StepIndex(later) ==> Progress(StepName(step)) < Progress(StepName(later))
  {
    StepNamesDistinct();
    ProgressAt(step);
    ProgressAt(later);
  }

  lemma ProgressAt(step: Step)
    requires forall i, j :: 0 <= i < j < |StepNames| ==> StepNames[i] != StepNames[j]
    ensures Progress(StepName(step)) == StepIndex(step) * 100 / 11
  {
    var i := StepIndex(step);
    var k := IndexOf(StepNames, StepNames[i]);
    assert k == i;
  }

  // ------------------------------------------------------------------ session

  /** `st.session_state` as the Streamlit script mutates it. */
  class AppSession {
    var info: Profile
    var step: Step
    var questions: seq<AppQuestion>
    var idx: nat
    var answers: seq<Answer>
    var messages: seq<Message>

    function Snapshot(): AppState
      reads this
    {
      AppState(info, step, questions, idx, answers, messages)
    }

    /** `init_session_state` */
    constructor ()
      ensures Snapshot() == Initial
    {
      info := EmptyProfile;
      step := Greeting;
      questions := [];
      idx := 0;
      answers := [];
      messages := [];
    }

    /** `add_message` */
    method AddMessage(role: Role, content: Content, kind: Kind)
      modifies this
      ensures Snapshot() == old(Snapshot()).(messages := old(messages) + [Message(role, content, kind)])
    {
      messages := messages + [Message(role, content, kind)];
    }

    /** `handle_greeting` */
    method HandleGreeting()
      modifies this
      ensures Snapshot() == Greet(old(Snapshot()))
    {
      if !HasBotMessage(messages) {
        AddMessage(Bot, Welcome, PlainText);
        step := Name;
      }
    }

    /** `show_summary`: the profile and the number of answers. */
    method ShowSummary()
      modifies this
      ensures Snapshot() == old(Snapshot()).(messages := old(messages) + [BotSays(SummaryOf(old(info), |old(answers)|))])
    {
      AddMessage(Bot, SummaryOf(info, |answers|), PlainText);
    }

    /** `process_user_input`. The questions are generated before the line is
        handled, and only for a tech-stack line that lists a technology: the
        same condition under which the source generates them. */
    method ProcessUserInput(input: string, configured: bool, replies: seq<Option<string>>)
      requires step == Questions ==> idx < |questions|
      modifies this
      ensures var r := ReadInput(input);
        Snapshot() == AppTurn(old(Snapshot()), r, Generate(r.techs, configured, replies))
      ensures old(Inv(Snapshot())) ==> Inv(Snapshot())
    {
      var r := ReadInput(input);
      var generated: seq<AppQuestion> := [];
      if step == TechStack && !r.exit && r.techs != [] {
        generated := GenerateQuestions(r.techs, configured, replies);
      } else {
        AppTurnIgnoresGenerated(Snapshot(), r, Generate(r.techs, configured, replies));
      }
      Advance(r, generated);
    }

    /** `process_user_input` once the line is read and the generator has
        run, if it had to. */
    method Advance(r: Input, generated: seq<AppQuestion>)
      requires step == Questions ==> idx < |questions|
      modifies this
      ensures Snapshot() == AppTurn(old(Snapshot()), r, generated)
      ensures old(Inv(Snapshot())) ==> Inv(Snapshot())
    {
      ghost var s := Snapshot();
      if Inv(s) {
        AppInvPreserved(s, r, generated);
      }
      if r.exit {
        AddMessage(User, UserText(r.raw), PlainText);
        AddMessage(Bot, Goodbye, PlainText);
        step := Ended;
        return;
      }
      if step == Questions {
        AnswerQuestion(r);
      } else if step == TechStack {
        TakeTechStack(r, generated);
      } else if step == Summary {
        AddMessage(User, UserText(r.raw), PlainText);
        AddMessage(Bot, Farewell, PlainText);
        step := Ended;
      } else if step != Greeting && step != Ended {
        CollectProfile(r);
      }
    }

    /** The name, email, phone, experience, position and location branches. */
    method CollectProfile(r: Input)
      requires OwnedField(step).Some? && step != TechStack && !r.exit
      modifies this
      ensures Snapshot() == AppTurn(old(Snapshot()), r, [])
    {
      var user := r.raw;
      if step == Name {
        if |r.stripped| >= 2 {
          info := info.(fullName := Some(r.stripped));
          AddMessage(User, UserText(user), PlainText);
          AddMessage(Bot, NiceToMeet(user), PlainText);
          step := Email;
        } else {
          AddMessage(User, UserText(user), PlainText);
          AddMessage(Bot, NameTooShort, PlainText);
        }
      } else if step == Email {
        if r.validEmail {
          info := info.(email := Some(r.stripped));
          AddMessage(User, UserText(user), PlainText);
          AddMessage(Bot, AskPhone, PlainText);
          step := Phone;
        } else {
          AddMessage(User, UserText(user), PlainText);
          AddMessage(Bot, BadEmail, PlainText);
        }
      } else if step == Phone {
        if r.validPhone {
          info := info.(phone := Some(r.stripped));
          AddMessage(User, UserText(user), PlainText);
          AddMessage(Bot, AskExperience, PlainText);
          step := Experience;
        } else {
          AddMessage(User, UserText(user), PlainText);
          AddMessage(Bot, BadPhone, PlainText);
        }
      } else if step == Experience {
        if r.years.None? {
          AddMessage(User, UserText(user), PlainText);
          AddMessage(Bot, NoYears, PlainText);
          return;
        }
        info := info.(years := r.years);
        AddMessage(User, UserText(user), PlainText);
        AddMessage(Bot, AskPosition, PlainText);
        step := Position;
      } else if step == Position {
        if r.positions != [] {
          info := info.(positions := r.positions);
          AddMessage(User, UserText(user), PlainText);
          AddMessage(Bot, AskLocation, PlainText);
          step := Location;
        } else {
          AddMessage(User, UserText(user), PlainText);
          AddMessage(Bot, NoPosition, PlainText);
        }
      } else {
        if |r.stripped| >= 2 {
          info := info.(location := Some(r.stripped));
          AddMessage(User, UserText(user), PlainText);
          AddMessage(Bot, AskTechStack, PlainText);
          step := TechStack;
        } else {
          AddMessage(User, UserText(user), PlainText);
          AddMessage(Bot, LocationTooShort, PlainText);
        }
      }
    }

    /** The tech-stack branch: store the list, take in the generated
        questions, and ask the first one. */
    method TakeTechStack(r: Input, generated: seq<AppQuestion>)
      requires step == TechStack && !r.exit
      modifies this
      ensures Snapshot() == AppTurn(old(Snapshot()), r, generated)
    {
      if r.techs != [] {
        info := info.(techStack := r.techs);
        AddMessage(User, UserText(r.raw), PlainText);
        questions := generated;
        idx := 0;
        AddMessage(Bot, StackIntro(r.techs, |generated|), Html);
        if generated != [] {
          AddMessage(Bot, FirstQuestion(generated), PlainText);
          step := Questions;
        }
      } else {
        AddMessage(User, UserText(r.raw), PlainText);
        AddMessage(Bot, NoTech, PlainText);
      }
    }

    /** The questions branch: re-ask after an invalid answer, otherwise
        record it and ask the next question or show the summary. */
    method AnswerQuestion(r: Input)
      requires step == Questions && idx < |questions| && !r.exit
      modifies this
      ensures Snapshot() == AppTurn(old(Snapshot()), r, [])
    {
      if r.verdict != Accepted {
        AddMessage(User, UserText(r.raw), PlainText);
        AddMessage(Bot, Reask(r.verdict, questions[idx].question), PlainText);
        return;
      }
      answers := answers + [Answer(questions[idx].question, r.raw, r.sentiment)];
      AddMessage(User, UserText(r.raw), PlainText);
      idx := idx + 1;
      if idx < |questions| {
        var next := questions[idx];
        AddMessage(Bot, NextQuestion(next.number, |questions|, next.tech, next.question), PlainText);
      } else {
        ShowSummary();
        step := Summary;
      }
    }
  }
}
