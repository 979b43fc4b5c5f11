/** What both front ends share about a conversation: the fixed sequence of
    steps, the candidate profile the steps fill in. */
module Conversation {
  import opened Wrappers

  /** The steps, in the order the conversation visits them. */
  datatype Step =
    | Greeting | Name | Email | Phone | Experience | Position
    | Location | TechStack | Questions | Summary | Ended

  const StepOrder: seq<Step> :=
    [Greeting, Name, Email, Phone, Experience, Position, Location, TechStack, Questions, Summary, Ended]

  /** Position of a step in `StepOrder`. */
  function StepIndex(s: Step): (i: nat)
    ensures i < |StepOrder| && StepOrder[i] == s
  {
    match s
    case Greeting => 0
    case Name => 1
    case Email => 2
    case Phone => 3
    case Experience => 4
    case Position => 5
    case Location => 6
    case TechStack => 7
    case Questions => 8
    case Summary => 9
    case Ended => 10
  }

  /** The step after `s` in the fixed order (`Ended` is terminal). */
  function NextStep(s: Step): (n: Step)
    ensures s != Ended ==> StepIndex(n) == StepIndex(s) + 1
    ensures s == Ended ==> n == Ended
  {
    if s == Ended then Ended else StepOrder[StepIndex(s) + 1]
  }

  /** The candidate profile. A list the server leaves unset is the empty list
      here: the steps only ever store non-empty lists. */
  datatype Profile = Profile(
    fullName: Option<string>,
    email: Option<string>,
    phone: Option<string>,
    years: Option<nat>,
    positions: seq<string>,
    location: Option<string>,
    techStack: seq<string>)

  const EmptyProfile := Profile(None, None, None, None, [], None, [])

  /** The profile field a step fills in, if any. */
  datatype Field = FullName | EmailField | PhoneField | Years | Positions | LocationField | Techs

  /** `p` and `q` agree on every field except perhaps `f`. */
  predicate SameExcept(p: Profile, q: Profile, f: Field) {
    && (f != FullName ==> p.fullName == q.fullName)
    && (f != EmailField ==> p.email == q.email)
    && (f != PhoneField ==> p.phone == q.phone)
    && (f != Years ==> p.years == q.years)
    && (f != Positions ==> p.positions == q.positions)
    && (f != LocationField ==> p.location == q.location)
    && (f != Techs ==> p.techStack == q.techStack)
  }

  /** The field owned by each profile-collecting step. */
  function OwnedField(s: Step): Option<Field> {
    match s
    case Name => Some(FullName)
    case Email => Some(EmailField)
    case Phone => Some(PhoneField)
    case Experience => Some(Years)
    case Position => Some(Positions)
    case Location => Some(LocationField)
    case TechStack => Some(Techs)
    case _ => None
  }
}
