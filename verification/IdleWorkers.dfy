/**
 * Searching, sleeping and waking: the counters and the sleeper list of the state machine
 * and the flags of the workers, one step per atomic access or locked update.  Agents below
 * `workers` are worker threads; the others are threads that submit work and notify.
 */
module IdleWorkers {
  import opened Prelude

  /** Counters are 64 bits wide. */
  const WORD: nat := 0x1_0000_0000_0000_0000

  datatype SearchPC = LoadSearching | IncSearching | RaiseFlag

  datatype ExecutePC = LowerFlag | DecSearching

  datatype SleepPC =
    | SleepLock | DecWorking | DecBoth | PushSelf(last: bool) | SleepUnlock(last: bool) | ResetFlag(last: bool)

  datatype NotifyPC =
    | FirstSearching | FirstWorking | NotifyLock | SecondSearching | SecondWorking
    | AnySleeper | AddWorking | AddSearching | PopSleeper | NotifyUnlock

  datatype CancelPC = CancelLock | Erase | CancelUnlock(found: bool) | CancelFlag(found: bool)

  datatype ContainsPC = ContainsLock | Test | ContainsUnlock(found: bool) | ContainsFlag

  /** `Notifying(true, _)` is a worker that notifies on its way into sleep. */
  datatype PC =
    | Awake
    | Searching(s: SearchPC)
    | Executing(e: ExecutePC)
    | Notifying(asleep: bool, n: NotifyPC)
    | FallingAsleep(f: SleepPC)
    | Asleep
    | Cancelling(c: CancelPC)
    | Inspecting(i: ContainsPC)

  datatype Agent = Agent(flag: bool, pc: PC)

  /** `cancels` is history: how often a worker took itself off the sleeper list. */
  datatype State = State(
    workers: nat, working: nat, searching: nat, sleepers: seq<nat>, lock: Option<nat>,
    agents: seq<Agent>, cancels: nat)

  datatype Op = Search | Execute | WakeOne | Sleep | HasTask | NoTask | Go

  datatype Action = Act(a: nat, op: Op)

  function Inc(x: nat): nat { (x + 1) % WORD }

  function Dec(x: nat): nat { (x - 1) % WORD }

  function SetPC(s: State, a: nat, pc: PC): State
    requires a < |s.agents|
  {
    s.(agents := s.agents[a := s.agents[a].(pc := pc)])
  }

  function SetBoth(s: State, a: nat, flag: bool, pc: PC): State
    requires a < |s.agents|
  {
    s.(agents := s.agents[a := Agent(flag, pc)])
  }

  function RemoveFirst(l: seq<nat>, x: nat): seq<nat> {
    if l == [] then [] else if l[0] == x then l[1..] else [l[0]] + RemoveFirst(l[1..], x)
  }

  function AwakeStep(s: State, a: nat, op: Op): State
    requires a < |s.agents|
  {
    match op
    case WakeOne => SetPC(s, a, Notifying(false, FirstSearching))
    case Search => if a < s.workers && !s.agents[a].flag then SetPC(s, a, Searching(LoadSearching)) else s
    case Execute => if a < s.workers && s.agents[a].flag then SetPC(s, a, Executing(LowerFlag)) else s
    case Sleep => if a < s.workers then SetPC(s, a, FallingAsleep(SleepLock)) else s
    case _ => s
  }

  function SearchStep(s: State, a: nat, p: SearchPC): State
    requires a < |s.agents|
  {
    match p
    case LoadSearching => SetPC(s, a, if 2 * s.searching >= s.workers then Awake else Searching(IncSearching))
    case IncSearching => SetPC(s, a, Searching(RaiseFlag)).(searching := Inc(s.searching))
    case RaiseFlag => SetBoth(s, a, true, Awake)
  }

  function ExecuteStep(s: State, a: nat, p: ExecutePC): State
    requires a < |s.agents|
  {
    match p
    case LowerFlag => SetBoth(s, a, false, Executing(DecSearching))
    case DecSearching =>
      SetPC(s, a, if s.searching == 1 then Notifying(false, FirstSearching) else Awake)
      .(searching := Dec(s.searching))
  }

  function SleepStep(s: State, a: nat, p: SleepPC, op: Op): State
    requires a < |s.agents|
  {
    match p
    case SleepLock => if s.lock.None? then SetPC(s, a, FallingAsleep(DecWorking)).(lock := Some(a)) else s
    case DecWorking =>
      SetPC(s, a, FallingAsleep(if s.agents[a].flag then DecBoth else PushSelf(false))).(working := Dec(s.working))
    case DecBoth => SetPC(s, a, FallingAsleep(PushSelf(s.searching == 1))).(searching := Dec(s.searching))
    case PushSelf(last) => SetPC(s, a, FallingAsleep(SleepUnlock(last))).(sleepers := s.sleepers + [a])
    case SleepUnlock(last) => SetPC(s, a, FallingAsleep(ResetFlag(last))).(lock := None)
    case ResetFlag(last) =>   // wake_up_if_work_pending notifies if it finds work
      SetBoth(s, a, false, if last && op.HasTask? then Notifying(true, FirstSearching) else Asleep)
  }

  function NotifyStep(s: State, a: nat, asleep: bool, p: NotifyPC): State
    requires a < |s.agents|
  {
    var done := if asleep then Asleep else Awake;
    match p
    case FirstSearching => SetPC(s, a, if s.searching == 0 then Notifying(asleep, FirstWorking) else done)
    case FirstWorking => SetPC(s, a, if s.working < s.workers then Notifying(asleep, NotifyLock) else done)
    case NotifyLock => if s.lock.None? then SetPC(s, a, Notifying(asleep, SecondSearching)).(lock := Some(a)) else s
    case SecondSearching =>
      SetPC(s, a, Notifying(asleep, if s.searching == 0 then SecondWorking else NotifyUnlock))
    case SecondWorking =>
      SetPC(s, a, Notifying(asleep, if s.working < s.workers then AnySleeper else NotifyUnlock))
    case AnySleeper => SetPC(s, a, Notifying(asleep, if s.sleepers == [] then NotifyUnlock else AddWorking))
    case AddWorking => SetPC(s, a, Notifying(asleep, AddSearching)).(working := Inc(s.working))
    case AddSearching => SetPC(s, a, Notifying(asleep, PopSleeper)).(searching := Inc(s.searching))
    case PopSleeper =>
      SetPC(s, a, Notifying(asleep, NotifyUnlock))
      .(sleepers := if s.sleepers == [] then [] else s.sleepers[..|s.sleepers| - 1])
    case NotifyUnlock => SetPC(s, a, done).(lock := None)
  }

  function AsleepStep(s: State, a: nat, op: Op): State
    requires a < |s.agents|
  {
    match op
    case HasTask => SetPC(s, a, Cancelling(CancelLock))
    case NoTask => SetPC(s, a, Inspecting(ContainsLock))
    case _ => s
  }

  function CancelStep(s: State, a: nat, p: CancelPC): State
    requires a < |s.agents|
  {
    match p
    case CancelLock => if s.lock.None? then SetPC(s, a, Cancelling(Erase)).(lock := Some(a)) else s
    case Erase =>
      var found := a in s.sleepers;
      SetPC(s, a, Cancelling(CancelUnlock(found)))
      .(sleepers := RemoveFirst(s.sleepers, a), cancels := if found then s.cancels + 1 else s.cancels)
    case CancelUnlock(found) => SetPC(s, a, Cancelling(CancelFlag(found))).(lock := None)
    case CancelFlag(found) => SetBoth(s, a, !found, Awake)
  }

  function ContainsStep(s: State, a: nat, p: ContainsPC): State
    requires a < |s.agents|
  {
    match p
    case ContainsLock => if s.lock.None? then SetPC(s, a, Inspecting(Test)).(lock := Some(a)) else s
    case Test => SetPC(s, a, Inspecting(ContainsUnlock(a in s.sleepers)))
    case ContainsUnlock(found) => SetPC(s, a, if found then Asleep else Inspecting(ContainsFlag)).(lock := None)
    case ContainsFlag => SetBoth(s, a, true, Awake)
  }

  function Next(s: State, act: Action): State {
    if act.a >= |s.agents| then s
    else
      var a := act.a;
      match s.agents[a].pc
      case Awake => AwakeStep(s, a, act.op)
      case Searching(p) => SearchStep(s, a, p)
      case Executing(p) => ExecuteStep(s, a, p)
      case Notifying(asleep, p) => NotifyStep(s, a, asleep, p)
      case FallingAsleep(p) => SleepStep(s, a, p, act.op)
      case Asleep => AsleepStep(s, a, act.op)
      case Cancelling(p) => CancelStep(s, a, p)
      case Inspecting(p) => ContainsStep(s, a, p)
  }

  function Init(workers: nat, others: nat): State {
    State(workers, workers, 0, [], None, seq(workers + others, i => Agent(false, Awake)), 0)
  }

  function Run(s: State, actions: seq<Action>): State
    decreases |actions|
  {
    if actions == [] then s
    else Next(Run(s, actions[..|actions| - 1]), actions[|actions| - 1])
  }
}
