/** Every interleaving of one TUN Start with any number of Stops (client/tun/tun.go, client/tun/teardown.go). Each step
    is one section under `mu`, one side effect, or one wait. */
module TunRuns {
  import opened Options
  import opened Tun

  type Tid = nat

  datatype StartPc =
    | NotEntered | FirstCheck | Preparing
    | EngineStarting | EngineFailed | EngineStarted | SecondCheck
    | DnsStep | DnsSaved | DeviceStep | Creating
    | LastCheck | Succeeding | Failing
    | Undoing(plan: seq<Act>) | ClosingDone | Returned

  datatype StopPc =
    | Queued                                  // waits for stopMu
    | Cancelling | Waiting                    // waits for done
    | Reading(waited: bool)
    | Deciding(waited: bool, owner: Owner, running: bool)
    | Taking(waited: bool, owner: Owner)
    | StopUndoing(waited: bool, plan: seq<Act>)
    | Left(waited: bool)

  /** `att` is what Start has attempted, `log` everything that happened to the system. */
  datatype State = State(
    c: Config, m: Fields, start: StartPc, stops: map<Tid, StopPc>, stopMu: Option<Tid>, att: seq<Act>, log: seq<Act>)

  /** `ok` is the outcome of the platform call that the step makes, if it makes one. */
  datatype Label = StartStep(ok: bool) | Call(t: Tid) | StopStep(t: Tid)

  function Initial(c: Config): State {
    State(c, NEW, NotEntered, map[], None, [], [])
  }

  predicate StopEnabled(s: State, pc: StopPc) {
    match pc
    case Queued => s.stopMu == None
    case Waiting => s.m.done
    case Left(_) => false
    case _ => true
  }

  predicate Enabled(s: State, l: Label) {
    match l
    case StartStep(_) => s.start != Returned
    case Call(t) => t !in s.stops
    case StopStep(t) => t in s.stops && StopEnabled(s, s.stops[t])
  }

  /** What a step of Start writes under `mu`. */
  function StartFields(c: Config, m: Fields, pc: StartPc): Fields {
    if pc.NotEntered? then m.(started := true, owner := c.owner)
    else if pc.EngineStarted? then m.(engineUp := true)
    else if pc.DnsSaved? then m.(dnsTouched := true)
    else if pc.DeviceStep? then m.(deviceUp := true)
    else if pc.Succeeding? then m.(running := true)
    else if pc.Failing? then Taken(m)
    else if pc.ClosingDone? then m.(done := true)
    else m
  }

  /** The platform call that a step of Start makes on its way up. */
  function StartAttempts(pc: StartPc, ok: bool): seq<Act> {
    if pc.EngineStarting? then [EngineStart(ok)]
    else if pc.EngineFailed? then [EngineStop]
    else if pc.DnsStep? then [SaveDns]
    else if pc.Creating? then [CreateDev(ok)]
    else []
  }

  function FirstOf(plan: seq<Act>): seq<Act> {
    if plan == [] then [] else [plan[0]]
  }

  function StartGoes(c: Config, m: Fields, pc: StartPc, ok: bool): StartPc {
    match pc
    case NotEntered => FirstCheck
    case FirstCheck => if m.cancelled then Failing else Preparing
    case Preparing => if ok then EngineStarting else Failing
    case EngineStarting => if ok then EngineStarted else EngineFailed
    case EngineFailed => Failing
    case EngineStarted => SecondCheck
    case SecondCheck =>
      if m.cancelled then Failing else if c.owner != Local then LastCheck else if c.managesDns then DnsStep
          else DeviceStep
    case DnsStep => DnsSaved
    case DnsSaved => DeviceStep
    case DeviceStep => Creating
    case Creating => if ok then LastCheck else Failing
    case LastCheck => if m.cancelled then Failing else Succeeding
    case Succeeding => ClosingDone
    case Failing => Undoing(Plan(c, m, c.owner))
    case Undoing(plan) => if plan == [] then ClosingDone else Undoing(plan[1..])
    case ClosingDone => Returned
    case Returned => Returned
  }

  function StartNext(s: State, ok: bool): State {
    var acts := StartAttempts(s.start, ok);
    s.(m := StartFields(s.c, s.m, s.start), start := StartGoes(s.c, s.m, s.start, ok),
       att := s.att + acts, log := s.log + acts + if s.start.Undoing? then FirstOf(s.start.plan) else [])
  }

  function StopFields(m: Fields, pc: StopPc): Fields {
    if pc.Cancelling? then m.(cancelled := true)
    else if pc.Reading? then m.(running := false)
    else if pc.Taking? then Taken(m)
    else m
  }

  function StopGoes(c: Config, m: Fields, pc: StopPc): StopPc {
    match pc
    case Queued => Cancelling
    case Cancelling => if m.started then Waiting else Reading(false)
    case Waiting => Reading(true)
    case Reading(waited) => Deciding(waited, m.owner, m.running)
    case Deciding(waited, owner, running) =>
      if !running && !(m.engineUp || m.deviceUp || m.dnsTouched) then Left(waited) else Taking(waited, owner)
    case Taking(waited, owner) => StopUndoing(waited, Plan(c, m, owner))
    case StopUndoing(waited, plan) => if plan == [] then Left(waited) else StopUndoing(waited, plan[1..])
    case Left(waited) => Left(waited)
  }

  function StopNext(s: State, t: Tid): State
    requires t in s.stops
  {
    var pc := s.stops[t];
    var pc' := StopGoes(s.c, s.m, pc);
    s.(m := StopFields(s.m, pc), stops := s.stops[t := pc'],
       stopMu := if pc.Queued? then Some(t) else if pc'.Left? then None else s.stopMu,
       log := s.log + if pc.StopUndoing? then FirstOf(pc.plan) else [])
  }

  function Step(s: State, l: Label): State
    requires Enabled(s, l)
  {
    match l
    case StartStep(ok) => StartNext(s, ok)
    case Call(t) => s.(stops := s.stops[t := Queued])
    case StopStep(t) => StopNext(s, t)
  }

  // ---------------------------------------------------------------- invariant

  /** Start is between two of its own attempts or has not come so far; nobody undoes anything yet. */
  predicate Attempting(pc: StartPc) {
    !pc.Undoing? && !pc.ClosingDone? && !pc.Returned?
  }

  /** Start has not come past its first check. */
  predicate Early(pc: StartPc) {
    pc.NotEntered? || pc.FirstCheck?
  }

  predicate CreateIn(att: seq<Act>) {
    CreateDev(true) in att || CreateDev(false) in att
  }

  /** What Start has attempted at each of its points, and what it has recorded. */
  predicate StartOk(c: Config, m: Fields, pc: StartPc, att: seq<Act>) {
    && (m.started <==> !pc.NotEntered?) && (m.started ==> m.owner == c.owner)
    && (m.done <==> pc.Returned?)
    && (Attempting(pc) ==> !m.tornDown && !m.running)
    && (pc.Undoing? ==> m.tornDown && !m.running)
    && (m.tornDown ==> !m.engineUp && !m.deviceUp)
    && match pc
       case NotEntered => att == [] && FlagsMatch(c, m, att)
       case FirstCheck => att == [] && FlagsMatch(c, m, att)
       case Preparing => att == [] && FlagsMatch(c, m, att)
       case EngineStarting => att == [] && FlagsMatch(c, m, att)
       case EngineFailed => att == [EngineStart(false)] && FlagsMatch(c, m, att)
       case EngineStarted => att == [EngineStart(true)] && FlagsMatch(c, m.(engineUp := true), att)
       case SecondCheck => att == [EngineStart(true)] && FlagsMatch(c, m, att)
       case DnsStep => att == [EngineStart(true)] && FlagsMatch(c, m, att) && c == Config(Local, true)
       case DnsSaved =>
         att == [EngineStart(true), SaveDns] && FlagsMatch(c, m.(dnsTouched := true), att) && c == Config(Local, true)
       case DeviceStep => EngineStart(true) in att && !CreateIn(att) && FlagsMatch(c, m, att) && c.owner == Local
       case Creating =>
         EngineStart(true) in att && !CreateIn(att) && FlagsMatch(c, m.(deviceUp := false), att) && m.deviceUp &&
             c.owner == Local
       case _ => m.tornDown || FlagsMatch(c, m, att)
  }

  /** Stop is past its cancel. */
  predicate Past(pc: StopPc) {
    !pc.Queued? && !pc.Cancelling?
  }

  predicate DidNotWait(pc: StopPc) {
    match pc
    case Queued => false
    case Cancelling => false
    case Waiting => false
    case Reading(w) => !w
    case Deciding(w, _, _) => !w
    case Taking(w, _) => !w
    case StopUndoing(w, _) => !w
    case Left(w) => !w
  }

  predicate Holds(pc: StopPc) {
    !pc.Queued? && !pc.Left?
  }

  /** A Stop that did not wait came before Start, which then gives up at its first check with nothing attempted. */
  predicate GivenUp(s: State) {
    && s.m.cancelled && s.att == [] && !s.m.running && !s.m.engineUp && !s.m.deviceUp && !s.m.dnsTouched
    && (Early(s.start) || s.start.Failing? || s.start == Undoing([]) || s.start.ClosingDone? || s.start.Returned?)
  }

  /** Everything that was attempted has been undone. */
  predicate Clean(s: State) {
    s.log == s.att + Undo(s.att)
  }

  predicate StopOk(s: State, t: Tid, pc: StopPc) {
    && (Holds(pc) <==> s.stopMu == Some(t))
    && (Past(pc) ==> s.m.cancelled)
    && (DidNotWait(pc) ==> GivenUp(s) && !pc.Taking? && !pc.StopUndoing? && (pc.Deciding? ==> !pc.running))
    && (pc.Waiting? ==> s.m.started)
    && (Past(pc) && !pc.Waiting? && !DidNotWait(pc) ==> s.start.Returned?)
    && (Past(pc) && !pc.Waiting? && !pc.Reading? ==> !s.m.running)
    && (pc.Deciding? && !DidNotWait(pc) ==> pc.owner == s.c.owner)
    && (pc.Taking? && !DidNotWait(pc) ==> pc.owner == s.c.owner)
    && (pc.StopUndoing? ==> s.m.tornDown)
    && (pc.Left? ==> Clean(s))
  }

  /** What a teardown in progress still has to do. */
  function Rest(s: State): seq<Act> {
    if s.start.Undoing? then s.start.plan
    else if s.stopMu.Some? && s.stopMu.value in s.stops &&
        s.stops[s.stopMu.value].StopUndoing? then s.stops[s.stopMu.value].plan
    else []
  }

  predicate LogOk(s: State) {
    if s.m.tornDown then s.att <= s.log && s.log + Rest(s) == s.att + Undo(s.att) else s.log == s.att
  }

  ghost predicate Inv(s: State) {
    && StartOk(s.c, s.m, s.start, s.att)
    && (forall t :: t in s.stops ==> StopOk(s, t, s.stops[t]))
    && (s.stopMu.Some? ==> s.stopMu.value in s.stops)
    && LogOk(s)
  }

  // ---------------------------------------------------------------- preservation: steps of Start

  predicate BeforeDevice(pc: StartPc) {
    pc.NotEntered? || pc.FirstCheck? || pc.Preparing? || pc.EngineStarting? || pc.EngineFailed? || pc.EngineStarted? ||
        pc.SecondCheck?
  }

  lemma EarlyKeepsStart(s: State, ok: bool)
    requires BeforeDevice(s.start) && StartOk(s.c, s.m, s.start, s.att)
    ensures var s' := StartNext(s, ok); StartOk(s'.c, s'.m, s'.start, s'.att)
  {
  }

  predicate AtDevice(pc: StartPc) {
    pc.DnsStep? || pc.DnsSaved? || pc.DeviceStep? || pc.Creating?
  }

  lemma DeviceKeepsStart(s: State, ok: bool)
    requires AtDevice(s.start) && StartOk(s.c, s.m, s.start, s.att)
    ensures var s' := StartNext(s, ok); StartOk(s'.c, s'.m, s'.start, s'.att)
  {
  }

  lemma LateKeepsStart(s: State, ok: bool)
    requires s.start != Returned && !BeforeDevice(s.start) && !AtDevice(s.start) && StartOk(s.c, s.m, s.start, s.att)
    ensures var s' := StartNext(s, ok); StartOk(s'.c, s'.m, s'.start, s'.att)
  {
  }

  lemma StartKeepsStart(s: State, ok: bool)
    requires s.start != Returned && StartOk(s.c, s.m, s.start, s.att)
    ensures var s' := StartNext(s, ok); StartOk(s'.c, s'.m, s'.start, s'.att)
  {
    if BeforeDevice(s.start) {
      EarlyKeepsStart(s, ok);
    } else if AtDevice(s.start) {
      DeviceKeepsStart(s, ok);
    } else {
      LateKeepsStart(s, ok);
    }
  }

  /** What a step of Start leaves to the Stops. */
  predicate StartMoves(s: State, s': State) {
    && s'.stops == s.stops && s'.stopMu == s.stopMu && s'.c == s.c && s.start != Returned
    && s'.m.cancelled == s.m.cancelled && (s.m.started ==> s'.m.started) && (s.m.tornDown ==> s'.m.tornDown)
    && (GivenUp(s) ==> GivenUp(s')) && (GivenUp(s) && Clean(s) ==> Clean(s'))
  }

  lemma GivenUpStays(s: State, ok: bool)
    requires s.start != Returned && GivenUp(s)
    ensures GivenUp(StartNext(s, ok)) && StartNext(s, ok).att == s.att && StartNext(s, ok).log == s.log
  {
  }

  lemma StartStepMoves(s: State, ok: bool)
    requires s.start != Returned
    ensures StartMoves(s, StartNext(s, ok))
  {
    if GivenUp(s) {
      GivenUpStays(s, ok);
    }
  }

  lemma StopsKeptByStart(s: State, s': State)
    requires StartMoves(s, s') && forall t :: t in s.stops ==> StopOk(s, t, s.stops[t])
    ensures forall t :: t in s'.stops ==> StopOk(s', t, s'.stops[t])
  {
    forall t | t in s'.stops
      ensures StopOk(s', t, s'.stops[t])
    {
      assert StopOk(s, t, s.stops[t]);
    }
  }

  lemma UndoOne(log: seq<Act>, plan: seq<Act>)
    requires plan != []
    ensures log + [] + FirstOf(plan) + plan[1..] == log + plan && log + FirstOf(plan) + plan[1..] == log + plan
  {
  }

  lemma StartKeepsLog(s: State, ok: bool)
    requires s.start != Returned && Inv(s)
    ensures LogOk(StartNext(s, ok))
  {
    var s' := StartNext(s, ok);
    NoStopUndoes(s);
    if s.start.Failing? {
      PlanIsUndo(s.c, s.m, s.att);
      assert s'.log == s.log && s'.att == s.att;
    } else if s.start.Undoing? {
      assert s'.att == s.att;
      if s.start.plan != [] {
        UndoOne(s.log, s.start.plan);
      } else {
        assert s'.log == s.log;
      }
    } else {
      assert s'.log == s.log + StartAttempts(s.start, ok);
      assert Rest(s') == [] && s'.m.tornDown == s.m.tornDown;
      if s.start.ClosingDone? {
        assert s'.att == s.att && s'.log == s.log;
      }
    }
  }

  /** While Start has not returned, no Stop is tearing down. */
  lemma NoStopUndoes(s: State)
    requires Inv(s) && s.start != Returned
    ensures forall t :: t in s.stops ==> !s.stops[t].StopUndoing?
  {
    forall t | t in s.stops
      ensures !s.stops[t].StopUndoing?
    {
      assert StopOk(s, t, s.stops[t]);
    }
  }

  lemma StartKeepsInv(s: State, ok: bool)
    requires Inv(s) && s.start != Returned
    ensures Inv(StartNext(s, ok))
  {
    StartKeepsStart(s, ok);
    StartKeepsLog(s, ok);
    StartStepMoves(s, ok);
    StopsKeptByStart(s, StartNext(s, ok));
  }

  // ---------------------------------------------------------------- preservation: steps of Stop

  lemma StopKeepsStart(s: State, t: Tid)
    requires t in s.stops && StopEnabled(s, s.stops[t]) && StartOk(s.c, s.m, s.start, s.att) && StopOk(s, t, s.stops[t])
    ensures var s' := StopNext(s, t); StartOk(s'.c, s'.m, s'.start, s'.att)
  {
  }

  /** The Stop that acts. */
  lemma StopKeepsItself(s: State, t: Tid)
    requires t in s.stops && StopEnabled(s, s.stops[t]) && StartOk(s.c, s.m, s.start, s.att) && StopOk(s, t, s.stops[t])
    requires LogOk(s)
    ensures var s' := StopNext(s, t); StopOk(s', t, s'.stops[t])
  {
    var pc := s.stops[t];
    if pc.Deciding? && !s.m.tornDown && !pc.waited {
      assert Undo([]) == [];
    }
  }

  /** What a step of one Stop leaves to the others. */
  predicate StopMoves(s: State, s': State, t: Tid) {
    && s'.start == s.start && s'.c == s.c && s'.att == s.att && t in s'.stops && s'.stops == s.stops[t := s'.stops[t]]
    && (s.m.cancelled ==> s'.m.cancelled) && s'.m.started == s.m.started && (s.m.tornDown ==> s'.m.tornDown)
    && (s'.m.running ==> s.m.running) && (GivenUp(s) ==> GivenUp(s')) && (Clean(s) ==> Clean(s'))
    && (s.stopMu == None || s.stopMu == Some(t)) && (s'.stopMu == None || s'.stopMu == Some(t))
  }

  lemma StopStepMoves(s: State, t: Tid)
    requires t in s.stops && StopEnabled(s, s.stops[t]) && StopOk(s, t, s.stops[t]) && LogOk(s)
    ensures StopMoves(s, StopNext(s, t), t)
  {
    var pc := s.stops[t];
    if pc.StopUndoing? && pc.plan != [] {
      assert Rest(s) == pc.plan && |s.log| < |s.log + pc.plan|;
    } else {
      assert StopNext(s, t).log == s.log;
    }
  }

  lemma StopsKeptByStop(s: State, s': State, t: Tid)
    requires StopMoves(s, s', t) && StopOk(s', t, s'.stops[t]) && forall u :: u in s.stops ==> StopOk(s, u, s.stops[u])
    ensures forall u :: u in s'.stops ==> StopOk(s', u, s'.stops[u])
  {
    forall u | u in s'.stops && u != t
      ensures StopOk(s', u, s'.stops[u])
    {
      assert StopOk(s, u, s.stops[u]);
    }
  }

  lemma StopKeepsLog(s: State, t: Tid)
    requires Inv(s) && t in s.stops && StopEnabled(s, s.stops[t])
    ensures LogOk(StopNext(s, t))
  {
    var s', pc := StopNext(s, t), s.stops[t];
    assert StopOk(s, t, pc);
    if pc.StopUndoing? {
      if pc.plan != [] {
        UndoOne(s.log, pc.plan);
      } else {
        assert s'.log == s.log;
      }
    } else {
      assert s'.log == s.log;
      if pc.Taking? && !s.m.tornDown {
        PlanIsUndo(s.c, s.m, s.att);
      } else {
        assert s'.m.tornDown == s.m.tornDown && Rest(s') == Rest(s);
      }
    }
  }

  lemma StopKeepsInv(s: State, t: Tid)
    requires Inv(s) && t in s.stops && StopEnabled(s, s.stops[t])
    ensures Inv(StopNext(s, t))
  {
    assert StopOk(s, t, s.stops[t]);
    StopKeepsStart(s, t);
    StopKeepsItself(s, t);
    StopKeepsLog(s, t);
    StopStepMoves(s, t);
    StopsKeptByStop(s, StopNext(s, t), t);
  }

  lemma CallKeepsInv(s: State, t: Tid)
    requires Inv(s) && t !in s.stops
    ensures Inv(s.(stops := s.stops[t := Queued]))
  {
    var s' := s.(stops := s.stops[t := Queued]);
    forall u | u in s.stops
      ensures StopOk(s', u, s.stops[u])
    {
      assert StopOk(s, u, s.stops[u]);
    }
  }

  lemma StepKeepsInv(s: State, l: Label)
    requires Inv(s) && Enabled(s, l)
    ensures Inv(Step(s, l))
  {
    match l {
      case StartStep(ok) => StartKeepsInv(s, ok);
      case Call(t) => CallKeepsInv(s, t);
      case StopStep(t) => StopKeepsInv(s, t);
    }
  }

  // ---------------------------------------------------------------- what every run guarantees

  predicate Follows(s: State, l: Label, s': State) {
    Enabled(s, l) && s' == Step(s, l)
  }

  ghost predicate Run(c: Config, states: seq<State>, labels: seq<Label>) {
    && |states| == |labels| + 1 && states[0] == Initial(c)
    && forall i :: 0 <= i < |labels| ==> Follows(states[i], labels[i], states[i + 1])
  }

  lemma InitialInv(c: Config)
    ensures Inv(Initial(c))
  {
  }

  lemma {:induction false} RunInv(c: Config, states: seq<State>, labels: seq<Label>, i: nat)
    requires Run(c, states, labels) && i < |states|
    ensures Inv(states[i])
  {
    if i == 0 {
      InitialInv(c);
    } else {
      RunInv(c, states, labels, i - 1);
      assert Follows(states[i - 1], labels[i - 1], states[i - 1 + 1]);
      StepKeepsInv(states[i - 1], labels[i - 1]);
    }
  }

  /** At every moment the system has seen the attempts of Start and then a prefix of what undoes them: nothing is undone
      twice, out of order, before the attempts are over, or without having been attempted. */
  lemma UndoIsOrdered(c: Config, states: seq<State>, labels: seq<Label>, i: nat)
    requires Run(c, states, labels) && i < |states|
    ensures states[i].att <= states[i].log <= states[i].att + Undo(states[i].att)
  {
    RunInv(c, states, labels, i);
  }

  /** A session owned by the helper never touches device or DNS. */
  predicate HandsOff(s: State) {
    s.c.owner == Helper && SaveDns !in s.att && !CreateIn(s.att) &&
    !s.start.DnsStep? && !s.start.DnsSaved? && !s.start.DeviceStep? && !s.start.Creating?
  }

  lemma HandsOffStays(s: State, l: Label)
    requires HandsOff(s) && Enabled(s, l)
    ensures HandsOff(Step(s, l))
  {
  }

  /** Routes and DNS of a helper-owned session belong to the helper: all it ever undoes is its engine. */
  lemma {:induction false} HelperUndoesOnlyTheEngine(c: Config, states: seq<State>, labels: seq<Label>, i: nat)
    requires Run(c, states, labels) && i < |states| && c.owner == Helper
    ensures HandsOff(states[i]) && Undo(states[i].att) <= [EngineStop]
  {
    if i > 0 {
      HelperUndoesOnlyTheEngine(c, states, labels, i - 1);
      assert Follows(states[i - 1], labels[i - 1], states[i - 1 + 1]);
      HandsOffStays(states[i - 1], labels[i - 1]);
    }
  }

  /** The step that takes the flags down for real. */
  predicate TearsDown(s: State, s': State) {
    !s.m.tornDown && s'.m.tornDown
  }

  lemma StartStaysTornDown(c: Config, m: Fields, pc: StartPc)
    requires m.tornDown
    ensures StartFields(c, m, pc).tornDown
  {
  }

  lemma StopStaysTornDown(m: Fields, pc: StopPc)
    requires m.tornDown
    ensures StopFields(m, pc).tornDown
  {
  }

  predicate TornDownStep(s: State, s': State) {
    s.m.tornDown ==> s'.m.tornDown
  }

  lemma StepStaysTornDown(s: State, l: Label, s': State)
    requires Follows(s, l, s')
    ensures TornDownStep(s, s')
  {
    if s.m.tornDown {
      StartStaysTornDown(s.c, s.m, s.start);
      if l.StopStep? {
        StopStaysTornDown(s.m, s.stops[l.t]);
      }
    }
  }

  lemma {:induction false} TornDownChain(states: seq<State>, i: nat, j: nat)
    requires forall k :: 0 < k < |states| ==> TornDownStep(states[k - 1], states[k])
    requires i <= j < |states| && states[i].m.tornDown
    ensures states[j].m.tornDown
  {
    if i < j {
      TornDownChain(states, i, j - 1);
      assert TornDownStep(states[j - 1], states[j]);
    }
  }

  lemma TornDownStays(c: Config, states: seq<State>, labels: seq<Label>, i: nat, j: nat)
    requires Run(c, states, labels) && i <= j < |states| && states[i].m.tornDown
    ensures states[j].m.tornDown
  {
    forall k | 0 < k < |states|
      ensures TornDownStep(states[k - 1], states[k])
    {
      assert Follows(states[k - 1], labels[k - 1], states[k - 1 + 1]);
      StepStaysTornDown(states[k - 1], labels[k - 1], states[k]);
    }
    TornDownChain(states, i, j);
  }

  lemma TeardownOnce(c: Config, states: seq<State>, labels: seq<Label>, i: nat, j: nat)
    requires Run(c, states, labels) && i < j < |labels| && TearsDown(states[i], states[i + 1])
    ensures !TearsDown(states[j], states[j + 1])
  {
    TornDownStays(c, states, labels, i + 1, j);
  }

  /** Once Start and some Stop have returned, every attempt has been undone, whatever other Stops are doing and also
      when the Stop came before Start was scheduled; the session is not running. */
  lemma NothingLeftBehind(c: Config, states: seq<State>, labels: seq<Label>, i: nat, t: Tid)
    requires Run(c, states, labels) && i < |states|
    requires states[i].start.Returned? && t in states[i].stops && states[i].stops[t].Left?
    ensures Clean(states[i]) && !states[i].m.running
    ensures !states[i].stops[t].waited ==> states[i].att == []
  {
    var s := states[i];
    RunInv(c, states, labels, i);
    assert StopOk(s, t, s.stops[t]);
  }

  /** A failed or cancelled Start undoes its own attempts before it lets any Stop go on. */
  lemma StartCleansUp(c: Config, states: seq<State>, labels: seq<Label>, i: nat)
    requires Run(c, states, labels) && i < |states|
    requires states[i].start.ClosingDone? && states[i].m.tornDown
    ensures Clean(states[i])
  {
    RunInv(c, states, labels, i);
    NoStopUndoes(states[i]);
  }

  // ---------------------------------------------------------------- Stop's wait ends

  /** An upper bound on the steps that Start still has to make. */
  function StepsLeft(s: State): nat {
    match s.start
    case NotEntered => 18 case FirstCheck => 17 case Preparing => 16
    case EngineStarting => 15 case EngineFailed => 14 case EngineStarted => 14 case SecondCheck => 13
    case DnsStep => 12 case DnsSaved => 11 case DeviceStep => 10 case Creating => 9
    case LastCheck => 8 case Succeeding => 7 case Failing => 6
    case Undoing(plan) => 2 + |plan| case ClosingDone => 1 case Returned => 0
  }

  /** Start never waits for anybody, so a Stop that waits for `done` gets it after finitely many steps of Start. */
  lemma StartAdvances(s: State, ok: bool)
    requires s.start != Returned
    ensures Enabled(s, StartStep(ok)) && StepsLeft(StartNext(s, ok)) < StepsLeft(s)
  {
  }

  lemma StopLeavesStartAlone(s: State, l: Label)
    requires Enabled(s, l) && !l.StartStep?
    ensures StepsLeft(Step(s, l)) == StepsLeft(s)
  {
  }

  /** A Stop waits only while Start is under way. */
  lemma WaitIsForStart(c: Config, states: seq<State>, labels: seq<Label>, i: nat, t: Tid)
    requires Run(c, states, labels) && i < |states| && t in states[i].stops && states[i].stops[t].Waiting?
    ensures Enabled(states[i], StopStep(t)) || (!states[i].start.NotEntered? && StepsLeft(states[i]) > 0)
  {
    RunInv(c, states, labels, i);
    assert StopOk(states[i], t, states[i].stops[t]);
  }
}
