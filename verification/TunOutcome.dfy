/** When a TUN Start succeeds, over every run with any number of Stops, and what it has done to the system by then
    (client/tun/tun.go). */
module TunOutcome {
  import opened Options
  import opened Tun
  import opened TunRuns

  /** A step that makes Start give up: a platform call that fails, or a check that finds Start cancelled. */
  predicate Trouble(s: State, l: Label) {
    && l.StartStep?
    && match s.start
       case Preparing => !l.ok
       case EngineStarting => !l.ok
       case Creating => !l.ok
       case FirstCheck => s.m.cancelled
       case SecondCheck => s.m.cancelled
       case LastCheck => s.m.cancelled
       case _ => false
  }

  /** The point of Start at which the first trouble among the first `n` steps of a run came. */
  ghost function Cause(states: seq<State>, labels: seq<Label>, n: nat): Option<StartPc>
    requires n <= |labels| < |states|
  {
    if n == 0 then None
    else
      var before := Cause(states, labels, n - 1);
      if before == None && Trouble(states[n - 1], labels[n - 1]) then Some(states[n - 1].start) else before
  }

  /** What a session has attempted before it runs its create script. */
  function Prepared(c: Config): seq<Act> {
    if c.managesDns then [EngineStart(true), SaveDns] else [EngineStart(true)]
  }

  /** What a complete Start has attempted: engine, then for a local owner DNS and device. */
  function Complete(c: Config): seq<Act> {
    if c.owner == Local then Prepared(c) + [CreateDev(true)] else [EngineStart(true)]
  }

  /** What a Start has attempted that gave up at `cause`. */
  function AttemptedBy(c: Config, cause: StartPc): seq<Act> {
    match cause
    case EngineStarting => [EngineStart(false), EngineStop]
    case SecondCheck => [EngineStart(true)]
    case Creating => Prepared(c) + [CreateDev(false)]
    case LastCheck => Complete(c)
    case _ => []
  }

  /** A Start without trouble so far: what it has attempted at each of its points. */
  predicate Smooth(s: State) {
    match s.start
    case NotEntered => s.att == []
    case FirstCheck => s.att == []
    case Preparing => s.att == []
    case EngineStarting => s.att == []
    case EngineStarted => s.att == [EngineStart(true)]
    case SecondCheck => s.att == [EngineStart(true)]
    case DnsStep => s.att == [EngineStart(true)] && s.c.owner == Local && s.c.managesDns
    case DnsSaved => s.att == [EngineStart(true), SaveDns] && s.c.owner == Local && s.c.managesDns
    case DeviceStep => s.att == Prepared(s.c) && s.c.owner == Local
    case Creating => s.att == Prepared(s.c) && s.c.owner == Local
    case LastCheck => s.att == Complete(s.c)
    case Succeeding => s.att == Complete(s.c)
    case ClosingDone => s.att == Complete(s.c) && s.m.running && !s.m.tornDown
    case Returned => s.att == Complete(s.c)
    case _ => false
  }

  /** A Start that gave up at `cause`. */
  predicate GaveUp(s: State, cause: StartPc) {
    match s.start
    case EngineFailed => cause.EngineStarting? && s.att == [EngineStart(false)] && !s.m.running
    case Failing => s.att == AttemptedBy(s.c, cause) && !s.m.running
    case Undoing(_) => s.att == AttemptedBy(s.c, cause) && !s.m.running && s.m.tornDown
    case ClosingDone => s.att == AttemptedBy(s.c, cause) && !s.m.running && s.m.tornDown
    case Returned => s.att == AttemptedBy(s.c, cause) && !s.m.running && s.m.tornDown
    case _ => false
  }

  predicate Outcome(s: State, cause: Option<StartPc>) {
    match cause
    case None => Smooth(s)
    case Some(pc) => GaveUp(s, pc)
  }

  function CauseNext(s: State, l: Label, cause: Option<StartPc>): Option<StartPc> {
    if cause == None && Trouble(s, l) then Some(s.start) else cause
  }

  lemma SmoothStart(s: State, ok: bool)
    requires s.start != Returned && StartOk(s.c, s.m, s.start, s.att) && Smooth(s)
    ensures Outcome(StartNext(s, ok), CauseNext(s, StartStep(ok), None))
  {
  }

  lemma GaveUpStart(s: State, ok: bool, cause: StartPc)
    requires s.start != Returned && StartOk(s.c, s.m, s.start, s.att) && GaveUp(s, cause)
    ensures GaveUp(StartNext(s, ok), cause)
  {
  }

  /** A Stop changes the outcome of Start only once Start has returned. */
  lemma StopKeepsOutcome(s: State, t: Tid, cause: Option<StartPc>)
    requires t in s.stops && StopEnabled(s, s.stops[t]) && StopOk(s, t, s.stops[t]) && Outcome(s, cause)
    ensures Outcome(StopNext(s, t), cause)
  {
  }

  lemma StepKeepsOutcome(s: State, l: Label, cause: Option<StartPc>)
    requires Inv(s) && Enabled(s, l) && Outcome(s, cause)
    ensures Outcome(Step(s, l), CauseNext(s, l, cause))
  {
    match l {
      case StartStep(ok) =>
        if cause == None {
          SmoothStart(s, ok);
        } else {
          GaveUpStart(s, ok, cause.value);
        }
      case Call(t) =>
      case StopStep(t) =>
        assert StopOk(s, t, s.stops[t]);
        StopKeepsOutcome(s, t, cause);
    }
  }

  lemma {:induction false} RunOutcome(c: Config, states: seq<State>, labels: seq<Label>, i: nat)
    requires Run(c, states, labels) && i < |states|
    ensures Outcome(states[i], Cause(states, labels, i)) && states[i].c == c
  {
    if i > 0 {
      RunOutcome(c, states, labels, i - 1);
      RunInv(c, states, labels, i - 1);
      assert Follows(states[i - 1], labels[i - 1], states[i - 1 + 1]);
      StepKeepsOutcome(states[i - 1], labels[i - 1], Cause(states, labels, i - 1));
    }
  }

  lemma {:induction false} CauseExactly(states: seq<State>, labels: seq<Label>, n: nat)
    requires n <= |labels| < |states|
    ensures Cause(states, labels, n) == None <==> forall k :: 0 <= k < n ==> !Trouble(states[k], labels[k])
  {
    if n > 0 {
      CauseExactly(states, labels, n - 1);
    }
  }

  /** A Start that is about to return succeeded if and only if no platform call failed and no check found it cancelled.
      A success leaves the complete session running with nothing undone, a failure leaves nothing behind. */
  lemma StartSucceedsExactly(c: Config, states: seq<State>, labels: seq<Label>, i: nat)
    requires Run(c, states, labels) && i < |states| && states[i].start.ClosingDone?
    ensures states[i].m.running <==> forall k :: 0 <= k < i ==> !Trouble(states[k], labels[k])
    ensures states[i].m.running <==> !states[i].m.tornDown
    ensures states[i].m.running ==> states[i].att == Complete(c) && states[i].log == Complete(c)
    ensures !states[i].m.running ==> Clean(states[i])
  {
    RunOutcome(c, states, labels, i);
    CauseExactly(states, labels, i);
    RunInv(c, states, labels, i);
    if states[i].m.tornDown {
      StartCleansUp(c, states, labels, i);
    }
  }

  /** A session that runs, or that nobody has torn down after Start returned, has its engine up and, for a local owner,
      its device and DNS, whatever Stops are under way. */
  lemma RunningIsComplete(c: Config, states: seq<State>, labels: seq<Label>, i: nat)
    requires Run(c, states, labels) && i < |states|
    requires states[i].m.running || (states[i].start.Returned? && !states[i].m.tornDown)
    ensures states[i].att == Complete(c) && EngineStart(true) in states[i].att
    ensures EngineStart(false) !in states[i].att && CreateDev(false) !in states[i].att
    ensures c.owner == Local ==> CreateDev(true) in states[i].att
    ensures c.owner == Local && c.managesDns ==> SaveDns in states[i].att
  {
    RunOutcome(c, states, labels, i);
    RunInv(c, states, labels, i);
  }

  /** The first trouble stays the cause. */
  lemma {:induction false} CauseIsFirst(states: seq<State>, labels: seq<Label>, k: nat, n: nat)
    requires k < n <= |labels| < |states| && Trouble(states[k], labels[k])
    requires forall j :: 0 <= j < k ==> !Trouble(states[j], labels[j])
    ensures Cause(states, labels, n) == Some(states[k].start)
  {
    if n == k + 1 {
      CauseExactly(states, labels, k);
    } else {
      CauseIsFirst(states, labels, k, n - 1);
    }
  }

  /** A Start whose first trouble came at step `k` never runs, and by the time it lets Stops go on it has attempted
      exactly what comes before that point and undone it. */
  lemma TroubleStopsStart(c: Config, states: seq<State>, labels: seq<Label>, k: nat, i: nat)
    requires Run(c, states, labels) && k < i < |states| && Trouble(states[k], labels[k])
    requires forall j :: 0 <= j < k ==> !Trouble(states[j], labels[j])
    ensures !states[i].m.running
    ensures states[i].start.ClosingDone? ==>
              && states[i].att == AttemptedBy(c, states[k].start)
              && states[i].log == states[i].att + Undo(states[i].att)
  {
    CauseIsFirst(states, labels, k, i);
    RunOutcome(c, states, labels, i);
    if states[i].start.ClosingDone? {
      StartCleansUp(c, states, labels, i);
    }
  }

  // ---------------------------------------------------------------- a Stop cancels Start

  /** Start has not passed its last check. */
  predicate BeforeLastCheck(pc: StartPc) {
    !pc.Succeeding? && !pc.ClosingDone? && !pc.Returned?
  }

  /** Start was cancelled in time: it cannot succeed any more. */
  predicate Doomed(s: State) {
    && s.m.cancelled && !s.m.running && !s.start.Succeeding?
    && (BeforeLastCheck(s.start) || s.m.tornDown)
  }

  lemma DoomedStays(s: State, l: Label)
    requires Inv(s) && Enabled(s, l) && Doomed(s)
    ensures Doomed(Step(s, l))
  {
    if l.StopStep? {
      assert StopOk(s, l.t, s.stops[l.t]);
    }
  }

  lemma {:induction false} DoomedForever(c: Config, states: seq<State>, labels: seq<Label>, i: nat, j: nat)
    requires Run(c, states, labels) && i <= j < |states| && Doomed(states[i])
    ensures Doomed(states[j])
  {
    if i < j {
      DoomedForever(c, states, labels, i, j - 1);
      RunInv(c, states, labels, j - 1);
      assert Follows(states[j - 1], labels[j - 1], states[j - 1 + 1]);
      DoomedStays(states[j - 1], labels[j - 1]);
    }
  }

  /** Once a Stop is past its first section while Start has not passed its last check, the session never runs, and a
      Start that lets Stops go on has left nothing behind. */
  lemma StopIsNotOvertaken(c: Config, states: seq<State>, labels: seq<Label>, i: nat, j: nat, t: Tid)
    requires Run(c, states, labels) && i <= j < |states|
    requires t in states[i].stops && Past(states[i].stops[t]) && BeforeLastCheck(states[i].start)
    ensures !states[j].m.running && (states[j].start.ClosingDone? ==> Clean(states[j]))
  {
    RunInv(c, states, labels, i);
    assert StopOk(states[i], t, states[i].stops[t]);
    DoomedForever(c, states, labels, i, j);
    if states[j].start.ClosingDone? {
      StartCleansUp(c, states, labels, j);
    }
  }
}
