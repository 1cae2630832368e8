/** What each call on a transport slot has done by the time it returns, alone and in every run
    (transport/http2/slot.go, transport/http2/client.go). */
module GenerationCalls {
  import opened Options
  import opened Generations

  // ---------------------------------------------------------------- undisturbed calls

  function RetiredIdle(s: State, t: Tid, g: Gen): State
    requires t !in s.threads && g in s.past
  {
    Leaving(Then(Then(Step(s, BeginRetire(t, g)), Load(t)), Take(t)), t)
  }

  lemma LeavingIdleAlone(s: State, t: Tid, g: Gen, c: Conn)
    requires t in s.threads && s.threads[t] == Testing(g, c, RetireIdle)
    ensures var s' := Leaving(s, t);
            && s'.threads == s.threads[t := Done(true)] && s'.conns == s.conns && s'.closes == s.closes
            && s'.cur == Advanced(s.cur, s.nextGen, g) && s'.rotation == if s.cur == g then None else s.rotation
  {
    var s1 := Then(s, Test(t));
    assert s1.threads[t] == if s.cur == g then Resetting(g, c, RetireIdle) else Done(true);
    var s2 := Then(s1, Reset(t));
    assert s2.threads[t] == if s.cur == g then Advancing(g, c, RetireIdle) else Done(true);
    var s3 := Then(s2, Advance(t));
    assert s3.threads[t] == Done(true);
  }

  /** retireIdleConn alone: whatever the generation holds goes, the slot leaves the generation if it is current, and
      nothing is closed. */
  lemma RetireIdleAlone(s: State, t: Tid, g: Gen)
    requires t !in s.threads && g in s.past
    ensures var s' := RetiredIdle(s, t, g);
            && t in s'.threads && s'.threads[t] == Done(g in s.conns) && s'.closes == s.closes
            && s'.conns == s.conns - {g}
            && s'.cur == (if g in s.conns && s.cur == g then s.nextGen else s.cur)
            && s'.rotation == if g in s.conns && s.cur == g then None else s.rotation
  {
    var loaded := Then(Step(s, BeginRetire(t, g)), Load(t));
    var taken := Then(loaded, Take(t));
    if g in s.conns {
      assert taken.threads[t] == Testing(g, s.conns[g], RetireIdle);
      LeavingIdleAlone(taken, t, g, s.conns[g]);
    } else {
      assert taken.threads[t] == Done(false);
      NothingToDo(taken, t);
    }
  }

  function NetClosed(s: State, t: Tid, c: Conn): State
    requires t !in s.threads && c in s.genOf
  {
    Then(Then(Then(Step(s, BeginClose(t, c)), Take(t)), Advance(t)), HardClose(t))
  }

  /** A close by net/http alone: the connection is closed in any case; if its generation still holds it, the identity
      goes and the slot leaves that generation first. The rotation state stays. */
  lemma NetCloseAlone(s: State, t: Tid, c: Conn)
    requires t !in s.threads && c in s.genOf
    ensures var s', g := NetClosed(s, t, c), s.genOf[c];
            && t in s'.threads && s'.threads[t] == Done(true) && s'.rotation == s.rotation
            && s'.conns == (if Holds(s, g, c) then s.conns - {g} else s.conns)
            && s'.cur == (if Holds(s, g, c) && s.cur == g then s.nextGen else s.cur)
            && s'.closes == s.closes + [Event(t, NetClose, c, Holds(s, g, c), s'.cur)]
  {
    var g := s.genOf[c];
    var taken := Then(Step(s, BeginClose(t, c)), Take(t));
    assert taken.threads[t] == if Holds(s, g, c) then Advancing(g, c, NetClose) else Closing(g, c, NetClose, false);
    var left := Then(taken, Advance(t));
    assert left.threads[t] == Closing(g, c, NetClose, Holds(s, g, c));
  }

  function DialledIn(s: State, t: Tid, g: Gen, c: Conn): State
    requires t !in s.threads && g in s.past
  {
    Then(Then(Then(Step(s, BeginDial(t, g)), CheckDial(t)), Arm(t)), Swap(t, c))
  }

  /** A dial alone: the new identity is the one its generation holds, the one before it counts as displaced, and only a
      dial of the current generation sets the rotation deadline. */
  lemma DialAlone(s: State, t: Tid, g: Gen, c: Conn)
    requires t !in s.threads && g in s.past && c !in s.genOf
    ensures var s' := DialledIn(s, t, g, c);
            && t in s'.threads && s'.threads[t] == Done(true) && s'.cur == s.cur && s'.closes == s.closes
            && s'.conns == s.conns[g := c] && s'.genOf == s.genOf[c := g]
            && s'.displaced == s.displaced + (if g in s.conns then {s.conns[g]} else {})
            && s'.rotation == if s.cur == g then Some(g) else s.rotation
  {
    var checked := Then(Step(s, BeginDial(t, g)), CheckDial(t));
    assert checked.threads[t] == if s.cur == g then Arming(g) else Swapping(g);
    var armed := Then(checked, Arm(t));
    assert armed.threads[t] == Swapping(g);
  }

  // ---------------------------------------------------------------- calls in a run

  /** `t` has claimed `o` and nothing else. */
  ghost predicate OwnClaim(s: State, t: Tid, o: Option<Conn>) {
    forall c: Conn :: ClaimedBy(s, c, t) <==> o == Some(c)
  }

  ghost predicate ClosedNothing(s: State, t: Tid) {
    forall i :: 0 <= i < |s.closes| ==> s.closes[i].t != t
  }

  /** The one close of `t` is that of `c`. */
  ghost predicate ClosedOne(s: State, t: Tid, c: Conn) {
    exists i :: 0 <= i < |s.closes| && s.closes[i].t == t && s.closes[i].c == c &&
      forall j :: 0 <= j < |s.closes| && s.closes[j].t == t ==> j == i
  }

  /** A call of `kind` on generation `g`, given `given` or nothing. */
  datatype Call = Call(kind: Kind, g: Gen, given: Option<Conn>)

  predicate Concerns(call: Call, pc: Pc)
    requires pc.Taking? || pc.Testing? || pc.Resetting? || pc.Advancing? || pc.Closing?
  {
    pc.kind == call.kind && pc.g == call.g && (call.given.Some? ==> pc.c == call.given.value)
  }

  /** How a call that claimed `o` ends with the answer `ok`. */
  ghost predicate Ended(s: State, t: Tid, call: Call, ok: bool, o: Option<Conn>) {
    && OwnClaim(s, t, o) && (o.Some? ==> Left(s, call.g) && o.value in s.genOf && s.genOf[o.value] == call.g)
    && match call.kind
       case Invalidate => (ok <==> o.Some?) && if ok then ClosedOne(s, t, o.value) else ClosedNothing(s, t)
       case RetireIdle => (ok <==> o.Some?) && ClosedNothing(s, t)
       case NetClose => ok && call.given.Some? && ClosedOne(s, t, call.given.value)
  }

  ghost predicate CallOk(s: State, t: Tid, call: Call) {
    && t in s.threads && (call.kind != RetireIdle <==> call.given.Some?)
    && match s.threads[t]
       case Loading(g) => call.kind == RetireIdle && g == call.g && OwnClaim(s, t, None) && ClosedNothing(s, t)
       case Taking(_, _, _) => Concerns(call, s.threads[t]) && OwnClaim(s, t, None) && ClosedNothing(s, t)
       case Testing(_, c, _) => Concerns(call, s.threads[t]) && OwnClaim(s, t, Some(c)) && ClosedNothing(s, t)
       case Resetting(_, c, _) => Concerns(call, s.threads[t]) && OwnClaim(s, t, Some(c)) && ClosedNothing(s, t)
       case Advancing(_, c, _) => Concerns(call, s.threads[t]) && OwnClaim(s, t, Some(c)) && ClosedNothing(s, t)
       case Closing(_, c, _, won) =>
         Concerns(call, s.threads[t]) && OwnClaim(s, t, if won then Some(c) else None) && ClosedNothing(s, t)
       case Done(ok) => exists o :: Ended(s, t, call, ok, o) && (call.given.Some? ==> o == None || o == call.given)
       case _ => false
  }

  /** Claims and closes of other threads leave those of `t` alone. */
  ghost predicate SameFor(s: State, s': State, t: Tid) {
    && (forall c: Conn :: ClaimedBy(s', c, t) <==> ClaimedBy(s, c, t))
    && s.closes <= s'.closes && (forall i :: |s.closes| <= i < |s'.closes| ==> s'.closes[i].t != t)
  }

  lemma OthersLeave(s: State, l: Label, t: Tid)
    requires Inv(s) && Enabled(s, l) && l.t != t
    ensures SameFor(s, Step(s, l), t)
  {
    if l.Take? {
      UnclaimedWhileHeld(s, l, s.threads[l.t].c);
    }
  }

  lemma SameCloses(s: State, s': State, t: Tid, c: Conn)
    requires SameFor(s, s', t)
    ensures ClosedNothing(s, t) ==> ClosedNothing(s', t)
    ensures ClosedOne(s, t, c) ==> ClosedOne(s', t, c)
  {
    if ClosedOne(s, t, c) {
      var i :| 0 <= i < |s.closes| && s.closes[i].t == t && s.closes[i].c == c &&
        forall j :: 0 <= j < |s.closes| && s.closes[j].t == t ==> j == i;
      assert s'.closes[i] == s.closes[i];
    }
  }

  lemma SameEnd(s: State, s': State, t: Tid, call: Call, ok: bool, o: Option<Conn>)
    requires SameFor(s, s', t) && Grows(s, s') && Ended(s, t, call, ok, o)
    ensures Ended(s', t, call, ok, o)
  {
    SameCloses(s, s', t, if o.Some? then o.value else 0);
    SameCloses(s, s', t, if call.given.Some? then call.given.value else 0);
  }

  lemma OthersKeepCall(s: State, s': State, t: Tid, call: Call)
    requires SameFor(s, s', t) && Grows(s, s') && CallOk(s, t, call) && t in s'.threads && s'.threads[t] == s.threads[t]
    ensures CallOk(s', t, call)
  {
    SameCloses(s, s', t, 0);
    if s.threads[t].Done? {
      var o :| Ended(s, t, call, s.threads[t].ok, o) && (call.given.Some? ==> o == None || o == call.given);
      SameEnd(s, s', t, call, s.threads[t].ok, o);
    }
  }

  lemma TakeKeepsCall(s: State, t: Tid, call: Call)
    requires Inv(s) && Enabled(s, Take(t)) && CallOk(s, t, call)
    ensures CallOk(Step(s, Take(t)), t, call)
  {
    var s' := Step(s, Take(t));
    if !Wins(s, Take(t)) && call.kind != NetClose {
      assert Ended(s', t, call, false, None);
    }
  }

  lemma CloseKeepsCall(s: State, t: Tid, call: Call)
    requires Inv(s) && Enabled(s, HardClose(t)) && CallOk(s, t, call)
    ensures CallOk(Step(s, HardClose(t)), t, call)
  {
    var s', pc := Step(s, HardClose(t)), s.threads[t];
    assert PcOk(s, t, pc);
    assert s'.closes[|s.closes|] == CloseEvent(s, t);
    assert ClosedOne(s', t, pc.c);
    assert Ended(s', t, call, true, if pc.won then Some(pc.c) else None);
  }

  lemma MoveKeepsCall(s: State, l: Label, call: Call)
    requires Inv(s) && Enabled(s, l) && CallOk(s, l.t, call) && l.t in s.threads && !l.Take? && !l.HardClose?
    ensures CallOk(Step(s, l), l.t, call)
  {
    var s', pc := Step(s, l), s.threads[l.t];
    IdleMove(s, l);
    if s'.threads[l.t].Done? {
      StepKeepsInv(s, l);
      assert PcOk(s, l.t, pc) && PcGen(s, pc);
      if l.Load? {
        assert Ended(s', l.t, call, false, None);
      } else {
        AdvanceLeft(s, l);
        assert Ended(s', l.t, call, true, Some(pc.c));
      }
    }
  }

  lemma IdleMove(s: State, l: Label)
    requires Enabled(s, l) && !l.Take? && !l.HardClose? && !l.Swap?
    ensures Step(s, l).claimed == s.claimed && Step(s, l).closes == s.closes && Step(s, l).genOf == s.genOf
  {
  }

  lemma AdvanceLeft(s: State, l: Label)
    requires Inv(s) && Enabled(s, l) && (l.Advance? || (l.Test? && s.cur != s.threads[l.t].g))
    ensures Left(Step(s, l), s.threads[l.t].g)
  {
    var pc := s.threads[l.t];
    assert PcOk(s, l.t, pc);
    if l.Advance? && s.cur == pc.g {
      var i :| 0 <= i < |s.past| && s.past[i] == pc.g;
      assert Step(s, l).past[i] == pc.g;
    }
  }

  lemma StepKeepsCall(s: State, l: Label, t: Tid, call: Call)
    requires Inv(s) && Enabled(s, l) && CallOk(s, t, call)
    ensures CallOk(Step(s, l), t, call)
  {
    if l.t != t {
      OthersLeave(s, l, t);
      StepGrows(s, l);
      OthersKeepCall(s, Step(s, l), t, call);
    } else if l.Take? {
      TakeKeepsCall(s, t, call);
    } else if l.HardClose? {
      CloseKeepsCall(s, t, call);
    } else {
      MoveKeepsCall(s, l, call);
    }
  }

  /** The call that a step begins, if it begins one that may claim. */
  function Begun(s: State, l: Label): Option<Call>
    requires Enabled(s, l)
  {
    match l
    case BeginClose(_, c) => Some(Call(NetClose, s.genOf[c], Some(c)))
    case BeginInvalidate(_, g, c) => Some(Call(Invalidate, g, Some(c)))
    case BeginRetire(_, g) => Some(Call(RetireIdle, g, None))
    case _ => None
  }

  /** Closes are made by threads that have been called. */
  ghost predicate Known(s: State) {
    forall i :: 0 <= i < |s.closes| ==> s.closes[i].t in s.threads
  }

  lemma {:induction false} RunKnown(states: seq<State>, labels: seq<Label>, i: nat)
    requires Run(states, labels) && i < |states|
    ensures Known(states[i])
  {
    if i > 0 {
      RunKnown(states, labels, i - 1);
      KnownStep(states[i - 1], labels[i - 1]);
    }
  }

  lemma KnownStep(s: State, l: Label)
    requires Known(s) && Enabled(s, l)
    ensures Known(Step(s, l))
  {
  }

  lemma BeginOk(s: State, l: Label)
    requires Inv(s) && Known(s) && Enabled(s, l) && Begun(s, l).Some?
    ensures CallOk(Step(s, l), l.t, Begun(s, l).value)
  {
  }

  lemma {:induction false} RunCall(states: seq<State>, labels: seq<Label>, i: nat, j: nat)
    requires Run(states, labels) && i < j < |states| && Begun(states[i], labels[i]).Some?
    ensures CallOk(states[j], labels[i].t, Begun(states[i], labels[i]).value)
  {
    if j == i + 1 {
      RunInv(states, labels, i);
      RunKnown(states, labels, i);
      BeginOk(states[i], labels[i]);
    } else {
      RunCall(states, labels, i, j - 1);
      RunInv(states, labels, j - 1);
      StepKeepsCall(states[j - 1], labels[j - 1], labels[i].t, Begun(states[i], labels[i]).value);
    }
  }

  /** An invalidation that has returned true claimed the identity it was given, closed it and nothing else, and the slot
      has left the generation; one that has returned false claimed and closed nothing. */
  lemma InvalidateReturns(states: seq<State>, labels: seq<Label>, i: nat, j: nat)
    requires Run(states, labels) && i < j < |states| && labels[i].BeginInvalidate?
    requires labels[i].t in states[j].threads && states[j].threads[labels[i].t].Done?
    ensures var s, l := states[j], labels[i];
            if s.threads[l.t].ok then OwnClaim(s, l.t, Some(l.c)) && ClosedOne(s, l.t, l.c) && Left(s, l.g)
            else OwnClaim(s, l.t, None) && ClosedNothing(s, l.t)
  {
    RunCall(states, labels, i, j);
  }

  /** An idle retirement that has returned true claimed one identity of its generation, which the slot has left; one
      that has returned false claimed nothing. It closes nothing. */
  lemma RetireReturns(states: seq<State>, labels: seq<Label>, i: nat, j: nat)
    requires Run(states, labels) && i < j < |states| && labels[i].BeginRetire?
    requires labels[i].t in states[j].threads && states[j].threads[labels[i].t].Done?
    ensures var s, l := states[j], labels[i];
            && ClosedNothing(s, l.t)
            && if s.threads[l.t].ok then
                 Left(s, l.g) && exists c :: c in s.genOf && s.genOf[c] == l.g && OwnClaim(s, l.t, Some(c))
               else OwnClaim(s, l.t, None)
  {
    RunCall(states, labels, i, j);
    var s, l := states[j], labels[i];
    var o :| Ended(s, l.t, Begun(states[i], l).value, s.threads[l.t].ok, o);
    if o.Some? {
      assert OwnClaim(s, l.t, Some(o.value));
    }
  }

  /** A close by net/http that has returned closed its connection, once, and left the generation if it won the claim. */
  lemma NetCloseReturns(states: seq<State>, labels: seq<Label>, i: nat, j: nat)
    requires Run(states, labels) && i < j < |states| && labels[i].BeginClose?
    requires labels[i].t in states[j].threads && states[j].threads[labels[i].t].Done?
    ensures var s, l := states[j], labels[i];
            && ClosedOne(s, l.t, l.c) && (OwnClaim(s, l.t, None) || OwnClaim(s, l.t, Some(l.c)))
            && (ClaimedBy(s, l.c, l.t) ==> Left(s, states[i].genOf[l.c]))
  {
    RunCall(states, labels, i, j);
  }
}
