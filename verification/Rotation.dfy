/** The rotation state of a slot, which dials set and retirements clear some time after they compared generations
    (transport/http2/slot.go lines 203-205, transport/http2/client.go lines 217-219). */
module Rotation {
  import opened Options
  import opened Generations

  // ---------------------------------------------------------------- the rotation deadline

  /** The deadline that a dial of the current generation has set is in force. */
  predicate DeadlineKept(s: State) {
    s.armed ==> s.rotation == Some(s.cur)
  }

  /** A thread that writes the rotation state, some time after it compared generations, finds its own still current, or
      no deadline of the current one to lose. */
  predicate RotationGuard(s: State, l: Label)
    requires Enabled(s, l)
  {
    l.Arm? || l.Reset? ==> s.threads[l.t].g == s.cur || !s.armed
  }

  lemma DeadlineStep(s: State, l: Label)
    requires DeadlineKept(s) && Enabled(s, l)
    ensures DeadlineKept(Step(s, l)) <==> RotationGuard(s, l)
  {
  }

  /** Over whole runs: the deadline of the current generation is never lost if and only if every such write finds its
      generation still current, or none to lose. */
  lemma DeadlineKeptExactlyWhenGuarded(states: seq<State>, labels: seq<Label>)
    requires Run(states, labels)
    ensures (forall i :: 0 <= i < |states| ==> DeadlineKept(states[i])) <==>
            (forall i :: 0 <= i < |labels| ==> RotationGuard(states[i], labels[i]))
  {
    if forall i :: 0 <= i < |labels| ==> RotationGuard(states[i], labels[i]) {
      forall i | 0 <= i < |states|
        ensures DeadlineKept(states[i])
      {
        GuardedKeepsDeadline(states, labels, i);
      }
    }
    if forall i :: 0 <= i < |states| ==> DeadlineKept(states[i]) {
      forall i | 0 <= i < |labels|
        ensures RotationGuard(states[i], labels[i])
      {
        assert DeadlineKept(states[i]) && DeadlineKept(states[i + 1]);
        DeadlineStep(states[i], labels[i]);
      }
    }
  }

  lemma {:induction false} GuardedKeepsDeadline(states: seq<State>, labels: seq<Label>, i: nat)
    requires Run(states, labels) && i < |states|
    requires forall j :: 0 <= j < |labels| ==> RotationGuard(states[j], labels[j])
    ensures DeadlineKept(states[i])
    decreases i
  {
    if i > 0 {
      GuardedKeepsDeadline(states, labels, i - 1);
      assert RotationGuard(states[i - 1], labels[i - 1]);
      DeadlineStep(states[i - 1], labels[i - 1]);
    }
  }

  // ---------------------------------------------------------------- a deadline that is lost

  lemma RunSnoc(states: seq<State>, labels: seq<Label>, l: Label)
    requires Run(states, labels) && Enabled(states[|labels|], l)
    ensures Run(states + [Step(states[|labels|], l)], labels + [l])
  {
  }

  /** Some run leads to `s`. */
  ghost predicate Reached(s: State) {
    exists states, labels :: Run(states, labels) && states[|labels|] == s
  }

  lemma ReachedNext(s: State, l: Label) returns (s': State)
    requires Reached(s) && Enabled(s, l)
    ensures s' == Step(s, l) && Reached(s')
  {
    s' := Step(s, l);
    var states, labels :| Run(states, labels) && states[|labels|] == s;
    RunSnoc(states, labels, l);
    assert (states + [s'])[|labels + [l]|] == s';
  }

  /** What a dial of `g` by `t` leaves behind when nobody disturbs it. */
  lemma DialAlone(s: State, t: Tid, g: Gen, c: Conn) returns (s': State)
    requires Reached(s) && t !in s.threads && g in s.past && g == s.cur && c !in s.genOf
    ensures Reached(s') && s'.cur == s.cur && s'.past == s.past && s'.nextGen == s.nextGen
    ensures s'.threads == s.threads[t := Done(true)] && s'.conns == s.conns[g := c] && s'.genOf == s.genOf[c := g]
    ensures s'.rotation == Some(g) && s'.armed
  {
    s' := ReachedNext(s, BeginDial(t, g));
    s' := ReachedNext(s', CheckDial(t));
    s' := ReachedNext(s', Arm(t));
    s' := ReachedNext(s', Swap(t, c));
  }

  /** Thread 1 claims the first connection of generation 0 and finds that generation current; a redial puts a second
      one in its place, which net/http closes, so that the slot moves on to generation 1; a dial there sets its
      deadline. */
  lemma ResetIsLate() returns (s: State)
    ensures Reached(s) && s.cur == 1 && s.armed && s.rotation == Some(1)
    ensures 1 in s.threads && s.threads[1] == Resetting(0, 10, Invalidate)
  {
    assert Run([INITIAL], []) && Reached(INITIAL);
    s := DialAlone(INITIAL, 0, 0, 10);
    s := FirstIsClaimed(s);
    s := DialAlone(s, 2, 0, 20);
    s := SecondIsClosed(s);
    s := DialAlone(s, 4, 1, 30);
  }

  lemma FirstIsClaimed(s: State) returns (s': State)
    requires Reached(s) && 1 !in s.threads && 0 in s.past && s.cur == 0 && Holds(s, 0, 10)
    ensures Reached(s') && s'.threads == s.threads[1 := Resetting(0, 10, Invalidate)]
    ensures s'.cur == 0 && s'.past == s.past && s'.nextGen == s.nextGen && s'.genOf == s.genOf
  {
    s' := ReachedNext(s, BeginInvalidate(1, 0, 10));
    s' := ReachedNext(s', Take(1));
    s' := ReachedNext(s', Test(1));
  }

  lemma SecondIsClosed(s: State) returns (s': State)
    requires Reached(s) && 3 !in s.threads && 20 in s.genOf && s.genOf[20] == 0 == s.cur && Holds(s, 0, 20)
    requires s.past == [0] && s.nextGen == 1
    ensures Reached(s') && s'.cur == 1 && s'.past == [0, 1] && s'.genOf == s.genOf
    ensures 3 in s'.threads && s'.threads == s.threads[3 := s'.threads[3]]
  {
    s' := ReachedNext(s, BeginClose(3, 20));
    s' := ReachedNext(s', Take(3));
    s' := ReachedNext(s', Advance(3));
    assert [0] + [1] == [0, 1];
  }

  /** The comment at client.go line 217 wants the rotation state of a new generation safe from those that come late:
      thread 1 clears it all the same, and generation 1 is left without a deadline. */
  lemma DeadlineCanBeLost() returns (states: seq<State>, labels: seq<Label>)
    ensures Run(states, labels) && exists i :: 0 <= i < |states| && !DeadlineKept(states[i])
  {
    var late := ResetIsLate();
    var s := ReachedNext(late, Reset(1));
    states, labels :| Run(states, labels) && states[|labels|] == s;
    assert !DeadlineKept(states[|labels|]);
  }
}
