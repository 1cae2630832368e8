/** Connection generations of one transport slot: dials, closes by net/http, idle retirement and invalidation race over
    connection identities by compare-and-swap (transport/http2/slot.go, transport/http2/client.go). */
module Generations {
  import opened Options

  type Gen = nat   // a slotTransport; a number is never used twice
  type Conn = nat  // a slotConn
  type Tid = nat

  // ---------------------------------------------------------------- the atomic operations

  /** gen.conn.CompareAndSwap(c, nil) */
  function TakenFrom(conns: map<Gen, Conn>, g: Gen, c: Conn): map<Gen, Conn> {
    if g in conns && conns[g] == c then conns - {g} else conns
  }

  /** What a claim on generation `g` gets: the given identity, or with none given whatever is there. */
  function ClaimOf(conns: map<Gen, Conn>, g: Gen, given: Option<Conn>): Option<Conn> {
    if g in conns && (given == None || given == Some(conns[g])) then Some(conns[g]) else None
  }

  /** slot.gen.CompareAndSwap(g, next) */
  function Advanced(cur: Gen, next: Gen, g: Gen): Gen {
    if cur == g then next else cur
  }

  /** Claiming `c` and, if that worked, leaving `g`. */
  function Retired(cur: Gen, next: Gen, conns: map<Gen, Conn>, g: Gen, c: Conn): (Gen, map<Gen, Conn>) {
    (if g in conns && conns[g] == c then Advanced(cur, next, g) else cur, TakenFrom(conns, g, c))
  }

  // ---------------------------------------------------------------- the operations, one at a time

  /** transportSlot with the identities its generations hold. Each method runs undisturbed. */
  class TransportSlot {
    var gen: Gen
    var nextGen: Gen
    var conn: map<Gen, Conn>
    var hardClosed: set<Conn>
    var rotation: Option<Gen>  // the generation whose dial set the rotation deadline, if any

    ghost predicate Valid()
      reads this
    {
      gen < nextGen && forall g :: g in conn ==> g < nextGen
    }

    constructor ()
      ensures Valid() && conn == map[] && hardClosed == {} && rotation == None
    {
      gen, nextGen, conn, hardClosed, rotation := 0, 1, map[], {}, None;
    }

    method AdvanceGeneration(g: Gen) returns (advanced: bool)
      requires Valid()
      modifies this`gen, this`nextGen
      ensures Valid() && (advanced <==> g == old(gen))
      ensures gen == Advanced(old(gen), old(nextGen), g) && nextGen == old(nextGen) + 1
      ensures if advanced then gen !in conn && gen > old(gen) else gen == old(gen)
    {
      var next := nextGen;
      nextGen := nextGen + 1;
      advanced := gen == g;
      if advanced {
        gen := next;
      }
    }

    /** takeConn: `None` claims whatever the generation holds. */
    method TakeConn(g: Gen, given: Option<Conn>) returns (won: Option<Conn>)
      modifies this`conn
      ensures won == ClaimOf(old(conn), g, given)
      ensures conn == if won.Some? then old(conn) - {g} else old(conn)
      ensures given.Some? ==> conn == TakenFrom(old(conn), g, given.value)
    {
      var wanted := given;
      if wanted == None {
        if g !in conn {
          return None;
        }
        wanted := Some(conn[g]);
      }
      if g !in conn || conn[g] != wanted.value {
        return None;
      }
      conn := conn - {g};
      won := wanted;
    }

    method RetireConn(g: Gen, given: Option<Conn>) returns (won: Option<Conn>)
      requires Valid()
      modifies this`gen, this`nextGen, this`conn, this`rotation
      ensures Valid() && rotation == if won.Some? && old(gen) == g then None else old(rotation)
      ensures won == ClaimOf(old(conn), g, given)
      ensures conn == if won.Some? then old(conn) - {g} else old(conn)
      ensures if won.Some? then gen != g else gen == old(gen)
      ensures old(gen) != g ==> gen == old(gen)
      ensures given.Some? ==> (gen, conn) == Retired(old(gen), old(nextGen), old(conn), g, given.value)
    {
      won := TakeConn(g, given);
      if won.Some? && gen == g {
        rotation := None;
        var _ := AdvanceGeneration(g);
      }
    }

    /** invalidateConnIf: closes `given` and nothing else, and only while the generation still holds it. */
    method InvalidateConnIf(g: Gen, given: Option<Conn>) returns (ok: bool)
      requires Valid()
      modifies this
      ensures Valid() && (ok <==> given.Some? && g in old(conn) && old(conn)[g] == given.value)
      ensures ok ==> gen != g && conn == old(conn) - {g} && hardClosed == old(hardClosed) + {given.value}
      ensures !ok ==> gen == old(gen) && conn == old(conn) && hardClosed == old(hardClosed)
      ensures given.Some? ==> (gen, conn) == Retired(old(gen), old(nextGen), old(conn), g, given.value)
    {
      if given == None {
        return false;
      }
      var won := RetireConn(g, given);
      if won == None {
        return false;
      }
      hardClosed := hardClosed + {won.value};
      ok := true;
    }

    /** retireIdleConn: the identity goes, the connection is not closed here. */
    method RetireIdleConn(g: Gen) returns (ok: bool)
      requires Valid()
      modifies this`gen, this`nextGen, this`conn, this`rotation
      ensures Valid() && (ok <==> g in old(conn))
      ensures conn == old(conn) - {g} && (ok ==> gen != g) && (!ok ==> gen == old(gen))
    {
      var won := RetireConn(g, None);
      ok := won.Some?;
    }

    /** The end of a dial: it sets the rotation deadline if its generation is still current, and the new identity
        displaces whatever the generation held. */
    method FinishDial(g: Gen, c: Conn) returns (displaced: Option<Conn>)
      requires Valid() && g < nextGen
      modifies this`conn, this`rotation
      ensures Valid() && conn == old(conn)[g := c] && rotation == if gen == g then Some(g) else old(rotation)
      ensures displaced == if g in old(conn) then Some(old(conn)[g]) else None
    {
      if gen == g {
        rotation := Some(g);
      }
      displaced := if g in conn then Some(conn[g]) else None;
      conn := conn[g := c];
    }
  }

  // ---------------------------------------------------------------- interleaved steps

  datatype Kind = NetClose | Invalidate | RetireIdle

  datatype Pc =
    | Dialled(g: Gen)                          // handshake done, about to compare the current generation
    | Arming(g: Gen)                           // found it current; about to set the rotation deadline
    | Swapping(g: Gen)                         // about to swap its identity in
    | Loading(g: Gen)                          // retireIdleConn, about to read the identity
    | Taking(g: Gen, c: Conn, kind: Kind)      // about to CAS the identity to nil
    | Testing(g: Gen, c: Conn, kind: Kind)     // won; about to compare the current generation
    | Resetting(g: Gen, c: Conn, kind: Kind)   // won and found it current; about to clear the rotation state
    | Advancing(g: Gen, c: Conn, kind: Kind)   // won; about to CAS the generation
    | Closing(g: Gen, c: Conn, kind: Kind, won: bool)
    | Done(ok: bool)

  /** One hard close and the generation that was current then. */
  datatype Event = Event(t: Tid, kind: Kind, c: Conn, won: bool, current: Gen)

  /** `rotation` is the generation whose dial set the deadline last, if it was not cleared since; `armed` records that a
      dial of the current generation has set it and no retirement of that generation has cleared it. */
  datatype State = State(
    cur: Gen, nextGen: Gen, past: seq<Gen>,
    conns: map<Gen, Conn>, genOf: map<Conn, Gen>, claimed: map<Conn, Tid>, displaced: set<Conn>,
    closes: seq<Event>, threads: map<Tid, Pc>, rotation: Option<Gen>, armed: bool)

  datatype Label =
    | BeginDial(t: Tid, g: Gen) | CheckDial(t: Tid) | Arm(t: Tid) | Swap(t: Tid, c: Conn)
    | BeginClose(t: Tid, c: Conn) | BeginInvalidate(t: Tid, g: Gen, c: Conn) | BeginRetire(t: Tid, g: Gen)
    | Load(t: Tid) | Take(t: Tid) | Test(t: Tid) | Reset(t: Tid) | Advance(t: Tid) | HardClose(t: Tid)

  const INITIAL := State(0, 1, [0], map[], map[], map[], {}, [], map[], None, false)

  predicate Enabled(s: State, l: Label) {
    match l
    case BeginDial(t, g) => t !in s.threads && g in s.past
    case CheckDial(t) => t in s.threads && s.threads[t].Dialled?
    case Arm(t) => t in s.threads && s.threads[t].Arming?
    case Swap(t, c) => t in s.threads && s.threads[t].Swapping? && c !in s.genOf
    case BeginClose(t, c) => t !in s.threads && c in s.genOf
    case BeginInvalidate(t, g, c) => t !in s.threads && g in s.past
    case BeginRetire(t, g) => t !in s.threads && g in s.past
    case Load(t) => t in s.threads && s.threads[t].Loading?
    case Take(t) => t in s.threads && s.threads[t].Taking?
    case Test(t) => t in s.threads && s.threads[t].Testing?
    case Reset(t) => t in s.threads && s.threads[t].Resetting?
    case Advance(t) => t in s.threads && s.threads[t].Advancing?
    case HardClose(t) => t in s.threads && s.threads[t].Closing?
  }

  function AfterAdvance(pc: Pc): Pc
    requires pc.Testing? || pc.Advancing?
  {
    if pc.kind == RetireIdle then Done(true) else Closing(pc.g, pc.c, pc.kind, true)
  }

  predicate Holds(s: State, g: Gen, c: Conn) {
    g in s.conns && s.conns[g] == c
  }

  /** The CAS on the identity succeeds. */
  predicate Wins(s: State, l: Label)
    requires Enabled(s, l)
  {
    l.Take? && Holds(s, s.threads[l.t].g, s.threads[l.t].c)
  }

  /** The CAS on the generation succeeds. */
  predicate Leaves(s: State, l: Label)
    requires Enabled(s, l)
  {
    l.Advance? && s.cur == s.threads[l.t].g
  }

  /** The acting thread's next program point. */
  function NextPc(s: State, l: Label): Pc
    requires Enabled(s, l)
  {
    match l
    case BeginDial(_, g) => Dialled(g)
    case CheckDial(t) => if s.cur == s.threads[t].g then Arming(s.threads[t].g) else Swapping(s.threads[t].g)
    case Arm(t) => Swapping(s.threads[t].g)
    case Swap(_, _) => Done(true)
    case BeginClose(_, c) => Taking(s.genOf[c], c, NetClose)
    case BeginInvalidate(_, g, c) => Taking(g, c, Invalidate)
    case BeginRetire(_, g) => Loading(g)
    case Load(t) =>
      var g := s.threads[t].g;
      if g in s.conns then Taking(g, s.conns[g], RetireIdle) else Done(false)
    case Take(t) => AfterTake(s.threads[t], Wins(s, l))
    case Test(t) =>
      var pc := s.threads[t];
      if s.cur == pc.g then Resetting(pc.g, pc.c, pc.kind) else AfterAdvance(pc)
    case Reset(t) => Advancing(s.threads[t].g, s.threads[t].c, s.threads[t].kind)
    case Advance(t) => AfterAdvance(s.threads[t])
    case HardClose(t) => Done(true)
  }

  /** Only a close by net/http goes on without its claim, and it leaves the generation without a test. */
  function AfterTake(pc: Pc, won: bool): Pc
    requires pc.Taking?
  {
    if pc.kind == NetClose then if won then Advancing(pc.g, pc.c, pc.kind) else Closing(pc.g, pc.c, pc.kind, false)
    else if won then Testing(pc.g, pc.c, pc.kind) else Done(false)
  }

  function NextConns(s: State, l: Label): map<Gen, Conn>
    requires Enabled(s, l)
  {
    if l.Take? then TakenFrom(s.conns, s.threads[l.t].g, s.threads[l.t].c)
    else if l.Swap? then s.conns[s.threads[l.t].g := l.c]
    else s.conns
  }

  function NextRotation(s: State, l: Label): (Option<Gen>, bool)
    requires Enabled(s, l)
  {
    if l.Arm? then (Some(s.threads[l.t].g), s.armed || s.threads[l.t].g == s.cur)
    else if l.Reset? then (None, s.armed && s.threads[l.t].g != s.cur)
    else (s.rotation, s.armed && !Leaves(s, l))
  }

  function Step(s: State, l: Label): State
    requires Enabled(s, l)
  {
    State(
      if l.Advance? then Advanced(s.cur, s.nextGen, s.threads[l.t].g) else s.cur,
      if l.Advance? then s.nextGen + 1 else s.nextGen,
      if Leaves(s, l) then s.past + [s.nextGen] else s.past,
      NextConns(s, l),
      if l.Swap? then s.genOf[l.c := s.threads[l.t].g] else s.genOf,
      if Wins(s, l) then s.claimed[s.threads[l.t].c := l.t] else s.claimed,
      if l.Swap? && s.threads[l.t].g in s.conns then s.displaced + {s.conns[s.threads[l.t].g]} else s.displaced,
      if l.HardClose? then s.closes + [CloseEvent(s, l.t)] else s.closes,
      s.threads[l.t := NextPc(s, l)], NextRotation(s, l).0, NextRotation(s, l).1)
  }

  function CloseEvent(s: State, t: Tid): Event
    requires t in s.threads && s.threads[t].Closing?
  {
    Event(t, s.threads[t].kind, s.threads[t].c, s.threads[t].won, s.cur)
  }

  /** The machine changes the slot by exactly the atomic operations that the class uses. */
  lemma StepsAreOperations(s: State, l: Label)
    requires Enabled(s, l)
    ensures var s' := Step(s, l);
            && s'.conns == (if l.Take? then TakenFrom(s.conns, s.threads[l.t].g, s.threads[l.t].c)
                            else if l.Swap? then s.conns[s.threads[l.t].g := l.c] else s.conns)
            && s'.cur == (if l.Advance? then Advanced(s.cur, s.nextGen, s.threads[l.t].g) else s.cur)
            && s'.nextGen == (if l.Advance? then s.nextGen + 1 else s.nextGen)
            && s'.closes == if l.HardClose? then s.closes + [CloseEvent(s, l.t)] else s.closes
  {
  }

  /** A step of a thread that runs undisturbed, if it has this step to make. */
  function Then(s: State, l: Label): State {
    if Enabled(s, l) then Step(s, l) else s
  }

  /** A whole invalidation with nobody in between. */
  function Invalidated(s: State, t: Tid, g: Gen, c: Conn): State
    requires t !in s.threads && g in s.past
  {
    Leaving(Then(Step(s, BeginInvalidate(t, g, c)), Take(t)), t)
  }

  /** What follows the claim. */
  function Leaving(s: State, t: Tid): State {
    Then(Then(Then(Then(s, Test(t)), Reset(t)), Advance(t)), HardClose(t))
  }

  lemma LeavingAlone(s: State, t: Tid, g: Gen, c: Conn)
    requires t in s.threads && s.threads[t] == Testing(g, c, Invalidate)
    ensures var s' := Leaving(s, t);
            && s'.threads == s.threads[t := Done(true)] && s'.conns == s.conns
            && s'.cur == Advanced(s.cur, s.nextGen, g)
            && s'.closes == s.closes + [Event(t, Invalidate, c, true, s'.cur)]
            && s'.rotation == if s.cur == g then None else s.rotation
  {
    var s1 := Then(s, Test(t));
    assert s1.threads[t] == if s.cur == g then Resetting(g, c, Invalidate) else Closing(g, c, Invalidate, true);
    var s2 := Then(s1, Reset(t));
    assert s2.threads[t] == if s.cur == g then Advancing(g, c, Invalidate) else Closing(g, c, Invalidate, true);
    var s3 := Then(s2, Advance(t));
    assert s3.threads[t] == Closing(g, c, Invalidate, true);
  }

  /** The steps of an invalidation that nobody disturbs do what the method InvalidateConnIf does. */
  lemma InvalidateAlone(s: State, t: Tid, g: Gen, c: Conn)
    requires t !in s.threads && g in s.past
    ensures var s' := Invalidated(s, t, g, c);
            && t in s'.threads && s'.threads[t] == Done(Holds(s, g, c))
            && (s'.cur, s'.conns) == Retired(s.cur, s.nextGen, s.conns, g, c)
            && s'.closes == s.closes + (if Holds(s, g, c) then [Event(t, Invalidate, c, true, s'.cur)] else [])
            && s'.rotation == if Holds(s, g, c) && s.cur == g then None else s.rotation
  {
    var taken := Then(Step(s, BeginInvalidate(t, g, c)), Take(t));
    if Holds(s, g, c) {
      assert taken.threads[t] == Testing(g, c, Invalidate);
      LeavingAlone(taken, t, g, c);
    } else {
      assert taken.threads[t] == Done(false);
      NothingToDo(taken, t);
    }
  }

  lemma NothingToDo(s: State, t: Tid)
    requires t in s.threads && s.threads[t].Done?
    ensures Leaving(s, t) == s
  {
  }

  // ---------------------------------------------------------------- invariants

  predicate GenInv(s: State) {
    && |s.past| > 0 && s.past[|s.past| - 1] == s.cur && s.cur < s.nextGen
    && forall i, j :: 0 <= i < j < |s.past| ==> s.past[i] < s.past[j]
  }

  /** A generation the slot has been in and has left. */
  predicate Left(s: State, g: Gen) {
    g in s.past && g != s.cur
  }

  predicate ClaimedBy(s: State, c: Conn, t: Tid) {
    c in s.claimed && s.claimed[c] == t
  }

  /** Every identity is held by its generation, claimed by one thread, or displaced by a later dial. */
  predicate ConnOk(s: State, c: Conn)
    requires c in s.genOf
  {
    && s.genOf[c] in s.past
    && (Holds(s, s.genOf[c], c) || c in s.claimed || c in s.displaced)
    && (Holds(s, s.genOf[c], c) ==> c !in s.claimed && c !in s.displaced)
    && !(c in s.claimed && c in s.displaced)
  }

  ghost predicate ConnInv(s: State) {
    && (forall c :: c in s.genOf ==> ConnOk(s, c))
    && (forall g :: g in s.conns ==> s.conns[g] in s.genOf && s.genOf[s.conns[g]] == g)
    && s.claimed.Keys <= s.genOf.Keys && s.displaced <= s.genOf.Keys
  }

  predicate PcOk(s: State, t: Tid, pc: Pc) {
    match pc
    case Dialled(g) => g in s.past
    case Arming(g) => g in s.past
    case Swapping(g) => g in s.past
    case Loading(g) => g in s.past
    case Taking(g, c, kind) => g in s.past && (kind == NetClose ==> c in s.genOf && s.genOf[c] == g)
    case Testing(g, c, kind) => g in s.past && ClaimedBy(s, c, t) && kind != NetClose
    case Resetting(g, c, kind) => g in s.past && ClaimedBy(s, c, t) && kind != NetClose
    case Advancing(g, c, _) => g in s.past && ClaimedBy(s, c, t)
    case Closing(g, c, kind, won) =>
      && g in s.past && c in s.genOf && s.genOf[c] == g && kind != RetireIdle && (kind == Invalidate ==> won)
      && if won then ClaimedBy(s, c, t) && Left(s, g) else c in s.displaced || (c in s.claimed && s.claimed[c] != t)
    case Done(_) => true
  }

  /** What a thread has claimed belongs to the generation it works on. */
  predicate PcGen(s: State, pc: Pc) {
    pc.Testing? || pc.Resetting? || pc.Advancing? ==> pc.c in s.genOf && s.genOf[pc.c] == pc.g
  }

  /** The thread is not about to claim anything. */
  predicate PastClaim(pc: Pc) {
    !pc.Taking? && !pc.Loading?
  }

  ghost predicate ThreadInv(s: State) {
    && (forall t :: t in s.threads ==> PcOk(s, t, s.threads[t]) && PcGen(s, s.threads[t]))
    && (forall c :: c in s.claimed ==> s.claimed[c] in s.threads && PastClaim(s.threads[s.claimed[c]]))
  }

  /** What each close in the log found. */
  predicate EventOk(s: State, e: Event) {
    && e.c in s.genOf && e.kind != RetireIdle && (e.kind == Invalidate ==> e.won)
    && if e.won then ClaimedBy(s, e.c, e.t) && e.current in s.past && s.genOf[e.c] in s.past && s.genOf[e.c] < e.current
       else e.c in s.displaced || (e.c in s.claimed && s.claimed[e.c] != e.t)
  }

  ghost predicate LogInv(s: State) {
    forall i :: 0 <= i < |s.closes| ==> EventOk(s, s.closes[i])
  }

  ghost predicate Inv(s: State) {
    GenInv(s) && ConnInv(s) && ThreadInv(s) && LogInv(s)
  }

  // ---------------------------------------------------------------- preservation

  /** What no step undoes. */
  ghost predicate Grows(s: State, s': State) {
    && s.past <= s'.past && (forall c :: c in s.genOf ==> c in s'.genOf && s'.genOf[c] == s.genOf[c])
    && (forall c :: c in s.claimed ==> c in s'.claimed && s'.claimed[c] == s.claimed[c])
    && s.displaced <= s'.displaced
    && (forall g :: Left(s, g) ==> Left(s', g))
  }

  lemma AdvanceGrows(s: State, l: Label)
    requires GenInv(s) && Enabled(s, l) && l.Advance?
    ensures Grows(s, Step(s, l)) && GenInv(Step(s, l))
  {
    var s' := Step(s, l);
    forall g | Left(s, g)
      ensures Left(s', g)
    {
      var i :| 0 <= i < |s.past| && s.past[i] == g;
      assert s'.past[i] == g;
    }
  }

  lemma TakeGrows(s: State, l: Label)
    requires GenInv(s) && ConnInv(s) && Enabled(s, l) && l.Take?
    ensures Grows(s, Step(s, l)) && GenInv(Step(s, l))
  {
    if Holds(s, s.threads[l.t].g, s.threads[l.t].c) {
      assert ConnOk(s, s.threads[l.t].c);
    }
  }

  lemma SwapGrows(s: State, l: Label)
    requires GenInv(s) && Enabled(s, l) && l.Swap?
    ensures Grows(s, Step(s, l)) && GenInv(Step(s, l))
  {
  }

  lemma StepGrows(s: State, l: Label)
    requires GenInv(s) && ConnInv(s) && Enabled(s, l)
    ensures Grows(s, Step(s, l)) && GenInv(Step(s, l))
  {
    if l.Advance? {
      AdvanceGrows(s, l);
    } else if l.Take? {
      TakeGrows(s, l);
    } else if l.Swap? {
      SwapGrows(s, l);
    } else {
      IdentitiesStay(s, l);
    }
  }

  lemma PcKept(s: State, s': State, t: Tid, pc: Pc)
    requires Grows(s, s') && PcOk(s, t, pc) && PcGen(s, pc)
    ensures PcOk(s', t, pc) && PcGen(s', pc)
  {
    assert forall g :: g in s.past ==> g in s'.past;
  }

  lemma SwapKeepsConns(s: State, l: Label)
    requires ConnInv(s) && Enabled(s, l) && l.Swap? && s.threads[l.t].g in s.past
    ensures ConnInv(Step(s, l))
  {
    var s' := Step(s, l);
    var g := s.threads[l.t].g;
    forall c | c in s'.genOf
      ensures ConnOk(s', c)
    {
      if c != l.c {
        assert ConnOk(s, c);
      }
    }
  }

  lemma TakeKeepsConns(s: State, l: Label)
    requires ConnInv(s) && Enabled(s, l) && l.Take?
    ensures ConnInv(Step(s, l))
  {
    var s' := Step(s, l);
    forall c | c in s'.genOf
      ensures ConnOk(s', c)
    {
      assert ConnOk(s, c);
    }
  }

  /** Steps that touch no identity. */
  lemma OtherKeepsConns(s: State, s': State)
    requires ConnInv(s) && s.past <= s'.past
    requires s'.conns == s.conns && s'.genOf == s.genOf && s'.claimed == s.claimed && s'.displaced == s.displaced
    ensures ConnInv(s')
  {
    assert forall g :: g in s.past ==> g in s'.past;
    forall c | c in s'.genOf
      ensures ConnOk(s', c)
    {
      assert ConnOk(s, c);
    }
  }

  lemma StepKeepsConns(s: State, l: Label)
    requires GenInv(s) && ConnInv(s) && Enabled(s, l) && (l.t in s.threads ==> PcOk(s, l.t, s.threads[l.t]))
    ensures ConnInv(Step(s, l))
  {
    if l.Swap? {
      SwapKeepsConns(s, l);
    } else if l.Take? {
      TakeKeepsConns(s, l);
    } else {
      IdentitiesStay(s, l);
      OtherKeepsConns(s, Step(s, l));
    }
  }

  lemma IdentitiesStay(s: State, l: Label)
    requires Enabled(s, l) && !l.Swap? && !l.Take?
    ensures var s' := Step(s, l);
            && s'.conns == s.conns && s'.genOf == s.genOf && s'.claimed == s.claimed && s'.displaced == s.displaced
            && s.past <= s'.past
  {
  }

  /** A thread that has claimed nothing yet owns no claim. */
  lemma ActorOk(s: State, l: Label)
    requires GenInv(s) && ConnInv(s) && ThreadInv(s) && Enabled(s, l)
    ensures var s' := Step(s, l); PcOk(s', l.t, s'.threads[l.t]) && PcGen(s', s'.threads[l.t])
  {
    if l.Take? {
      TakerOk(s, l);
    } else if l.Advance? || l.Test? {
      AdvanceLeaves(s, l);
    } else if l.t in s.threads {
      assert PcOk(s, l.t, s.threads[l.t]) && PcGen(s, s.threads[l.t]);
      MoverOk(s, l);
    } else {
      BeginnerOk(s, l);
    }
  }

  lemma TakerOk(s: State, l: Label)
    requires ConnInv(s) && ThreadInv(s) && Enabled(s, l) && l.Take?
    ensures var s' := Step(s, l); PcOk(s', l.t, s'.threads[l.t]) && PcGen(s', s'.threads[l.t])
  {
    var pc := s.threads[l.t];
    assert PcOk(s, l.t, pc);
    if pc.kind == NetClose {
      assert ConnOk(s, pc.c);
    }
  }

  lemma MoverOk(s: State, l: Label)
    requires Enabled(s, l) && (l.CheckDial? || l.Arm? || l.Swap? || l.Load? || l.Reset? || l.HardClose?)
    requires PcOk(s, l.t, s.threads[l.t]) && PcGen(s, s.threads[l.t])
    ensures var s' := Step(s, l); PcOk(s', l.t, s'.threads[l.t]) && PcGen(s', s'.threads[l.t])
  {
  }

  lemma BeginnerOk(s: State, l: Label)
    requires ConnInv(s) && Enabled(s, l) && (l.BeginDial? || l.BeginClose? || l.BeginInvalidate? || l.BeginRetire?)
    ensures var s' := Step(s, l); PcOk(s', l.t, s'.threads[l.t]) && PcGen(s', s'.threads[l.t])
  {
    if l.BeginClose? {
      assert ConnOk(s, l.c);
    }
  }

  /** The CAS on the generation fails only when the slot has already left it. */
  lemma AdvanceLeaves(s: State, l: Label)
    requires GenInv(s) && ThreadInv(s) && Enabled(s, l) && (l.Advance? || l.Test?)
    ensures var s' := Step(s, l); PcOk(s', l.t, s'.threads[l.t]) && PcGen(s', s'.threads[l.t])
  {
    var pc := s.threads[l.t];
    assert PcOk(s, l.t, pc) && PcGen(s, pc);
    if l.Advance? && s.cur == pc.g {
      var i :| 0 <= i < |s.past| && s.past[i] == pc.g;
      assert Step(s, l).past[i] == pc.g;
    }
  }

  lemma StepKeepsThreads(s: State, l: Label)
    requires GenInv(s) && ConnInv(s) && ThreadInv(s) && Enabled(s, l)
    ensures ThreadInv(Step(s, l))
  {
    var s' := Step(s, l);
    StepGrows(s, l);
    ActorOk(s, l);
    forall t | t in s'.threads
      ensures PcOk(s', t, s'.threads[t]) && PcGen(s', s'.threads[t])
    {
      if t != l.t {
        PcKept(s, s', t, s.threads[t]);
      }
    }
    ClaimersStay(s, l);
  }

  lemma ClaimersStay(s: State, l: Label)
    requires ThreadInv(s) && Enabled(s, l)
    ensures var s' := Step(s, l);
            forall c :: c in s'.claimed ==> s'.claimed[c] in s'.threads && PastClaim(s'.threads[s'.claimed[c]])
  {
  }

  lemma Older(s: State, g: Gen)
    requires GenInv(s) && Left(s, g)
    ensures g < s.cur
  {
    var i :| 0 <= i < |s.past| && s.past[i] == g;
  }

  lemma StepKeepsLog(s: State, l: Label)
    requires GenInv(s) && ConnInv(s) && ThreadInv(s) && LogInv(s) && Enabled(s, l)
    ensures LogInv(Step(s, l))
  {
    var s' := Step(s, l);
    StepGrows(s, l);
    forall i | 0 <= i < |s'.closes|
      ensures EventOk(s', s'.closes[i])
    {
      if i < |s.closes| {
        assert s'.closes[i] == s.closes[i] && EventOk(s, s.closes[i]);
        assert forall g :: g in s.past ==> g in s'.past;
      } else {
        assert PcOk(s, l.t, s.threads[l.t]);
        if s.threads[l.t].won {
          Older(s, s.threads[l.t].g);
        }
      }
    }
  }

  lemma StepKeepsInv(s: State, l: Label)
    requires Inv(s) && Enabled(s, l)
    ensures Inv(Step(s, l))
  {
    StepGrows(s, l);
    StepKeepsConns(s, l);
    StepKeepsThreads(s, l);
    StepKeepsLog(s, l);
  }

  // ---------------------------------------------------------------- what every run guarantees

  ghost predicate Run(states: seq<State>, labels: seq<Label>) {
    && |states| == |labels| + 1 && states[0] == INITIAL
    && forall i :: 0 <= i < |labels| ==> Enabled(states[i], labels[i]) && states[i + 1] == Step(states[i], labels[i])
  }

  lemma {:induction false} RunInv(states: seq<State>, labels: seq<Label>, i: nat)
    requires Run(states, labels) && i < |states|
    ensures Inv(states[i])
  {
    if i > 0 {
      RunInv(states, labels, i - 1);
      StepKeepsInv(states[i - 1], labels[i - 1]);
    }
  }

  lemma GrowsFurther(a: State, b: State, c: State)
    requires Grows(a, b) && Grows(b, c)
    ensures Grows(a, c)
  {
  }

  lemma RunStepGrows(states: seq<State>, labels: seq<Label>, i: nat)
    requires Run(states, labels) && i < |labels|
    ensures Grows(states[i], states[i + 1])
  {
    RunInv(states, labels, i);
    StepGrows(states[i], labels[i]);
  }

  lemma {:induction false} ChainGrows(states: seq<State>, i: nat, j: nat)
    requires i <= j < |states| && forall k :: 0 < k < |states| ==> Grows(states[k - 1], states[k])
    ensures Grows(states[i], states[j])
  {
    if i < j {
      ChainGrows(states, i, j - 1);
      GrowsFurther(states[i], states[j - 1], states[j]);
    }
  }

  lemma RunGrows(states: seq<State>, labels: seq<Label>, i: nat, j: nat)
    requires Run(states, labels) && i <= j < |states|
    ensures Grows(states[i], states[j])
  {
    forall k | 0 < k < |states|
      ensures Grows(states[k - 1], states[k])
    {
      RunStepGrows(states, labels, k - 1);
    }
    ChainGrows(states, i, j);
  }

  /** The step at which a thread wins the CAS on the identity `c`. */
  predicate Claims(s: State, l: Label, c: Conn) {
    l.Take? && l.t in s.threads && s.threads[l.t].Taking? && s.threads[l.t].c == c && Holds(s, s.threads[l.t].g, c)
  }

  /** Over a whole run each connection identity is claimed at most once. */
  lemma ClaimedAtMostOnce(states: seq<State>, labels: seq<Label>, i: nat, j: nat, c: Conn)
    requires Run(states, labels) && i < j < |labels| && Claims(states[i], labels[i], c)
    ensures !Claims(states[j], labels[j], c)
  {
    RunInv(states, labels, j);
    RunGrows(states, labels, i + 1, j);
    assert c in states[i + 1].claimed;
    UnclaimedWhileHeld(states[j], labels[j], c);
  }

  lemma UnclaimedWhileHeld(s: State, l: Label, c: Conn)
    requires ConnInv(s)
    ensures Claims(s, l, c) ==> c !in s.claimed
  {
    if Claims(s, l, c) {
      assert ConnOk(s, c);
    }
  }

  /** The current generation never returns to an earlier one. */
  lemma NeverReturns(states: seq<State>, labels: seq<Label>, i: nat, j: nat, k: nat)
    requires Run(states, labels) && i <= j <= k < |states| && states[i].cur != states[j].cur
    ensures states[k].cur != states[i].cur && states[i].cur < states[j].cur <= states[k].cur
  {
    RunInv(states, labels, i);
    RunInv(states, labels, j);
    RunInv(states, labels, k);
    RunGrows(states, labels, i, j);
    RunGrows(states, labels, j, k);
    InPast(states[i], states[j]);
    InPast(states[j], states[k]);
  }

  lemma InPast(s: State, s': State)
    requires GenInv(s) && GenInv(s') && s.past <= s'.past
    ensures s.cur in s'.past && s.cur <= s'.cur
  {
    assert s'.past[|s.past| - 1] == s.cur;
  }

  /** An invalidation closes only an identity it was given and claimed, and the slot has left that generation, for good,
      when the close happens. The same holds of a close by net/http that won its claim; one that lost finds the
      identity displaced by a later dial or claimed by another thread. Idle retirement closes nothing. */
  lemma ClosesAreOwned(states: seq<State>, labels: seq<Label>, i: nat, e: nat)
    requires Run(states, labels) && i < |states| && e < |states[i].closes|
    ensures var s, ev := states[i], states[i].closes[e];
            && ev.kind != RetireIdle && (ev.kind == Invalidate ==> ev.won) && ev.c in s.genOf
            && (ev.won ==> ClaimedBy(s, ev.c, ev.t) && s.genOf[ev.c] < ev.current <= s.cur)
            && (!ev.won ==> ev.c in s.displaced || (ev.c in s.claimed && s.claimed[ev.c] != ev.t))
  {
    RunInv(states, labels, i);
    var s, ev := states[i], states[i].closes[e];
    assert EventOk(s, ev);
    if ev.won {
      var k :| 0 <= k < |s.past| && s.past[k] == ev.current;
    }
  }

  /** The identity a generation holds, such as one that replaced the one being judged, has never been closed. */
  lemma ReplacementSurvives(states: seq<State>, labels: seq<Label>, i: nat, g: Gen, e: nat)
    requires Run(states, labels) && i < |states| && g in states[i].conns && e < |states[i].closes|
    ensures states[i].closes[e].c != states[i].conns[g]
  {
    RunInv(states, labels, i);
    assert EventOk(states[i], states[i].closes[e]) && ConnOk(states[i], states[i].conns[g]);
  }

  /** A call to invalidateConnIf for `c` in generation `g` has returned or is still about `c`. */
  predicate About(pc: Pc, g: Gen, c: Conn) {
    pc.Done? ||
    (!pc.Dialled? && !pc.Arming? && !pc.Swapping? && !pc.Loading? && pc.g == g && pc.c == c && pc.kind == Invalidate)
  }

  lemma StaysAbout(s: State, l: Label, t: Tid, g: Gen, c: Conn)
    requires Enabled(s, l) && t in s.threads && About(s.threads[t], g, c)
    ensures t in Step(s, l).threads && About(Step(s, l).threads[t], g, c)
  {
  }

  lemma RunStaysAbout(states: seq<State>, labels: seq<Label>, k: nat, t: Tid, g: Gen, c: Conn)
    requires Run(states, labels) && k < |labels| && t in states[k].threads && About(states[k].threads[t], g, c)
    ensures t in states[k + 1].threads && About(states[k + 1].threads[t], g, c)
  {
    StaysAbout(states[k], labels[k], t, g, c);
  }

  lemma RunBeginsAbout(states: seq<State>, labels: seq<Label>, k: nat)
    requires Run(states, labels) && k < |labels| && labels[k].BeginInvalidate?
    ensures labels[k].t in states[k + 1].threads
    ensures About(states[k + 1].threads[labels[k].t], labels[k].g, labels[k].c)
  {
  }

  /** From its start to its close an invalidation names the one identity it was given. */
  lemma {:induction false} InvalidatesTheGiven(states: seq<State>, labels: seq<Label>, i: nat, j: nat)
    requires Run(states, labels) && i < j < |states| && labels[i].BeginInvalidate?
    ensures var t := labels[i].t; t in states[j].threads && About(states[j].threads[t], labels[i].g, labels[i].c)
  {
    if i + 1 < j {
      InvalidatesTheGiven(states, labels, i, j - 1);
      RunStaysAbout(states, labels, j - 1, labels[i].t, labels[i].g, labels[i].c);
    } else {
      RunBeginsAbout(states, labels, i);
    }
  }
}
