/** The lifecycle of a TUN session: what Start attempts, and what a teardown undoes (client/tun/tun.go,
    client/tun/teardown.go). */
module Tun {

  datatype Owner = Local | Helper

  /** The side effects on the system, in the order they happen. */
  datatype Act =
    | EngineStart(ok: bool) | EngineStop
    | SaveDns | RestoreDns
    | CreateDev(ok: bool) | CloseDev

  /** Who owns routes and DNS, and whether this platform manages the system DNS at all. */
  datatype Config = Config(owner: Owner, managesDns: bool)

  /** The fields of Manager under `mu`. `owner` is Local until Start has entered. */
  datatype Fields = Fields(
    started: bool, running: bool, cancelled: bool, done: bool, owner: Owner,
    engineUp: bool, deviceUp: bool, dnsTouched: bool, tornDown: bool)

  const NEW := Fields(false, false, false, false, Local, false, false, false, false)

  /** What has to be undone after the attempts `att`, in the order engine, close script, DNS. */
  function Undo(att: seq<Act>): seq<Act> {
    (if EngineStart(true) in att then [EngineStop] else []) +
    (if CreateDev(true) in att || CreateDev(false) in att then [CloseDev] else []) +
    (if SaveDns in att then [RestoreDns] else [])
  }

  /** The first section of teardown: what it will undo, if it is the first. */
  function Plan(c: Config, m: Fields, owner: Owner): seq<Act> {
    if m.tornDown then []
    else
      (if m.engineUp then [EngineStop] else []) +
      (if owner == Local && m.deviceUp then [CloseDev] else []) +
      (if owner == Local && m.dnsTouched && c.managesDns then [RestoreDns] else [])
  }

  function Taken(m: Fields): Fields {
    if m.tornDown then m else m.(tornDown := true, engineUp := false, deviceUp := false)
  }

  /** The flags say which steps were attempted; only a local owner touches device and DNS. */
  predicate FlagsMatch(c: Config, m: Fields, att: seq<Act>) {
    && (m.engineUp <==> EngineStart(true) in att)
    && (m.deviceUp <==> CreateDev(true) in att || CreateDev(false) in att)
    && (m.dnsTouched <==> SaveDns in att)
    && (m.deviceUp || m.dnsTouched ==> c.owner == Local)
    && (m.dnsTouched ==> c.managesDns)
  }

  /** What teardown reads off the flags is what undoes the attempts. */
  lemma PlanIsUndo(c: Config, m: Fields, att: seq<Act>)
    requires !m.tornDown && FlagsMatch(c, m, att)
    ensures Plan(c, m, c.owner) == Undo(att)
  {
  }

  // ---------------------------------------------------------------- the operations, one at a time

  class Manager {
    const c: Config
    var m: Fields
    var log: seq<Act>

    constructor (c: Config)
      ensures this.c == c && m == NEW && log == []
    {
      this.c, m, log := c, NEW, [];
    }

    /** startEngine: a failed start stops the engine at once. */
    method StartEngine(ok: bool)
      modifies this
      ensures log == old(log) + [EngineStart(ok)] + (if ok then [] else [EngineStop])
      ensures m == old(m).(engineUp := old(m).engineUp || ok)
    {
      log := log + [EngineStart(ok)];
      if !ok {
        log := log + [EngineStop];
        return;
      }
      m := m.(engineUp := true);
    }

    /** configureLocalDevice: the flag is set before the script runs, so a failed script is undone too. */
    method ConfigureLocalDevice(ok: bool)
      modifies this
      ensures log == old(log) + (if c.managesDns then [SaveDns] else []) + [CreateDev(ok)]
      ensures m == old(m).(deviceUp := true, dnsTouched := old(m).dnsTouched || c.managesDns)
    {
      if c.managesDns {
        log := log + [SaveDns];
        m := m.(dnsTouched := true);
      }
      m := m.(deviceUp := true);
      log := log + [CreateDev(ok)];
    }

    method Teardown(owner: Owner)
      modifies this
      ensures m == Taken(old(m)) && log == old(log) + Plan(c, old(m), owner)
    {
      if m.tornDown {
        return;
      }
      var engineUp, deviceUp, dnsTouched := m.engineUp, m.deviceUp, m.dnsTouched;
      m := m.(tornDown := true, engineUp := false, deviceUp := false);
      if engineUp {
        log := log + [EngineStop];
      }
      if owner != Local {
        return;
      }
      if deviceUp {
        log := log + [CloseDev];
      }
      if dnsTouched && c.managesDns {
        log := log + [RestoreDns];
      }
    }

    /** Start without interference: on failure it undoes its own attempts before it returns. */
    method Start(prepareOk: bool, engineOk: bool, createOk: bool) returns (ok: bool, ghost att: seq<Act>)
      requires m == NEW && log == []
      modifies this
      ensures ok <==> prepareOk && engineOk && (c.owner == Local ==> createOk)
      ensures log == if ok then att else att + Undo(att)
      ensures m.started && m.done && m.running == ok && m.tornDown == !ok && m.owner == c.owner && !m.cancelled
      ensures ok ==> FlagsMatch(c, m, att)
      ensures EngineStart(true) in att <==> prepareOk && engineOk
    {
      m := m.(started := true, owner := c.owner);
      ok := false;
      if prepareOk {
        StartEngine(engineOk);
        if engineOk {
          ok := true;
          if c.owner == Local {
            ConfigureLocalDevice(createOk);
            ok := createOk;
          }
        }
      }
      att := log;
      if ok {
        m := m.(running := true);
      } else {
        PlanIsUndo(c, m, att);
        Teardown(c.owner);
      }
      m := m.(done := true);
    }

    /** Stop once Start has returned. */
    method Stop(ghost att: seq<Act>)
      requires m.started && m.done && m.owner == c.owner
      requires !m.tornDown ==> FlagsMatch(c, m, att) && log == att
      requires m.tornDown ==> log == att + Undo(att) && !m.engineUp && !m.deviceUp
      modifies this
      ensures log == att + Undo(att) && !m.running && m.cancelled
      ensures Undo(att) != [] ==> m.tornDown
    {
      m := m.(cancelled := true);
      var owner, running := m.owner, m.running;
      m := m.(running := false);
      if !m.tornDown {
        PlanIsUndo(c, m, att);
      }
      if !running && !(m.engineUp || m.deviceUp || m.dnsTouched) {
        return;
      }
      Teardown(owner);
    }
  }
}
