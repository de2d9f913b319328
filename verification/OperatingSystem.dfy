/**
 The operating system as DrainTracer meets it through psutil: an adversary that
 exits processes and reuses PIDs between any two observations, and that may
 refuse any question. Which incarnations the monitor has stopped is kept here,
 as is the log of every signal it sent by PID.
 */
module OperatingSystem {
  import opened Wrappers

  type Pid = int

  datatype Platform = Windows | Linux | Other

  /** One process: a PID together with the creation time that tells it from other holders. */
  datatype Incarnation = Incarnation(pid: Pid, created: real)

  /** The answer to one psutil question. */
  datatype Reading<+T> = Missing | Denied | Failed | Read(value: T)

  /** Everything one open of a PID asks: a handle, its status, its creation time, the Windows exit state. */
  datatype Sighting = Sighting(
    handle: Reading<bool>,
    running: Reading<bool>,
    created: Reading<real>,
    exited: Reading<bool>)

  datatype SignalKind = Suspend | Resume | Terminate | Kill

  /** A signal sent by PID: the sender's whole record and whether it knew its root, and whom the signal hit. */
  datatype Signal = Signal(kind: SignalKind, pid: Pid, record: map<Pid, real>, rootKnown: bool, hit: Option<real>)

  /** A question asked and what was answered. */
  datatype Answer =
    | Sighted(pid: Pid, sighting: Sighting)
    | Aged(pid: Pid, found: bool, age: Reading<real>)
    | Grouped(pid: Pid, session: Reading<Pid>)
    | Stood(pid: Pid, stopped: Reading<bool>)
    | Listed(parents: map<Pid, Pid>)
    | Clock(time: real)

  /** No creation time was ever answered that nobody on that PID had. */
  ghost predicate Credible(asked: seq<Answer>, born: set<Incarnation>) {
    forall a | a in asked && a.Aged? && a.age.Read? :: Incarnation(a.pid, a.age.value) in born
  }

  /** How a signal call came back; Interrupted is an exception that may follow the effect. */
  datatype Sent = Done | NoProcess | Refused | Interrupted

  predicate Spaced(born: set<Incarnation>, sameStart: real) {
    forall a, b | a in born && b in born && a.pid == b.pid && a != b ::
      a.created - b.created > sameStart || b.created - a.created > sameStart
  }

  predicate Known(holders: map<Pid, real>, born: set<Incarnation>) {
    forall p | p in holders :: Incarnation(p, holders[p]) in born
  }

  /** Any process may exit, and any PID may be taken by a process that never lived before. */
  predicate Evolves(holders: map<Pid, real>, born: set<Incarnation>,
                    holders': map<Pid, real>, born': set<Incarnation>)
  {
    && born <= born'
    && Known(holders', born')
    && forall p | p in holders' ::
         (p in holders && holders[p] == holders'[p]) || Incarnation(p, holders'[p]) !in born
  }

  /** What may be answered: never that a live process is gone, never a time nobody on that PID had. */
  predicate Truthful(s: Sighting, pid: Pid, holders: map<Pid, real>, born: set<Incarnation>) {
    && (s.created.Read? ==> Incarnation(pid, s.created.value) in born)
    && (pid in holders ==>
          && !s.handle.Missing?
          && !s.running.Missing? && s.running != Read(false)
          && !s.created.Missing? && (s.created.Read? ==> s.created.value == holders[pid])
          && s.exited != Read(true))
  }

  /** The system refused to say whether the handle or the creation time exists. */
  predicate Withheld(s: Sighting) {
    s.handle.Denied? || s.handle.Failed? || s.created.Denied? || s.created.Failed?
  }

  /** The suspension counts once a signal did or did not take effect on the holder of pid. */
  ghost function After(kind: SignalKind, pid: Pid, effect: bool, holders: map<Pid, real>,
                       stops: map<Incarnation, nat>): map<Incarnation, nat>
  {
    if !effect || pid !in holders then stops else
      var i := Incarnation(pid, holders[pid]);
      var n := if i in stops then stops[i] else 0;
      if kind.Suspend? then stops[i := n + 1]
      else if kind.Resume? then stops[i := if n == 0 then 0 else n - 1]
      else stops
  }

  class Os {
    const platform: Platform
    const sameStart: real
    var holders: map<Pid, real>
    var born: set<Incarnation>
    /** How often each incarnation was suspended by the monitor and not yet resumed. */
    ghost var stops: map<Incarnation, nat>
    ghost var log: seq<Signal>
    ghost var asked: seq<Answer>
    /** How many questions or signals the system has refused. */
    ghost var refusals: nat

    ghost predicate Valid()
      reads this`holders, this`born, this`asked
    {
      && sameStart >= 0.0
      && Spaced(born, sameStart)
      && Known(holders, born)
      && Credible(asked, born)
    }

    ghost function Holder(pid: Pid): Option<real>
      reads this`holders
    {
      if pid in holders then Some(holders[pid]) else None
    }

    /** Time passes: processes exit, start, and take over PIDs. */
    method Elapse()
      requires Valid()
      modifies this`holders, this`born
      ensures Valid() && Evolves(old(holders), old(born), holders, born)
    {
      assert Evolves(holders, born, holders, born);
      var next, more :| Evolves(holders, born, next, more) && Spaced(more, sameStart);
      assert Evolves(holders, born, next, more) && Spaced(more, sameStart);
      holders, born := next, more;
    }

    /** Open a PID and read what the system is willing to say about its holder, as one step. */
    method Observe(pid: Pid) returns (s: Sighting)
      requires Valid()
      modifies this`holders, this`born, this`refusals, this`asked
      ensures Valid() && Evolves(old(holders), old(born), holders, born)
      ensures Truthful(s, pid, holders, born)
      ensures asked == old(asked) + [Sighted(pid, s)]
      ensures refusals == if Withheld(s) then old(refusals) + 1 else old(refusals)
    {
      Elapse();
      assert Truthful(Sighting(Denied, Denied, Denied, Denied), pid, holders, born);
      s :| Truthful(s, pid, holders, born);
      asked := asked + [Sighted(pid, s)];
      if Withheld(s) {
        refusals := refusals + 1;
      }
    }

    /** Open a PID only to learn the creation time of whatever holds it. */
    method CreatedAt(pid: Pid) returns (found: bool, age: Reading<real>)
      requires Valid()
      modifies this`holders, this`born, this`asked
      ensures Valid() && Evolves(old(holders), old(born), holders, born)
      ensures asked == old(asked) + [Aged(pid, found, age)]
      ensures age.Read? ==> pid in holders && age.value == holders[pid]
      ensures pid in holders ==> !age.Missing?
    {
      Elapse();
      found, age := *, *;
      if pid !in holders {
        age := if age.Denied? then age else Missing;
      } else if age.Missing? || age.Read? {
        age := Read(holders[pid]);
      }
      asked := asked + [Aged(pid, found, age)];
    }

    /** One snapshot of every process and its parent. */
    method List() returns (parents: map<Pid, Pid>)
      requires Valid()
      modifies this`asked
      ensures Valid() && asked == old(asked) + [Listed(parents)]
    {
      parents := *;
      asked := asked + [Listed(parents)];
    }

    /** What time it is. */
    method Time() returns (time: real)
      requires Valid()
      modifies this`asked
      ensures Valid() && asked == old(asked) + [Clock(time)]
    {
      time := *;
      asked := asked + [Clock(time)];
    }

    /** The session a process belongs to, if the system will say. */
    method SessionOf(pid: Pid) returns (session: Reading<Pid>)
      requires Valid()
      modifies this`asked
      ensures Valid() && asked == old(asked) + [Grouped(pid, session)]
    {
      session := *;
      asked := asked + [Grouped(pid, session)];
    }

    /** Whether the process just opened is stopped already, by whomever. */
    method IsStopped(pid: Pid) returns (stopped: Reading<bool>)
      requires Valid()
      modifies this`asked
      ensures Valid() && asked == old(asked) + [Stood(pid, stopped)]
    {
      stopped := *;
      asked := asked + [Stood(pid, stopped)];
    }

    /**
     Signal the holder of pid, straight after the Observe that identified it. An
     exception may follow the effect; every other failure has none.
     */
    method Send(kind: SignalKind, pid: Pid, ghost record: map<Pid, real>, ghost rootKnown: bool) returns (sent: Sent)
      requires Valid()
      modifies this`stops, this`log, this`refusals
      ensures Valid()
      ensures log == old(log) + [Signal(kind, pid, record, rootKnown, Holder(pid))]
      ensures refusals == if sent.Refused? then old(refusals) + 1 else old(refusals)
      ensures sent.NoProcess? ==> pid !in holders
      ensures kind.Terminate? || kind.Kill? ==> stops == old(stops)
      ensures sent.Done? || sent.NoProcess? || sent.Refused? ==> stops == After(kind, pid, sent.Done?, holders, old(stops))
      ensures sent.Interrupted? ==>
        stops == After(kind, pid, true, holders, old(stops)) || stops == After(kind, pid, false, holders, old(stops))
    {
      log := log + [Signal(kind, pid, record, rootKnown, Holder(pid))];
      sent := *;
      if sent.NoProcess? && pid in holders {
        sent := Refused;
      }
      var effect: bool := *;
      effect := sent.Done? || (sent.Interrupted? && effect);
      stops := After(kind, pid, effect, holders, stops);
      refusals := if sent.Refused? then refusals + 1 else refusals;
    }
  }
}
