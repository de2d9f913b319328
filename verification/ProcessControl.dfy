/**
 What controlling a process tree rests on: the verdict on one observation, the
 walk that finds the tree, the safety of suspending and resuming, and what stays
 true from one stage of a run to the next.
 */
module ProcessControl {
  import opened Wrappers
  import opened OperatingSystem

  const DEPARTED_SECONDS := 10.0

  /** A former member: its children may still name its PID as their parent. */
  datatype Departed = Departed(created: Option<real>, goneAt: real)

  /** What opening a PID gives: a usable handle, nothing, or an exception. */
  datatype Opened = Process | Absent | Error

  datatype Outcome = Returned(ok: bool) | Raised

  predicate Far(a: real, b: real, sameStart: real) {
    a - b > sameStart || b - a > sameStart
  }

  /** Whether a departed parent can have had this child: born too late, it is somebody else's. */
  predicate OrphanOf(gone: Departed, holder: Option<real>, created: Option<real>) {
    && created.Some?
    && created.value <= gone.goneAt
    && (holder.None? || created.value < holder.value)
  }

  /** One of the processes that must never be touched: the monitor and those above it. */
  predicate IsMonitor(monitor: map<Pid, Option<real>>, pid: Pid, created: Option<real>, sameStart: real) {
    && pid in monitor
    && (monitor[pid].None? || created.None? || !Far(created.value, monitor[pid].value, sameStart))
  }

  function Lookup<V>(m: map<Pid, V>, pid: Pid): Option<V> {
    if pid in m then Some(m[pid]) else None
  }

  function ChildrenOf(links: map<Pid, Pid>, parent: Pid): set<Pid> {
    set c | c in links && links[c] == parent && c != parent
  }

  /** Another holder's creation time, if an answer shows that its PID was taken over from the original. */
  function ReuseOf(a: Answer, original: Option<real>, sameStart: real): Option<real> {
    if a.Aged? && a.found && a.age.Read? && (original.Some? ==> Far(a.age.value, original.value, sameStart))
    then Some(a.age.value)
    else None
  }

  /** One child of a walked parent, with everything it is judged by. */
  datatype Trial = Trial(
    pid: Pid,
    parent: Pid,
    found: bool,
    age: Reading<real>,
    parentCreated: Option<real>,
    gone: Option<Departed>,
    holder: Option<real>,
    previous: Option<Departed>)
  {
    function Created(): Option<real> {
      if age.Read? then Some(age.value) else None
    }

    /** The checks of one step of the walk, in order. */
    predicate Joins(monitor: map<Pid, Option<real>>, sameStart: real) {
      if !found || age.Missing? then false
      else if IsMonitor(monitor, pid, Created(), sameStart) then false
      else if parentCreated.Some? && Created().Some? && Created().value < parentCreated.value then false
      else if gone.Some? && !OrphanOf(gone.value, holder, Created()) then false
      else !(previous.Some? && (Created().None? || previous.value.created.None? ||
                                !Far(Created().value, previous.value.created.value, sameStart)))
    }

    /** Every time it was judged by was answered by the system, or on record. */
    ghost predicate Heard(asked: seq<Answer>, identities: map<Pid, real>, sameStart: real) {
      && Aged(pid, found, age) in asked
      && HolderHeard(parent, gone, holder, asked, sameStart)
      && parentCreated == if gone.Some? then gone.value.created else Lookup(identities, parent)
    }
  }

  /** Whether a departed parent's PID was taken over is what the system answered when asked. */
  ghost predicate HolderHeard(parent: Pid, gone: Option<Departed>, holder: Option<real>, asked: seq<Answer>,
                              sameStart: real)
  {
    if gone.None? then holder.None?
    else exists a | a in asked && a.Aged? && a.pid == parent :: holder == ReuseOf(a, gone.value.created, sameStart)
  }

  /** One walk: since which answer it asked, where it started, the parent links it followed, what it added and turned away. */
  datatype Walk = Walk(
    at: real,
    since: nat,
    alive: set<Pid>,
    session: set<Pid>,
    departed: map<Pid, Departed>,
    links: map<Pid, Pid>,
    adopted: seq<Trial>,
    refused: seq<Trial>)
  {
    /** Session members whose parents are none. */
    ghost function Roots(): set<Pid> {
      set p | p in session && p in links && links[p] !in session
    }

    ghost function Seeds(): set<Pid> {
      alive + Roots()
    }

    ghost function Members(): set<Pid> {
      Seeds() + set a | a in adopted :: a.pid
    }

    /** The departed members whose PIDs the walk has not met again. */
    ghost function Waiting(): map<Pid, Departed> {
      departed - set a | a in adopted :: a.pid
    }

    function Prefix(i: nat): Walk
      requires i <= |adopted|
    {
      this.(adopted := adopted[..i])
    }

    /** Why adopting a is right after this walk. */
    ghost predicate Fits(a: Trial, monitor: map<Pid, Option<real>>, sameStart: real) {
      && a.pid in links && links[a.pid] == a.parent && a.pid != a.parent
      && a.pid !in Members()
      && a.found && !a.age.Missing?
      && !IsMonitor(monitor, a.pid, a.Created(), sameStart)
      && (a.Created().Some? && a.parentCreated.Some? ==> a.Created().value >= a.parentCreated.value)
      && a.gone == Lookup(Waiting(), a.parent)
      && (a.gone.Some? ==> OrphanOf(a.gone.value, a.holder, a.Created()))
      && (a.gone.None? ==> a.parent in Members())
      && a.previous == Lookup(departed, a.pid)
      && (a.previous.Some? ==>
            && a.Created().Some? && a.previous.value.created.Some?
            && Far(a.Created().value, a.previous.value.created.value, sameStart))
    }

    ghost predicate Justified(monitor: map<Pid, Option<real>>, sameStart: real) {
      forall i | 0 <= i < |adopted| :: Prefix(i).Fits(adopted[i], monitor, sameStart)
    }

    /** Nothing was judged by anything but answers given during this walk and identities on record. */
    ghost predicate Evident(asked: seq<Answer>, identities: map<Pid, real>, sameStart: real) {
      && since <= |asked|
      && (forall a | a in adopted :: Grounded(a, asked, identities, sameStart))
      && (forall a | a in adopted && a.Created().Some? :: Lookup(identities, a.pid) == a.Created())
      && (forall t | t in refused :: Grounded(t, asked, identities, sameStart))
    }

    ghost predicate Grounded(t: Trial, asked: seq<Answer>, identities: map<Pid, real>, sameStart: real)
      requires since <= |asked|
    {
      && t.Heard(asked[since..], identities, sameStart)
      && (t.gone.None? ==> t.parent in Members())
    }

    /** A trial that turned the child away, judged as this parent is judged now. */
    ghost predicate Turned(t: Trial, child: Pid, monitor: map<Pid, Option<real>>, sameStart: real) {
      && t.pid == child && child in links && t.parent == links[child]
      && t.gone == Lookup(Waiting(), t.parent)
      && t.previous == Lookup(departed, child)
      && !t.Joins(monitor, sameStart)
    }

    ghost predicate Settled(child: Pid, monitor: map<Pid, Option<real>>, sameStart: real) {
      child in Members() || exists t | t in refused :: Turned(t, child, monitor, sameStart)
    }

    /** Every child listed under this parent has joined, or was turned away for a cause. */
    ghost predicate Tried(parent: Pid, monitor: map<Pid, Option<real>>, sameStart: real) {
      forall c | c in links && links[c] == parent && c != parent :: Settled(c, monitor, sameStart)
    }

    /** No parent is left unsearched. */
    ghost predicate Thorough(monitor: map<Pid, Option<real>>, sameStart: real) {
      forall p | p in Members() || p in Waiting() :: Tried(p, monitor, sameStart)
    }

    /** The departed that are searched left within the time allowed. */
    ghost predicate Recent() {
      forall p | p in departed :: at - departed[p].goneAt <= DEPARTED_SECONDS
    }

    /** A chain of parent links from a process up to a seed of the walk. */
    ghost predicate Chain(path: seq<Pid>) {
      && |path| > 0
      && (forall k | 0 <= k < |path| - 1 :: path[k] in links && links[path[k]] == path[k + 1])
      && path[|path| - 1] in Seeds() + departed.Keys
    }

    /** Every process a justified walk added hangs by parent links from a live member, a departed one or a root. */
    lemma {:induction false} Linked(i: nat, monitor: map<Pid, Option<real>>, sameStart: real) returns (path: seq<Pid>)
      requires i < |adopted| && Justified(monitor, sameStart)
      ensures Chain(path) && path[0] == adopted[i].pid && |path| > 1
      decreases i
    {
      assert Prefix(i).Fits(adopted[i], monitor, sameStart);
      var a := adopted[i];
      assert a.pid in links && links[a.pid] == a.parent;
      var rest := [a.parent];
      if a.parent !in Seeds() + departed.Keys {
        assert a.parent in Prefix(i).Members();
        var j :| 0 <= j < i && adopted[j].pid == a.parent;
        hide Fits, Members, Seeds;
        rest := Linked(j, monitor, sameStart);
      }
      hide Fits, Members, Justified, Seeds;
      path := [a.pid] + rest;
      Lengthens(a.pid, rest);
    }

    lemma Lengthens(pid: Pid, rest: seq<Pid>)
      requires Chain(rest) && pid in links && links[pid] == rest[0]
      ensures Chain([pid] + rest)
    {
      var path := [pid] + rest;
      assert forall k | 0 < k < |path| :: path[k] == rest[k - 1];
    }

    /** One more fitting adoption keeps the walk justified. */
    lemma Extend(a: Trial, monitor: map<Pid, Option<real>>, sameStart: real)
      requires Justified(monitor, sameStart) && Fits(a, monitor, sameStart)
      ensures this.(adopted := adopted + [a]).Justified(monitor, sameStart)
      ensures this.(adopted := adopted + [a]).Members() == Members() + {a.pid}
      ensures this.(adopted := adopted + [a]).Waiting() == Waiting() - {a.pid}
    {
      var next := this.(adopted := adopted + [a]);
      forall i | 0 <= i < |next.adopted| ensures next.Prefix(i).Fits(next.adopted[i], monitor, sameStart) {
        assert next.adopted[..i] == adopted[..i];
        if i < |adopted| {
          assert Prefix(i).Fits(adopted[i], monitor, sameStart);
        } else {
          assert adopted[..i] == adopted;
        }
      }
      assert forall b :: b in next.adopted <==> b in adopted || b == a;
    }
  }
  /**
   Every signal went to a process on record, under a known root, and hit nobody
   or exactly the incarnation recorded for that PID when it was sent.
   */
  ghost predicate Faithful(log: seq<Signal>) {
    forall k | 0 <= k < |log| ::
      && log[k].rootKnown && log[k].pid in log[k].record
      && (log[k].hit.Some? ==> log[k].record[log[k].pid] == log[k].hit.value)
  }

  lemma FaithfulMore(log: seq<Signal>, s: Signal)
    requires Faithful(log) && s.rootKnown && s.pid in s.record && (s.hit.Some? ==> s.record[s.pid] == s.hit.value)
    ensures Faithful(log + [s])
  {
  }

  /** The signals from a position on were sent by this very record. */
  ghost predicate SentBy(log: seq<Signal>, from: nat, record: map<Pid, real>, rootKnown: bool) {
    forall k | from <= k < |log| :: log[k].record == record && log[k].rootKnown == rootKnown
  }

  lemma NoneSent(log: seq<Signal>, record: map<Pid, real>, rootKnown: bool)
    ensures SentBy(log, |log|, record, rootKnown)
  {
  }

  /** At most one signal was sent, of this kind to this PID, by this record. */
  ghost predicate OneSignal(before: seq<Signal>, after: seq<Signal>, kind: SignalKind, pid: Pid,
                            record: map<Pid, real>, rootKnown: bool)
  {
    || after == before
    || exists hit :: after == before + [Signal(kind, pid, record, rootKnown, hit)]
  }

  lemma NoSignal(log: seq<Signal>, kind: SignalKind, pid: Pid, record: map<Pid, real>, rootKnown: bool)
    ensures OneSignal(log, log, kind, pid, record, rootKnown)
  {
  }

  lemma NewSignal(before: seq<Signal>, after: seq<Signal>, kind: SignalKind, pid: Pid, record: map<Pid, real>,
                  rootKnown: bool, hit: Option<real>)
    requires after == before + [Signal(kind, pid, record, rootKnown, hit)]
    ensures OneSignal(before, after, kind, pid, record, rootKnown) && Signalled(after, |before|, kind, pid)
  {
    assert after[|before|].kind == kind && after[|before|].pid == pid;
  }

  lemma SentByMore(l0: seq<Signal>, l1: seq<Signal>, l2: seq<Signal>, record: map<Pid, real>, rootKnown: bool)
    requires l0 <= l1 <= l2 && SentBy(l1, |l0|, record, rootKnown) && SentBy(l2, |l1|, record, rootKnown)
    ensures SentBy(l2, |l0|, record, rootKnown)
  {
    assert forall k | 0 <= k < |l1| :: l2[k] == l1[k];
  }

  lemma OneIsSentBy(before: seq<Signal>, after: seq<Signal>, kind: SignalKind, pid: Pid,
                    record: map<Pid, real>, rootKnown: bool)
    requires OneSignal(before, after, kind, pid, record, rootKnown)
    ensures before <= after && SentBy(after, |before|, record, rootKnown)
  {
  }

  /** Some signal of this kind went to pid at or after position from. */
  ghost predicate Signalled(log: seq<Signal>, from: nat, kind: SignalKind, pid: Pid) {
    exists k :: from <= k < |log| && log[k].kind == kind && log[k].pid == pid
  }

  /** What one observation of a tracked PID proves. */
  datatype Verdict =
    | Gone                  // the recorded process has exited or lost its PID
    | Unproven              // control is refused, nothing is proved
    | Broken                // an exception leaves the call
    | Accepted
    | Learned(created: real) // discovery records the first readable identity

  /** The checks of one open, in order. */
  function Judge(s: Sighting, platform: Platform, sameStart: real, expected: Option<real>,
                 rootKnown: bool, discovering: bool, forControl: bool): Verdict
  {
    if s.handle.Missing? then Gone
    else if !s.handle.Read? then if forControl then Unproven else Broken
    else if !platform.Windows? && (s.running.Missing? || s.running == Read(false)) then Gone
    else if !platform.Windows? && s.running.Failed? then Broken
    else
      match s.created
      case Missing => Gone
      case Denied => if forControl then Unproven else Accepted
      case Failed => if forControl then Unproven else Broken
      case Read(created) =>
        if expected.Some? && Far(created, expected.value, sameStart) then Gone
        else if platform.Windows? && s.exited == Read(true) then Gone
        else if forControl && (expected.None? || !rootKnown) then Unproven
        else if expected.None? && discovering then Learned(created)
        else Accepted
  }

  function Opening(v: Verdict): Opened {
    match v
    case Gone => Absent
    case Unproven => Absent
    case Broken => Error
    case Accepted => Process
    case Learned(_) => Process
  }

  function Ending(graceful: bool): SignalKind {
    if graceful then SignalKind.Terminate else SignalKind.Kill
  }

  /** Truthful answers make the verdicts sound: gone means gone, and control only ever sees the recorded process. */
  lemma JudgeSound(s: Sighting, pid: Pid, holders: map<Pid, real>, born: set<Incarnation>, platform: Platform,
                   sameStart: real, expected: Option<real>, rootKnown: bool, discovering: bool, forControl: bool)
    requires sameStart >= 0.0 && Spaced(born, sameStart) && Known(holders, born) && Truthful(s, pid, holders, born)
    requires expected.Some? ==> Incarnation(pid, expected.value) in born
    ensures var v := Judge(s, platform, sameStart, expected, rootKnown, discovering, forControl);
      && (v.Gone? ==> pid !in holders || expected != Some(holders[pid]))
      && ((v.Accepted? || v.Learned?) && forControl ==>
            expected.Some? && rootKnown && (pid in holders ==> expected == Some(holders[pid])))
      && (v.Unproven? && !Withheld(s) ==> expected.None? || !rootKnown)
      && (v.Learned? ==> expected.None? && Incarnation(pid, v.created) in born && s.created == Read(v.created))
      && (v.Learned? <==> discovering && expected.None? && Opening(v).Process? && s.created.Read?)
      && (Opening(v).Absent? && !Withheld(s) && expected.Some? && rootKnown ==> v.Gone?)
      && (Opening(v).Absent? && !forControl ==> v.Gone?)
  {
    if pid in holders && expected.Some? && s.created.Read? {
      assert Incarnation(pid, holders[pid]) in born;
    }
  }

  /** The recorded creation times, the root's own included. */
  function Record(identities: map<Pid, real>, root: Option<Pid>, rootCreated: Option<real>): map<Pid, real> {
    if root.Some? && rootCreated.Some? && root.value !in identities
    then identities[root.value := rootCreated.value]
    else identities
  }

  /** What the manager goes by when it judges a sighting. */
  datatype Knowledge = Knowledge(platform: Platform, sameStart: real, identities: map<Pid, real>, root: Option<Pid>,
                                 rootCreated: Option<real>)
  {
    function Expected(pid: Pid): Option<real> {
      Lookup(Record(identities, root, rootCreated), pid)
    }

    /** The sighting shows a process where one is expected. */
    predicate Lives(pid: Pid, s: Sighting) {
      var v := Judge(s, platform, sameStart, Expected(pid), true, true, false);
      v.Accepted? || v.Learned?
    }

    /** The creation time on record once this sighting is. */
    function AgeOf(pid: Pid, s: Sighting): Option<real> {
      if pid in identities then Some(identities[pid])
      else if Expected(pid).None? && s.created.Read? then Some(s.created.value)
      else None
    }

    /** Members of an earlier session of that number were born before the launch. */
    predicate TooOld(pid: Pid, s: Sighting) {
      rootCreated.Some? && AgeOf(pid, s).Some? && AgeOf(pid, s).value < rootCreated.value - sameStart
    }

    /** The PID was looked at, and this is what was found. */
    ghost predicate Found(pid: Pid, lives: bool, asked: seq<Answer>) {
      exists a | a in asked && a.Sighted? && a.pid == pid :: lives == Lives(pid, a.sighting)
    }

    /** Membership in the session follows from what the system said of the PID. */
    ghost predicate Belongs(pid: Pid, member: bool, session: Pid, asked: seq<Answer>) {
      || (!member && exists a | a in asked :: a.Grouped? && a.pid == pid && a.session != Read(session))
      || (Grouped(pid, Read(session)) in asked && exists a | a in asked && a.Sighted? && a.pid == pid ::
            member == (Lives(pid, a.sighting) && !TooOld(pid, a.sighting)))
    }

    /** The search for session members: none without a session, none once its PID was taken over. */
    ghost predicate Searched(members: set<Pid>, links: map<Pid, Pid>, before: Option<Pid>, after: Option<Pid>,
                             asked: seq<Answer>)
    {
      if before.None? then after.None? && members == {}
      else
        && (exists a | a in asked && a.Aged? && a.pid == before.value ::
              after == if ReuseOf(a, rootCreated, sameStart).Some? then None else before)
        && (if after.None? then members == {}
            else members <= links.Keys && forall p | p in links :: Belongs(p, p in members, after.value, asked))
    }
  }

  lemma FoundLater(k: Knowledge, pid: Pid, lives: bool, asked: seq<Answer>, more: seq<Answer>)
    requires k.Found(pid, lives, asked) && forall a | a in asked :: a in more
    ensures k.Found(pid, lives, more)
  {
  }

  lemma SearchedLater(k: Knowledge, members: set<Pid>, links: map<Pid, Pid>, before: Option<Pid>, after: Option<Pid>,
                      asked: seq<Answer>, more: seq<Answer>)
    requires k.Searched(members, links, before, after, asked) && forall a | a in asked :: a in more
    ensures k.Searched(members, links, before, after, more)
  {
    if after.Some? {
      forall p | p in links
        ensures k.Belongs(p, p in members, after.value, more)
      {
        assert k.Belongs(p, p in members, after.value, asked);
      }
    }
  }

  lemma SearchedSince(k: Knowledge, members: set<Pid>, links: map<Pid, Pid>, before: Option<Pid>, after: Option<Pid>,
                      asked: seq<Answer>, from: nat, more: seq<Answer>, since: nat)
    requires since <= from <= |asked| && asked <= more && k.Searched(members, links, before, after, asked[from..])
    ensures k.Searched(members, links, before, after, more[since..])
  {
    assert more[since..] == asked[since..from] + asked[from..] + more[|asked|..];
    SearchedLater(k, members, links, before, after, asked[from..], more[since..]);
  }

  /** Departed members: those noted before, and those found gone now. */
  function Noted(departed: map<Pid, Departed>, gone: set<Pid>, k: Knowledge, now: real): map<Pid, Departed> {
    departed + map p | p in gone && p !in departed :: Departed(k.Expected(p), now)
  }

  function Recents(departed: map<Pid, Departed>, now: real): map<Pid, Departed> {
    map p | p in departed && now - departed[p].goneAt <= DEPARTED_SECONDS :: departed[p]
  }

  lemma IsRefreshed(walk: Walk, k: Knowledge, tracked: set<Pid>, departed: map<Pid, Departed>,
                    before: Option<Pid>, after: Option<Pid>, from: nat, asked: seq<Answer>, identities: map<Pid, real>,
                    monitor: map<Pid, Option<real>>)
    requires walk.Evident(asked, identities, k.sameStart) && walk.alive <= tracked
    requires from < walk.since < |asked| && asked[from] == Clock(walk.at) && asked[walk.since] == Listed(walk.links)
    requires forall p | p in tracked :: k.Found(p, p in walk.alive, asked[from..walk.since])
    requires walk.departed == Recents(Noted(departed, tracked - walk.alive, k, walk.at), walk.at)
    requires k.Searched(walk.session, walk.links, before, after, asked[walk.since..])
    requires walk.Justified(monitor, k.sameStart) && walk.Thorough(monitor, k.sameStart)
    ensures Refreshed(walk, k, tracked, departed, before, after, from, asked, identities, monitor)
  {
  }

  lemma NotedMore(departed: map<Pid, Departed>, gone: set<Pid>, k: Knowledge, now: real, pid: Pid)
    requires pid !in gone
    ensures var noted := Noted(departed, gone, k, now);
      Noted(departed, gone + {pid}, k, now) == if pid in noted then noted else noted[pid := Departed(k.Expected(pid), now)]
  {
  }

  lemma NotedNone(departed: map<Pid, Departed>, k: Knowledge, now: real)
    ensures Noted(departed, {}, k, now) == departed
  {
  }

  lemma FoundNow(k: Knowledge, pid: Pid, seen: Sighting, rootKnown: bool, discovering: bool, asked: seq<Answer>, since: nat)
    requires since <= |asked|
    ensures var r := Opening(Judge(seen, k.platform, k.sameStart, k.Expected(pid), rootKnown, discovering, false));
      && r.Process? == k.Lives(pid, seen)
      && k.Found(pid, r.Process?, (asked + [Sighted(pid, seen)])[since..])
  {
    var all := asked + [Sighted(pid, seen)];
    assert all[since..][|asked| - since] == Sighted(pid, seen);
    assert Sighted(pid, seen) in all[since..];
  }

  lemma AllFoundLater(k: Knowledge, pids: set<Pid>, alive: set<Pid>, asked: seq<Answer>, more: seq<Answer>)
    requires asked <= more && forall p | p in pids :: k.Found(p, p in alive, asked)
    ensures forall p | p in pids :: k.Found(p, p in alive, more)
  {
    hide Knowledge.Found;
    forall p | p in pids
      ensures k.Found(p, p in alive, more)
    {
      FoundLater(k, p, p in alive, asked, more);
    }
  }

  ghost predicate AllBelong(k: Knowledge, done: set<Pid>, members: set<Pid>, session: Pid, asked: seq<Answer>) {
    members <= done && forall p | p in done :: k.Belongs(p, p in members, session, asked)
  }

  lemma NoneBelong(k: Knowledge, session: Pid, asked: seq<Answer>)
    ensures AllBelong(k, {}, {}, session, asked)
  {
  }

  /** A judgement goes by no identity but the judged one's. */
  lemma BelongsAlike(j: Knowledge, k: Knowledge, pid: Pid, member: bool, session: Pid, asked: seq<Answer>)
    requires j.Belongs(pid, member, session, asked)
    requires j == k.(identities := j.identities) && Lookup(j.identities, pid) == Lookup(k.identities, pid)
    ensures k.Belongs(pid, member, session, asked)
  {
    forall a | a in asked && a.Sighted?
      ensures j.Lives(pid, a.sighting) == k.Lives(pid, a.sighting)
      ensures j.TooOld(pid, a.sighting) == k.TooOld(pid, a.sighting)
    {
      Alike(j, k, pid);
    }
  }

  lemma Alike(j: Knowledge, k: Knowledge, pid: Pid)
    requires j == k.(identities := j.identities) && Lookup(j.identities, pid) == Lookup(k.identities, pid)
    ensures forall s :: j.Lives(pid, s) == k.Lives(pid, s) && j.TooOld(pid, s) == k.TooOld(pid, s)
  {
  }

  lemma AllBelongOn(k: Knowledge, done: set<Pid>, members: set<Pid>, session: Pid, asked: seq<Answer>,
                    more: seq<Answer>, pid: Pid, member: bool)
    requires AllBelong(k, done, members, session, asked) && asked <= more && pid !in done
    requires k.Belongs(pid, member, session, more)
    ensures AllBelong(k, done + {pid}, if member then members + {pid} else members, session, more)
  {
    forall p | p in done
      ensures k.Belongs(p, p in members, session, more)
    {
      assert k.Belongs(p, p in members, session, asked);
    }
    hide Knowledge.Belongs;
  }

  lemma SessionSearched(k: Knowledge, done: set<Pid>, members: set<Pid>, links: map<Pid, Pid>, session: Pid,
                        asked: seq<Answer>, since: nat)
    requires since < |asked| && AllBelong(k, done, members, session, asked[since..]) && done == links.Keys
    requires asked[since].Aged? && asked[since].pid == session
    requires ReuseOf(asked[since], k.rootCreated, k.sameStart).None?
    ensures k.Searched(members, links, Some(session), Some(session), asked[since..])
  {
    hide Knowledge.Belongs;
    assert asked[since..][0] == asked[since];
  }

  /**
   Everything one refresh goes by, told from the answers it was given: the clock first,
   then whom it found alive, then one snapshot of parents, and after that the session
   and every child it judged.
   */
  ghost predicate Refreshed(walk: Walk, k: Knowledge, tracked: set<Pid>, departed: map<Pid, Departed>,
                            before: Option<Pid>, after: Option<Pid>, from: nat, asked: seq<Answer>,
                            identities: map<Pid, real>, monitor: map<Pid, Option<real>>)
  {
    && from < walk.since < |asked| && asked[from] == Clock(walk.at) && asked[walk.since] == Listed(walk.links)
    && walk.Evident(asked, identities, k.sameStart)
    && walk.alive <= tracked
    && (forall p | p in tracked :: k.Found(p, p in walk.alive, asked[from..walk.since]))
    && walk.departed == Recents(Noted(departed, tracked - walk.alive, k, walk.at), walk.at)
    && k.Searched(walk.session, walk.links, before, after, asked[walk.since..])
    && walk.Justified(monitor, k.sameStart)
    && walk.Thorough(monitor, k.sameStart)
  }

  lemma RefreshedLater(walk: Walk, k: Knowledge, tracked: set<Pid>, departed: map<Pid, Departed>,
                       before: Option<Pid>, after: Option<Pid>, from: nat, asked: seq<Answer>,
                       identities: map<Pid, real>, monitor: map<Pid, Option<real>>, more: seq<Answer>)
    requires Refreshed(walk, k, tracked, departed, before, after, from, asked, identities, monitor) && asked <= more
    ensures Refreshed(walk, k, tracked, departed, before, after, from, more, identities, monitor)
  {
    hide Walk.Evident, Walk.Justified, Walk.Thorough, Walk.Members, Knowledge.Found, Knowledge.Searched;
    Unchanged(identities, identities, walk.Members());
    EvidentLater(walk, asked, more, identities, identities, k.sameStart);
    assert more[from..walk.since] == asked[from..walk.since];
    SearchedSince(k, walk.session, walk.links, before, after, asked, walk.since, more, walk.since);
  }

  /** A refresh gave this walk and this record, by the answers from there on. */
  ghost predicate Renewed(walk: Walk, record: map<Pid, real>, k: Knowledge, tracked: set<Pid>,
                          departed: map<Pid, Departed>, before: Option<Pid>, from: nat, asked: seq<Answer>,
                          monitor: map<Pid, Option<real>>)
  {
    exists after: Option<Pid>, identities: map<Pid, real> ::
      && Refreshed(walk, k, tracked, departed, before, after, from, asked, identities, monitor)
      && record == Record(identities, k.root, k.rootCreated)
  }

  lemma RenewedLater(walk: Walk, record: map<Pid, real>, k: Knowledge, tracked: set<Pid>,
                     departed: map<Pid, Departed>, before: Option<Pid>, from: nat, asked: seq<Answer>,
                     monitor: map<Pid, Option<real>>, more: seq<Answer>)
    requires Renewed(walk, record, k, tracked, departed, before, from, asked, monitor) && asked <= more
    ensures Renewed(walk, record, k, tracked, departed, before, from, more, monitor)
  {
    hide Refreshed, Record;
    var after: Option<Pid>, identities: map<Pid, real> :|
      && Refreshed(walk, k, tracked, departed, before, after, from, asked, identities, monitor)
      && record == Record(identities, k.root, k.rootCreated);
    RefreshedLater(walk, k, tracked, departed, before, after, from, asked, identities, monitor, more);
  }

  /** The process now on pid was suspended by the monitor and not resumed since. */
  ghost predicate Owed(pid: Pid, holders: map<Pid, real>, stops: map<Incarnation, nat>) {
    pid in holders && Incarnation(pid, holders[pid]) in stops && stops[Incarnation(pid, holders[pid])] > 0
  }

  /**
   The safety of process control: no live process the monitor stopped is
   forgotten, each is on record as exactly that incarnation, none was stopped
   twice without a resume between.
   */
  ghost predicate Safe(holders: map<Pid, real>, born: set<Incarnation>, stops: map<Incarnation, nat>,
                       suspended: set<Pid>, record: map<Pid, real>)
  {
    && Known(holders, born)
    && Known(record, born)
    && (forall i | i in stops :: i in born && stops[i] <= 1)
    && (forall p | p in holders && Owed(p, holders, stops) :: p in suspended && p in record && record[p] == holders[p])
  }

  /** Exits and PID reuse cannot make the manager forget anything. */
  lemma EvolutionKeepsSafe(holders: map<Pid, real>, born: set<Incarnation>, holders': map<Pid, real>,
                           born': set<Incarnation>, stops: map<Incarnation, nat>, suspended: set<Pid>,
                           record: map<Pid, real>)
    requires Safe(holders, born, stops, suspended, record) && Evolves(holders, born, holders', born')
    ensures Safe(holders', born', stops, suspended, record)
  {
    forall p | p in holders' && Owed(p, holders', stops)
      ensures p in suspended && p in record && record[p] == holders'[p]
    {
      assert Owed(p, holders, stops);
    }
  }

  lemma SafeRecord(holders: map<Pid, real>, born: set<Incarnation>, stops: map<Incarnation, nat>,
                   suspended: set<Pid>, record: map<Pid, real>, pid: Pid)
    requires Safe(holders, born, stops, suspended, record)
    ensures Lookup(record, pid).Some? ==> Incarnation(pid, Lookup(record, pid).value) in born
  {
  }

  /** Two stretches of time make one. */
  lemma EvolvesTransitive(h0: map<Pid, real>, b0: set<Incarnation>, h1: map<Pid, real>, b1: set<Incarnation>,
                          h2: map<Pid, real>, b2: set<Incarnation>)
    requires Evolves(h0, b0, h1, b1) && Evolves(h1, b1, h2, b2)
    ensures Evolves(h0, b0, h2, b2)
  {
    forall p | p in h2 ensures (p in h0 && h0[p] == h2[p]) || Incarnation(p, h2[p]) !in b0 {
      if p in h1 && h1[p] == h2[p] {
        assert (p in h0 && h0[p] == h1[p]) || Incarnation(p, h1[p]) !in b0;
      }
    }
  }

  /** A signal to the recorded process keeps process control safe; a resume settles what was owed. */
  lemma SignalKeepsSafe(kind: SignalKind, pid: Pid, effect: bool, holders: map<Pid, real>, born: set<Incarnation>,
                        stops: map<Incarnation, nat>, suspended: set<Pid>, record: map<Pid, real>)
    requires Safe(holders, born, stops, suspended, record)
    requires kind.Suspend? && pid in holders ==>
      !Owed(pid, holders, stops) && pid in suspended && pid in record && record[pid] == holders[pid]
    ensures Safe(holders, born, After(kind, pid, effect, holders, stops), suspended, record)
    ensures kind.Resume? && effect ==> !Owed(pid, holders, After(kind, pid, effect, holders, stops))
  {
    var stops' := After(kind, pid, effect, holders, stops);
    forall p | p in holders && Owed(p, holders, stops')
      ensures p in suspended && p in record && record[p] == holders[p]
    {
      assert p != pid ==> Owed(p, holders, stops);
    }
  }

  /** A newly read identity of a process nobody stopped keeps process control safe. */
  lemma LearningKeepsSafe(holders: map<Pid, real>, born: set<Incarnation>, stops: map<Incarnation, nat>,
                          suspended: set<Pid>, identities: map<Pid, real>, root: Option<Pid>,
                          rootCreated: Option<real>, pid: Pid, created: real)
    requires Safe(holders, born, stops, suspended, Record(identities, root, rootCreated))
    requires pid !in suspended && Incarnation(pid, created) in born
    ensures Record(identities[pid := created], root, rootCreated) ==
            Record(identities, root, rootCreated)[pid := created]
    ensures Safe(holders, born, stops, suspended, Record(identities[pid := created], root, rootCreated))
  {
    var record := Record(identities, root, rootCreated);
    assert Record(identities[pid := created], root, rootCreated) == record[pid := created];
  }

  lemma LearnedRecord(identities: map<Pid, real>, pid: Pid, created: real, root: Option<Pid>, rootCreated: Option<real>)
    ensures Lookup(Record(identities[pid := created], root, rootCreated), pid) == Some(created)
  {
  }

  /** What is done on a verdict keeps process control safe: the gone are owed nothing, the new are recorded. */
  lemma VerdictKeepsSafe(holders: map<Pid, real>, born: set<Incarnation>, stops: map<Incarnation, nat>,
                         suspended: set<Pid>, identities: map<Pid, real>, root: Option<Pid>,
                         rootCreated: Option<real>, pid: Pid, v: Verdict)
    requires Safe(holders, born, stops, suspended, Record(identities, root, rootCreated))
    requires v.Gone? ==> pid !in holders || Lookup(Record(identities, root, rootCreated), pid) != Some(holders[pid])
    requires v.Learned? ==> Lookup(Record(identities, root, rootCreated), pid).None? && Incarnation(pid, v.created) in born
    ensures Safe(holders, born, stops, if v.Gone? then suspended - {pid} else suspended,
                 Record(if v.Learned? then identities[pid := v.created] else identities, root, rootCreated))
  {
    var record := Record(identities, root, rootCreated);
    if v.Learned? {
      assert Record(identities[pid := v.created], root, rootCreated) == record[pid := v.created];
    }
  }

  /** Dropping identities of PIDs that are not owed a resume keeps process control safe. */
  lemma ForgettingKeepsSafe(holders: map<Pid, real>, born: set<Incarnation>, stops: map<Incarnation, nat>,
                            suspended: set<Pid>, identities: map<Pid, real>, root: Option<Pid>,
                            rootCreated: Option<real>, kept: set<Pid>)
    requires Safe(holders, born, stops, suspended, Record(identities, root, rootCreated))
    requires suspended <= kept
    requires root.Some? && rootCreated.Some? ==> Incarnation(root.value, rootCreated.value) in born
    ensures var fewer := map p | p in identities && p in kept :: identities[p];
      && Safe(holders, born, stops, suspended, Record(fewer, root, rootCreated))
      && forall p | p in kept && p in Record(identities, root, rootCreated) ::
           p in Record(fewer, root, rootCreated) && Record(fewer, root, rootCreated)[p] == Record(identities, root, rootCreated)[p]
  {
    var fewer := map p | p in identities && p in kept :: identities[p];
    var record := Record(identities, root, rootCreated);
    forall p | p in Record(fewer, root, rootCreated)
      ensures Incarnation(p, Record(fewer, root, rootCreated)[p]) in born
    {
      assert p in record;
      assert Incarnation(p, record[p]) in born;
    }
  }

  /** Noting one more PID to be stopped, or dropping one that was not, keeps process control safe. */
  lemma NotingKeepsSafe(holders: map<Pid, real>, born: set<Incarnation>, stops: map<Incarnation, nat>,
                        suspended: set<Pid>, record: map<Pid, real>, pid: Pid)
    requires Safe(holders, born, stops, suspended, record) && pid !in suspended
    ensures Safe(holders, born, stops, suspended + {pid}, record) && !Owed(pid, holders, stops)
  {
  }

  lemma DroppingKeepsSafe(holders: map<Pid, real>, born: set<Incarnation>, stops: map<Incarnation, nat>,
                          suspended: set<Pid>, record: map<Pid, real>, pid: Pid)
    requires Safe(holders, born, stops, suspended, record) && !Owed(pid, holders, stops)
    ensures Safe(holders, born, stops, suspended - {pid}, record)
  {
  }

  /** The record still says the same about these PIDs. */
  ghost predicate Kept(before: map<Pid, real>, after: map<Pid, real>, pids: set<Pid>) {
    forall p | p in before && p in pids :: p in after && after[p] == before[p]
  }

  lemma KeptSelf(record: map<Pid, real>)
    ensures Kept(record, record, record.Keys)
  {
  }

  lemma KeptLater(r0: map<Pid, real>, r1: map<Pid, real>, r2: map<Pid, real>)
    requires Kept(r0, r1, r0.Keys) && Kept(r1, r2, r1.Keys)
    ensures Kept(r0, r2, r0.Keys)
  {
  }

  lemma KeptTransitive(r0: map<Pid, real>, r1: map<Pid, real>, r2: map<Pid, real>, pids: set<Pid>, more: set<Pid>)
    requires Kept(r0, r1, pids) && Kept(r1, r2, more) && pids <= more
    ensures Kept(r0, r2, pids)
  {
  }

  /** The incarnation is one that lived, and is not on its PID now. */
  ghost predicate Retired(pid: Pid, created: real, holders: map<Pid, real>, born: set<Incarnation>) {
    Incarnation(pid, created) in born && !(pid in holders && holders[pid] == created)
  }

  /** The dead stay dead. */
  lemma RetiredStays(pid: Pid, created: real, h0: map<Pid, real>, b0: set<Incarnation>,
                     h1: map<Pid, real>, b1: set<Incarnation>)
    requires Retired(pid, created, h0, b0) && Evolves(h0, b0, h1, b1)
    ensures Retired(pid, created, h1, b1)
  {
  }

  lemma SettledOn(walk: Walk, next: Walk, children: set<Pid>, parent: Pid, monitor: map<Pid, Option<real>>, sameStart: real)
    requires children <= ChildrenOf(walk.links, parent) && forall c | c in children :: walk.Settled(c, monitor, sameStart)
    requires Longer(walk, next) && walk.Members() <= next.Members()
    requires Lookup(walk.Waiting(), parent) == Lookup(next.Waiting(), parent)
    ensures forall c | c in children :: next.Settled(c, monitor, sameStart)
  {
    hide Walk.Settled, Walk.Members, Walk.Waiting;
    forall c | c in children
      ensures next.Settled(c, monitor, sameStart)
    {
      StillSettled(walk, next, c, monitor, sameStart);
    }
  }

  lemma TriedNow(walk: Walk, parent: Pid, children: set<Pid>, monitor: map<Pid, Option<real>>, sameStart: real)
    requires children == ChildrenOf(walk.links, parent)
    requires forall c | c in children :: walk.Settled(c, monitor, sameStart)
    ensures walk.Tried(parent, monitor, sameStart)
  {
    hide Walk.Settled;
  }

  /** Every parent met so far has been searched, except those still queued. */
  ghost predicate AllTried(walk: Walk, queue: seq<Pid>, monitor: map<Pid, Option<real>>, sameStart: real) {
    forall p | (p in walk.Members() || p in walk.Waiting()) && p !in queue :: walk.Tried(p, monitor, sameStart)
  }

  lemma NothingYet(walk: Walk, queue: seq<Pid>, monitor: map<Pid, Option<real>>, asked: seq<Answer>,
                   identities: map<Pid, real>, sameStart: real)
    requires walk.adopted == [] && walk.refused == [] && walk.since <= |asked|
    requires forall p | p in walk.Members() || p in walk.departed :: p in queue
    ensures walk.Justified(monitor, sameStart) && walk.Evident(asked, identities, sameStart)
    ensures walk.Waiting() == walk.departed && AllTried(walk, queue, monitor, sameStart)
  {
  }

  lemma TriedOn(walk: Walk, next: Walk, waiting: seq<Pid>, queue: seq<Pid>, added: seq<Pid>,
                monitor: map<Pid, Option<real>>, sameStart: real)
    requires waiting != [] && queue == waiting[1..] + added && AllTried(walk, waiting, monitor, sameStart)
    requires Longer(walk, next) && walk.Members() <= next.Members() && next.Tried(waiting[0], monitor, sameStart)
    requires forall p | p in next.Members() && p !in walk.Members() :: p in added
    requires forall p | p !in added :: Lookup(walk.Waiting(), p) == Lookup(next.Waiting(), p)
    ensures AllTried(next, queue, monitor, sameStart)
  {
    hide Walk.Tried, Walk.Members, Walk.Waiting;
    forall p | (p in next.Members() || p in next.Waiting()) && p !in queue
      ensures next.Tried(p, monitor, sameStart)
    {
      assert p !in added && p !in waiting[1..];
      assert Lookup(walk.Waiting(), p) == Lookup(next.Waiting(), p);
      if p != waiting[0] {
        assert waiting == [waiting[0]] + waiting[1..];
        StillTried(walk, next, p, monitor, sameStart);
      }
    }
  }

  lemma AllTriedIsThorough(walk: Walk, monitor: map<Pid, Option<real>>, sameStart: real)
    requires AllTried(walk, [], monitor, sameStart)
    ensures walk.Thorough(monitor, sameStart)
  {
    hide Walk.Tried, Walk.Members, Walk.Waiting;
  }

  /** Whoever of these was on record is proved gone. */
  ghost predicate RetiredAll(pids: set<Pid>, record: map<Pid, real>, holders: map<Pid, real>, born: set<Incarnation>) {
    forall p | p in pids && p in record :: Retired(p, record[p], holders, born)
  }

  /** These members were looked at: who was alive, who is noted as departed, and who is proved gone. */
  ghost predicate Sorted(k: Knowledge, done: set<Pid>, alive: set<Pid>, before: map<Pid, Departed>,
                         after: map<Pid, Departed>, asked: seq<Answer>, since: nat, record: map<Pid, real>,
                         holders: map<Pid, real>, born: set<Incarnation>, now: real)
  {
    && since <= |asked| && alive <= done
    && (forall p | p in done :: k.Found(p, p in alive, asked[since..]))
    && RetiredAll(done - alive, record, holders, born)
    && after == Noted(before, done - alive, k, now)
  }

  lemma SortedNone(k: Knowledge, departed: map<Pid, Departed>, asked: seq<Answer>, since: nat, record: map<Pid, real>,
                   holders: map<Pid, real>, born: set<Incarnation>, now: real)
    requires since <= |asked|
    ensures Sorted(k, {}, {}, departed, departed, asked, since, record, holders, born, now)
  {
    NotedNone(departed, k, now);
  }

  lemma SortedOn(k: Knowledge, done: set<Pid>, alive: set<Pid>, before: map<Pid, Departed>, after: map<Pid, Departed>,
                 asked: seq<Answer>, more: seq<Answer>, since: nat, record: map<Pid, real>, h0: map<Pid, real>,
                 b0: set<Incarnation>, h1: map<Pid, real>, b1: set<Incarnation>, now: real, pid: Pid, lives: bool)
    requires Sorted(k, done, alive, before, after, asked, since, record, h0, b0, now) && asked <= more && Evolves(h0, b0, h1, b1)
    requires since <= |more| && pid !in done && k.Found(pid, lives, more[since..]) && (!lives && pid in record ==> Retired(pid, record[pid], h1, b1))
    ensures Sorted(k, done + {pid}, if lives then alive + {pid} else alive, before,
                   if lives || pid in after then after else after[pid := Departed(k.Expected(pid), now)],
                   more, since, record, h1, b1, now)
  {
    hide Knowledge.Found, Evolves, Noted, Retired;
    AllFoundLater(k, done, alive, asked[since..], more[since..]);
    AllRetiredStay(done - alive, record, h0, b0, h1, b1);
    if lives {
      assert done + {pid} - (alive + {pid}) == done - alive;
    } else {
      NotedMore(before, done - alive, k, now, pid);
      assert done + {pid} - alive == done - alive + {pid};
    }
  }

  lemma SortedAll(k: Knowledge, tracked: set<Pid>, alive: set<Pid>, before: map<Pid, Departed>,
                  after: map<Pid, Departed>, asked: seq<Answer>, since: nat, record: map<Pid, real>, holders: map<Pid, real>,
                  born: set<Incarnation>, now: real)
    requires Sorted(k, tracked, alive, before, after, asked, since, record, holders, born, now)
    ensures alive <= tracked && since <= |asked| && forall p | p in tracked :: k.Found(p, p in alive, asked[since..])
    ensures RetiredAll(tracked - alive, record, holders, born) && after == Noted(before, tracked - alive, k, now)
  {
  }

  lemma AllRetiredStay(pids: set<Pid>, record: map<Pid, real>, h0: map<Pid, real>, b0: set<Incarnation>,
                       h1: map<Pid, real>, b1: set<Incarnation>)
    requires Evolves(h0, b0, h1, b1) && forall p | p in pids && p in record :: Retired(p, record[p], h0, b0)
    ensures forall p | p in pids && p in record :: Retired(p, record[p], h1, b1)
  {
    hide Retired, Evolves;
    forall p | p in pids && p in record
      ensures Retired(p, record[p], h1, b1)
    {
      RetiredStays(p, record[p], h0, b0, h1, b1);
    }
  }

  /** Whoever was tracked on record is still tracked as that, or proved gone. */
  ghost predicate Accounted(before: map<Pid, real>, pids: set<Pid>, after: map<Pid, real>, tracked: set<Pid>,
                            holders: map<Pid, real>, born: set<Incarnation>)
  {
    forall p | p in pids && p in before ::
      (p in tracked && Lookup(after, p) == Some(before[p])) || Retired(p, before[p], holders, born)
  }

  lemma AccountedSorted(record: map<Pid, real>, tracked: set<Pid>, alive: set<Pid>, h0: map<Pid, real>,
                        b0: set<Incarnation>, after: map<Pid, real>, members: set<Pid>, h1: map<Pid, real>,
                        b1: set<Incarnation>)
    requires Evolves(h0, b0, h1, b1) && alive <= members && Kept(record, after, alive)
    requires RetiredAll(tracked - alive, record, h0, b0)
    ensures Accounted(record, tracked, after, members, h1, b1)
  {
    AllRetiredStay(tracked - alive, record, h0, b0, h1, b1);
    hide Retired, Evolves;
  }

  lemma AllAccounted(record: map<Pid, real>, pids: set<Pid>, after: map<Pid, real>, tracked: set<Pid>,
                     holders: map<Pid, real>, born: set<Incarnation>)
    requires pids <= tracked && Kept(record, after, record.Keys)
    ensures Accounted(record, pids, after, tracked, holders, born)
  {
    hide Retired;
  }

  lemma AccountedTransitive(r0: map<Pid, real>, t0: set<Pid>, r1: map<Pid, real>, t1: set<Pid>, h1: map<Pid, real>,
                            b1: set<Incarnation>, r2: map<Pid, real>, t2: set<Pid>, h2: map<Pid, real>,
                            b2: set<Incarnation>)
    requires Accounted(r0, t0, r1, t1, h1, b1) && Accounted(r1, t1, r2, t2, h2, b2) && Evolves(h1, b1, h2, b2)
    ensures Accounted(r0, t0, r2, t2, h2, b2)
  {
    hide Evolves;
    forall p | p in t0 && p in r0 && Retired(p, r0[p], h1, b1)
      ensures Retired(p, r0[p], h2, b2)
    {
      RetiredStays(p, r0[p], h1, b1, h2, b2);
    }
    hide Retired;
  }

  lemma AccountedLater(r0: map<Pid, real>, t0: set<Pid>, r1: map<Pid, real>, t1: set<Pid>, h1: map<Pid, real>,
                       b1: set<Incarnation>, h2: map<Pid, real>, b2: set<Incarnation>)
    requires Accounted(r0, t0, r1, t1, h1, b1) && Evolves(h1, b1, h2, b2)
    ensures Accounted(r0, t0, r1, t1, h2, b2)
  {
    hide Evolves;
    forall p | p in t0 && p in r0 && Retired(p, r0[p], h1, b1)
      ensures Retired(p, r0[p], h2, b2)
    {
      RetiredStays(p, r0[p], h1, b1, h2, b2);
    }
    hide Retired;
  }

  /** A signal of this kind went to this process, by the creation time on record. */
  ghost predicate Aimed(log: seq<Signal>, from: nat, kind: SignalKind, pid: Pid, created: real) {
    exists k :: from <= k < |log| && log[k].kind == kind && log[k].pid == pid && Lookup(log[k].record, pid) == Some(created)
  }

  /** Whoever of these is on record was sent such a signal, or is proved gone. */
  ghost predicate Struck(kind: SignalKind, pids: set<Pid>, record: map<Pid, real>, log: seq<Signal>, from: nat,
                         holders: map<Pid, real>, born: set<Incarnation>)
  {
    forall p | p in pids && p in record :: Aimed(log, from, kind, p, record[p]) || Retired(p, record[p], holders, born)
  }

  lemma StruckNone(kind: SignalKind, record: map<Pid, real>, log: seq<Signal>, from: nat, holders: map<Pid, real>,
                   born: set<Incarnation>)
    ensures Struck(kind, {}, record, log, from, holders, born)
  {
  }

  lemma StruckOne(kind: SignalKind, pid: Pid, record: map<Pid, real>, log: seq<Signal>, s: Signal,
                  holders: map<Pid, real>, born: set<Incarnation>)
    requires s.kind == kind && s.pid == pid && s.record == record
    ensures Struck(kind, {pid}, record, log + [s], |log|, holders, born)
  {
    assert (log + [s])[|log|] == s;
  }

  lemma StruckGone(kind: SignalKind, pid: Pid, record: map<Pid, real>, log: seq<Signal>, from: nat,
                   holders: map<Pid, real>, born: set<Incarnation>)
    requires pid in record ==> Retired(pid, record[pid], holders, born)
    ensures Struck(kind, {pid}, record, log, from, holders, born)
  {
  }

  lemma StruckLater(kind: SignalKind, pids: set<Pid>, record: map<Pid, real>, log: seq<Signal>, from: nat,
                    h0: map<Pid, real>, b0: set<Incarnation>, more: seq<Signal>, since: nat, h1: map<Pid, real>,
                    b1: set<Incarnation>)
    requires Struck(kind, pids, record, log, from, h0, b0) && Evolves(h0, b0, h1, b1) && log <= more && since <= from
    ensures Struck(kind, pids, record, more, since, h1, b1)
  {
    hide Retired, Evolves;
    forall p | p in pids && p in record
      ensures Aimed(more, since, kind, p, record[p]) || Retired(p, record[p], h1, b1)
    {
      if Retired(p, record[p], h0, b0) {
        RetiredStays(p, record[p], h0, b0, h1, b1);
      } else {
        var k :| from <= k < |log| && log[k].kind == kind && log[k].pid == p && Lookup(log[k].record, p) == Some(record[p]);
        assert more[k] == log[k];
      }
    }
  }

  lemma StruckBoth(kind: SignalKind, pids: set<Pid>, more: set<Pid>, record: map<Pid, real>, log: seq<Signal>,
                   from: nat, holders: map<Pid, real>, born: set<Incarnation>)
    requires Struck(kind, pids, record, log, from, holders, born) && Struck(kind, more, record, log, from, holders, born)
    ensures Struck(kind, pids + more, record, log, from, holders, born)
  {
  }

  /** What was sent to those still there was sent to everyone from before who is not gone. */
  lemma StruckBefore(kind: SignalKind, r0: map<Pid, real>, t0: set<Pid>, r1: map<Pid, real>, t1: set<Pid>,
                     remaining: set<Pid>, h0: map<Pid, real>, b0: set<Incarnation>, log: seq<Signal>, from: nat,
                     h1: map<Pid, real>, b1: set<Incarnation>)
    requires Accounted(r0, t0, r1, t1, h0, b0) && Accounted(r0, t0, r1, remaining, h0, b0) && Evolves(h0, b0, h1, b1)
    requires Struck(kind, remaining * t1, r1, log, from, h1, b1)
    ensures Struck(kind, t0, r0, log, from, h1, b1)
  {
    hide Retired, Evolves, Aimed;
    forall p | p in t0 && p in r0
      ensures Aimed(log, from, kind, p, r0[p]) || Retired(p, r0[p], h1, b1)
    {
      if Retired(p, r0[p], h0, b0) {
        RetiredStays(p, r0[p], h0, b0, h1, b1);
      } else {
        assert p in remaining * t1 && r1[p] == r0[p];
      }
    }
  }

  /**
   Every signal from a position on was sent by a record that, for whoever was
   tracked before, still named that process, or named another once it was gone.
   */
  ghost predicate Descended(before: map<Pid, real>, pids: set<Pid>, log: seq<Signal>, from: nat,
                            holders: map<Pid, real>, born: set<Incarnation>)
  {
    forall k, p | from <= k < |log| && p in pids && p in before && p in log[k].record ::
      log[k].record[p] == before[p] || Retired(p, before[p], holders, born)
  }

  /** The checks of one step are what the walk's justification asks for. */
  lemma JoiningExtends(walk: Walk, a: Trial, monitor: map<Pid, Option<real>>, sameStart: real)
    requires a.Joins(monitor, sameStart) && walk.Justified(monitor, sameStart)
    requires a.pid in walk.links && walk.links[a.pid] == a.parent && a.pid != a.parent && a.pid !in walk.Members()
    requires a.gone == Lookup(walk.Waiting(), a.parent) && (a.gone.None? ==> a.parent in walk.Members())
    requires a.previous == Lookup(walk.departed, a.pid)
    ensures walk.(adopted := walk.adopted + [a]).Justified(monitor, sameStart)
    ensures walk.(adopted := walk.adopted + [a]).Members() == walk.Members() + {a.pid}
    ensures walk.(adopted := walk.adopted + [a]).Waiting() == walk.Waiting() - {a.pid}
  {
    assert walk.Fits(a, monitor, sameStart);
    walk.Extend(a, monitor, sameStart);
  }

  /** Identities of members stay as they are while a walk goes on. */
  ghost predicate Same(before: map<Pid, real>, after: map<Pid, real>, pids: set<Pid>) {
    forall p | p in pids :: Lookup(before, p) == Lookup(after, p)
  }

  lemma HeardLater(t: Trial, asked: seq<Answer>, more: seq<Answer>, since: nat, before: map<Pid, real>,
                   after: map<Pid, real>, sameStart: real)
    requires asked <= more && since <= |asked| && t.Heard(asked[since..], before, sameStart)
    requires t.gone.None? ==> Lookup(before, t.parent) == Lookup(after, t.parent)
    ensures t.Heard(more[since..], after, sameStart)
  {
    var n := asked[since..];
    assert more[since..] == n + more[|asked|..];
    if t.gone.Some? {
      var a :| a in n && a.Aged? && a.pid == t.parent && t.holder == ReuseOf(a, t.gone.value.created, sameStart);
      assert a in more[since..];
    }
  }

  lemma HeardNow(t: Trial, since: nat, asked: seq<Answer>, more: seq<Answer>, identities: map<Pid, real>, sameStart: real)
    requires since <= |asked| && more == asked + [Aged(t.pid, t.found, t.age)]
    requires HolderHeard(t.parent, t.gone, t.holder, asked[since..], sameStart)
    requires t.parentCreated == if t.gone.Some? then t.gone.value.created else Lookup(identities, t.parent)
    ensures t.Heard(more[since..], identities, sameStart)
  {
    assert more[since..] == asked[since..] + [Aged(t.pid, t.found, t.age)];
    HolderHeardLater(t.parent, t.gone, t.holder, asked, more, since, sameStart);
  }

  lemma HolderHeardLater(parent: Pid, gone: Option<Departed>, holder: Option<real>, asked: seq<Answer>,
                         more: seq<Answer>, since: nat, sameStart: real)
    requires asked <= more && since <= |asked| && HolderHeard(parent, gone, holder, asked[since..], sameStart)
    ensures HolderHeard(parent, gone, holder, more[since..], sameStart)
  {
    assert more[since..] == asked[since..] + more[|asked|..];
  }

  lemma HolderHeardNow(parent: Pid, gone: Departed, holder: Option<real>, asked: seq<Answer>, more: seq<Answer>,
                       since: nat, sameStart: real)
    requires since <= |asked| && |more| == |asked| + 1 && asked <= more
    requires more[|asked|].Aged? && more[|asked|].pid == parent
    requires holder == ReuseOf(more[|asked|], gone.created, sameStart)
    ensures HolderHeard(parent, Some(gone), holder, more[since..], sameStart)
  {
    assert more[since..][|asked| - since] == more[|asked|];
    assert more[|asked|] in more[since..];
  }

  /** What a walk went by still stands after more answers, while the identities of its members stay. */
  lemma EvidentLater(walk: Walk, asked: seq<Answer>, more: seq<Answer>, before: map<Pid, real>,
                     after: map<Pid, real>, sameStart: real)
    requires walk.Evident(asked, before, sameStart) && asked <= more && Same(before, after, walk.Members())
    ensures walk.Evident(more, after, sameStart)
  {
    forall t | t in walk.adopted || t in walk.refused
      ensures walk.Grounded(t, more, after, sameStart)
    {
      HeardLater(t, asked, more, walk.since, before, after, sameStart);
    }
    hide Trial.Heard;
    forall a | a in walk.adopted && a.Created().Some?
      ensures Lookup(after, a.pid) == a.Created()
    {
      assert a.pid in walk.Members();
    }
  }

  lemma EvidentAdopted(walk: Walk, a: Trial, asked: seq<Answer>, identities: map<Pid, real>, sameStart: real)
    requires walk.Evident(asked, identities, sameStart) && walk.Grounded(a, asked, identities, sameStart)
    requires a.Created().Some? ==> Lookup(identities, a.pid) == a.Created()
    ensures walk.(adopted := walk.adopted + [a]).Evident(asked, identities, sameStart)
  {
    hide Trial.Heard;
    assert forall b :: b in walk.adopted + [a] <==> b in walk.adopted || b == a;
    assert walk.Members() <= walk.(adopted := walk.adopted + [a]).Members();
  }

  lemma EvidentRefused(walk: Walk, t: Trial, asked: seq<Answer>, identities: map<Pid, real>, sameStart: real)
    requires walk.Evident(asked, identities, sameStart) && walk.Grounded(t, asked, identities, sameStart)
    ensures walk.(refused := walk.refused + [t]).Evident(asked, identities, sameStart)
  {
    hide Trial.Heard;
    assert walk.(refused := walk.refused + [t]).Members() == walk.Members();
  }

  lemma ChildIsNot(walk: Walk, child: Pid, parent: Pid)
    requires child in ChildrenOf(walk.links, parent)
    ensures child != parent
  {
  }

  lemma SeedsOnly(walk: Walk)
    requires walk.adopted == []
    ensures walk.Members() == walk.alive + set p | p in walk.session && p in walk.links && walk.links[p] !in walk.session
  {
  }

  /** The same walk, some trials later. */
  ghost predicate Longer(walk: Walk, next: Walk) {
    && next == walk.(adopted := next.adopted, refused := next.refused)
    && walk.adopted <= next.adopted && walk.refused <= next.refused
  }

  lemma LongerMeans(walk: Walk, next: Walk)
    requires Longer(walk, next)
    ensures next.links == walk.links && next.since == walk.since
  {
  }

  lemma LongerTransitive(a: Walk, b: Walk, c: Walk)
    requires Longer(a, b) && Longer(b, c)
    ensures Longer(a, c)
  {
  }

  lemma LongerSelf(walk: Walk)
    ensures Longer(walk, walk)
  {
  }

  lemma WaitingBefore(walk: Walk, child: Pid)
    requires child !in walk.Members()
    ensures Lookup(walk.Waiting(), child) == Lookup(walk.departed, child)
  {
  }

  lemma TurnedAway(walk: Walk, t: Trial, monitor: map<Pid, Option<real>>, sameStart: real)
    requires t.pid in walk.links && t.parent == walk.links[t.pid] && !t.Joins(monitor, sameStart)
    requires t.gone == Lookup(walk.Waiting(), t.parent) && t.previous == Lookup(walk.departed, t.pid)
    ensures var next := walk.(refused := walk.refused + [t]);
      next.Settled(t.pid, monitor, sameStart) && next.Members() == walk.Members() && next.Waiting() == walk.Waiting()
  {
    var next := walk.(refused := walk.refused + [t]);
    assert next.Waiting() == walk.Waiting();
    assert t in next.refused && next.Turned(t, t.pid, monitor, sameStart);
  }

  lemma MemberSettled(walk: Walk, child: Pid, monitor: map<Pid, Option<real>>, sameStart: real)
    requires child in walk.Members()
    ensures walk.Settled(child, monitor, sameStart)
  {
  }

  lemma AskedNow(walk: Walk, t: Trial, asked: seq<Answer>, more: seq<Answer>, identities: map<Pid, real>, sameStart: real)
    requires walk.Evident(asked, identities, sameStart) && more == asked + [Aged(t.pid, t.found, t.age)]
    requires HolderHeard(t.parent, t.gone, t.holder, asked[walk.since..], sameStart)
    requires t.parentCreated == if t.gone.Some? then t.gone.value.created else Lookup(identities, t.parent)
    requires t.gone.None? ==> t.parent in walk.Members()
    requires t.pid !in walk.Members()
    ensures walk.Evident(more, identities, sameStart) && walk.Grounded(t, more, identities, sameStart)
    ensures Lookup(walk.Waiting(), t.pid) == Lookup(walk.departed, t.pid)
  {
    HeardNow(t, walk.since, asked, more, identities, sameStart);
    EvidentLater(walk, asked, more, identities, identities, sameStart);
    WaitingBefore(walk, t.pid);
  }

  lemma AdmittedLeaves(before: map<Pid, real>, after: map<Pid, real>, record: map<Pid, real>, later: map<Pid, real>,
                       t: Trial, members: set<Pid>)
    requires t.pid !in members
    requires after == if t.Created().Some? then before[t.pid := t.Created().value] else before
    requires later == if t.Created().Some? then record[t.pid := t.Created().value] else record
    ensures Same(before, after, members) && Kept(record, later, members)
    ensures t.Created().Some? ==> Lookup(after, t.pid) == t.Created()
  {
  }

  /** The walk after an adoption. */
  lemma Adopted(walk: Walk, t: Trial, asked: seq<Answer>, before: map<Pid, real>, after: map<Pid, real>,
                monitor: map<Pid, Option<real>>, sameStart: real)
    requires t.Joins(monitor, sameStart) && walk.Justified(monitor, sameStart)
    requires t.pid in walk.links && walk.links[t.pid] == t.parent && t.pid != t.parent && t.pid !in walk.Members()
    requires t.gone == Lookup(walk.Waiting(), t.parent) && (t.gone.None? ==> t.parent in walk.Members())
    requires t.previous == Lookup(walk.departed, t.pid)
    requires walk.Evident(asked, before, sameStart) && walk.Grounded(t, asked, before, sameStart)
    requires Same(before, after, walk.Members()) && (t.Created().Some? ==> Lookup(after, t.pid) == t.Created())
    ensures var next := walk.(adopted := walk.adopted + [t]);
      && Longer(walk, next) && next.Justified(monitor, sameStart) && next.Evident(asked, after, sameStart)
      && next.Settled(t.pid, monitor, sameStart)
      && next.Members() == walk.Members() + {t.pid} && next.Waiting() == walk.Waiting() - {t.pid}
  {
    JoiningExtends(walk, t, monitor, sameStart);
    hide Trial.Joins, Walk.Justified, HolderHeard, Walk.Waiting, Walk.Members;
    HeardLater(t, asked, asked, walk.since, before, after, sameStart);
    EvidentLater(walk, asked, asked, before, after, sameStart);
    hide Trial.Heard;
    assert walk.Grounded(t, asked, after, sameStart);
    EvidentAdopted(walk, t, asked, after, sameStart);
    hide Walk.Evident, Walk.Grounded;
    MemberSettled(walk.(adopted := walk.adopted + [t]), t.pid, monitor, sameStart);
  }

  /** The walk after a child was turned away. */
  lemma NotAdopted(walk: Walk, t: Trial, asked: seq<Answer>, identities: map<Pid, real>,
                monitor: map<Pid, Option<real>>, sameStart: real)
    requires !t.Joins(monitor, sameStart) && walk.Justified(monitor, sameStart)
    requires t.pid in walk.links && walk.links[t.pid] == t.parent
    requires t.gone == Lookup(walk.Waiting(), t.parent) && t.previous == Lookup(walk.departed, t.pid)
    requires walk.Evident(asked, identities, sameStart) && walk.Grounded(t, asked, identities, sameStart)
    ensures var next := walk.(refused := walk.refused + [t]);
      && Longer(walk, next) && next.Justified(monitor, sameStart) && next.Evident(asked, identities, sameStart)
      && next.Settled(t.pid, monitor, sameStart)
      && next.Members() == walk.Members() && next.Waiting() == walk.Waiting()
  {
    EvidentRefused(walk, t, asked, identities, sameStart);
    TurnedAway(walk, t, monitor, sameStart);
    var next := walk.(refused := walk.refused + [t]);
    hide Walk.Fits, Walk.Evident, Walk.Settled, Trial.Joins;
    forall i | 0 <= i < |next.adopted|
      ensures next.Prefix(i).Fits(next.adopted[i], monitor, sameStart)
    {
      FitsAlike(walk.Prefix(i), next.Prefix(i), walk.adopted[i], monitor, sameStart);
    }
  }

  /** What was turned away has no part in whether another fits. */
  lemma FitsAlike(a: Walk, b: Walk, t: Trial, monitor: map<Pid, Option<real>>, sameStart: real)
    requires a.Fits(t, monitor, sameStart) && b == a.(refused := b.refused)
    ensures b.Fits(t, monitor, sameStart)
  {
  }

  lemma Unchanged(identities: map<Pid, real>, record: map<Pid, real>, members: set<Pid>)
    ensures Same(identities, identities, members) && Kept(record, record, members)
  {
  }

  lemma SameTransitive(i0: map<Pid, real>, i1: map<Pid, real>, i2: map<Pid, real>, pids: set<Pid>, more: set<Pid>)
    requires Same(i0, i1, pids) && Same(i1, i2, more) && pids <= more
    ensures Same(i0, i2, pids)
  {
  }

  /** More trials leave a settled child settled, while its parent waits or does not wait as before. */
  lemma StillSettled(walk: Walk, next: Walk, child: Pid, monitor: map<Pid, Option<real>>, sameStart: real)
    requires walk.Settled(child, monitor, sameStart) && child in walk.links
    requires next == walk.(adopted := next.adopted, refused := next.refused)
    requires walk.Members() <= next.Members() && walk.refused <= next.refused
    requires Lookup(walk.Waiting(), walk.links[child]) == Lookup(next.Waiting(), walk.links[child])
    ensures next.Settled(child, monitor, sameStart)
  {
    if child !in walk.Members() {
      var t :| t in walk.refused && walk.Turned(t, child, monitor, sameStart);
      assert t in next.refused && next.Turned(t, child, monitor, sameStart);
    }
  }

  lemma StillTried(walk: Walk, next: Walk, parent: Pid, monitor: map<Pid, Option<real>>, sameStart: real)
    requires walk.Tried(parent, monitor, sameStart)
    requires next == walk.(adopted := next.adopted, refused := next.refused)
    requires walk.Members() <= next.Members() && walk.refused <= next.refused
    requires Lookup(walk.Waiting(), parent) == Lookup(next.Waiting(), parent)
    ensures next.Tried(parent, monitor, sameStart)
  {
    forall c | c in walk.links && walk.links[c] == parent && c != parent
      ensures next.Settled(c, monitor, sameStart)
    {
      StillSettled(walk, next, c, monitor, sameStart);
    }
  }

  method Enumerate(pids: set<Pid>) returns (order: seq<Pid>)
    ensures forall p :: p in order <==> p in pids
  {
    var todo := pids;
    order := [];
    while todo != {}
      invariant todo <= pids
      invariant forall p :: p in order <==> p in pids - todo
      decreases todo
    {
      SomePid(todo);
      var pid :| pid in todo;
      todo := todo - {pid};
      order := order + [pid];
    }
  }

  /** After one more parent, what waits is still a member or departed, and the walk is nearer its end. */
  lemma QueueStays(queue: seq<Pid>, added: seq<Pid>, members: set<Pid>, grown: set<Pid>, departed: set<Pid>,
                   listed: set<Pid>)
    requires forall p | p in queue :: p in grown || p in departed
    requires forall p :: p in added <==> p in grown && p !in members
    requires members <= grown <= members + listed
    ensures forall p | p in queue + added :: p in grown || p in departed
    ensures if added == [] then grown == members else listed - grown < listed - members
  {
    if added == [] {
      assert forall p | p in grown :: p in members;
    } else {
      var a := added[0];
      assert a in added;
      assert a in grown && a !in members;
      assert a in listed - members && a !in listed - grown;
    }
  }

  lemma SomePid(pids: set<Pid>)
    ensures pids == {} || exists p :: p in pids
  {
    if forall p :: p !in pids {
      assert pids == {};
    }
  }

  /** The departed that are left once the members have grown. */
  function Left(departed: map<Pid, Departed>, members: set<Pid>, grown: set<Pid>): map<Pid, Departed> {
    departed - (grown - members)
  }

  lemma LeftNone(departed: map<Pid, Departed>, members: set<Pid>)
    ensures Left(departed, members, members) == departed
  {
  }

  lemma LeftSame(departed: map<Pid, Departed>, members: set<Pid>, grown: set<Pid>, added: seq<Pid>)
    requires forall p :: p in added <==> p in grown && p !in members
    ensures forall p | p !in added :: Lookup(Left(departed, members, grown), p) == Lookup(departed, p)
    ensures forall p | p in departed :: p in Left(departed, members, grown) || p in grown
    ensures Left(departed, members, grown).Keys <= departed.Keys
  {
  }

  lemma LeftOne(departed: map<Pid, Departed>, members: set<Pid>, grown: set<Pid>, child: Pid, parent: Pid)
    requires child !in members && child != parent
    ensures Left(departed, members, grown) - {child} == Left(departed, members, grown + {child})
    ensures Lookup(Left(departed, members, grown), parent) == Lookup(Left(departed, members, grown + {child}), parent)
  {
  }

  /** What the system has done and said, and what is on record. */
  datatype Moment = Moment(
    holders: map<Pid, real>,
    born: set<Incarnation>,
    asked: seq<Answer>,
    identities: map<Pid, real>,
    record: map<Pid, real>)

  /** Time passes, questions are asked, and the identities of these PIDs stay. */
  ghost predicate Advances(a: Moment, b: Moment, members: set<Pid>) {
    && Evolves(a.holders, a.born, b.holders, b.born)
    && a.asked <= b.asked
    && Same(a.identities, b.identities, members)
    && Kept(a.record, b.record, members)
  }

  lemma AdvancesTransitive(a: Moment, b: Moment, c: Moment, members: set<Pid>, more: set<Pid>)
    requires Advances(a, b, members) && Advances(b, c, more) && members <= more
    ensures Advances(a, c, members)
  {
    EvolvesTransitive(a.holders, a.born, b.holders, b.born, c.holders, c.born);
    SameTransitive(a.identities, b.identities, c.identities, members, more);
    KeptTransitive(a.record, b.record, c.record, members, more);
    hide Evolves, Same, Kept;
  }

  lemma AdvancesSelf(a: Moment, members: set<Pid>)
    requires OperatingSystem.Known(a.holders, a.born)
    ensures Advances(a, a, members)
  {
  }

  /** What is on record of the members is what it was. */
  lemma AdvancesMeans(a: Moment, b: Moment, members: set<Pid>)
    requires Advances(a, b, members)
    ensures Evolves(a.holders, a.born, b.holders, b.born) && a.asked <= b.asked && Kept(a.record, b.record, members)
    ensures forall p | p in members :: Lookup(a.identities, p) == Lookup(b.identities, p)
  {
    hide Evolves, Kept;
  }

  /** Where a run of the manager has got to. */
  datatype Stage = Stage(
    holders: map<Pid, real>,
    born: set<Incarnation>,
    root: Option<Pid>,
    record: map<Pid, real>,
    tracked: set<Pid>,
    log: seq<Signal>)
  {
    /** Nothing is tracked and nothing will be. */
    predicate Released() {
      root.None? && tracked == {}
    }
  }

  /**
   From one stage to a later one: whoever was tracked is still tracked as that,
   is gone, or was released with the whole tree; every signal between was sent by a
   record that descends from the first; and a released tree is left alone for good.
   */
  ghost predicate Follows(a: Stage, b: Stage) {
    && Evolves(a.holders, a.born, b.holders, b.born)
    && (b.Released() || Accounted(a.record, a.tracked, b.record, b.tracked, b.holders, b.born))
    && a.log <= b.log
    && Descended(a.record, a.tracked, b.log, |a.log|, b.holders, b.born)
    && (a.Released() ==> b.Released() && b.log == a.log)
  }

  lemma FollowsSelf(a: Stage)
    requires OperatingSystem.Known(a.holders, a.born)
    ensures Follows(a, a)
  {
  }

  lemma FollowsTransitive(a: Stage, b: Stage, c: Stage)
    requires Follows(a, b) && Follows(b, c)
    ensures Follows(a, c)
  {
    EvolvesTransitive(a.holders, a.born, b.holders, b.born, c.holders, c.born);
    hide Evolves;
    if !b.Released() && !c.Released() {
      AccountedTransitive(a.record, a.tracked, b.record, b.tracked, b.holders, b.born, c.record, c.tracked, c.holders, c.born);
    }
    hide Retired;
    forall k, p | |a.log| <= k < |c.log| && p in a.tracked && p in a.record && p in c.log[k].record
      ensures c.log[k].record[p] == a.record[p] || Retired(p, a.record[p], c.holders, c.born)
    {
      if k < |b.log| {
        assert c.log[k] == b.log[k];
        DescendantStays(p, a.record[p], b.log[k].record[p], b.holders, b.born, c.holders, c.born);
      } else {
        DescendantStays(p, a.record[p], a.record[p], b.holders, b.born, c.holders, c.born);
        if Retired(p, a.record[p], b.holders, b.born) {
          RetiredStays(p, a.record[p], b.holders, b.born, c.holders, c.born);
        }
      }
    }
  }

  lemma DescendantStays(pid: Pid, created: real, now: real, h0: map<Pid, real>, b0: set<Incarnation>,
                        h1: map<Pid, real>, b1: set<Incarnation>)
    requires now == created || Retired(pid, created, h0, b0)
    requires Evolves(h0, b0, h1, b1)
    ensures now == created || Retired(pid, created, h1, b1)
  {
    if now != created {
      RetiredStays(pid, created, h0, b0, h1, b1);
    }
  }

  /** Signals sent by one unchanged record. */
  lemma SentFollows(a: Stage, b: Stage, rootKnown: bool)
    requires Evolves(a.holders, a.born, b.holders, b.born) && b.root == a.root
    requires b.record == a.record && b.tracked == a.tracked && a.log <= b.log
    requires SentBy(b.log, |a.log|, b.record, rootKnown)
    requires a.Released() ==> b.log == a.log
    ensures Follows(a, b)
  {
    hide Evolves, Retired;
  }

  /** No signal, and the same tree. */
  lemma QuietFollows(a: Stage, b: Stage)
    requires Evolves(a.holders, a.born, b.holders, b.born) && b.root == a.root
    requires b.record == a.record && b.tracked == a.tracked && a.log == b.log
    ensures Follows(a, b)
  {
    hide Evolves, Retired;
  }

  lemma RefreshFollows(a: Stage, b: Stage)
    requires Evolves(a.holders, a.born, b.holders, b.born) && b.root == a.root && a.log == b.log
    requires Accounted(a.record, a.tracked, b.record, b.tracked, b.holders, b.born)
    requires a.root.None? ==> b.tracked == a.tracked
    ensures Follows(a, b)
  {
    hide Evolves, Retired;
  }

  lemma AccountedOn(a: Stage, b: Stage, c: Stage)
    requires Accounted(a.record, a.tracked, b.record, b.tracked, b.holders, b.born)
    requires Accounted(b.record, b.tracked, c.record, c.tracked, c.holders, c.born)
    requires Follows(b, c)
    ensures Accounted(a.record, a.tracked, c.record, c.tracked, c.holders, c.born)
  {
    AccountedTransitive(a.record, a.tracked, b.record, b.tracked, b.holders, b.born, c.record, c.tracked, c.holders, c.born);
  }

  lemma AccountedPast(a: Stage, b: Stage, c: Stage, remaining: set<Pid>)
    requires Accounted(a.record, a.tracked, b.record, b.tracked, b.holders, b.born) && Follows(b, c)
    requires Accounted(b.record, b.tracked, c.record, remaining, c.holders, c.born)
    ensures Accounted(a.record, a.tracked, c.record, remaining, c.holders, c.born)
  {
    AccountedTransitive(a.record, a.tracked, b.record, b.tracked, b.holders, b.born, c.record, remaining, c.holders, c.born);
  }

  /** Everyone tracked and on record at the first stage was sent such a signal by the second, or is proved gone. */
  ghost predicate Ended(kind: SignalKind, a: Stage, b: Stage) {
    Struck(kind, a.tracked, a.record, b.log, |a.log|, b.holders, b.born)
  }

  lemma EndedLater(kind: SignalKind, a: Stage, b: Stage, c: Stage)
    requires Ended(kind, a, b) && Follows(b, c)
    ensures Ended(kind, a, c)
  {
    hide Evolves, Accounted, Descended, Struck;
    StruckLater(kind, a.tracked, a.record, b.log, |a.log|, b.holders, b.born, c.log, |a.log|, c.holders, c.born);
  }

  /** What was sent to whoever is left from an earlier stage was sent to everyone of that stage who is not gone. */
  lemma EndedBefore(kind: SignalKind, a: Stage, b: Stage, remaining: set<Pid>, c: Stage)
    requires Follows(a, b) && Accounted(a.record, a.tracked, b.record, b.tracked, b.holders, b.born)
    requires Accounted(a.record, a.tracked, b.record, remaining, b.holders, b.born) && Evolves(b.holders, b.born, c.holders, c.born)
    requires Struck(kind, remaining * b.tracked, b.record, c.log, |b.log|, c.holders, c.born)
    ensures Ended(kind, a, c)
  {
    hide Evolves, Accounted, Descended, Struck;
    StruckBefore(kind, a.record, a.tracked, b.record, b.tracked, remaining, b.holders, b.born, c.log, |b.log|, c.holders, c.born);
    EvolvesSelf(c.holders, c.born, b.holders, b.born);
    StruckLater(kind, a.tracked, a.record, c.log, |b.log|, c.holders, c.born, c.log, |a.log|, c.holders, c.born);
  }

  lemma EvolvesSelf(holders: map<Pid, real>, born: set<Incarnation>, before: map<Pid, real>, some: set<Incarnation>)
    requires Evolves(before, some, holders, born)
    ensures Evolves(holders, born, holders, born)
  {
  }

  lemma EndedAll(kind: SignalKind, a: Stage, c: Stage)
    requires Struck(kind, a.tracked * a.tracked, a.record, c.log, |a.log|, c.holders, c.born)
    ensures Ended(kind, a, c)
  {
    assert a.tracked * a.tracked == a.tracked;
    hide Struck;
  }

  lemma EndedNone(kind: SignalKind, a: Stage, c: Stage)
    requires a.tracked == {}
    ensures Ended(kind, a, c)
  {
  }

  /** When none of an earlier stage is left, all of it are gone. */
  lemma EndedGone(kind: SignalKind, a: Stage, b: Stage)
    requires Accounted(a.record, a.tracked, b.record, {}, b.holders, b.born)
    ensures Ended(kind, a, b)
  {
    hide Retired, Aimed;
  }

  /** A later stage's signals reach everyone of an earlier one who is not gone, told of that stage's log. */
  lemma EndedThrough(kind: SignalKind, a: Stage, b: Stage, c: Stage)
    requires Follows(a, b) && Accounted(a.record, a.tracked, b.record, b.tracked, b.holders, b.born)
    requires Follows(b, c) && Ended(kind, b, c)
    ensures Ended(kind, a, c)
  {
    hide Evolves, Accounted, Descended, Struck;
    assert b.tracked * b.tracked == b.tracked;
    EndedBefore(kind, a, b, b.tracked, c);
  }

  lemma EndedSince(kind: SignalKind, a: Stage, b: Stage, c: Stage)
    requires Follows(a, b) && Follows(b, c) && Ended(kind, b, c)
    ensures Struck(kind, b.tracked, b.record, c.log, |a.log|, c.holders, c.born)
  {
    hide Evolves, Accounted, Descended, Struck;
    EvolvesSelf(c.holders, c.born, b.holders, b.born);
    StruckLater(kind, b.tracked, b.record, c.log, |b.log|, c.holders, c.born, c.log, |a.log|, c.holders, c.born);
  }

  /** Signals to a third stage are signals to the second and to the first. */
  lemma EndedFromFirst(kind: SignalKind, a: Stage, b: Stage, c: Stage, d: Stage)
    requires Follows(a, b) && Accounted(a.record, a.tracked, b.record, b.tracked, b.holders, b.born)
    requires Follows(b, c) && Accounted(b.record, b.tracked, c.record, c.tracked, c.holders, c.born)
    requires Follows(c, d) && Ended(kind, c, d)
    ensures Ended(kind, a, d) && Struck(kind, b.tracked, b.record, d.log, |a.log|, d.holders, d.born)
  {
    hide Follows, Accounted, Ended, Struck;
    FollowsTransitive(b, c, d);
    EndedThrough(kind, b, c, d);
    EndedThrough(kind, a, b, d);
    EndedSince(kind, a, b, d);
  }

  lemma EndedSame(kind: SignalKind, a: Stage, b: Stage, c: Stage)
    requires Ended(kind, a, b) && c.log == b.log && c.holders == b.holders && c.born == b.born
    ensures Ended(kind, a, c)
  {
  }

  lemma StruckFollows(kind: SignalKind, pids: set<Pid>, record: map<Pid, real>, from: nat, b: Stage, c: Stage)
    requires Struck(kind, pids, record, b.log, from, b.holders, b.born) && Follows(b, c)
    ensures Struck(kind, pids, record, c.log, from, c.holders, c.born)
  {
    hide Evolves, Accounted, Descended, Struck;
    StruckLater(kind, pids, record, b.log, from, b.holders, b.born, c.log, from, c.holders, c.born);
  }

  lemma FollowsEvolves(a: Stage, b: Stage)
    requires Follows(a, b)
    ensures Evolves(a.holders, a.born, b.holders, b.born)
  {
    hide Evolves;
  }

  /** Releasing the tree ends the account. */
  lemma ReleaseFollows(a: Stage, b: Stage, c: Stage)
    requires Follows(a, b) && c.Released() && c == b.(root := c.root, record := c.record, tracked := c.tracked)
    ensures Follows(a, c)
  {
    hide Evolves, Retired;
  }

  /** Keeping just those that remain, or releasing the tree when none does. */
  lemma ConcludeFollows(a: Stage, b: Stage, c: Stage, remaining: set<Pid>)
    requires a.root.Some? && Follows(a, b) && Accounted(a.record, a.tracked, b.record, remaining, b.holders, b.born)
    requires c == b.(root := c.root, record := c.record, tracked := remaining)
    requires if remaining == {} then c.root.None? else c.root == b.root && c.record == b.record
    ensures Follows(a, c) && Accounted(a.record, a.tracked, c.record, c.tracked, c.holders, c.born)
  {
    hide Evolves, Retired;
  }

  /** Who is tracked and does not remain is gone. */
  lemma AccountedRemaining(before: map<Pid, real>, pids: set<Pid>, record: map<Pid, real>, tracked: set<Pid>,
                           remaining: set<Pid>, holders: map<Pid, real>, born: set<Incarnation>)
    requires Accounted(before, pids, record, tracked, holders, born)
    requires forall p | p in tracked && p !in remaining && p in record :: Retired(p, record[p], holders, born)
    ensures Accounted(before, pids, record, remaining, holders, born)
  {
    hide Retired;
  }

  /** The process was told to stop, now or before, and is owed a resume; or someone else had stopped it. */
  ghost predicate Halted(pid: Pid, suspended: set<Pid>, before: set<Pid>, log: seq<Signal>, from: nat,
                         asked: seq<Answer>, since: nat, platform: Platform)
  {
    || (pid in suspended && (pid in before || Signalled(log, from, Suspend, pid)))
    || (pid !in suspended && platform.Linux? && Stood(pid, Read(true)) in asked[if since <= |asked| then since else 0..])
  }

  lemma HaltedByOther(pid: Pid, suspended: set<Pid>, log: seq<Signal>, from: nat, asked: seq<Answer>, since: nat,
                      platform: Platform)
    requires pid !in suspended && platform.Linux? && since < |asked| && asked[|asked| - 1] == Stood(pid, Read(true))
    ensures Halted(pid, suspended, {}, log, from, asked, since, platform)
  {
    assert asked[since..][|asked| - since - 1] == Stood(pid, Read(true));
  }

  lemma HaltedNow(pid: Pid, suspended: set<Pid>, log: seq<Signal>, from: nat, asked: seq<Answer>, since: nat,
                  platform: Platform)
    requires pid in suspended && Signalled(log, from, Suspend, pid)
    ensures Halted(pid, suspended, {}, log, from, asked, since, platform)
  {
  }

  lemma HaltedBefore(pids: set<Pid>, suspended: set<Pid>, before: set<Pid>, log: seq<Signal>, from: nat,
                     asked: seq<Answer>, since: nat, platform: Platform)
    requires forall p | p in pids :: p in suspended && p in before
    ensures forall p | p in pids :: Halted(p, suspended, before, log, from, asked, since, platform)
  {
  }

  lemma HaltedSince(pids: set<Pid>, suspended: set<Pid>, held: set<Pid>, before: set<Pid>, log: seq<Signal>, later: nat,
                    asked: seq<Answer>, after: nat, from: nat, since: nat, platform: Platform)
    requires held <= before && from <= later && since <= after <= |asked|
    requires forall p | p in pids :: Halted(p, suspended, held, log, later, asked, after, platform)
    ensures forall p | p in pids :: Halted(p, suspended, before, log, from, asked, since, platform)
  {
    assert asked[since..] == asked[since..after] + asked[after..];
  }

  lemma StillHalted(pids: set<Pid>, s0: set<Pid>, s1: set<Pid>, before: set<Pid>, l0: seq<Signal>, l1: seq<Signal>,
                    from: nat, a0: seq<Answer>, a1: seq<Answer>, since: nat, platform: Platform)
    requires l0 <= l1 && since <= |a0| && a0 <= a1
    requires forall p | p in pids :: p in s0 <==> p in s1
    requires forall p | p in pids :: Halted(p, s0, before, l0, from, a0, since, platform)
    ensures forall p | p in pids :: Halted(p, s1, before, l1, from, a1, since, platform)
  {
    assert a1[since..] == a0[since..] + a1[|a0|..];
    forall p | p in pids && Signalled(l0, from, Suspend, p)
      ensures Signalled(l1, from, Suspend, p)
    {
      var k :| from <= k < |l0| && l0[k].kind == Suspend && l0[k].pid == p;
      assert l1[k] == l0[k];
    }
  }
}
