/**
 ProcessManager: control of a process tree by PID while the operating system
 exits processes and reuses PIDs between any two calls. The model covers one
 start or attach; the lock makes each public call one uninterrupted method.
 */
module ProcessRunner {
  import opened Wrappers
  import opened OperatingSystem
  import opened ProcessControl

  datatype Command = DoRefresh | DoPause | DoResume | DoDetach | DoTerminate | DoKill

  class ProcessManager {
    const os: Os
    const attached: bool
    const monitor: map<Pid, Option<real>>
    var launched: bool
    var rootPid: Option<Pid>
    var rootCreated: Option<real>
    var sessionId: Option<Pid>
    var tracked: set<Pid>
    var identities: map<Pid, real>
    var suspended: set<Pid>
    var departed: map<Pid, Departed>
    var paused: bool

    function TheRecord(): map<Pid, real>
      reads this`identities, this`rootPid, this`rootCreated
    {
      Record(identities, rootPid, rootCreated)
    }

    /** The creation time on record for a PID; the root's outlives the root. */
    function Recorded(pid: Pid): Option<real>
      reads this`identities, this`rootPid, this`rootCreated
    {
      Lookup(TheRecord(), pid)
    }

    ghost function Now(): Stage
      reads this`rootPid, this`rootCreated, this`tracked, this`identities, os
    {
      Stage(os.holders, os.born, rootPid, TheRecord(), tracked, os.log)
    }

    ghost function ThisMoment(): Moment
      reads this`rootPid, this`rootCreated, this`identities, os
    {
      Moment(os.holders, os.born, os.asked, identities, TheRecord())
    }

    function Knows(): Knowledge
      reads this`identities, this`rootPid, this`rootCreated
    {
      Knowledge(os.platform, os.sameStart, identities, rootPid, rootCreated)
    }

    predicate RootKnown()
      reads this`rootPid, this`rootCreated
    {
      rootPid.Some? ==> rootCreated.Some?
    }

    ghost predicate Valid()
      reads this`launched, this`rootPid, this`rootCreated, this`tracked, this`identities, this`suspended
      reads os
    {
      && os.Valid()
      && suspended <= tracked
      && (rootPid.None? ==> !launched && tracked == {})
      && (rootPid.Some? && rootCreated.Some? ==> Incarnation(rootPid.value, rootCreated.value) in os.born)
      && Safe(os.holders, os.born, os.stops, suspended, TheRecord())
      && Faithful(os.log)
    }

    constructor Attach(os: Os, pid: Pid, created: Option<real>, launched: bool, monitor: map<Pid, Option<real>>)
      requires os.Valid() && os.stops == map[] && os.log == []
      requires created.Some? ==> Incarnation(pid, created.value) in os.born
      ensures Valid() && this.os == os && tracked == {pid} && suspended == {} && !paused
      ensures Recorded(pid) == created
    {
      this.os := os;
      this.attached := !launched;
      this.launched := launched;
      this.monitor := monitor;
      rootPid, rootCreated := Some(pid), created;
      sessionId := if launched && os.platform.Linux? then Some(pid) else None;
      tracked := {pid};
      identities := if created.Some? then map[pid := created.value] else map[];
      suspended, departed, paused := {}, map[], false;
    }

    predicate ContainsMonitor()
      reads this`rootPid
    {
      attached && rootPid.Some? && rootPid.value in monitor
    }

    /** Which PIDs may be opened: tracked ones, the root, and any when discovering. */
    predicate MayOpen(pid: Pid, discovering: bool)
      reads this`tracked, this`rootPid
    {
      discovering || pid in tracked || rootPid == Some(pid)
    }

    /**
     Observe a PID. Proof that the recorded process is gone clears its owed
     resume; controls additionally need a verified identity.
     */
    method OpenTracked(pid: Pid, discovering: bool, forControl: bool) returns (r: Opened, ghost seen: Sighting)
      requires Valid()
      modifies this`identities, this`suspended, os`holders, os`born, os`refusals, os`asked
      ensures Valid() && Evolves(old(os.holders), old(os.born), os.holders, os.born)
      ensures MayOpen(pid, discovering) ==>
        && os.asked == old(os.asked) + [Sighted(pid, seen)]
        && r == Opening(Judge(seen, os.platform, os.sameStart, old(Recorded(pid)), RootKnown(), discovering, forControl))
      ensures !MayOpen(pid, discovering) ==> r.Absent? && os.asked == old(os.asked) && suspended == old(suspended)
      ensures suspended == old(suspended) || (r.Absent? && suspended == old(suspended) - {pid})
      ensures r.Absent? && !forControl && MayOpen(pid, discovering) ==>
        pid !in suspended && (Recorded(pid).Some? ==> os.Holder(pid) != Recorded(pid))
      ensures r.Process? && forControl ==>
        Recorded(pid).Some? && RootKnown() && (pid in os.holders ==> Recorded(pid) == Some(os.holders[pid]))
      ensures r.Absent? && os.refusals == old(os.refusals) && MayOpen(pid, discovering) && Recorded(pid).Some? && RootKnown() ==>
        pid !in suspended && os.Holder(pid) != Recorded(pid)
      ensures identities == if discovering && r.Process? && old(Recorded(pid)).None? && seen.created.Read?
                            then old(identities)[pid := seen.created.value] else old(identities)
      ensures os.refusals >= old(os.refusals)
    {
      hide Judge, Truthful, Evolves, Safe, Record, Spaced, OperatingSystem.Known, Credible, Lookup, Withheld, Faithful;
      seen := Sighting(Denied, Denied, Denied, Denied);
      if !discovering && pid !in tracked && rootPid != Some(pid) {
        Standstill();
        return Absent, seen;
      }
      var s := os.Observe(pid);
      seen := s;
      EvolutionKeepsSafe(old(os.holders), old(os.born), os.holders, os.born, os.stops, suspended, TheRecord());
      SafeRecord(os.holders, os.born, os.stops, suspended, TheRecord(), pid);
      JudgeSound(s, pid, os.holders, os.born, os.platform, os.sameStart, Recorded(pid), RootKnown(), discovering, forControl);
      var verdict := Judge(s, os.platform, os.sameStart, Recorded(pid), RootKnown(), discovering, forControl);
      VerdictKeepsSafe(os.holders, os.born, os.stops, suspended, identities, rootPid, rootCreated, pid, verdict);
      if verdict.Gone? {
        suspended := suspended - {pid};
      } else if verdict.Learned? {
        identities := identities[pid := verdict.created];
        LearnedRecord(old(identities), pid, verdict.created, rootPid, rootCreated);
      }
      r := Opening(verdict);
    }

    /** Signal the process that was just opened for control, by the record it was identified with. */
    method SignalPid(kind: SignalKind, pid: Pid) returns (sent: Sent)
      requires Valid() && Recorded(pid).Some? && RootKnown()
      requires pid in os.holders ==> Recorded(pid) == Some(os.holders[pid])
      requires kind.Suspend? ==> pid in suspended && !Owed(pid, os.holders, os.stops)
      modifies os`stops, os`log, os`refusals
      ensures Valid() && os.log == old(os.log) + [Signal(kind, pid, TheRecord(), RootKnown(), os.Holder(pid))]
      ensures kind.Suspend? && (sent.NoProcess? || sent.Refused?) ==> !Owed(pid, os.holders, os.stops)
      ensures kind.Resume? && (sent.Done? || sent.NoProcess?) ==> !Owed(pid, os.holders, os.stops)
      ensures os.refusals == if sent.Refused? then old(os.refusals) + 1 else old(os.refusals)
    {
      SignalKeepsSafe(kind, pid, true, os.holders, os.born, os.stops, suspended, TheRecord());
      FaithfulMore(os.log, Signal(kind, pid, TheRecord(), RootKnown(), os.Holder(pid)));
      hide Safe, Faithful, Record;
      sent := os.Send(kind, pid, TheRecord(), RootKnown());
    }

    lemma StillNotOwed(pid: Pid, h: map<Pid, real>, b: set<Incarnation>, was: set<Pid>)
      requires Safe(h, b, os.stops, was, TheRecord()) && !Owed(pid, h, os.stops) && Evolves(h, b, os.holders, os.born)
      ensures !Owed(pid, os.holders, os.stops)
    {
    }

    /** Nothing is owed to this process any more. */
    method Drop(pid: Pid)
      requires Valid() && !Owed(pid, os.holders, os.stops)
      modifies this`suspended
      ensures Valid() && suspended == old(suspended) - {pid}
    {
      DroppingKeepsSafe(os.holders, os.born, os.stops, suspended, TheRecord(), pid);
      suspended := suspended - {pid};
    }

    /** Stop one process. On Linux one that is stopped already is left alone, and to whoever stopped it. */
    method SuspendPid(pid: Pid) returns (r: Outcome)
      requires Valid() && pid in suspended && !Owed(pid, os.holders, os.stops)
      modifies this`identities, this`suspended, os
      ensures Valid() && Evolves(old(os.holders), old(os.born), os.holders, os.born) && identities == old(identities)
      ensures suspended == old(suspended) || suspended == old(suspended) - {pid}
      ensures r == Returned(false) ==> !Owed(pid, os.holders, os.stops)
      ensures r == Returned(true) ==>
        Halted(pid, suspended, {}, os.log, |old(os.log)|, os.asked, |old(os.asked)|, os.platform)
      ensures OneSignal(old(os.log), os.log, Suspend, pid, TheRecord(), RootKnown())
      ensures os.refusals >= old(os.refusals) && old(os.asked) <= os.asked
    {
      ghost var h, b, was := os.holders, os.born, suspended;
      assert Safe(h, b, os.stops, was, TheRecord());
      hide *;
      var access, _ := OpenTracked(pid, false, true);
      StillNotOwed(pid, h, b, was);
      NoSignal(os.log, Suspend, pid, TheRecord(), RootKnown());
      if !access.Process? {
        return if access.Error? then Raised else Returned(false);
      }
      if os.platform.Linux? {
        // SIGSTOP is not counted: resuming a stop of someone else's would not be ours to do.
        var stopped := os.IsStopped(pid);
        if stopped == Read(true) {
          Drop(pid);
          NoSignal(os.log, Suspend, pid, TheRecord(), RootKnown());
          HaltedByOther(pid, suspended, os.log, |old(os.log)|, os.asked, |old(os.asked)|, os.platform);
          return Returned(true);
        }
        if !stopped.Read? {
          return if stopped.Failed? then Raised else Returned(false);
        }
      }
      ghost var log := os.log;
      var sent := SignalPid(Suspend, pid);
      NewSignal(log, os.log, Suspend, pid, TheRecord(), RootKnown(), os.Holder(pid));
      HaltedNow(pid, suspended, os.log, |old(os.log)|, os.asked, |old(os.asked)|, os.platform);
      return if sent.Interrupted? then Raised else Returned(sent.Done?);
    }

    method ResumePid(pid: Pid) returns (r: Outcome)
      requires Valid() && pid in suspended
      modifies this`identities, this`suspended, os
      ensures Valid() && Evolves(old(os.holders), old(os.born), os.holders, os.born) && identities == old(identities)
      ensures suspended == old(suspended) || suspended == old(suspended) - {pid}
      ensures r == Returned(true) ==> !Owed(pid, os.holders, os.stops)
      ensures r == Returned(true) && pid in suspended ==> Signalled(os.log, |old(os.log)|, Resume, pid)
      ensures r == Returned(false) && os.refusals == old(os.refusals) ==> !(Recorded(pid).Some? && RootKnown())
      ensures OneSignal(old(os.log), os.log, Resume, pid, TheRecord(), RootKnown())
      ensures os.refusals >= old(os.refusals) && old(os.asked) <= os.asked
    {
      var access, _ := OpenTracked(pid, false, true);
      if !access.Process? {
        // What is proved gone is owed nothing; what cannot be read is still owed.
        return if access.Error? then Raised else Returned(pid !in suspended);
      }
      ghost var log := os.log;
      var sent := SignalPid(Resume, pid);
      assert os.log[|log|].kind == Resume && os.log[|log|].pid == pid;
      return if sent.Interrupted? then Raised else Returned(sent.Done? || sent.NoProcess?);
    }

    /** End one process: it was signalled, or is gone, or could not be identified. */
    method TerminatePid(pid: Pid, graceful: bool) returns (r: Outcome)
      requires Valid()
      modifies this`identities, this`suspended, os
      ensures Valid() && Evolves(old(os.holders), old(os.born), os.holders, os.born) && identities == old(identities)
      ensures suspended == old(suspended) || suspended == old(suspended) - {pid}
      ensures r.Returned? ==> r.ok
      ensures OneSignal(old(os.log), os.log, Ending(graceful), pid, TheRecord(), RootKnown())
      ensures !MayOpen(pid, false) ==> os.log == old(os.log)
      ensures r.Returned? && os.refusals == old(os.refusals) && pid in tracked && RootKnown() ==>
        Struck(Ending(graceful), {pid}, TheRecord(), os.log, |old(os.log)|, os.holders, os.born)
      ensures os.refusals >= old(os.refusals) && old(os.asked) <= os.asked
    {
      var access, _ := OpenTracked(pid, false, true);
      if !access.Process? {
        if access.Absent? && pid in tracked && os.refusals == old(os.refusals) && RootKnown() {
          GoneIsRetired(pid);
          StruckGone(Ending(graceful), pid, TheRecord(), os.log, |os.log|, os.holders, os.born);
        }
        return if access.Error? then Raised else Returned(true);
      }
      ghost var log := os.log;
      var sent := SignalPid(Ending(graceful), pid);
      StruckOne(Ending(graceful), pid, TheRecord(), log, os.log[|log|], os.holders, os.born);
      return if sent.Interrupted? then Raised else Returned(true);
    }

    /** Resume every suspended process; whatever could not be resumed stays owed. */
    method ResumeAll() returns (r: Outcome)
      requires Valid()
      modifies this`identities, this`suspended, this`paused, os
      ensures Valid() && Evolves(old(os.holders), old(os.born), os.holders, os.born)
      ensures identities == old(identities) && suspended <= old(suspended)
      ensures r.Returned? ==> (r.ok <==> suspended == {}) && paused == !r.ok
      ensures r == Returned(false) && os.refusals == old(os.refusals) && RootKnown() ==>
        exists p | p in suspended :: Recorded(p).None?
      ensures old(os.log) <= os.log && SentBy(os.log, |old(os.log)|, TheRecord(), RootKnown())
      ensures old(suspended) == {} ==> os.log == old(os.log)
      ensures os.refusals >= old(os.refusals) && old(os.asked) <= os.asked
    {
      hide *;
      Standstill();
      NoneSent(os.log, TheRecord(), RootKnown());
      if suspended == {} {
        paused := false;
        return Returned(true);
      }
      var todo := suspended;
      while todo != {}
        invariant Valid() && Evolves(old(os.holders), old(os.born), os.holders, os.born)
        invariant identities == old(identities) && todo <= suspended <= old(suspended)
        invariant old(os.log) <= os.log && SentBy(os.log, |old(os.log)|, TheRecord(), RootKnown())
        invariant os.refusals >= old(os.refusals) && old(os.asked) <= os.asked
        invariant os.refusals == old(os.refusals) && RootKnown() ==>
          forall p | p in suspended && p !in todo :: Recorded(p).None?
        decreases todo
      {
        SomePid(todo);
        var pid :| pid in todo;
        todo := todo - {pid};
        ghost var h, b, log := os.holders, os.born, os.log;
        var one := ResumePid(pid);
        EvolvesTransitive(old(os.holders), old(os.born), h, b, os.holders, os.born);
        OneIsSentBy(log, os.log, Resume, pid, TheRecord(), RootKnown());
        SentByMore(old(os.log), log, os.log, TheRecord(), RootKnown());
        if one.Raised? {
          return Raised;
        }
        if one.ok {
          Drop(pid);
        }
      }
      paused := suspended != {};
      if suspended == {} {
        return Returned(true);
      }
      SomePid(suspended);
      ghost var p :| p in suspended;
      assert p !in todo;
      return Returned(false);
    }

    method CreatedAt(pid: Pid) returns (found: bool, age: Reading<real>)
      requires Valid()
      modifies os`holders, os`born, os`asked
      ensures Valid() && Evolves(old(os.holders), old(os.born), os.holders, os.born)
      ensures os.asked == old(os.asked) + [Aged(pid, found, age)]
      ensures age.Read? ==> Incarnation(pid, age.value) in os.born
    {
      found, age := os.CreatedAt(pid);
      EvolutionKeepsSafe(old(os.holders), old(os.born), os.holders, os.born, os.stops, suspended, TheRecord());
    }

    /** Another process's creation time on pid, if it is now held by one other than the original. */
    method ReusedSince(pid: Pid, original: Option<real>) returns (holder: Option<real>)
      requires Valid()
      modifies os`holders, os`born, os`asked
      ensures Valid() && Evolves(old(os.holders), old(os.born), os.holders, os.born)
      ensures |os.asked| == |old(os.asked)| + 1 && old(os.asked) <= os.asked
      ensures var a := os.asked[|old(os.asked)|];
        a.Aged? && a.pid == pid && holder == ReuseOf(a, original, os.sameStart)
    {
      var found, age := CreatedAt(pid);
      if !found || !age.Read? || (original.Some? && !Far(age.value, original.value, os.sameStart)) {
        return None;
      }
      return Some(age.value);
    }

    /** Linux only: launched descendants found through the session the launch created. */
    method SessionMembers(links: map<Pid, Pid>) returns (members: set<Pid>, raised: bool)
      requires Valid()
      modifies this`identities, this`suspended, this`sessionId, os`holders, os`born, os`refusals, os`asked
      ensures Valid() && Evolves(old(os.holders), old(os.born), os.holders, os.born)
      ensures suspended <= old(suspended) && old(os.asked) <= os.asked
      ensures !raised ==>
        old(Knows()).Searched(members, links, old(sessionId), sessionId, os.asked[|old(os.asked)|..])
      ensures Kept(old(TheRecord()), TheRecord(), old(TheRecord()).Keys)
      ensures os.refusals >= old(os.refusals)
    {
      members := {};
      if sessionId.None? {
        assert Evolves(os.holders, os.born, os.holders, os.born);
        return members, false;
      }
      var holder := ReusedSince(sessionId.value, rootCreated);
      ghost var first := os.asked[|old(os.asked)|];
      assert os.asked[|old(os.asked)|..][0] == first;
      if holder.Some? {
        sessionId := None;
        return members, false;
      }
      members, raised := JudgeSession(links, sessionId.value, |old(os.asked)|);
    }

    /** Ask every listed process for its session, and open those that name the one searched. */
    method JudgeSession(links: map<Pid, Pid>, session: Pid, ghost since: nat) returns (members: set<Pid>, raised: bool)
      requires Valid() && since < |os.asked| && sessionId == Some(session)
      requires os.asked[since].Aged? && os.asked[since].pid == session
      requires ReuseOf(os.asked[since], rootCreated, os.sameStart).None?
      modifies this`identities, this`suspended, os`holders, os`born, os`refusals, os`asked
      ensures Valid() && Evolves(old(os.holders), old(os.born), os.holders, os.born)
      ensures suspended <= old(suspended) && old(os.asked) <= os.asked
      ensures !raised ==>
        old(Knows()).Searched(members, links, Some(session), Some(session), os.asked[since..])
      ensures Kept(old(TheRecord()), TheRecord(), old(TheRecord()).Keys)
      ensures os.refusals >= old(os.refusals)
    {
      hide Valid, Evolves, AllBelong, Knowledge.Belongs, Knowledge.Searched, ReuseOf, Kept, Record;
      members := {};
      ghost var k := Knows();
      var todo := links.Keys;
      ghost var done: set<Pid> := {};
      NoneBelong(k, session, os.asked[since..]);
      KeptSelf(TheRecord());
      Standstill();
      while todo != {}
        invariant Valid() && Evolves(old(os.holders), old(os.born), os.holders, os.born)
        invariant done == links.Keys - todo && todo <= links.Keys && suspended <= old(suspended)
        invariant old(os.asked) <= os.asked && os.refusals >= old(os.refusals)
        invariant AllBelong(k, done, members, session, os.asked[since..])
        invariant forall p | p in todo :: Lookup(identities, p) == Lookup(old(identities), p)
        invariant Kept(old(TheRecord()), TheRecord(), old(TheRecord()).Keys)
        decreases todo
      {
        SomePid(todo);
        var pid :| pid in todo;
        todo := todo - {pid};
        ghost var asked, was, h, b, judge, record := os.asked, members, os.holders, os.born, Knows(), TheRecord();
        var member;
        member, raised := JudgeMember(pid, session, since);
        EvolvesTransitive(old(os.holders), old(os.born), h, b, os.holders, os.born);
        KeptLater(old(TheRecord()), record, TheRecord());
        if raised {
          return;
        }
        BelongsAlike(judge, k, pid, member, session, os.asked[since..]);
        AllBelongOn(k, done, was, session, asked[since..], os.asked[since..], pid, member);
        done := done + {pid};
        if member {
          members := members + {pid};
        }
      }
      SessionSearched(k, done, members, links, session, os.asked, since);
      raised := false;
    }

    /** Ask one process for its session; it is a member if it opens and was not born before the launch. */
    method JudgeMember(pid: Pid, session: Pid, ghost since: nat) returns (member: bool, raised: bool)
      requires Valid() && since < |os.asked|
      modifies this`identities, this`suspended, os`holders, os`born, os`refusals, os`asked
      ensures Valid() && Evolves(old(os.holders), old(os.born), os.holders, os.born)
      ensures suspended <= old(suspended) && old(os.asked) <= os.asked
      ensures !raised ==> old(Knows()).Belongs(pid, member, session, os.asked[since..])
      ensures forall p | p != pid :: Lookup(identities, p) == Lookup(old(identities), p)
      ensures Kept(old(TheRecord()), TheRecord(), old(TheRecord()).Keys)
      ensures os.refusals >= old(os.refusals)
    {
      ghost var asked := os.asked;
      var group := os.SessionOf(pid);
      assert os.asked[|asked|] in os.asked[since..];
      if group != Read(session) {
        assert Evolves(os.holders, os.born, os.holders, os.born);
        return false, false;
      }
      var access, seen := OpenTracked(pid, true, false);
      assert os.asked[|asked|] == Grouped(pid, group);
      assert os.asked[|asked|] in os.asked[since..];
      assert os.asked[|asked| + 1] == Sighted(pid, seen);
      assert os.asked[|asked| + 1] in os.asked[since..];
      raised := access.Error?;
      member := access.Process? && !(rootCreated.Some? && pid in identities &&
                                     identities[pid] < rootCreated.value - os.sameStart);
    }

    /** Judge one child of a walked parent; the walk notes the trial and gains the child if it joined. */
    method Consider(child: Pid, parent: Pid, gone: Option<Departed>, parentCreated: Option<real>,
                    holder: Option<real>, ghost walk: Walk)
      returns (joined: bool, ghost walked: Walk)
      requires Valid() && suspended <= walk.Members() && child !in walk.Members()
      requires walk.Justified(monitor, os.sameStart) && walk.Evident(os.asked, identities, os.sameStart)
      requires child in ChildrenOf(walk.links, parent)
      requires departed == walk.Waiting() && gone == Lookup(departed, parent)
      requires gone.None? ==> parent in walk.Members()
      requires parentCreated == if gone.Some? then gone.value.created else Lookup(identities, parent)
      requires HolderHeard(parent, gone, holder, os.asked[walk.since..], os.sameStart)
      modifies this`identities, this`departed, os`holders, os`born, os`asked
      ensures Valid() && Advances(old(ThisMoment()), ThisMoment(), walk.Members())
      ensures Longer(walk, walked) && walked.Justified(monitor, os.sameStart)
      ensures walked.Evident(os.asked, identities, os.sameStart) && walked.Settled(child, monitor, os.sameStart)
      ensures walked.Members() == if joined then walk.Members() + {child} else walk.Members()
      ensures departed == walked.Waiting() == if joined then old(departed) - {child} else old(departed)
    {
      hide Valid, Evolves, HolderHeard, Same, Kept, Record, Trial.Heard, Trial.Joins, Walk.Justified, Walk.Evident, Walk.Members, Walk.Waiting;
      var found, age := CreatedAt(child);
      var previous := if child in departed then Some(departed[child]) else None;
      var t := Trial(child, parent, found, age, parentCreated, gone, holder, previous);
      AskedNow(walk, t, old(os.asked), os.asked, identities, os.sameStart);
      joined, walked := Decide(t, walk);
    }

    /** The child joins if every check says so. */
    method Decide(t: Trial, ghost walk: Walk) returns (joined: bool, ghost walked: Walk)
      requires Valid() && suspended <= walk.Members() && t.pid !in walk.Members()
      requires walk.Justified(monitor, os.sameStart) && walk.Evident(os.asked, identities, os.sameStart)
      requires walk.Grounded(t, os.asked, identities, os.sameStart)
      requires t.Created().Some? ==> Incarnation(t.pid, t.Created().value) in os.born
      requires t.pid in walk.links && walk.links[t.pid] == t.parent && t.pid != t.parent
      requires departed == walk.Waiting() && t.gone == Lookup(departed, t.parent)
      requires (t.gone.None? ==> t.parent in walk.Members()) && t.previous == Lookup(walk.departed, t.pid)
      modifies this`identities, this`departed
      ensures Valid() && Longer(walk, walked) && walked.Justified(monitor, os.sameStart)
      ensures walked.Evident(os.asked, identities, os.sameStart) && walked.Settled(t.pid, monitor, os.sameStart)
      ensures walked.Members() == if joined then walk.Members() + {t.pid} else walk.Members()
      ensures departed == walked.Waiting() == if joined then old(departed) - {t.pid} else old(departed)
      ensures Same(old(identities), identities, walk.Members())
      ensures Kept(old(TheRecord()), TheRecord(), walk.Members())
    {
      hide Valid, Walk.Justified, Walk.Evident, Walk.Members, Walk.Waiting, Walk.Settled, Walk.Grounded, Trial.Joins, Record, Same, Kept;
      joined := t.Joins(monitor, os.sameStart);
      if joined {
        ghost var before, record := identities, TheRecord();
        assert t.pid !in suspended;
        Admit(t.pid, t.Created());
        AdmittedLeaves(before, identities, record, TheRecord(), t, walk.Members());
        Adopted(walk, t, os.asked, before, identities, monitor, os.sameStart);
        walked := walk.(adopted := walk.adopted + [t]);
      } else {
        Unchanged(identities, TheRecord(), walk.Members());
        NotAdopted(walk, t, os.asked, identities, monitor, os.sameStart);
        walked := walk.(refused := walk.refused + [t]);
      }
    }

    /** A new process on this PID joins: it is no departed member, and its readable identity is recorded. */
    method Admit(pid: Pid, created: Option<real>)
      requires Valid() && pid !in suspended
      requires created.Some? ==> Incarnation(pid, created.value) in os.born
      modifies this`identities, this`departed
      ensures Valid() && departed == old(departed) - {pid}
      ensures identities == if created.Some? then old(identities)[pid := created.value] else old(identities)
      ensures TheRecord() == if created.Some? then old(TheRecord())[pid := created.value] else old(TheRecord())
    {
      departed := departed - {pid};
      if created.Some? {
        LearningKeepsSafe(os.holders, os.born, os.stops, suspended, identities, rootPid, rootCreated, pid, created.value);
        identities := identities[pid := created.value];
      }
    }

    /** Judge one more child: those settled before it stay settled. */
    method TryChild(child: Pid, parent: Pid, gone: Option<Departed>, parentCreated: Option<real>,
                    holder: Option<real>, ghost members: set<Pid>, ghost grown: set<Pid>, ghost first: Moment,
                    ghost waiting: map<Pid, Departed>, ghost settled: set<Pid>, ghost walk: Walk)
      returns (joined: bool, ghost walked: Walk)
      requires Valid() && Advances(first, ThisMoment(), members)
      requires suspended <= members <= grown == walk.Members() && child !in grown
      requires walk.Justified(monitor, os.sameStart) && walk.Evident(os.asked, identities, os.sameStart)
      requires child in ChildrenOf(walk.links, parent) && settled <= ChildrenOf(walk.links, parent)
      requires forall c | c in settled :: walk.Settled(c, monitor, os.sameStart)
      requires departed == walk.Waiting() == Left(waiting, members, grown) && gone == Lookup(departed, parent)
      requires gone.None? ==> parent in members
      requires parentCreated == if gone.Some? then gone.value.created else Lookup(identities, parent)
      requires HolderHeard(parent, gone, holder, os.asked[walk.since..], os.sameStart)
      modifies this`identities, this`departed, os`holders, os`born, os`asked
      ensures Valid() && Advances(first, ThisMoment(), members)
      ensures Longer(walk, walked) && walked.Justified(monitor, os.sameStart)
      ensures walked.Evident(os.asked, identities, os.sameStart)
      ensures forall c | c in settled + {child} :: walked.Settled(c, monitor, os.sameStart)
      ensures walked.Members() == if joined then grown + {child} else grown
      ensures departed == walked.Waiting() == Left(waiting, members, walked.Members())
      ensures gone == Lookup(departed, parent)
    {
      hide Valid, Evolves, Record, Advances, Walk.Justified, Walk.Settled, Walk.Evident, HolderHeard, Walk.Members,
        Walk.Waiting, Left, ChildrenOf;
      ghost var before := ThisMoment();
      ChildIsNot(walk, child, parent);
      LeftOne(waiting, members, grown, child, parent);
      joined, walked := Consider(child, parent, gone, parentCreated, holder, walk);
      AdvancesTransitive(first, before, ThisMoment(), members, grown);
      SettledOn(walk, walked, settled, parent, monitor, os.sameStart);
    }

    /** Judge every child of one walked parent. */
    method AdoptChildren(parent: Pid, children: set<Pid>, gone: Option<Departed>, parentCreated: Option<real>,
                         holder: Option<real>, members: set<Pid>, ghost walk: Walk)
      returns (grown: set<Pid>, added: seq<Pid>, ghost walked: Walk)
      requires Valid() && suspended <= members == walk.Members()
      requires walk.Justified(monitor, os.sameStart) && walk.Evident(os.asked, identities, os.sameStart)
      requires children == ChildrenOf(walk.links, parent)
      requires departed == walk.Waiting() && gone == Lookup(departed, parent)
      requires gone.None? ==> parent in members
      requires parentCreated == if gone.Some? then gone.value.created else Lookup(identities, parent)
      requires children != {} ==> HolderHeard(parent, gone, holder, os.asked[walk.since..], os.sameStart)
      modifies this`identities, this`departed, os`holders, os`born, os`asked
      ensures Valid() && Advances(old(ThisMoment()), ThisMoment(), members)
      ensures Longer(walk, walked) && walked.Justified(monitor, os.sameStart)
      ensures walked.Evident(os.asked, identities, os.sameStart) && walked.Tried(parent, monitor, os.sameStart)
      ensures grown == walked.Members() && members <= grown <= members + children
      ensures forall p :: p in added <==> p in grown && p !in members
      ensures departed == walked.Waiting() == Left(old(departed), members, grown)
    {
      grown, added, walked := members, [], walk;
      var todo := children;
      ghost var first, asked, done: set<Pid> := ThisMoment(), os.asked, {};
      assert walk.since <= |os.asked|;
      AdvancesSelf(first, members);
      hide Valid, Evolves, Record, Advances, Walk.Justified, Walk.Settled, Walk.Evident, HolderHeard, Walk.Members,
        Walk.Waiting, Left, ChildrenOf, Longer;
      LeftNone(departed, members);
      LongerSelf(walk);
      while todo != {}
        invariant todo <= children && done <= children <= done + todo
        invariant Valid() && Advances(first, ThisMoment(), members)
        invariant Longer(walk, walked) && walked.Justified(monitor, os.sameStart)
        invariant walked.Evident(os.asked, identities, os.sameStart)
        invariant forall c | c in done :: walked.Settled(c, monitor, os.sameStart)
        invariant grown == walked.Members() && members <= grown <= members + children
        invariant forall p :: p in added <==> p in grown && p !in members
        invariant departed == walked.Waiting() == Left(old(departed), members, grown)
        invariant gone == Lookup(departed, parent)
        decreases todo
      {
        SomePid(todo);
        var child :| child in todo;
        todo := todo - {child};
        if child in grown {
          MemberSettled(walked, child, monitor, os.sameStart);
        } else {
          AdvancesMeans(first, ThisMoment(), members);
          HolderHeardLater(parent, gone, holder, asked, os.asked, walk.since, os.sameStart);
          var joined;
          LongerMeans(walk, walked);
          ghost var was := walked;
          joined, walked := TryChild(child, parent, gone, parentCreated, holder, members, grown, first, old(departed),
                                     done, walked);
          LongerTransitive(walk, was, walked);
          if joined {
            grown, added := grown + {child}, added + [child];
          }
        }
        done := done + {child};
      }
      LongerMeans(walk, walked);
      TriedNow(walked, parent, children, monitor, os.sameStart);
    }

    /** Walk one parent: find its children in the snapshot and judge them. */
    method WalkOne(parent: Pid, members: set<Pid>, ghost walk: Walk, links: map<Pid, Pid>)
      returns (grown: set<Pid>, added: seq<Pid>, ghost walked: Walk)
      requires Valid() && suspended <= members == walk.Members() && walk.links == links
      requires walk.Justified(monitor, os.sameStart) && walk.Evident(os.asked, identities, os.sameStart)
      requires departed == walk.Waiting()
      requires parent in members || parent in departed
      modifies this`identities, this`departed, os`holders, os`born, os`asked
      ensures Valid() && Advances(old(ThisMoment()), ThisMoment(), members)
      ensures Longer(walk, walked) && walked.Justified(monitor, os.sameStart)
      ensures walked.Evident(os.asked, identities, os.sameStart) && walked.Tried(parent, monitor, os.sameStart)
      ensures grown == walked.Members() && members <= grown <= members + links.Keys
      ensures forall p :: p in added <==> p in grown && p !in members && p != parent
      ensures parent in grown <==> parent in members
      ensures departed == walked.Waiting() == Left(old(departed), members, grown)
    {
      var gone := if parent in departed then Some(departed[parent]) else None;
      var parentCreated := if gone.Some? then gone.value.created
                           else if parent in identities then Some(identities[parent]) else None;
      var children := ChildrenOf(links, parent);
      var holder := None;
      ghost var first := ThisMoment();
      AdvancesSelf(first, members);
      if gone.Some? && children != {} {
        holder := ReusedSince(parent, gone.value.created);
        HolderHeardNow(parent, gone.value, holder, old(os.asked), os.asked, walk.since, os.sameStart);
        EvidentLater(walk, old(os.asked), os.asked, identities, identities, os.sameStart);
      }
      ghost var before := ThisMoment();
      assert Advances(first, before, members);
      hide Valid, Evolves, Advances, Record, Walk.Justified, Walk.Tried, Walk.Evident, Walk.Members, Walk.Waiting;
      grown, added, walked := AdoptChildren(parent, children, gone, parentCreated, holder, members, walk);
      AdvancesTransitive(first, before, ThisMoment(), members, members);
    }

    /** Walk until no parent is left, cyclic links included. */
    method WalkOn(first: seq<Pid>, start: set<Pid>, links: map<Pid, Pid>, ghost begun: Walk)
      returns (members: set<Pid>, ghost walk: Walk)
      requires Valid() && suspended <= start == begun.Members() && begun.since <= |os.asked|
      requires begun.links == links && begun.departed == departed && begun.adopted == [] && begun.refused == []
      requires forall p :: p in first <==> p in start || p in departed
      modifies this`identities, this`departed, os`holders, os`born, os`asked
      ensures Valid() && Advances(old(ThisMoment()), ThisMoment(), start)
      ensures Longer(begun, walk) && walk.Justified(monitor, os.sameStart)
      ensures walk.Evident(os.asked, identities, os.sameStart) && walk.Thorough(monitor, os.sameStart)
      ensures start <= members == walk.Members() && departed == walk.Waiting()
    {
      hide *;
      var queue := first;
      members, walk := start, begun;
      NothingYet(begun, queue, monitor, os.asked, identities, os.sameStart);
      ghost var first := ThisMoment();
      AdvancesNone(start);
      LongerSelf(begun);
      while |queue| > 0
        invariant Valid() && Advances(first, ThisMoment(), start)
        invariant Longer(begun, walk) && walk.Justified(monitor, os.sameStart)
        invariant walk.Evident(os.asked, identities, os.sameStart)
        invariant start <= members == walk.Members() && departed == walk.Waiting() && suspended <= members
        invariant forall p | p in queue :: p in members || p in departed
        invariant AllTried(walk, queue, monitor, os.sameStart)
        decreases links.Keys - members, |queue|
      {
        ghost var stage, was, waiting, waitingMap := ThisMoment(), walk, queue, departed;
        var parent, rest, before := queue[0], queue[1..], members;
        var added;
        LongerMeans(begun, walk);
        assert waiting[0] == parent && waiting[1..] == rest;
        members, added, walk := WalkOne(parent, before, walk, links);
        AdvancesTransitive(first, stage, ThisMoment(), start, before);
        LongerTransitive(begun, was, walk);
        LeftSame(waitingMap, before, members, added);
        QueueStays(rest, added, before, members, departed.Keys, links.Keys);
        queue := rest + added;
        TriedOn(was, walk, waiting, queue, added, monitor, os.sameStart);
      }
      assert queue == [];
      AllTriedIsThorough(walk, monitor, os.sameStart);
    }

    /** One snapshot of every process and its parent, whatever becomes of it. */
    method ParentPids() returns (links: map<Pid, Pid>)
      requires Valid()
      modifies os`asked
      ensures Valid() && os.asked == old(os.asked) + [Listed(links)]
      ensures Evolves(os.holders, os.born, os.holders, os.born)
    {
      links := os.List();
    }

    method TimeNow() returns (now: real)
      requires Valid()
      modifies os`asked
      ensures Valid() && os.asked == old(os.asked) + [Clock(now)]
      ensures Evolves(os.holders, os.born, os.holders, os.born)
    {
      now := os.Time();
    }

    /**
     Find the tree in one snapshot of parent links, starting from whoever is
     alive, from the session, and from those that departed a short while ago.
     */
    method WalkTree(alive: set<Pid>, now: real)
      returns (members: set<Pid>, raised: bool, ghost walk: Walk)
      requires Valid() && suspended <= alive
      modifies this`identities, this`suspended, this`sessionId, this`departed
      modifies os`holders, os`born, os`refusals, os`asked
      ensures Valid() && Evolves(old(os.holders), old(os.born), os.holders, os.born) && old(os.asked) <= os.asked
      ensures suspended <= old(suspended)
      ensures !raised ==> walk.Justified(monitor, os.sameStart) && walk.Thorough(monitor, os.sameStart)
      ensures !raised ==> walk.Evident(os.asked, identities, os.sameStart)
      ensures !raised ==>
        old(Knows()).Searched(walk.session, walk.links, old(sessionId), sessionId, os.asked[walk.since..])
      ensures !raised ==> alive <= members == walk.Members() && departed == walk.Waiting()
      ensures !raised ==> walk.alive == alive && walk.departed == old(departed) && walk.at == now
      ensures !raised ==>
        walk.since == |old(os.asked)| < |os.asked| && os.asked[walk.since] == Listed(walk.links)
      ensures Kept(old(TheRecord()), TheRecord(), alive)
      ensures raised ==> Kept(old(TheRecord()), TheRecord(), old(TheRecord()).Keys) && departed == old(departed)
      ensures os.refusals >= old(os.refusals)
    {
      hide Valid, Evolves, Advances, Record, Knowledge.Searched, Walk.Justified, Walk.Thorough, Walk.Evident,
        Walk.Members, Walk.Waiting;
      ghost var k, before, since := Knows(), sessionId, |os.asked|;
      var links := ParentPids();
      var session;
      session, raised := SessionMembers(links);
      members := alive;
      walk := Walk(now, since, alive, session, departed, links, [], []);
      if raised {
        return;
      }
      SearchedSince(k, session, links, before, sessionId, os.asked, since + 1, os.asked, since);
      var roots := set p | p in session && p in links && links[p] !in session;
      SeedsOnly(walk);
      // The departed go first: once a PID is met again, it stands for another.
      var gonePids := Enumerate(departed.Keys);
      var living := Enumerate(alive + roots);
      ghost var moment := ThisMoment();
      members, walk := WalkOn(gonePids + living, alive + roots, links, walk);
      AdvancesMeans(moment, ThisMoment(), alive + roots);
      EvolvesTransitive(old(os.holders), old(os.born), moment.holders, moment.born, os.holders, os.born);
      KeptTransitive(old(TheRecord()), moment.record, TheRecord(), alive, alive + roots);
      SearchedSince(k, session, links, before, sessionId, moment.asked, since, os.asked, since);
    }

    /** Whether one tracked PID still holds its recorded process. */
    method Look(pid: Pid, ghost since: nat) returns (lives: bool, raised: bool)
      requires Valid() && pid in tracked && since <= |os.asked|
      modifies this`identities, this`suspended, os`holders, os`born, os`refusals, os`asked
      ensures Valid() && Evolves(old(os.holders), old(os.born), os.holders, os.born) && old(os.asked) <= os.asked
      ensures identities == old(identities)
      ensures suspended == old(suspended) || suspended == old(suspended) - {pid}
      ensures !raised ==> Knows().Found(pid, lives, os.asked[since..])
      ensures !raised && !lives ==>
        pid !in suspended && (pid in TheRecord() ==> Retired(pid, TheRecord()[pid], os.holders, os.born))
      ensures os.refusals >= old(os.refusals)
    {
      hide Valid, Evolves, Judge, Record;
      var access, seen := OpenTracked(pid, false, false);
      FoundNow(Knows(), pid, seen, RootKnown(), false, old(os.asked), since);
      if access.Absent? {
        GoneIsRetired(pid);
      }
      return access.Process?, access.Error?;
    }

    /** Look at one more tracked PID; note its process as departed if it is gone. */
    method SortOne(pid: Pid, alive: set<Pid>, now: real, ghost done: set<Pid>, ghost since: nat, ghost noted: map<Pid, Departed>)
      returns (living: set<Pid>, raised: bool)
      requires Valid() && pid in tracked && pid !in done && done <= tracked && since <= |os.asked|
      requires Sorted(Knows(), done, alive, noted, departed, os.asked, since, TheRecord(), os.holders, os.born, now)
      requires suspended <= alive + (tracked - done)
      modifies this`identities, this`suspended, this`departed, os`holders, os`born, os`refusals, os`asked
      ensures Valid() && Evolves(old(os.holders), old(os.born), os.holders, os.born) && old(os.asked) <= os.asked
      ensures identities == old(identities) && suspended <= old(suspended) && os.refusals >= old(os.refusals)
      ensures !raised ==>
        && Sorted(Knows(), done + {pid}, living, noted, departed, os.asked, since, TheRecord(), os.holders, os.born, now)
        && suspended <= living + (tracked - (done + {pid}))
    {
      hide Evolves, Sorted, Valid, Record, RetiredAll, Noted, Knowledge.Found;
      ghost var k := Knows();
      var lives;
      lives, raised := Look(pid, since);
      if raised {
        return alive, true;
      }
      SortedOn(k, done, alive, noted, departed, old(os.asked), os.asked, since, TheRecord(), old(os.holders),
               old(os.born), os.holders, os.born, now, pid, lives);
      departed := if lives || pid in departed then departed else departed[pid := Departed(Recorded(pid), now)];
      living := if lives then alive + {pid} else alive;
    }

    /** The tracked PIDs whose recorded process is still there; the rest are noted as departed. */
    method SortOut(now: real, ghost since: nat) returns (alive: set<Pid>, raised: bool)
      requires Valid() && since <= |os.asked|
      modifies this`identities, this`suspended, this`departed, os`holders, os`born, os`refusals, os`asked
      ensures Valid() && Evolves(old(os.holders), old(os.born), os.holders, os.born) && old(os.asked) <= os.asked
      ensures identities == old(identities) && suspended <= old(suspended)
      ensures !raised ==> suspended <= alive <= tracked
      ensures !raised ==> forall p | p in tracked :: Knows().Found(p, p in alive, os.asked[since..])
      ensures !raised ==> RetiredAll(tracked - alive, TheRecord(), os.holders, os.born)
      ensures !raised ==> departed == Noted(old(departed), tracked - alive, Knows(), now)
      ensures os.refusals >= old(os.refusals)
    {
      hide Valid, Evolves, Sorted, Record, RetiredAll, Noted, Knowledge.Found;
      alive := {};
      var todo := tracked;
      ghost var done: set<Pid>, noted := {}, departed;
      Standstill();
      SuspendedTracked();
      SortedNone(Knows(), departed, os.asked, since, TheRecord(), os.holders, os.born, now);
      raised := false;
      while todo != {}
        invariant Valid() && Evolves(old(os.holders), old(os.born), os.holders, os.born) && old(os.asked) <= os.asked
        invariant identities == old(identities) && suspended <= old(suspended) && os.refusals >= old(os.refusals)
        invariant done == tracked - todo && todo <= tracked && suspended <= alive + (tracked - done)
        invariant Sorted(Knows(), done, alive, noted, departed, os.asked, since, TheRecord(), os.holders, os.born, now)
        decreases todo
      {
        SomePid(todo);
        var pid :| pid in todo;
        ghost var h, b := os.holders, os.born;
        alive, raised := SortOne(pid, alive, now, done, since, noted);
        EvolvesTransitive(old(os.holders), old(os.born), h, b, os.holders, os.born);
        if raised {
          return;
        }
        todo, done := todo - {pid}, done + {pid};
      }
      assert done == tracked;
      SortedAll(Knows(), done, alive, noted, departed, os.asked, since, TheRecord(), os.holders, os.born, now);
    }

    /** Bring the tracked tree up to date. Only this retires an incarnation and puts another on record. */
    method Refresh() returns (raised: bool, ghost walk: Walk)
      requires Valid()
      modifies this`tracked, this`identities, this`suspended, this`departed, this`sessionId
      modifies os`holders, os`born, os`refusals, os`asked
      ensures Valid() && Evolves(old(os.holders), old(os.born), os.holders, os.born) && old(os.asked) <= os.asked
      ensures suspended <= old(suspended)
      ensures !raised && rootPid.Some? ==>
        && tracked == walk.Members() && departed == walk.Waiting()
        && Refreshed(walk, old(Knows()), old(tracked), old(departed), old(sessionId), sessionId, |old(os.asked)|,
                     os.asked, identities, monitor)
      ensures Accounted(old(TheRecord()), old(tracked), TheRecord(), tracked, os.holders, os.born)
      ensures raised || rootPid.None? ==> tracked == old(tracked)
      ensures rootPid.None? ==> !raised && suspended == old(suspended) && departed == old(departed)
      ensures os.refusals >= old(os.refusals)
    {
      hide Valid, Evolves, Retired, Accounted, Refreshed, Record, Noted, Walk.Evident, Walk.Justified, Walk.Thorough,
        Walk.Members, Walk.Waiting, Knowledge.Searched, Knowledge.Found, Same, Recents, RetiredAll, Kept;
      raised, walk := false, Walk(0.0, 0, {}, {}, map[], map[], [], []);
      Standstill();
      Untouched();
      if rootPid.None? {
        return;
      }
      ghost var k, before, from := Knows(), tracked, |os.asked|;
      var now := TimeNow();
      var alive;
      alive, raised := SortOut(now, from);
      if raised {
        Untouched();
        return;
      }
      departed := Recents(departed, now);
      ghost var h, b, record, asked := os.holders, os.born, TheRecord(), os.asked;
      raised, walk := Regrow(alive, now);
      EvolvesTransitive(old(os.holders), old(os.born), h, b, os.holders, os.born);
      if raised {
        AllAccounted(record, tracked, TheRecord(), tracked, os.holders, os.born);
        return;
      }
      AccountedSorted(record, before, alive, h, b, TheRecord(), tracked, os.holders, os.born);
      assert os.asked[from..walk.since] == asked[from..];
      IsRefreshed(walk, k, before, old(departed), old(sessionId), sessionId, from, os.asked, identities, monitor);
    }

    /** Walk from whoever is alive, and keep whom the walk found. */
    method Regrow(alive: set<Pid>, now: real) returns (raised: bool, ghost walk: Walk)
      requires Valid() && rootPid.Some? && suspended <= alive
      modifies this`tracked, this`identities, this`suspended, this`departed, this`sessionId
      modifies os`holders, os`born, os`refusals, os`asked
      ensures Valid() && Evolves(old(os.holders), old(os.born), os.holders, os.born) && old(os.asked) <= os.asked
      ensures suspended <= old(suspended) && os.refusals >= old(os.refusals)
      ensures raised ==> tracked == old(tracked) && Kept(old(TheRecord()), TheRecord(), old(TheRecord()).Keys)
      ensures !raised ==> tracked == walk.Members() && departed == walk.Waiting()
      ensures !raised ==> alive <= tracked && Kept(old(TheRecord()), TheRecord(), alive)
      ensures !raised ==> walk.alive == alive && walk.departed == old(departed) && walk.at == now
      ensures !raised ==>
        walk.since == |old(os.asked)| < |os.asked| && os.asked[walk.since] == Listed(walk.links)
      ensures !raised ==> walk.Justified(monitor, os.sameStart) && walk.Thorough(monitor, os.sameStart)
      ensures !raised ==> walk.Evident(os.asked, identities, os.sameStart)
      ensures !raised ==>
        old(Knows()).Searched(walk.session, walk.links, old(sessionId), sessionId, os.asked[walk.since..])
    {
      hide Valid, Evolves, Record, Walk.Evident, Walk.Justified, Walk.Thorough, Walk.Members, Walk.Waiting,
        Knowledge.Searched, Same;
      var members;
      members, raised, walk := WalkTree(alive, now);
      if raised {
        return;
      }
      ghost var ids, full := identities, TheRecord();
      Retain(members);
      EvidentLater(walk, os.asked, os.asked, ids, identities, os.sameStart);
      KeptTransitive(old(TheRecord()), full, TheRecord(), alive, members);
    }

    /** The walk's members are the tree now; what was known of others is dropped. */
    method Retain(members: set<Pid>)
      requires Valid() && suspended <= members && rootPid.Some?
      modifies this`tracked, this`suspended, this`identities
      ensures Valid() && tracked == members && suspended == old(suspended)
      ensures Same(old(identities), identities, members) && identities.Keys <= members
      ensures Kept(old(TheRecord()), TheRecord(), members)
    {
      ForgettingKeepsSafe(os.holders, os.born, os.stops, suspended, identities, rootPid, rootCreated, members);
      tracked := members;
      suspended := suspended * members;
      identities := map p | p in identities && p in members :: identities[p];
    }

    lemma AdvancesNone(members: set<Pid>)
      requires Valid()
      ensures Advances(ThisMoment(), ThisMoment(), members)
    {
      AdvancesSelf(ThisMoment(), members);
    }

    lemma Standstill()
      requires Valid()
      ensures Evolves(os.holders, os.born, os.holders, os.born)
    {
    }

    lemma GoneIsRetired(pid: Pid)
      requires Valid() && (Recorded(pid).Some? ==> os.Holder(pid) != Recorded(pid))
      ensures pid in TheRecord() ==> Retired(pid, TheRecord()[pid], os.holders, os.born)
    {
    }

    /** Those of the given PIDs that still open as their recorded process. */
    method Living(pids: set<Pid>) returns (living: set<Pid>, raised: bool)
      requires Valid()
      modifies this`identities, this`suspended, os`holders, os`born, os`refusals, os`asked
      ensures Valid() && Evolves(old(os.holders), old(os.born), os.holders, os.born)
      ensures identities == old(identities) && suspended <= old(suspended)
      ensures living <= pids && (!raised ==> forall p | p in suspended && p in pids :: p in living)
      ensures !raised ==> forall p | p in pids && p in tracked && p !in living && p in TheRecord() ::
        Retired(p, TheRecord()[p], os.holders, os.born)
      ensures os.refusals >= old(os.refusals) && old(os.asked) <= os.asked
    {
      living := {};
      var todo := pids;
      assert Evolves(os.holders, os.born, os.holders, os.born) by { Standstill(); }
      hide Evolves, Retired, Safe, Valid;
      assert suspended <= tracked by { SuspendedTracked(); }
      while todo != {}
        invariant Valid() && Evolves(old(os.holders), old(os.born), os.holders, os.born)
        invariant identities == old(identities) && suspended <= old(suspended) && suspended <= tracked
        invariant todo <= pids && living <= pids && os.refusals >= old(os.refusals) && old(os.asked) <= os.asked
        invariant forall p | p in suspended && p in pids :: p in living || p in todo
        invariant forall p | p in (pids * tracked) - todo - living && p in TheRecord() ::
          Retired(p, TheRecord()[p], os.holders, os.born)
        decreases todo
      {
        SomePid(todo);
        var pid :| pid in todo;
        ghost var h, b, gone := os.holders, os.born, (pids * tracked) - todo - living;
        var access, _ := OpenTracked(pid, false, false);
        EvolvesTransitive(old(os.holders), old(os.born), h, b, os.holders, os.born);
        AllRetiredStay(gone, TheRecord(), h, b, os.holders, os.born);
        if access.Error? {
          return living, true;
        }
        todo := todo - {pid};
        if access.Process? {
          living := living + {pid};
        } else if pid in tracked {
          GoneIsRetired(pid);
        }
      }
      return living, false;
    }

    lemma Rooted()
      requires Valid() && (launched || tracked != {})
      ensures rootPid.Some?
    {
    }

    lemma SuspendedTracked()
      requires Valid()
      ensures suspended <= tracked
    {
    }

    /** End these, one by one: who is tracked and on record was signalled, or is gone. */
    method TerminateAll(pids: set<Pid>, graceful: bool) returns (raised: bool)
      requires Valid()
      modifies this`identities, this`suspended, os
      ensures Valid() && Evolves(old(os.holders), old(os.born), os.holders, os.born)
      ensures identities == old(identities) && suspended <= old(suspended)
      ensures old(os.log) <= os.log && SentBy(os.log, |old(os.log)|, TheRecord(), RootKnown())
      ensures rootPid.None? && tracked == {} ==> os.log == old(os.log)
      ensures !raised && os.refusals == old(os.refusals) && RootKnown() ==>
        Struck(Ending(graceful), pids * tracked, TheRecord(), os.log, |old(os.log)|, os.holders, os.born)
      ensures os.refusals >= old(os.refusals) && old(os.asked) <= os.asked
    {
      hide Valid, Evolves, Retired, Safe, OneSignal, SentBy, Struck, Record, Faithful;
      var todo := pids;
      Standstill();
      NoneSent(os.log, TheRecord(), RootKnown());
      StruckNone(Ending(graceful), TheRecord(), os.log, |os.log|, os.holders, os.born);
      assert (pids - todo) * tracked == {};
      while todo != {}
        invariant Valid() && Evolves(old(os.holders), old(os.born), os.holders, os.born)
        invariant identities == old(identities) && suspended <= old(suspended) && todo <= pids
        invariant old(os.log) <= os.log && SentBy(os.log, |old(os.log)|, TheRecord(), RootKnown())
        invariant rootPid.None? && tracked == {} ==> os.log == old(os.log)
        invariant os.refusals >= old(os.refusals) && old(os.asked) <= os.asked
        invariant os.refusals == old(os.refusals) && RootKnown() ==>
          Struck(Ending(graceful), (pids - todo) * tracked, TheRecord(), os.log, |old(os.log)|, os.holders, os.born)
        decreases todo
      {
        SomePid(todo);
        var pid :| pid in todo;
        ghost var h, b, log, refusals, done := os.holders, os.born, os.log, os.refusals, (pids - todo) * tracked;
        todo := todo - {pid};
        var one := TerminatePid(pid, graceful);
        EvolvesTransitive(old(os.holders), old(os.born), h, b, os.holders, os.born);
        OneIsSentBy(log, os.log, Ending(graceful), pid, TheRecord(), RootKnown());
        SentByMore(old(os.log), log, os.log, TheRecord(), RootKnown());
        if one.Raised? {
          return true;
        }
        if os.refusals == old(os.refusals) && RootKnown() {
          StruckLater(Ending(graceful), done, TheRecord(), log, |old(os.log)|, h, b, os.log, |old(os.log)|, os.holders, os.born);
          if pid in tracked {
            Standstill();
            StruckLater(Ending(graceful), {pid}, TheRecord(), os.log, |log|, os.holders, os.born, os.log, |old(os.log)|, os.holders, os.born);
            StruckBoth(Ending(graceful), done, {pid}, TheRecord(), os.log, |old(os.log)|, os.holders, os.born);
          }
          assert (pids - todo) * tracked == if pid in tracked then done + {pid} else done;
        }
      }
      assert pids - todo == pids;
      return false;
    }

    /** One poll of a wait: bring the tree up to date, drop who is gone, end helpers that turned up. */
    method PollOnce(waited: set<Pid>, signaled: set<Pid>, killNew: bool) returns (remaining: set<Pid>, raised: bool)
      requires Valid()
      modifies this`tracked, this`identities, this`suspended, this`departed, this`sessionId, os
      ensures Valid() && suspended <= old(suspended) && Follows(old(Now()), Now())
      ensures Accounted(old(TheRecord()), old(tracked), TheRecord(), tracked, os.holders, os.born)
      ensures !raised ==> tracked <= remaining
      ensures os.refusals >= old(os.refusals) && old(os.asked) <= os.asked
    {
      remaining := waited;
      ghost var first := Now();
      ghost var walk;
      raised, walk := Refresh();
      ghost var second := Now();
      RefreshFollows(first, second);
      hide Valid, Evolves, Accounted, Descended, Follows, SentBy, Retired;
      if raised {
        return;
      }
      remaining, raised := Living(remaining);
      QuietFollows(second, Now());
      FollowsTransitive(first, second, Now());
      AccountedLater(first.record, first.tracked, TheRecord(), tracked, second.holders, second.born, os.holders, os.born);
      if raised {
        return;
      }
      remaining := remaining + tracked;
      if killNew {
        ghost var third := Now();
        raised := TerminateAll(remaining - signaled, false);
        SentFollows(third, Now(), RootKnown());
        FollowsTransitive(first, third, Now());
        AccountedLater(first.record, first.tracked, TheRecord(), tracked, third.holders, third.born, os.holders, os.born);
      }
    }

    /**
     Wait for PIDs to go, for as many polls as the deadline allows, discovering
     helpers they start. Whoever was tracked and does not remain is gone.
     */
    method WaitForPids(pids: set<Pid>, killNew: bool) returns (remaining: set<Pid>, raised: bool)
      requires Valid()
      modifies this`tracked, this`identities, this`suspended, this`departed, this`sessionId, os
      ensures Valid() && suspended <= old(suspended) && Follows(old(Now()), Now())
      ensures Accounted(old(TheRecord()), old(tracked), TheRecord(), tracked, os.holders, os.born)
      ensures !raised ==> forall p | p in suspended :: p in remaining
      ensures !raised ==> Accounted(old(TheRecord()), old(tracked), TheRecord(), remaining, os.holders, os.born)
      ensures os.refusals >= old(os.refusals) && old(os.asked) <= os.asked
    {
      remaining, raised := pids, false;
      var signaled := pids;
      var polls: nat := *;
      ghost var first := Now();
      FollowsSelf(first);
      AllAccounted(TheRecord(), tracked, TheRecord(), tracked, os.holders, os.born);
      hide Valid, Evolves, Accounted, Descended, Follows, SentBy, Retired;
      while true
        invariant Valid() && suspended <= old(suspended) && Follows(first, Now())
        invariant Accounted(old(TheRecord()), old(tracked), TheRecord(), tracked, os.holders, os.born)
        invariant os.refusals >= old(os.refusals) && old(os.asked) <= os.asked
        decreases polls
      {
        ghost var before := Now();
        remaining, raised := PollOnce(remaining, signaled, killNew);
        FollowsTransitive(first, before, Now());
        AccountedOn(first, before, Now());
        if raised {
          return;
        }
        signaled := if killNew then signaled + remaining else signaled;
        if remaining == {} || polls == 0 {
          ghost var last := Now();
          assert suspended <= tracked by { SuspendedTracked(); }
          remaining, raised := Living(remaining);
          QuietFollows(last, Now());
          FollowsTransitive(first, last, Now());
          AccountedOn(first, last, Now());
          if !raised {
            AccountedRemaining(first.record, first.tracked, TheRecord(), tracked, remaining, os.holders, os.born);
          }
          return;
        }
        polls := polls - 1;
      }
    }

    method IsRunning() returns (running: bool, raised: bool)
      requires Valid()
      modifies this`identities, this`suspended, os`holders, os`born, os`refusals, os`asked
      ensures Valid() && Evolves(old(os.holders), old(os.born), os.holders, os.born) && old(os.asked) <= os.asked
      ensures identities == old(identities) && suspended <= old(suspended)
      ensures os.refusals >= old(os.refusals)
    {
      assert Evolves(os.holders, os.born, os.holders, os.born) by { Standstill(); }
      if !attached {
        running := *;  // what poll() on the launched child says
        return launched && running, false;
      }
      if rootPid.None? {
        return false, false;
      }
      var access, _ := OpenTracked(rootPid.value, false, false);
      return access.Process?, access.Error?;
    }

    /** Suspend the whole tree, or leave every stopped process owed a resume. */
    method Pause() returns (r: Outcome)
      requires Valid()
      modifies this`tracked, this`identities, this`suspended, this`departed, this`sessionId, this`paused, os
      ensures Valid() && Follows(old(Now()), Now())
      ensures Accounted(old(TheRecord()), old(tracked), TheRecord(), tracked, os.holders, os.born)
      ensures r == Returned(true) ==> forall p | p in tracked ::
        Halted(p, suspended, old(suspended), os.log, |old(os.log)|, os.asked, |old(os.asked)|, os.platform)
      ensures r == Returned(false) && os.refusals == old(os.refusals) && !ContainsMonitor() && RootKnown() ==>
        suspended == {} || exists p | p in suspended :: Recorded(p).None?
    {
      ghost var first := Now();
      var running, raised := IsRunning();
      ghost var second := Now();
      ghost var walk;
      QuietFollows(first, second);
      AllAccounted(first.record, tracked, TheRecord(), tracked, os.holders, os.born);
      hide Evolves, Accounted, Descended, SentBy, Retired, Follows, Halted, Valid, Record, Refreshed;
      if raised {
        return Raised;
      }
      if !running {
        raised, walk := Refresh();
        RefreshFollows(second, Now());
        FollowsTransitive(first, second, Now());
        AccountedOn(first, second, Now());
        if raised {
          return Raised;
        }
        if tracked == {} {
          assert suspended == {} by { SuspendedTracked(); }
          return Returned(false);
        }
      }
      if paused && tracked <= suspended {
        assert forall p | p in tracked ::
          Halted(p, suspended, old(suspended), os.log, |old(os.log)|, os.asked, |old(os.asked)|, os.platform) by {
          HaltedBefore(tracked, suspended, old(suspended), os.log, |old(os.log)|, os.asked, |old(os.asked)|, os.platform);
        }
        return Returned(true);
      }
      if ContainsMonitor() {
        return Returned(false);
      }
      ghost var third, held, log, asked := Now(), suspended, os.log, os.asked;
      r := Freeze();
      FollowsTransitive(first, third, Now());
      AccountedOn(first, third, Now());
      if r == Returned(true) {
        HaltedSince(tracked, suspended, held, old(suspended), os.log, |log|, os.asked, |asked|, |old(os.log)|,
                    |old(os.asked)|, os.platform);
      }
    }

    /** Bring the tree up to date and suspend it. */
    method Freeze() returns (r: Outcome)
      requires Valid()
      modifies this`tracked, this`identities, this`suspended, this`departed, this`sessionId, this`paused, os
      ensures Valid() && Follows(old(Now()), Now()) && os.refusals >= old(os.refusals)
      ensures Accounted(old(TheRecord()), old(tracked), TheRecord(), tracked, os.holders, os.born)
      ensures r == Returned(true) ==> forall p | p in tracked ::
        Halted(p, suspended, old(suspended), os.log, |old(os.log)|, os.asked, |old(os.asked)|, os.platform)
      ensures r == Returned(false) && os.refusals == old(os.refusals) && RootKnown() ==>
        suspended == {} || exists p | p in suspended :: Recorded(p).None?
      ensures old(os.log) <= os.log && old(os.asked) <= os.asked
    {
      hide Evolves, Accounted, Descended, SentBy, Retired, Follows, Halted, Valid, Record, Refreshed;
      ghost var first := Now();
      var raised;
      ghost var walk;
      raised, walk := Refresh();
      ghost var second, held, log, asked := Now(), suspended, os.log, os.asked;
      RefreshFollows(first, second);
      if raised {
        return Raised;
      }
      r := SuspendAll();
      FollowsTransitive(first, second, Now());
      AllAccounted(second.record, tracked, TheRecord(), tracked, os.holders, os.born);
      AccountedOn(first, second, Now());
      if r == Returned(true) {
        HaltedSince(tracked, suspended, held, old(suspended), os.log, |log|, os.asked, |asked|, |old(os.log)|,
                    |old(os.asked)|, os.platform);
      }
    }

    /** Note one process and stop it; it is dropped again when it was not stopped. */
    method HaltOne(pid: Pid) returns (one: Outcome)
      requires Valid() && pid in tracked && pid !in suspended
      modifies this`identities, this`suspended, os
      ensures Valid() && Evolves(old(os.holders), old(os.born), os.holders, os.born) && identities == old(identities)
      ensures suspended == old(suspended) || suspended == old(suspended) + {pid}
      ensures one == Returned(true) ==>
        Halted(pid, suspended, {}, os.log, |old(os.log)|, os.asked, |old(os.asked)|, os.platform)
      ensures one == Returned(false) ==> suspended == old(suspended)
      ensures old(os.log) <= os.log && SentBy(os.log, |old(os.log)|, TheRecord(), RootKnown())
      ensures old(os.asked) <= os.asked && os.refusals >= old(os.refusals)
    {
      NotingKeepsSafe(os.holders, os.born, os.stops, suspended, TheRecord(), pid);
      hide Evolves, SentBy, OneSignal, Halted, Safe, Faithful, Record, Owed;
      // Noted before the stop: whatever interrupts it, a way back stays.
      suspended := suspended + {pid};
      one := SuspendPid(pid);
      OneIsSentBy(old(os.log), os.log, Suspend, pid, TheRecord(), RootKnown());
      if one == Returned(false) {
        Drop(pid);
      }
    }

    method SuspendAll() returns (r: Outcome)
      requires Valid()
      modifies this`identities, this`suspended, this`paused, os
      ensures Valid() && identities == old(identities) && Follows(old(Now()), Now())
      ensures r == Returned(true) ==> paused && forall p | p in tracked ::
        Halted(p, suspended, old(suspended), os.log, |old(os.log)|, os.asked, |old(os.asked)|, os.platform)
      ensures r == Returned(false) && os.refusals == old(os.refusals) && RootKnown() ==>
        suspended == {} || exists p | p in suspended :: Recorded(p).None?
      ensures old(os.log) <= os.log && SentBy(os.log, |old(os.log)|, TheRecord(), RootKnown())
      ensures old(os.asked) <= os.asked && os.refusals >= old(os.refusals)
    {
      var todo := tracked;
      assert Evolves(os.holders, os.born, os.holders, os.born) by { Standstill(); }
      assert SentBy(os.log, |os.log|, TheRecord(), RootKnown());
      hide *;
      while todo != {}
        invariant Valid() && Evolves(old(os.holders), old(os.born), os.holders, os.born)
        invariant identities == old(identities) && todo <= tracked
        invariant old(os.log) <= os.log && SentBy(os.log, |old(os.log)|, TheRecord(), RootKnown())
        invariant old(os.asked) <= os.asked && os.refusals >= old(os.refusals)
        invariant tracked == {} ==> os.log == old(os.log)
        invariant forall p | p in tracked - todo ::
          Halted(p, suspended, old(suspended), os.log, |old(os.log)|, os.asked, |old(os.asked)|, os.platform)
        invariant forall p | p in todo :: p in suspended <==> p in old(suspended)
        decreases todo
      {
        SomePid(todo);
        var pid :| pid in todo;
        todo := todo - {pid};
        if pid in suspended {
          assert Halted(pid, suspended, old(suspended), os.log, |old(os.log)|, os.asked, |old(os.asked)|, os.platform) by {
            HaltedBefore({pid}, suspended, old(suspended), os.log, |old(os.log)|, os.asked, |old(os.asked)|, os.platform);
          }
        } else {
          ghost var h, b, log, asked, held := os.holders, os.born, os.log, os.asked, suspended;
          var one := HaltOne(pid);
          EvolvesTransitive(old(os.holders), old(os.born), h, b, os.holders, os.born);
          SentByMore(old(os.log), log, os.log, TheRecord(), RootKnown());
          if one != Returned(true) {
            ghost var h1, b1, log1 := os.holders, os.born, os.log;
            if one.Raised? {
              SentFollows(old(Now()), Now(), RootKnown());
              return Raised;
            }
            var undo := ResumeAll();
            EvolvesTransitive(old(os.holders), old(os.born), h1, b1, os.holders, os.born);
            SentByMore(old(os.log), log1, os.log, TheRecord(), RootKnown());
            SentFollows(old(Now()), Now(), RootKnown());
            return if undo.Raised? then Raised else Returned(false);
          }
          StillHalted(tracked - todo - {pid}, held, suspended, old(suspended), log, os.log, |old(os.log)|, asked,
                      os.asked, |old(os.asked)|, os.platform);
          HaltedSince({pid}, suspended, {}, old(suspended), os.log, |log|, os.asked, |asked|, |old(os.log)|,
                    |old(os.asked)|, os.platform);
        }
      }
      paused := true;
      SentFollows(old(Now()), Now(), RootKnown());
      return Returned(true);
    }

    /** Release the tree without ending it; refused while anything stopped could not be resumed. */
    method Detach() returns (raised: bool)
      requires Valid()
      modifies this`tracked, this`identities, this`suspended, this`departed, this`sessionId, this`paused
      modifies this`rootPid, this`launched, os
      ensures Valid() && Follows(old(Now()), Now())
      ensures !raised ==> Now().Released() && forall p :: !Owed(p, os.holders, os.stops)
      ensures raised ==> tracked == old(tracked) && rootPid == old(rootPid)
    {
      FollowsSelf(Now());
      if suspended != {} {
        var done := ResumeAll();
        SentFollows(old(Now()), Now(), RootKnown());
        if done != Returned(true) {
          return true;
        }
      }
      launched := false;
      ghost var last := Now();
      hide Follows, Descended, Accounted, SentBy;
      ForgetTree();
      ReleaseFollows(old(Now()), last, Now());
      paused := false;
      return false;
    }

    method ForgetTree()
      requires Valid() && suspended == {} && !launched
      modifies this`tracked, this`identities, this`suspended, this`departed, this`sessionId, this`rootPid
      ensures Valid() && Now().Released() && suspended == {}
      ensures forall p :: !Owed(p, os.holders, os.stops)
    {
      tracked, identities, departed := {}, map[], map[];
      rootPid, sessionId := None, None;
    }

    /** What terminate and kill do with what is left. */
    method Conclude(remaining: set<Pid>)
      requires Valid() && rootPid.Some? && forall p | p in suspended :: p in remaining
      modifies this`tracked, this`identities, this`suspended, this`departed, this`sessionId, this`paused
      modifies this`rootPid, this`launched
      ensures Valid() && tracked == remaining && paused == (suspended != {})
      ensures if remaining == {} then rootPid.None?
              else rootPid == old(rootPid) && TheRecord() == old(TheRecord())
    {
      launched := false;
      suspended := suspended * remaining;
      if remaining != {} {
        tracked := remaining;
      } else {
        ForgetTree();
      }
      paused := suspended != {};
    }

    /**
     Ask the tree to end, then force what remains. Whoever was tracked is tracked
     still, as the same process, or is proved gone; nothing tracked means all gone.
     When nothing is refused, everyone the refresh found who is not gone was asked
     and forced, as were those tracked before it.
     */
    method Terminate() returns (raised: bool, ghost walk: Walk, ghost record: map<Pid, real>)
      requires Valid()
      modifies this`tracked, this`identities, this`suspended, this`departed, this`sessionId, this`paused
      modifies this`rootPid, this`launched, os
      ensures Valid() && Follows(old(Now()), Now())
      ensures Accounted(old(TheRecord()), old(tracked), TheRecord(), tracked, os.holders, os.born)
      ensures old(ContainsMonitor()) ==> !raised && os.log == old(os.log) && tracked == old(tracked)
      ensures !raised && !old(ContainsMonitor()) && (old(launched) || old(tracked) != {}) ==>
        Renewed(walk, record, old(Knows()), old(tracked), old(departed), old(sessionId), |old(os.asked)|, os.asked, monitor)
      ensures !raised && !old(ContainsMonitor()) && os.refusals == old(os.refusals) && old(RootKnown()) ==>
        && Ended(SignalKind.Terminate, old(Now()), Now()) && Ended(SignalKind.Kill, old(Now()), Now())
        && (old(launched) || old(tracked) != {} ==>
              && Struck(SignalKind.Terminate, walk.Members(), record, os.log, |old(os.log)|, os.holders, os.born)
              && Struck(SignalKind.Kill, walk.Members(), record, os.log, |old(os.log)|, os.holders, os.born))
      ensures os.refusals >= old(os.refusals)
    {
      ghost var first := Now();
      walk, record := Walk(0.0, 0, {}, {}, map[], map[], [], []), map[];
      FollowsNone();
      hide Valid, Evolves, Accounted, Descended, SentBy, Retired, Follows, Struck, Ended, Renewed, Refreshed, Record;
      if ContainsMonitor() || (!launched && tracked == {}) {
        assert tracked == {} || ContainsMonitor();
        if tracked == {} {
          EndedNone(SignalKind.Terminate, first, first);
          EndedNone(SignalKind.Kill, first, first);
        }
        return false, walk, record;
      }
      Rooted();
      raised, walk, record := Renew();
      ghost var second, asked := Now(), os.asked;
      if raised {
        return;
      }
      raised := Wake();
      ghost var third := Now();
      FollowsTransitive(first, second, third);
      AccountedOn(first, second, third);
      if raised {
        return;
      }
      raised := EndTree(true);
      FollowsTransitive(first, third, Now());
      AccountedOn(first, third, Now());
      if raised {
        return;
      }
      RenewedLater(walk, record, old(Knows()), old(tracked), old(departed), old(sessionId), |old(os.asked)|, asked,
                   monitor, os.asked);
      if os.refusals == old(os.refusals) && old(RootKnown()) {
        EndedFromFirst(SignalKind.Terminate, first, second, third, Now());
        EndedFromFirst(SignalKind.Kill, first, second, third, Now());
      }
    }

    /** Bring the tree up to date, and keep what that gave. */
    method Renew() returns (raised: bool, ghost walk: Walk, ghost record: map<Pid, real>)
      requires Valid() && rootPid.Some?
      modifies this`tracked, this`identities, this`suspended, this`departed, this`sessionId
      modifies os`holders, os`born, os`refusals, os`asked
      ensures Valid() && Follows(old(Now()), Now()) && record == TheRecord()
      ensures Accounted(old(TheRecord()), old(tracked), TheRecord(), tracked, os.holders, os.born)
      ensures !raised ==>
        && tracked == walk.Members()
        && Renewed(walk, record, old(Knows()), old(tracked), old(departed), old(sessionId), |old(os.asked)|, os.asked, monitor)
      ensures os.refusals >= old(os.refusals) && old(os.asked) <= os.asked
    {
      hide Valid, Evolves, Accounted, Descended, SentBy, Retired, Follows, Refreshed, Walk.Members, Walk.Waiting;
      ghost var first := Now();
      raised, walk := Refresh();
      RefreshFollows(first, Now());
      record := TheRecord();
    }

    /** A stopped process would not get to its handler: resume what is suspended. */
    method Wake() returns (raised: bool)
      requires Valid()
      modifies this`identities, this`suspended, this`paused, os
      ensures Valid() && Follows(old(Now()), Now()) && TheRecord() == old(TheRecord())
      ensures Accounted(old(TheRecord()), tracked, TheRecord(), tracked, os.holders, os.born)
      ensures os.refusals >= old(os.refusals) && old(os.asked) <= os.asked
    {
      FollowsNone();
      hide Valid, Evolves, Accounted, Descended, SentBy, Retired, Follows;
      if suspended == {} {
        return false;
      }
      ghost var first := Now();
      var resumed := ResumeAll();
      SentFollows(first, Now(), RootKnown());
      AllAccounted(first.record, tracked, TheRecord(), tracked, os.holders, os.born);
      return resumed.Raised?;
    }

    lemma Untouched()
      requires Valid()
      ensures Accounted(TheRecord(), tracked, TheRecord(), tracked, os.holders, os.born)
    {
      AllAccounted(TheRecord(), tracked, TheRecord(), tracked, os.holders, os.born);
    }

    lemma FollowsNone()
      requires Valid()
      ensures Follows(Now(), Now())
      ensures Accounted(TheRecord(), tracked, TheRecord(), tracked, os.holders, os.born)
    {
      FollowsSelf(Now());
      AllAccounted(TheRecord(), tracked, TheRecord(), tracked, os.holders, os.born);
    }

    /** Signal these, then wait for them and for what they start meanwhile. */
    method EndAndWait(pids: set<Pid>, graceful: bool) returns (remaining: set<Pid>, raised: bool)
      requires Valid() && rootPid.Some?
      modifies this`tracked, this`identities, this`suspended, this`departed, this`sessionId, os
      ensures Valid() && Follows(old(Now()), Now())
      ensures Accounted(old(TheRecord()), old(tracked), TheRecord(), tracked, os.holders, os.born)
      ensures !raised ==> forall p | p in suspended :: p in remaining
      ensures !raised ==> Accounted(old(TheRecord()), old(tracked), TheRecord(), remaining, os.holders, os.born)
      ensures !raised && os.refusals == old(os.refusals) && RootKnown() ==>
        Struck(Ending(graceful), pids * old(tracked), old(TheRecord()), os.log, |old(os.log)|, os.holders, os.born)
      ensures os.refusals >= old(os.refusals) && old(os.asked) <= os.asked
    {
      hide Valid, Evolves, Accounted, Descended, SentBy, Retired, Follows, Struck, Record;
      ghost var first := Now();
      remaining := pids;
      raised := TerminateAll(pids, graceful);
      ghost var second := Now();
      SentFollows(first, second, RootKnown());
      AllAccounted(first.record, tracked, TheRecord(), tracked, os.holders, os.born);
      if raised {
        return;
      }
      remaining, raised := WaitForPids(pids, !graceful);
      FollowsTransitive(first, second, Now());
      AccountedOn(first, second, Now());
      if !raised {
        AccountedPast(first, second, Now(), remaining);
        if os.refusals == old(os.refusals) && RootKnown() {
          StruckFollows(Ending(graceful), pids * first.tracked, first.record, |first.log|, second, Now());
        }
      }
    }

    /** End what is tracked, by force where asking does not do it, and conclude. */
    method EndTree(graceful: bool) returns (raised: bool)
      requires Valid() && rootPid.Some?
      modifies this`tracked, this`identities, this`suspended, this`departed, this`sessionId, this`paused
      modifies this`rootPid, this`launched, os
      ensures Valid() && Follows(old(Now()), Now())
      ensures Accounted(old(TheRecord()), old(tracked), TheRecord(), tracked, os.holders, os.born)
      ensures !raised && os.refusals == old(os.refusals) && old(RootKnown()) ==>
        Ended(SignalKind.Kill, old(Now()), Now()) && (graceful ==> Ended(SignalKind.Terminate, old(Now()), Now()))
      ensures os.refusals >= old(os.refusals) && old(os.asked) <= os.asked
    {
      hide Evolves, Accounted, Descended, SentBy, Retired, Follows, Safe, Struck, Ended, Record;
      ghost var first := Now();
      var remaining;
      remaining, raised := EndAndWait(tracked, graceful);
      ghost var second, quiet := Now(), os.refusals == old(os.refusals) && RootKnown();
      if raised {
        return;
      }
      if quiet {
        EndedAll(Ending(graceful), first, second);
      }
      if graceful {
        remaining, raised := Insist(first, remaining);
        if raised {
          return;
        }
        if quiet {
          EndedLater(SignalKind.Terminate, first, second, Now());
        }
      }
      ghost var last := Now();
      assert forall p | p in suspended :: p in remaining;
      Conclude(remaining);
      ConcludeFollows(first, last, Now(), remaining);
      if os.refusals == old(os.refusals) && old(RootKnown()) {
        EndedSame(SignalKind.Kill, first, last, Now());
        if graceful {
          EndedSame(SignalKind.Terminate, first, last, Now());
        }
      }
    }

    /** Force those who did not end when they were asked to. */
    method Insist(ghost first: Stage, pids: set<Pid>) returns (remaining: set<Pid>, raised: bool)
      requires Valid() && rootPid.Some? && Follows(first, Now()) && forall p | p in suspended :: p in pids
      requires Accounted(first.record, first.tracked, TheRecord(), tracked, os.holders, os.born)
      requires Accounted(first.record, first.tracked, TheRecord(), pids, os.holders, os.born)
      modifies this`tracked, this`identities, this`suspended, this`departed, this`sessionId, os
      ensures Valid() && Follows(first, Now()) && Follows(old(Now()), Now())
      ensures Accounted(first.record, first.tracked, TheRecord(), tracked, os.holders, os.born)
      ensures !raised ==> forall p | p in suspended :: p in remaining
      ensures !raised ==> Accounted(first.record, first.tracked, TheRecord(), remaining, os.holders, os.born)
      ensures !raised && os.refusals == old(os.refusals) && RootKnown() ==> Ended(SignalKind.Kill, first, Now())
      ensures os.refusals >= old(os.refusals) && old(os.asked) <= os.asked
    {
      FollowsNone();
      hide Valid, Evolves, Accounted, Descended, SentBy, Retired, Follows, Struck, Ended, Record;
      ghost var second := Now();
      if pids == {} {
        EndedGone(SignalKind.Kill, first, second);
        return {}, false;
      }
      remaining, raised := EndAndWait(pids, false);
      FollowsTransitive(first, second, Now());
      AccountedOn(first, second, Now());
      if !raised {
        AccountedPast(first, second, Now(), remaining);
        if os.refusals == old(os.refusals) && RootKnown() {
          FollowsEvolves(second, Now());
          EndedBefore(SignalKind.Kill, first, second, pids, Now());
        }
      }
    }

    /** Force the tree to end. */
    method Kill() returns (raised: bool, ghost walk: Walk, ghost record: map<Pid, real>)
      requires Valid()
      modifies this`tracked, this`identities, this`suspended, this`departed, this`sessionId, this`paused
      modifies this`rootPid, this`launched, os
      ensures Valid() && Follows(old(Now()), Now())
      ensures Accounted(old(TheRecord()), old(tracked), TheRecord(), tracked, os.holders, os.born)
      ensures old(ContainsMonitor()) ==> !raised && os.log == old(os.log) && tracked == old(tracked)
      ensures !raised && !old(ContainsMonitor()) && (old(launched) || old(tracked) != {}) ==>
        Renewed(walk, record, old(Knows()), old(tracked), old(departed), old(sessionId), |old(os.asked)|, os.asked, monitor)
      ensures !raised && !old(ContainsMonitor()) && os.refusals == old(os.refusals) && old(RootKnown()) ==>
        && Ended(SignalKind.Kill, old(Now()), Now())
        && (old(launched) || old(tracked) != {} ==>
              Struck(SignalKind.Kill, walk.Members(), record, os.log, |old(os.log)|, os.holders, os.born))
      ensures os.refusals >= old(os.refusals)
    {
      ghost var first := Now();
      walk, record := Walk(0.0, 0, {}, {}, map[], map[], [], []), map[];
      FollowsNone();
      hide Valid, Evolves, Accounted, Descended, SentBy, Retired, Follows, Struck, Ended, Renewed, Refreshed, Record;
      if ContainsMonitor() || (!launched && tracked == {}) {
        assert tracked == {} || ContainsMonitor();
        if tracked == {} {
          EndedNone(SignalKind.Kill, first, first);
        }
        return false, walk, record;
      }
      Rooted();
      raised, walk, record := Renew();
      ghost var second, third, asked := Now(), Now(), os.asked;
      if raised {
        return;
      }
      FollowsNone();
      raised := EndTree(false);
      FollowsTransitive(first, third, Now());
      AccountedOn(first, third, Now());
      if raised {
        return;
      }
      RenewedLater(walk, record, old(Knows()), old(tracked), old(departed), old(sessionId), |old(os.asked)|, asked,
                   monitor, os.asked);
      if os.refusals == old(os.refusals) && old(RootKnown()) {
        EndedFromFirst(SignalKind.Kill, first, second, third, Now());
      }
    }

    /**
     Any run of the manager, the system acting as it likes before and within
     every command: nothing stopped is ever forgotten or stopped twice, every
     signal hit the process on record and none went to an unknown one, and whoever
     was tracked is tracked still, gone, or released with the whole tree for good.
     */
    method Run(commands: seq<Command>)
      requires Valid()
      modifies this`tracked, this`identities, this`suspended, this`departed, this`sessionId, this`paused
      modifies this`rootPid, this`launched, os
      ensures forall p | p in os.holders && Owed(p, os.holders, os.stops) ::
        p in suspended && p in tracked && Recorded(p) == Some(os.holders[p])
      ensures forall i | i in os.stops :: os.stops[i] <= 1
      ensures Faithful(os.log)
      ensures Follows(old(Now()), Now())
    {
      ghost var first := Now();
      FollowsSelf(first);
      for n := 0 to |commands|
        invariant Valid() && Follows(first, Now())
      {
        hide Follows;
        ghost var before := Now();
        os.Elapse();
        EvolutionKeepsSafe(before.holders, before.born, os.holders, os.born, os.stops, suspended, TheRecord());
        ghost var between := Now();
        QuietFollows(before, between);
        FollowsTransitive(first, before, between);
        Obey(commands[n]);
        FollowsTransitive(first, between, Now());
      }
    }

    method Obey(command: Command)
      requires Valid()
      modifies this`tracked, this`identities, this`suspended, this`departed, this`sessionId, this`paused
      modifies this`rootPid, this`launched, os
      ensures Valid() && Follows(old(Now()), Now())
    {
      ghost var first := Now();
      ghost var walk, record;
      hide Valid, Evolves, Accounted, Descended, SentBy, Retired, Follows;
      var raised, outcome;
      match command {
        case DoRefresh =>
          raised, walk := Refresh();
          RefreshFollows(first, Now());
        case DoPause => outcome := Pause();
        case DoResume =>
          assert tracked == {} ==> suspended == {} by { SuspendedTracked(); }
          outcome := ResumeAll();
          SentFollows(first, Now(), RootKnown());
        case DoDetach => raised := Detach();
        case DoTerminate => raised, walk, record := Terminate();
        case DoKill => raised, walk, record := Kill();
      }
    }
  }
}
