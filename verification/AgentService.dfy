/**
 AgentRegistry: write-ahead admission of idempotent start requests with bounded
 registries, across failed writes, crashes and restarts.
 */
module AgentService {
  import opened Wrappers
  import opened AgentState

  const MAX_REPLIES := 256

  /** What a request asks for; refused stands for every argument, authorization or storage check that fails. */
  datatype Operation =
    | StartSession(refused: bool, timeout: real, pid: Option<int>)
    | Shutdown
    | Other(ok: bool)

  /** A SHA-256 digest: it determines the operation and, through body, the parameters. */
  datatype Digest = StartDigest(body: int) | OtherDigest(body: int)

  /** A well-formed request; body stands for its canonical text. */
  datatype Request = Request(id: int, body: int, operation: Operation)
  {
    function Digest(): Digest {
      if operation.StartSession? then StartDigest(body) else OtherDigest(body)
    }
  }

  datatype Response = Accepted(session: int) | Done | Conflict | Refused | Storage | Failed

  datatype Reply = Reply(request: int, digest: Digest, response: Response)

  /** How a call came back, unless the process died first. */
  datatype Handled = Answered(response: Response) | Died

  function Filter<T(!new)>(s: seq<T>, keep: T -> bool): (r: seq<T>)
    ensures |r| <= |s|
    ensures forall x :: x in r <==> x in s && keep(x)
  {
    if s == [] then []
    else (if keep(s[0]) then [s[0]] else []) + Filter(s[1..], keep)
  }

  ghost predicate Pairwise<T(!new)>(s: seq<T>, rel: (T, T) -> bool) {
    forall i, j | 0 <= i < j < |s| :: rel(s[i], s[j])
  }

  /** What holds between any two elements of a sequence, in order, holds in what is kept of it. */
  lemma {:induction false} FilterKeepsPairs<T(!new)>(s: seq<T>, keep: T -> bool, rel: (T, T) -> bool)
    requires Pairwise(s, rel)
    ensures Pairwise(Filter(s, keep), rel)
  {
    if s != [] {
      var rest := Filter(s[1..], keep);
      assert Pairwise(rest, rel) by {
        assert Pairwise(s[1..], rel);
        FilterKeepsPairs(s[1..], keep, rel);
      }
      forall j | 0 <= j < |rest| ensures rel(s[0], rest[j]) {
        assert rest[j] in s[1..];
      }
      assert Pairwise([s[0]] + rest, rel);
      assert [] + rest == rest;
    }
  }

  /** Sessions still running: those without a result. */
  function Active(rs: seq<Record>): nat {
    if rs == [] then 0
    else (if rs[|rs| - 1].result.None? then 1 else 0) + Active(rs[..|rs| - 1])
  }

  /** Results only ever arrive, so the active count only falls. */
  lemma {:induction false} ActiveFalls(rs: seq<Record>, after: seq<Record>)
    requires |rs| == |after|
    requires forall i | 0 <= i < |rs| :: after[i].result.None? ==> rs[i].result.None?
    ensures Active(after) <= Active(rs)
  {
    if rs != [] {
      ActiveFalls(rs[..|rs| - 1], after[..|rs| - 1]);
    }
  }

  lemma {:induction false} ActiveConcat(a: seq<Record>, b: seq<Record>)
    ensures Active(a + b) == Active(a) + Active(b)
  {
    if b == [] {
      assert a + b == a;
    } else {
      ActiveConcat(a, b[..|b| - 1]);
      assert (a + b)[..|a + b| - 1] == a + b[..|b| - 1];
    }
  }

  lemma ActiveAround(a: seq<Record>, x: Record, b: seq<Record>)
    requires x.result.Some?
    ensures Active(a + ([x] + b)) == Active(a + b) == Active([x] + (a + b))
  {
    ActiveConcat(a, b);
    ActiveConcat([x], b);
    ActiveConcat(a, [x] + b);
    ActiveConcat([x], a + b);
  }

  /** Retiring a record with a result, or putting it back in front, leaves the active count as it was. */
  lemma RetiringKeepsActive(rs: seq<Record>, k: nat)
    requires k < |rs| && rs[k].result.Some?
    ensures Active(rs[..k] + rs[k + 1..]) == Active(rs) == Active([rs[k]] + (rs[..k] + rs[k + 1..]))
  {
    hide Active;
    ActiveAround(rs[..k], rs[k], rs[k + 1..]);
    assert rs == rs[..k] + ([rs[k]] + rs[k + 1..]);
  }

  /** The record as it is saved. */
  function ToSave(r: Record): Record {
    r.(samples := if r.samples < 0 then 0 else r.samples)
  }

  function AllToSave(rs: seq<Record>): (saved: seq<Record>)
    ensures |saved| == |rs|
  {
    seq(|rs|, i requires 0 <= i < |rs| => ToSave(rs[i]))
  }

  /** A record in memory: as the journal wants it, or stuck behind an export that escaped. */
  ghost predicate RecordOk(r: Record) {
    ValidFields(r) && (r.result.Some? ==> r.phase.Terminal())
  }

  lemma FreshRecordOk(r: Record)
    requires r.result.None? && r.reports == [] && r.checkpoint == r.session
    requires r.requestedAt >= 0.0 && r.updatedAt >= 0.0 && r.deadline >= 0.0
    requires r.pid.Some? ==> 1 <= r.pid.value < 0x1_0000_0000
    ensures RecordOk(r)
  {
  }

  /** The bounds and agreements memory keeps of records and tombstones. */
  ghost predicate Sound(rs: seq<Record>, ts: seq<Tombstone>, issued: int) {
    && |rs| <= MAX_SESSIONS_SAVED && |ts| <= MAX_TOMBSTONES
    && (forall r | r in rs :: RecordOk(r))
    && (forall t | t in ts :: t.expiresAt >= 0.0)
    && Coherent(State(rs, ts), issued)
  }

  ghost predicate AnyStuck(rs: seq<Record>) {
    exists r :: r in rs && r.Stuck()
  }

  /** What is offered to the journal is accepted exactly when no record is stuck. */
  lemma OfferedIsValid(rs: seq<Record>, ts: seq<Tombstone>, issued: int)
    requires Sound(rs, ts, issued)
    ensures Validate(State(AllToSave(rs), ts)) <==> !AnyStuck(rs)
    ensures Coherent(State(AllToSave(rs), ts), issued)
  {
    var saved := AllToSave(rs);
    forall r | r in saved
      ensures exists o :: o in rs && r == ToSave(o)
    {
      var i :| 0 <= i < |saved| && saved[i] == r;
      assert rs[i] in rs && r == ToSave(rs[i]);
    }
    forall r | r in rs ensures ToSave(r) in saved {
      var i :| 0 <= i < |rs| && rs[i] == r;
      assert saved[i] == ToSave(r);
    }
    if Validate(State(saved, ts)) {
      forall r | r in rs ensures !r.Stuck() {
        assert ToSave(r) in saved;
      }
    }
  }

  predicate HasTombstone(ts: seq<Tombstone>, request: int) {
    exists t :: t in ts && t.request == request
  }

  predicate HasRecord(rs: seq<Record>, request: int) {
    exists r :: r in rs && r.request == request
  }

  /** A cached reply to the start a tombstone or record remembers is that start's acceptance, and no other is. */
  ghost predicate RepliesAgree(replies: seq<Reply>, rs: seq<Record>, ts: seq<Tombstone>) {
    forall p | p in replies ::
      && (forall t | t in ts && t.request == p.request :: Agrees(p, t.digest, t.session))
      && (forall r | r in rs && r.request == p.request :: Agrees(p, r.digest, r.session))
  }

  ghost predicate Agrees(p: Reply, digest: int, session: int) {
    p.response.Accepted? || p.digest == StartDigest(digest) ==>
      p.digest == StartDigest(digest) && p.response == Response.Accepted(session)
  }

  /** What one look at a live session's API status shows. */
  datatype Look =
    | Quiet
    | Progress(phase: Phase, samples: int, pid: Option<int>)
    | Finished(failed: bool, reason: string, exitCode: Option<int>, errors: seq<string>, reports: seq<string>, inside: bool)

  predicate ApiLook(k: Look) {
    match k
    case Quiet => true
    case Progress(phase, samples, pid) =>
      !phase.Terminal() && samples >= 0 && (pid.Some? ==> 1 <= pid.value < 0x1_0000_0000)
    case Finished(_, reason, exitCode, _, reports, _) =>
      |reason| <= 64 && |reports| <= 2 && (exitCode.Some? ==> -0x1_0000_0000 <= exitCode.value < 0x1_0000_0000)
  }

  function Shortened(errors: seq<string>): (r: seq<string>)
    ensures |r| <= |errors| && |r| <= 8 && forall e | e in r :: |e| <= 512
  {
    var first := if |errors| > 8 then errors[..8] else errors;
    seq(|first|, i requires 0 <= i < |first| => if |first[i]| > 512 then first[i][..512] else first[i])
  }

  /** One record after one look; an export outside the report directory leaves it without its result. */
  function Observed(r: Record, k: Look, now: real): Record {
    if r.result.Some? then r else
    match k
    case Quiet => r
    case Progress(phase, samples, pid) => r.(phase := phase, samples := samples, pid := pid, updatedAt := now)
    case Finished(failed, reason, exitCode, errors, reports, inside) =>
      var ended := r.(phase := if failed then Phase.Failed else Completed);
      if !inside then ended
      else ended.(result := Some(Result(reason, exitCode, Shortened(errors), |errors|)), reports := reports, updatedAt := now)
  }

  /** A record as a restarted agent finds it: what was still running is interrupted. */
  function Restored(r: Record, now: real): Record {
    if r.phase.Completed? || r.phase.Failed? then r
    else r.(phase := Interrupted, result := Some(Result("interrupted", None, [], 0)),
            updatedAt := if r.phase.Interrupted? then r.updatedAt else now)
  }

  /** The same sessions for the same requests, one by one. */
  ghost predicate SameNames(rs: seq<Record>, after: seq<Record>) {
    && |after| == |rs|
    && forall i | 0 <= i < |rs| ::
         after[i].session == rs[i].session && after[i].request == rs[i].request && after[i].digest == rs[i].digest
  }

  /** Records that keep their names and their results, and stay well-formed. */
  ghost predicate Advances(rs: seq<Record>, after: seq<Record>) {
    && SameNames(rs, after)
    && forall i | 0 <= i < |rs| :: RecordOk(after[i]) && (after[i].result.None? ==> rs[i].result.None?)
  }

  lemma SameNamesCoherent(rs: seq<Record>, after: seq<Record>, ts: seq<Tombstone>, issued: int)
    requires SameNames(rs, after) && Coherent(State(rs, ts), issued)
    ensures Coherent(State(after, ts), issued)
  {
    forall r, t | r in after && t in ts && r.request == t.request
      ensures r.session == t.session && r.digest == t.digest
    {
      var i :| 0 <= i < |after| && after[i] == r;
      assert rs[i] in rs && rs[i].request == t.request;
    }
    forall r | r in after ensures r.session < issued {
      var i :| 0 <= i < |after| && after[i] == r;
      assert rs[i] in rs;
    }
  }

  lemma SameNamesAgree(rs: seq<Record>, after: seq<Record>, ts: seq<Tombstone>, replies: seq<Reply>)
    requires SameNames(rs, after) && RepliesAgree(replies, rs, ts)
    ensures RepliesAgree(replies, after, ts)
  {
    forall p, r | p in replies && r in after && r.request == p.request
      ensures Agrees(p, r.digest, r.session)
    {
      var i :| 0 <= i < |after| && after[i] == r;
      assert rs[i] in rs && rs[i].request == p.request;
    }
  }

  /** Such records stay sound, bounded, and in agreement with every cached reply. */
  lemma AdvancingKeeps(rs: seq<Record>, after: seq<Record>, ts: seq<Tombstone>, replies: seq<Reply>, issued: int)
    requires Advances(rs, after) && Sound(rs, ts, issued) && RepliesAgree(replies, rs, ts)
    ensures Sound(after, ts, issued) && RepliesAgree(replies, after, ts) && Active(after) <= Active(rs)
  {
    ActiveFalls(rs, after);
    SameNamesCoherent(rs, after, ts, issued);
    SameNamesAgree(rs, after, ts, replies);
    forall r | r in after ensures RecordOk(r) {
      var i :| 0 <= i < |after| && after[i] == r;
    }
  }

  lemma DistinctPart(rs: seq<Record>, lo: nat, hi: nat)
    requires lo <= hi <= |rs| && DistinctRecords(rs)
    ensures DistinctRecords(rs[..lo] + rs[hi..])
  {
    var part := rs[..lo] + rs[hi..];
    forall i, j | 0 <= i < j < |part| ensures part[i].session != part[j].session && part[i].request != part[j].request {
      var i', j' := if i < lo then i else i + hi - lo, if j < lo then j else j + hi - lo;
      assert part[i] == rs[i'] && part[j] == rs[j'];
    }
  }

  /** Taking out a stretch of records keeps what is left sound. */
  lemma PartSound(rs: seq<Record>, lo: nat, hi: nat, ts: seq<Tombstone>, issued: int)
    requires lo <= hi <= |rs| && Sound(rs, ts, issued)
    ensures Sound(rs[..lo] + rs[hi..], ts, issued)
  {
    DistinctPart(rs, lo, hi);
    assert forall r | r in rs[..lo] + rs[hi..] :: r in rs;
  }

  /** Tombstones kept in order are still sound. */
  lemma FilterSound(rs: seq<Record>, ts: seq<Tombstone>, issued: int, keep: Tombstone -> bool)
    requires Sound(rs, ts, issued)
    ensures Sound(rs, Filter(ts, keep), issued)
  {
    var rel := (a: Tombstone, b: Tombstone) => a.request != b.request;
    assert Pairwise(ts, rel);
    FilterKeepsPairs(ts, keep, rel);
    var kept := Filter(ts, keep);
    assert DistinctTombstones(kept) by {
      forall i, j | 0 <= i < j < |kept| ensures kept[i].request != kept[j].request {
        assert rel(kept[i], kept[j]);
      }
    }
    var before := (a: Tombstone, b: Tombstone) => a.session < b.session;
    assert Pairwise(ts, before);
    FilterKeepsPairs(ts, keep, before);
    assert Ordered(kept, issued) by {
      forall i, j | 0 <= i < j < |kept| ensures kept[i].session < kept[j].session {
        assert before(kept[i], kept[j]);
      }
    }
  }

  lemma DistinctWith(rs: seq<Record>, r: Record)
    requires DistinctRecords(rs) && forall o | o in rs :: o.session != r.session && o.request != r.request
    ensures DistinctRecords(rs + [r])
  {
    forall i | 0 <= i < |rs| ensures rs[i].session != r.session && rs[i].request != r.request {
      assert rs[i] in rs;
    }
  }

  lemma DistinctTombstonesWith(ts: seq<Tombstone>, t: Tombstone)
    requires DistinctTombstones(ts) && !HasTombstone(ts, t.request)
    ensures DistinctTombstones(Bounded(ts + [t]))
  {
    forall i | 0 <= i < |ts| ensures ts[i].request != t.request {
      assert ts[i] in ts;
    }
  }

  lemma OrderedWith(ts: seq<Tombstone>, t: Tombstone, issued: int)
    requires Ordered(ts, issued) && t.session == issued
    ensures Ordered(Bounded(ts + [t]), issued + 1)
  {
    var all := ts + [t];
    forall i, j | 0 <= i < j < |all| ensures all[i].session < all[j].session {
      assert all[i] in ts;
    }
    assert forall u | u in Bounded(all) :: u in ts || u == t;
  }

  /** Only a full registry gives up a tombstone for a newer one, and that its oldest. */
  lemma OnlyFirstGoes(ts: seq<Tombstone>, t: Tombstone, u: Tombstone)
    requires |ts| <= MAX_TOMBSTONES && u in ts && u !in Bounded(ts + [t])
    ensures |ts| == MAX_TOMBSTONES && u == ts[0]
  {
    assert ts == [ts[0]] + ts[1..];
    assert |ts| == MAX_TOMBSTONES ==> Bounded(ts + [t]) == ts[1..] + [t];
  }

  /** Admitting a request that nothing holds keeps both registries sound. */
  lemma AdmissionSound(rs: seq<Record>, ts: seq<Tombstone>, issued: int, r: Record, t: Tombstone)
    requires Sound(rs, ts, issued) && |rs| < MAX_SESSIONS_SAVED
    requires !HasRecord(rs, r.request) && !HasTombstone(ts, r.request)
    requires RecordOk(r) && r.session == issued && t.expiresAt >= 0.0
    requires t.request == r.request && t.session == r.session && t.digest == r.digest
    ensures Sound(rs + [r], Bounded(ts + [t]), issued + 1)
  {
    forall o | o in rs ensures o.session != r.session && o.request != r.request {
    }
    DistinctWith(rs, r);
    DistinctTombstonesWith(ts, t);
    OrderedWith(ts, t, issued);
    forall o, u | o in rs + [r] && u in Bounded(ts + [t]) && o.request == u.request
      ensures o.session == u.session && o.digest == u.digest
    {
      assert u in ts + [t];
    }
  }

  /** The newest tombstones; an older one past the bound is pushed out. */
  function Bounded(ts: seq<Tombstone>): (r: seq<Tombstone>)
    ensures forall t | t in r :: t in ts
  {
    if |ts| > MAX_TOMBSTONES then ts[|ts| - MAX_TOMBSTONES..] else ts
  }

  /** Tombstones may go as long as each is accounted a loss. */
  lemma LosingRemembers(ts: seq<Tombstone>, fewer: seq<Tombstone>, starts: seq<Start>, losses: seq<Loss>, more: seq<Loss>)
    requires Remembered(ts, starts, losses)
    requires forall t | t in ts && t !in fewer :: exists l :: l in more && l.tombstone == t
    ensures Remembered(fewer, starts, losses + more)
  {
    forall k | 0 <= k < |starts|
      ensures starts[k].Stone() in fewer || Lost(starts[k], losses + more)
    {
      if Lost(starts[k], losses) {
        var l :| l in losses && l.tombstone == starts[k].Stone();
        assert l in losses + more;
      } else if starts[k].Stone() !in fewer {
        var l :| l in more && l.tombstone == starts[k].Stone();
        assert l in losses + more;
      }
    }
  }

  /** The losses when tombstones expire at a clock reading. */
  function Outlives(ts: seq<Tombstone>, now: real): (r: seq<Loss>)
    ensures forall l | l in r :: l.Outlived? && l.at == now && l.tombstone in ts && l.tombstone.expiresAt <= now
    ensures forall t | t in ts && t.expiresAt <= now :: Outlived(t, now) in r
  {
    if ts == [] then []
    else (if ts[0].expiresAt <= now then [Outlived(ts[0], now)] else []) + Outlives(ts[1..], now)
  }

  /** The loss when a full registry takes one more tombstone. */
  function Crowds(ts: seq<Tombstone>, t: Tombstone): seq<Loss> {
    if |ts| == MAX_TOMBSTONES then [Crowded(ts[0], Bounded(ts + [t]))] else []
  }

  /** With a result everywhere nothing is active. */
  lemma {:induction false} AllFinished(rs: seq<Record>)
    requires forall r | r in rs :: r.result.Some?
    ensures Active(rs) == 0
  {
    if rs != [] {
      assert rs[|rs| - 1] in rs;
      AllFinished(rs[..|rs| - 1]);
    }
  }

  /** Saved records but for finished ones past their retention. */
  function Recent(saved: seq<Record>, now: real, retention: real): (kept: seq<Record>)
    ensures |kept| <= |saved| && forall r | r in kept :: r in saved
  {
    Filter(saved, (r: Record) => !(r.phase.Terminal() && r.updatedAt < now - retention))
  }

  /** What a restarted agent takes over from the journal, newest records last. */
  function Resumed(saved: seq<Record>, now: real, retention: real, limit: nat): (rs: seq<Record>)
    ensures |rs| <= limit
  {
    Newest(AllRestored(Recent(saved, now, retention), now), limit)
  }

  /** Saved records kept in order are as coherent as the state they came from. */
  lemma KeptCoherent(s: State, issued: int, now: real, retention: real)
    requires Coherent(s, issued)
    ensures Coherent(State(Recent(s.sessions, now, retention), s.tombstones), issued)
  {
    var kept := Recent(s.sessions, now, retention);
    var rel := (a: Record, b: Record) => a.session != b.session && a.request != b.request;
    assert Pairwise(s.sessions, rel);
    FilterKeepsPairs(s.sessions, (r: Record) => !(r.phase.Terminal() && r.updatedAt < now - retention), rel);
    forall i, j | 0 <= i < j < |kept| ensures kept[i].session != kept[j].session && kept[i].request != kept[j].request {
      assert rel(kept[i], kept[j]);
    }
  }

  function AllRestored(kept: seq<Record>, now: real): (all: seq<Record>)
    ensures |all| == |kept|
  {
    seq(|kept|, i requires 0 <= i < |kept| => Restored(kept[i], now))
  }

  lemma RestoredOk(saved: seq<Record>, kept: seq<Record>, now: real)
    requires now >= 0.0
    requires forall r | r in saved :: ValidFields(r) && (r.phase.Terminal() <==> r.result.Some?)
    requires forall r | r in kept :: r in saved
    ensures SameNames(kept, AllRestored(kept, now))
    ensures forall r | r in AllRestored(kept, now) :: RecordOk(r) && r.result.Some?
  {
    var all := AllRestored(kept, now);
    forall r | r in all ensures RecordOk(r) && r.result.Some? {
      var i :| 0 <= i < |all| && all[i] == r;
      assert kept[i] in saved;
    }
  }

  /** The newest records, as many as the policy retains. */
  function Newest(rs: seq<Record>, limit: nat): (r: seq<Record>)
    ensures |r| <= limit
  {
    if |rs| > limit then rs[|rs| - limit..] else rs
  }

  lemma NewestSound(rs: seq<Record>, limit: nat, ts: seq<Tombstone>, issued: int)
    requires Sound(rs, ts, issued) && forall r | r in rs :: r.result.Some?
    ensures Sound(Newest(rs, limit), ts, issued) && forall r | r in Newest(rs, limit) :: r.result.Some?
  {
    hide Sound;
    if |rs| > limit {
      PartSound(rs, 0, |rs| - limit, ts, issued);
      assert rs[..0] + rs[|rs| - limit..] == Newest(rs, limit);
    }
  }

  /** A restart takes over a sound state in which every session has its result. */
  lemma ResumedSound(s: State, issued: int, now: real, retention: real, limit: nat)
    requires Validate(s) && Coherent(s, issued) && now >= 0.0
    ensures var rs := Resumed(s.sessions, now, retention, limit);
      Sound(rs, s.tombstones, issued) && (forall r | r in rs :: r.result.Some?) && Active(rs) == 0
  {
    var kept := Recent(s.sessions, now, retention);
    KeptCoherent(s, issued, now, retention);
    RestoredOk(s.sessions, kept, now);
    SameNamesCoherent(kept, AllRestored(kept, now), s.tombstones, issued);
    NewestSound(AllRestored(kept, now), limit, s.tombstones, issued);
    AllFinished(Resumed(s.sessions, now, retention, limit));
  }

  /** A record put back in front of the others is as sound as it was among them. */
  lemma FrontSound(rs: seq<Record>, k: nat, ts: seq<Tombstone>, issued: int)
    requires k < |rs| && Sound(rs, ts, issued)
    ensures Sound([rs[k]] + (rs[..k] + rs[k + 1..]), ts, issued)
  {
    var moved := [rs[k]] + (rs[..k] + rs[k + 1..]);
    forall i, j | 0 <= i < j < |moved|
      ensures moved[i].session != moved[j].session && moved[i].request != moved[j].request
    {
      var i', j' := if i == 0 then k else if i <= k then i - 1 else i, if j <= k then j - 1 else j;
      assert moved[i] == rs[i'] && moved[j] == rs[j'];
    }
    assert forall r | r in moved :: r in rs;
  }

  /** The start that has just been written is remembered, written ahead, and not a second one in vain. */
  lemma StartRemembered(starts: seq<Start>, s: Start, before: seq<Tombstone>, after: seq<Tombstone>, known: seq<Loss>,
                        losses: seq<Loss>, history: seq<State>, clock: seq<real>)
    requires known <= losses && s.losses == |known|
    requires Remembered(after, starts, losses) && WrittenAhead(starts, history, clock) && OncePerTombstone(starts, losses)
    requires Remembered(before, starts, known) && !HasTombstone(before, s.request)
    requires s.onDisk in history && s.writtenAt in clock
    requires Retains(s.onDisk.sessions, s.request, s.digest, s.session)
    requires s.Stone() in s.onDisk.tombstones <==> s.writtenAt < s.expiresAt
    requires s.Stone() in after || Lost(s, losses)
    ensures Remembered(after, starts + [s], losses) && WrittenAhead(starts + [s], history, clock)
    ensures OncePerTombstone(starts + [s], losses)
  {
    assert losses[..s.losses] == known;
    forall i | 0 <= i < |starts| && starts[i].request == s.request ensures Lost(starts[i], losses[..s.losses]) {
      assert starts[i].Stone() !in before;
    }
  }

  function FindReply(ps: seq<Reply>, request: int): (found: Option<Reply>)
    ensures found.Some? ==> found.value in ps && found.value.request == request
    ensures found.None? ==> !HasReply(ps, request)
  {
    if ps == [] then None else if ps[0].request == request then Some(ps[0]) else FindReply(ps[1..], request)
  }

  function FindTombstone(ts: seq<Tombstone>, request: int): (found: Option<Tombstone>)
    ensures found.Some? ==> found.value in ts && found.value.request == request
    ensures found.None? ==> !HasTombstone(ts, request)
  {
    if ts == [] then None else if ts[0].request == request then Some(ts[0]) else FindTombstone(ts[1..], request)
  }

  function FindRecord(rs: seq<Record>, request: int): (found: Option<Record>)
    ensures found.Some? ==> found.value in rs && found.value.request == request
    ensures found.None? ==> !HasRecord(rs, request)
  {
    if rs == [] then None else if rs[0].request == request then Some(rs[0]) else FindRecord(rs[1..], request)
  }

  /** The answer a request gets without being run: from the replies, then the tombstones, then the records. */
  function Lookup(replies: seq<Reply>, rs: seq<Record>, ts: seq<Tombstone>, q: Request): Option<Response> {
    var reply := FindReply(replies, q.id);
    if reply.Some? then Some(if reply.value.digest == q.Digest() then reply.value.response else Conflict)
    else if !q.operation.StartSession? then None
    else
      var tombstone := FindTombstone(ts, q.id);
      if tombstone.Some?
      then Some(if tombstone.value.digest == q.body then Response.Accepted(tombstone.value.session) else Conflict)
      else
        var record := FindRecord(rs, q.id);
        if record.Some?
        then Some(if record.value.digest == q.body then Response.Accepted(record.value.session) else Conflict)
        else None
  }

  /**
   Idempotence, exactly: a start that is still remembered gets its own session
   again if and only if no reply to a different request under the same id is
   cached; another digest gets a conflict or that request's own reply.
   */
  lemma RememberedStart(replies: seq<Reply>, rs: seq<Record>, ts: seq<Tombstone>, issued: int, q: Request, session: int)
    requires Sound(rs, ts, issued) && RepliesAgree(replies, rs, ts)
    requires forall p1, p2 | p1 in replies && p2 in replies && p1.request == p2.request :: p1 == p2
    requires q.operation.StartSession?
    requires Holds(ts, q.id, q.body, session) || Retains(rs, q.id, q.body, session)
    ensures Lookup(replies, rs, ts, q) == Some(Response.Accepted(session)) <==>
            !exists p :: p in replies && p.request == q.id && p.digest != q.Digest()
  {
    var reply := FindReply(replies, q.id);
    if reply.Some? {
      assert reply.value in replies;
    }
  }

  /**
   A remembered start under another digest never gets a session: it is a conflict,
   unless that very request was answered otherwise before and its reply is cached.
   */
  lemma ConflictingStart(replies: seq<Reply>, rs: seq<Record>, ts: seq<Tombstone>, issued: int, q: Request, digest: int,
                         session: int)
    requires Sound(rs, ts, issued) && RepliesAgree(replies, rs, ts)
    requires forall p1, p2 | p1 in replies && p2 in replies && p1.request == p2.request :: p1 == p2
    requires q.operation.StartSession? && digest != q.body
    requires Holds(ts, q.id, digest, session) || Retains(rs, q.id, digest, session)
    ensures var answer := Lookup(replies, rs, ts, q);
      && answer.Some? && !answer.value.Accepted?
      && (answer.value == Conflict <==>
            forall p | p in replies && p.request == q.id && p.digest == q.Digest() :: p.response == Conflict)
  {
    var reply := FindReply(replies, q.id);
    if reply.Some? {
      assert reply.value in replies;
    }
  }

  /**
   Where the promise fails: after a restart a conflicting start is cached under
   the request's id, and the original start then gets a conflict, not its session.
   */
  lemma ConflictMasksOriginal()
    ensures var ts := [Tombstone(1, 10, 7, 99.0)];
      var original, other := Request(1, 10, StartSession(false, 1.0, None)), Request(1, 20, StartSession(false, 1.0, None));
      && Lookup([], [], ts, original) == Some(Response.Accepted(7))
      && Lookup([], [], ts, other) == Some(Conflict)
      && Lookup([Reply(1, other.Digest(), Conflict)], [], ts, original) == Some(Conflict)
  {
  }

  /** The records without the one to be retired, if any. */
  function Without(rs: seq<Record>, retired: Option<nat>): seq<Record>
    requires retired.Some? ==> retired.value < |rs|
  {
    if retired.Some? then rs[..retired.value] + rs[retired.value + 1..] else rs
  }

  lemma WithoutSound(rs: seq<Record>, retired: Option<nat>, ts: seq<Tombstone>, issued: int)
    requires retired.Some? ==> retired.value < |rs| && rs[retired.value].result.Some?
    requires Sound(rs, ts, issued)
    ensures var rest := Without(rs, retired);
      Sound(rest, ts, issued) && Active(rest) == Active(rs) && forall r | r in rest :: r in rs
  {
    if retired.Some? {
      PartSound(rs, retired.value, retired.value + 1, ts, issued);
      RetiringKeepsActive(rs, retired.value);
    }
  }

  /** The tombstone pushed out by a newer one is a fair loss, in memory as for the disk. */
  lemma PushingRemembers(ts: seq<Tombstone>, t: Tombstone, disk: seq<Tombstone>, starts: seq<Start>, losses: seq<Loss>,
                         clock: seq<real>, issued: int)
    requires |ts| <= MAX_TOMBSTONES && Ordered(ts, issued) && t.session == issued
    requires Remembered(ts, starts, losses) && Remembered(disk, starts, losses) && AllFair(losses, clock, issued)
    ensures var more := losses + Crowds(ts, t);
      && Remembered(ts, starts, more) && Remembered(Bounded(ts + [t]), starts, more) && Remembered(disk, starts, more)
      && AllFair(more, clock, issued + 1)
  {
    var more := Crowds(ts, t);
    forall u | u in ts && u !in Bounded(ts + [t]) ensures exists l :: l in more && l.tombstone == u {
      OnlyFirstGoes(ts, t, u);
      assert Crowded(u, Bounded(ts + [t])) in more;
    }
    LosingRemembers(ts, ts, starts, losses, more);
    LosingRemembers(ts, Bounded(ts + [t]), starts, losses, more);
    LosingRemembers(disk, disk, starts, losses, more);
    CrowdingIsFair(ts, t, clock, issued);
    FairGrows(losses, clock, clock, issued, issued + 1);
  }

  lemma CrowdingIsFair(ts: seq<Tombstone>, t: Tombstone, clock: seq<real>, issued: int)
    requires |ts| <= MAX_TOMBSTONES && Ordered(ts, issued) && t.session == issued
    ensures AllFair(Crowds(ts, t), clock, issued + 1)
  {
    if |ts| == MAX_TOMBSTONES {
      var newer := Bounded(ts + [t]);
      assert newer == ts[1..] + [t];
      assert forall i | 0 <= i < |ts| :: ts[i] in ts;
      assert forall u | u in newer :: u in ts || u == t;
    }
  }

  /** More clock readings and more sessions make no loss unfair. */
  lemma FairGrows(losses: seq<Loss>, clock: seq<real>, later: seq<real>, issued: int, more: int)
    requires AllFair(losses, clock, issued) && clock <= later && issued <= more
    ensures AllFair(losses, later, more)
  {
    forall l | l in losses ensures l.Fair(later, more) {
      assert l.Fair(clock, issued);
    }
  }

  /** One more record and tombstone, one finished record fewer if need be: sound, and one more active. */
  lemma EnteringSound(rs: seq<Record>, ts: seq<Tombstone>, issued: int, r: Record, t: Tombstone, retired: Option<nat>,
                      limit: nat)
    requires retired.Some? ==> retired.value < |rs| && rs[retired.value].result.Some?
    requires Sound(rs, ts, issued) && |rs| <= limit <= MAX_SESSIONS_SAVED && (|rs| < limit || retired.Some?)
    requires !HasRecord(rs, r.request) && !HasTombstone(ts, r.request)
    requires RecordOk(r) && r.result.None? && r.session == issued && t.expiresAt >= 0.0
    requires t.request == r.request && t.session == r.session && t.digest == r.digest
    ensures Sound(Without(rs, retired) + [r], Bounded(ts + [t]), issued + 1)
    ensures Active(Without(rs, retired) + [r]) == Active(rs) + 1 && |Without(rs, retired)| < limit
  {
    WithoutSound(rs, retired, ts, issued);
    AdmissionSound(Without(rs, retired), ts, issued, r, t);
    ActiveConcat(Without(rs, retired), [r]);
    assert Active([r]) == 1;
  }

  /** The records after a failed admission: a retired record returns, at the front. */
  function PutBack(rs: seq<Record>, retired: Option<nat>): seq<Record>
    requires retired.Some? ==> retired.value < |rs|
  {
    if retired.Some? then [rs[retired.value]] + Without(rs, retired) else rs
  }

  /** Putting back restores exactly the same records, as sound as they were. */
  lemma PuttingBackKeeps(rs: seq<Record>, retired: Option<nat>, ts: seq<Tombstone>, issued: int, replies: seq<Reply>)
    requires retired.Some? ==> retired.value < |rs| && rs[retired.value].result.Some?
    requires Sound(rs, ts, issued) && RepliesAgree(replies, rs, ts)
    ensures var back := PutBack(rs, retired);
      && Sound(back, ts, issued) && RepliesAgree(replies, back, ts) && Active(back) == Active(rs)
      && multiset(back) == multiset(rs) && |back| == |rs|
  {
    if retired.Some? {
      var k := retired.value;
      FrontSound(rs, k, ts, issued);
      RetiringKeepsActive(rs, k);
      assert rs == rs[..k] + [rs[k]] + rs[k + 1..];
      assert forall r | r in PutBack(rs, retired) :: r in rs;
    }
  }

  function Unexpired(ts: seq<Tombstone>, now: real): seq<Tombstone> {
    Filter(ts, (t: Tombstone) => t.expiresAt > now)
  }

  /** Expiry keeps the registries sound, and every tombstone that goes is a fair loss. */
  lemma ExpiryKeeps(rs: seq<Record>, ts: seq<Tombstone>, disk: seq<Tombstone>, issued: int, now: real,
                    starts: seq<Start>, losses: seq<Loss>, clock: seq<real>)
    requires Sound(rs, ts, issued) && Remembered(ts, starts, losses) && Remembered(disk, starts, losses)
    requires AllFair(losses, clock, issued)
    ensures Sound(rs, Unexpired(ts, now), issued)
    ensures Remembered(Unexpired(ts, now), starts, losses + Outlives(ts, now))
    ensures Remembered(disk, starts, losses + Outlives(ts, now))
    ensures AllFair(losses + Outlives(ts, now), clock + [now], issued)
  {
    FilterSound(rs, ts, issued, (t: Tombstone) => t.expiresAt > now);
    forall t | t in ts && t !in Unexpired(ts, now) ensures exists l :: l in Outlives(ts, now) && l.tombstone == t {
      assert Outlived(t, now) in Outlives(ts, now);
    }
    LosingRemembers(ts, Unexpired(ts, now), starts, losses, Outlives(ts, now));
    LosingRemembers(disk, disk, starts, losses, Outlives(ts, now));
    FairGrows(losses, clock, clock + [now], issued, issued);
  }

  /** A clock reading that was taken before expires nothing unfairly. */
  lemma ReadAlready(losses: seq<Loss>, ts: seq<Tombstone>, now: real, clock: seq<real>, issued: int)
    requires AllFair(losses, clock, issued) && now in clock
    ensures AllFair(losses + Outlives(ts, now), clock, issued)
  {
  }

  /** The losses that come with booking one start. */
  function Booked(ts: seq<Tombstone>, t: Tombstone, at: real): seq<Loss> {
    Crowds(ts, t) + Outlives(Bounded(ts + [t]), at)
  }

  /** New losses are expiries at clock readings taken meanwhile, or crowding out of a full registry. */
  ghost predicate FairlyLost(ts: seq<Tombstone>, before: seq<Loss>, after: seq<Loss>, clock: seq<real>,
                             read: seq<real>, crowded: bool)
  {
    && before <= after && clock <= read
    && forall l | l in after[|before|..] ::
         match l
         case Outlived(t, at) => t.expiresAt <= at && at in read[|clock|..]
         case Crowded(t, newer) => crowded && |ts| == MAX_TOMBSTONES && t in ts
  }

  /** Every tombstone that went is among the new losses. */
  ghost predicate AllLost(ts: seq<Tombstone>, fewer: seq<Tombstone>, before: seq<Loss>, after: seq<Loss>) {
    before <= after && forall t | t in ts && t !in fewer :: exists l :: l in after[|before|..] && l.tombstone == t
  }

  lemma ExpiryIsFair(ts: seq<Tombstone>, losses: seq<Loss>, clock: seq<real>, now: real)
    ensures FairlyLost(ts, losses, losses + Outlives(ts, now), clock, clock + [now], false)
    ensures AllLost(ts, Unexpired(ts, now), losses, losses + Outlives(ts, now))
  {
    assert (losses + Outlives(ts, now))[|losses|..] == Outlives(ts, now);
    forall t | t in ts && t !in Unexpired(ts, now) ensures exists l :: l in Outlives(ts, now) && l.tombstone == t {
      assert Outlived(t, now) in Outlives(ts, now);
    }
  }

  lemma BookingIsFair(ts: seq<Tombstone>, losses: seq<Loss>, clock: seq<real>, t: Tombstone, at: real)
    requires |ts| <= MAX_TOMBSTONES
    ensures FairlyLost(ts, losses, losses + Booked(ts, t, at), clock, clock + [at], true)
    ensures AllLost(ts, Unexpired(Bounded(ts + [t]), at), losses, losses + Booked(ts, t, at))
  {
    var more := Booked(ts, t, at);
    assert (losses + more)[|losses|..] == more;
    assert (clock + [at])[|clock|..] == [at];
    forall u | u in ts && u !in Unexpired(Bounded(ts + [t]), at) ensures exists l :: l in more && l.tombstone == u {
      if u in Bounded(ts + [t]) {
        assert Outlived(u, at) in Outlives(Bounded(ts + [t]), at);
        assert Outlived(u, at) in more;
      } else {
        OnlyFirstGoes(ts, t, u);
        assert Crowded(u, Bounded(ts + [t])) in more;
      }
    }
  }

  lemma NothingLost(ts: seq<Tombstone>, losses: seq<Loss>, clock: seq<real>, read: seq<real>)
    requires clock <= read
    ensures FairlyLost(ts, losses, losses, clock, read, false) && AllLost(ts, ts, losses, losses)
  {
  }

  lemma FairEither(ts: seq<Tombstone>, before: seq<Loss>, after: seq<Loss>, clock: seq<real>, read: seq<real>)
    requires FairlyLost(ts, before, after, clock, read, false)
    ensures FairlyLost(ts, before, after, clock, read, true)
  {
  }

  /** What a poll gives up, it gives up for age at the one clock reading it made. */
  lemma RefreshIsFair(ts: seq<Tombstone>, fewer: seq<Tombstone>, before: seq<Loss>, after: seq<Loss>,
                      clock: seq<real>, read: seq<real>)
    requires read == clock ==> fewer == ts && after == before
    requires read != clock ==>
      && |read| == |clock| + 1 && clock <= read
      && fewer == Unexpired(ts, read[|clock|]) && after == before + Outlives(ts, read[|clock|])
    ensures FairlyLost(ts, before, after, clock, read, false) && AllLost(ts, fewer, before, after)
    ensures |fewer| <= |ts| && forall t | t in fewer :: t in ts
  {
    if read == clock {
      NothingLost(ts, before, clock, read);
    } else {
      assert read == clock + [read[|clock|]];
      ExpiryIsFair(ts, before, clock, read[|clock|]);
    }
  }

  lemma LostTransitive(t0: seq<Tombstone>, t1: seq<Tombstone>, l0: seq<Loss>, l1: seq<Loss>, l2: seq<Loss>,
                       c0: seq<real>, c1: seq<real>, c2: seq<real>, first: bool, second: bool)
    requires FairlyLost(t0, l0, l1, c0, c1, first) && FairlyLost(t1, l1, l2, c1, c2, second)
    requires second ==> |t1| <= |t0| <= MAX_TOMBSTONES && forall t | t in t1 :: t in t0
    ensures FairlyLost(t0, l0, l2, c0, c2, first || second)
  {
    assert l2[|l0|..] == l1[|l0|..] + l2[|l1|..];
    assert c2[|c0|..] == c1[|c0|..] + c2[|c1|..];
  }

  lemma AllLostTransitive(t0: seq<Tombstone>, t1: seq<Tombstone>, t2: seq<Tombstone>, l0: seq<Loss>, l1: seq<Loss>,
                          l2: seq<Loss>)
    requires AllLost(t0, t1, l0, l1) && AllLost(t1, t2, l1, l2)
    ensures AllLost(t0, t2, l0, l2)
  {
    assert l2[|l0|..] == l1[|l0|..] + l2[|l1|..];
  }

  lemma FewTombstones(rs: seq<Record>, ts: seq<Tombstone>, issued: int)
    requires Sound(rs, ts, issued)
    ensures |ts| <= MAX_TOMBSTONES && Ordered(ts, issued)
  {
  }

  lemma AllLostGrows(ts: seq<Tombstone>, before: seq<Loss>, after: seq<Loss>)
    requires before <= after
    ensures AllLost(ts, ts, before, after)
  {
  }

  /** A tombstone that had expired by the time it was written is a loss from the first. */
  lemma LostAtOnce(ts: seq<Tombstone>, t: Tombstone, at: real, known: seq<Loss>, s: Start)
    requires !HasTombstone(ts, t.request) && s.Stone() == t
    ensures t in Unexpired(Bounded(ts + [t]), at) || Lost(s, known + Booked(ts, t, at))
  {
    WrittenTombstone(ts, t, at);
    if at >= t.expiresAt {
      assert Outlived(t, at) in Booked(ts, t, at);
      assert Outlived(t, at) in known + Booked(ts, t, at);
    }
  }

  lemma RememberedMore(disk: seq<Tombstone>, ts: seq<Tombstone>, starts: seq<Start>, s: Start, losses: seq<Loss>)
    requires disk == ts && Remembered(ts, starts + [s], losses)
    ensures Remembered(disk, starts + [s], losses)
  {
  }

  lemma BookedIs(losses: seq<Loss>, ts: seq<Tombstone>, t: Tombstone, at: real)
    ensures losses + Crowds(ts, t) + Outlives(Bounded(ts + [t]), at) == losses + Booked(ts, t, at)
  {
  }

  lemma StillRemembered(ts: seq<Tombstone>, starts: seq<Start>, losses: seq<Loss>, more: seq<Loss>)
    requires Remembered(ts, starts, losses)
    ensures Remembered(ts, starts, losses + more)
  {
    LosingRemembers(ts, ts, starts, losses, more);
  }

  /** What was told of starts and losses stays true as more is written, read from the clock, and lost. */
  lemma AccountGrows(starts: seq<Start>, history: seq<State>, written: seq<State>, clock: seq<real>, read: seq<real>,
                     losses: seq<Loss>, more: seq<Loss>)
    requires WrittenAhead(starts, history, clock) && OncePerTombstone(starts, losses)
    requires history <= written && clock <= read && losses <= more
    ensures WrittenAhead(starts, written, read) && OncePerTombstone(starts, more)
  {
    forall j | 0 <= j < |starts| ensures more[..starts[j].losses] == losses[..starts[j].losses] {
    }
  }

  /** Issuing more session ids changes nothing about those in use. */
  lemma SoundGrows(rs: seq<Record>, ts: seq<Tombstone>, issued: int, more: int)
    requires Sound(rs, ts, issued) && issued <= more
    ensures Sound(rs, ts, more)
  {
  }

  /** What is written with a start comes from memory before it, but for the start itself. */
  lemma WrittenFrom(rs: seq<Record>, retired: Option<nat>, r: Record, ts: seq<Tombstone>, t: Tombstone, at: real,
                    replies: seq<Reply>)
    requires retired.Some? ==> retired.value < |rs|
    requires RepliesAgree(replies, rs, ts) && !HasReply(replies, r.request) && t.request == r.request
    ensures RepliesAgree(replies, Without(rs, retired) + [r], Unexpired(Bounded(ts + [t]), at))
  {
    RepliesStillAgree(replies, rs, ts, Without(rs, retired) + [r], Unexpired(Bounded(ts + [t]), at), r.request);
  }

  /**
   One look keeps a record's name and any result it has. It leaves the record stuck exactly
   when the session ended with an export outside the report directory, now or before.
   */
  lemma ObservedOk(r: Record, look: Look, now: real)
    requires RecordOk(r) && ApiLook(look) && now >= 0.0
    ensures var o := Observed(r, look, now);
      && RecordOk(o) && o.session == r.session && o.request == r.request && o.digest == r.digest
      && (o.result.None? ==> r.result.None?)
      && (o.Stuck() <==> r.result.None? && ((look.Finished? && !look.inside) || (look.Quiet? && r.Stuck())))
  {
  }

  lemma Unchanged(rs: seq<Record>, ts: seq<Tombstone>, issued: int)
    requires Sound(rs, ts, issued)
    ensures Advances(rs, rs)
  {
    assert forall i | 0 <= i < |rs| :: rs[i] in rs;
  }

  lemma FewerTombstonesAgree(replies: seq<Reply>, rs: seq<Record>, ts: seq<Tombstone>, at: real)
    requires RepliesAgree(replies, rs, ts)
    ensures RepliesAgree(replies, rs, Unexpired(ts, at))
  {
  }

  /** Exactly one more start, of this request; what it found on disk was written since. */
  ghost predicate NewStart(before: seq<Start>, after: seq<Start>, history: seq<State>, written: seq<State>,
                           request: int, digest: int, session: int)
  {
    && |after| == |before| + 1 && before <= after && history <= written
    && after[|before|].request == request && after[|before|].digest == digest && after[|before|].session == session
    && after[|before|].onDisk in written[|history|..]
  }

  /** Sessions without a result keep their records: only what had finished by then may have been retired. */
  ghost predicate UnfinishedStay(before: seq<Record>, after: seq<Record>) {
    exists seen: seq<Record> :: Advances(before, seen) && forall r | r in seen && r.result.None? :: r in after
  }

  lemma StayingAll(before: seq<Record>, seen: seq<Record>, after: seq<Record>)
    requires Advances(before, seen) && forall r | r in seen && r.result.None? :: r in after
    ensures UnfinishedStay(before, after)
  {
  }

  lemma UnfinishedStayIn(rs: seq<Record>, retired: Option<nat>)
    requires retired.Some? ==> retired.value < |rs| && rs[retired.value].result.Some?
    ensures forall r | r in rs && r.result.None? :: r in Without(rs, retired) && r in PutBack(rs, retired)
  {
    forall r | r in rs && r.result.None? ensures r in Without(rs, retired) {
      var i :| 0 <= i < |rs| && rs[i] == r;
      if retired.Some? && i > retired.value {
        assert Without(rs, retired)[i - 1] == r;
      } else if retired.Some? {
        assert Without(rs, retired)[i] == r;
      }
    }
  }

  lemma StartedNow(before: seq<Start>, s: Start, history: seq<State>, written: State)
    requires s.onDisk == written
    ensures NewStart(before, before + [s], history, history + [written], s.request, s.digest, s.session)
  {
    assert (history + [written])[|history|] == written;
  }

  lemma Retained(rs: seq<Record>, k: nat, r: Record)
    requires k < |rs| && (rs[k] == r || rs[k] == Fail(r))
    ensures Retains(rs, r.request, r.digest, r.session)
  {
    assert rs[k] in rs;
  }

  lemma NewStartLater(before: seq<Start>, after: seq<Start>, h0: seq<State>, h1: seq<State>, h2: seq<State>,
                      h3: seq<State>, request: int, digest: int, session: int)
    requires h0 <= h1 <= h2 <= h3 && NewStart(before, after, h1, h2, request, digest, session)
    ensures NewStart(before, after, h0, h3, request, digest, session)
  {
    assert h3[|h0|..] == h1[|h0|..] + h2[|h1|..] + h3[|h2|..];
  }

  lemma AdvancingNames(rs: seq<Record>, after: seq<Record>)
    requires Advances(rs, after)
    ensures SameNames(rs, after)
  {
  }

  lemma SameRequests(rs: seq<Record>, after: seq<Record>, request: int)
    requires SameNames(rs, after)
    ensures HasRecord(after, request) <==> HasRecord(rs, request)
  {
    if HasRecord(after, request) {
      var r :| r in after && r.request == request;
      var i :| 0 <= i < |after| && after[i] == r;
      assert rs[i] in rs && rs[i].request == request;
    }
    if HasRecord(rs, request) {
      var r :| r in rs && r.request == request;
      var i :| 0 <= i < |rs| && rs[i] == r;
      assert after[i] in after && after[i].request == request;
    }
  }

  /** Answering from a tombstone or record agrees with both. */
  lemma KnownAgrees(replies: seq<Reply>, rs: seq<Record>, ts: seq<Tombstone>, issued: int, q: Request)
    requires Sound(rs, ts, issued) && FindReply(replies, q.id).None? && Lookup(replies, rs, ts, q).Some?
    ensures var p := Reply(q.id, q.Digest(), Lookup(replies, rs, ts, q).value);
      && (forall t | t in ts && t.request == q.id :: Agrees(p, t.digest, t.session))
      && (forall r | r in rs && r.request == q.id :: Agrees(p, r.digest, r.session))
  {
  }

  lemma StartedAgrees(rs: seq<Record>, ts: seq<Tombstone>, issued: int, q: Request, session: int)
    requires Sound(rs, ts, issued) && q.operation.StartSession? && Retains(rs, q.id, q.body, session)
    ensures var p := Reply(q.id, q.Digest(), Response.Accepted(session));
      && (forall t | t in ts && t.request == q.id :: Agrees(p, t.digest, t.session))
      && (forall r | r in rs && r.request == q.id :: Agrees(p, r.digest, r.session))
  {
  }

  lemma UnknownAgrees(rs: seq<Record>, ts: seq<Tombstone>, q: Request, response: Response)
    requires !response.Accepted?
    requires q.operation.StartSession? ==> !HasRecord(rs, q.id) && !HasTombstone(ts, q.id)
    ensures var p := Reply(q.id, q.Digest(), response);
      && (forall t | t in ts && t.request == q.id :: Agrees(p, t.digest, t.session))
      && (forall r | r in rs && r.request == q.id :: Agrees(p, r.digest, r.session))
  {
  }

  /** Issuing one more session id changes nothing about what is on disk. */
  lemma DiskGrows(s: State, issued: int)
    requires Coherent(s, issued)
    ensures Coherent(s, issued + 1)
  {
  }

  lemma SavedRetains(rs: seq<Record>, r: Record)
    requires r in rs
    ensures Retains(AllToSave(rs), r.request, r.digest, r.session)
  {
    var i :| 0 <= i < |rs| && rs[i] == r;
    assert AllToSave(rs)[i] == ToSave(r);
  }

  /** The tombstone written with a start is there exactly if it had not expired; otherwise it is a loss at once. */
  lemma WrittenTombstone(ts: seq<Tombstone>, t: Tombstone, now: real)
    requires !HasTombstone(ts, t.request)
    ensures var kept := Unexpired(Bounded(ts + [t]), now);
      && (t in kept <==> now < t.expiresAt)
      && (now >= t.expiresAt ==> Outlived(t, now) in Outlives(Bounded(ts + [t]), now))
  {
    assert t == (ts + [t])[|ts|];
    assert Bounded(ts + [t])[|Bounded(ts + [t])| - 1] == t;
    assert t in Bounded(ts + [t]);
  }

  /** A record whose session could not start. */
  function Fail(r: Record): Record {
    r.(phase := Phase.Failed, result := Some(Result("failed", Some(2), [""], 1)))
  }

  lemma FailingKeeps(rs: seq<Record>, k: nat, ts: seq<Tombstone>, replies: seq<Reply>, issued: int)
    requires k < |rs| && rs[k].result.None? && Sound(rs, ts, issued) && RepliesAgree(replies, rs, ts)
    ensures var after := rs[k := Fail(rs[k])];
      && Sound(after, ts, issued) && RepliesAgree(replies, after, ts) && Active(after) <= Active(rs)
      && SameNames(rs, after)
  {
    assert forall i | 0 <= i < |rs| :: rs[i] in rs;
    AdvancingKeeps(rs, rs[k := Fail(rs[k])], ts, replies, issued);
  }

  predicate HasReply(replies: seq<Reply>, request: int) {
    exists p :: p in replies && p.request == request
  }

  /** Cached acceptances agree with fewer records and tombstones, and with those of a request never answered. */
  lemma RepliesStillAgree(replies: seq<Reply>, rs: seq<Record>, ts: seq<Tombstone>, rs': seq<Record>, ts': seq<Tombstone>,
                          request: int)
    requires RepliesAgree(replies, rs, ts) && !HasReply(replies, request)
    requires forall r | r in rs' :: r in rs || r.request == request
    requires forall t | t in ts' :: t in ts || t.request == request
    ensures RepliesAgree(replies, rs', ts')
  {
  }

  class AgentRegistry {
    const disk: Disk
    const maxSessions: nat
    const maxRecords: nat
    const retention: real
    var records: seq<Record>
    var replies: seq<Reply>
    var tombstones: seq<Tombstone>
    var stopping: bool
    var dirty: bool

    /** What a new agent process loads; nothing has been written yet. */
    constructor Load(disk: Disk, maxSessions: nat, maxRecords: nat, retention: real, now: real)
      requires disk.Valid() && now >= 0.0
      requires 1 <= maxSessions <= maxRecords <= MAX_SESSIONS_SAVED && retention >= 1.0
      requires now in disk.clock
      modifies disk`losses
      ensures Valid() && this.disk == disk && replies == []
      ensures this.maxSessions == maxSessions && this.maxRecords == maxRecords && this.retention == retention
      ensures (forall r | r in records :: r.result.Some?) && Active(records) == 0
      ensures records == Resumed(disk.state.sessions, now, retention, maxRecords)
      ensures tombstones == Unexpired(disk.state.tombstones, now)
      ensures disk.losses == old(disk.losses) + Outlives(disk.state.tombstones, now)
      ensures fresh(this)
    {
      hide Remembered, WrittenAhead, OncePerTombstone, Unexpired, Outlives, AllFair, Validate, Coherent, Resumed, Sound, Active;
      this.disk := disk;
      this.maxSessions, this.maxRecords, this.retention := maxSessions, maxRecords, retention;
      records := Resumed(disk.state.sessions, now, retention, maxRecords);
      tombstones := Unexpired(disk.state.tombstones, now);
      replies, stopping, dirty := [], false, false;
      new;
      ResumedSound(disk.state, disk.issued, now, retention, maxRecords);
      ExpiryKeeps(records, disk.state.tombstones, disk.state.tombstones, disk.issued, now, disk.starts, disk.losses,
                  disk.clock);
      ReadAlready(disk.losses, disk.state.tombstones, now, disk.clock, disk.issued);
      AccountGrows(disk.starts, disk.history, disk.history, disk.clock, disk.clock, disk.losses,
                   disk.losses + Outlives(disk.state.tombstones, now));
      disk.losses := disk.losses + Outlives(disk.state.tombstones, now);
    }

    ghost predicate Policy() {
      1 <= maxSessions <= maxRecords <= MAX_SESSIONS_SAVED && retention >= 1.0
    }

    ghost predicate Valid()
      reads this, disk
    {
      && Policy() && disk.Valid()
      && |records| <= maxRecords && Active(records) <= maxSessions
      && Sound(records, tombstones, disk.issued)
      && Remembered(tombstones, disk.starts, disk.losses)
      && |replies| <= MAX_REPLIES && (forall i, j | 0 <= i < j < |replies| :: replies[i].request != replies[j].request)
      && RepliesAgree(replies, records, tombstones)
    }

    lemma ValidMeans()
      requires Valid()
      ensures Sound(records, tombstones, disk.issued) && Remembered(tombstones, disk.starts, disk.losses)
      ensures retention >= 0.0
    {
    }

    /** Write records and unexpired tombstones; a failed write leaves memory as it is. */
    method Persist() returns (w: Written, ghost now: real)
      requires Policy() && disk.Valid()
      requires Sound(records, tombstones, disk.issued) && Remembered(tombstones, disk.starts, disk.losses)
      modifies this`tombstones, this`dirty, disk`state, disk`history, disk`clock, disk`losses
      ensures disk.Valid() && Sound(records, tombstones, disk.issued)
      ensures Remembered(tombstones, disk.starts, disk.losses)
      ensures tombstones == Unexpired(old(tombstones), now) && disk.clock == old(disk.clock) + [now]
      ensures disk.losses == old(disk.losses) + Outlives(old(tombstones), now)
      ensures w.Saved? ==> disk.state == State(AllToSave(records), tombstones)
      ensures w.Saved? ==> disk.history == old(disk.history) + [disk.state]
      ensures w.Unwritten? || w.Invalid? ==> disk.history == old(disk.history)
      ensures disk.history == old(disk.history) ==> disk.state == old(disk.state)
      ensures w.Invalid? <==> AnyStuck(records)
      ensures old(disk.history) <= disk.history
    {
      hide Sound, Remembered, AllFair, WrittenAhead, OncePerTombstone, Coherent, Validate, Unexpired, Outlives, AnyStuck;
      var clock := disk.Now();
      now := clock;
      ExpiryKeeps(records, tombstones, disk.state.tombstones, disk.issued, now, disk.starts, disk.losses, old(disk.clock));
      ghost var history, losses := disk.history, disk.losses;
      disk.losses := disk.losses + Outlives(tombstones, now);
      tombstones := Unexpired(tombstones, clock);
      OfferedIsValid(records, tombstones, disk.issued);
      w := disk.Write(State(AllToSave(records), tombstones));
      AccountGrows(disk.starts, history, disk.history, old(disk.clock), disk.clock, losses, disk.losses);
      if w.Saved? {
        dirty := false;
      }
    }

    method FirstFinished() returns (k: Option<nat>)
      ensures k.Some? ==> k.value < |records| && records[k.value].result.Some?
      ensures k.None? ==> forall r | r in records :: r.result.None?
    {
      for i := 0 to |records|
        invariant forall j | 0 <= j < i :: records[j].result.None?
      {
        if records[i].result.Some? {
          return Some(i);
        }
      }
      return None;
    }

    /** Memory takes one more record and tombstone, and gives up one finished record if the registry was full. */
    method Enter(r: Record, t: Tombstone, retired: Option<nat>)
      requires Valid() && r.session == disk.issued
      requires !HasRecord(records, r.request) && !HasTombstone(tombstones, r.request)
      requires RecordOk(r) && r.result.None? && t.expiresAt >= 0.0
      requires t.request == r.request && t.session == r.session && t.digest == r.digest
      requires retired.Some? ==> retired.value < |records| && records[retired.value].result.Some?
      requires |records| < maxRecords || retired.Some?
      modifies this`records, this`tombstones, disk`losses, disk`issued
      ensures disk.Valid() && disk.issued == r.session + 1 && Sound(records, tombstones, disk.issued)
      ensures Remembered(tombstones, disk.starts, disk.losses)
      ensures records == Without(old(records), retired) + [r]
      ensures Active(records) == Active(old(records)) + 1 && |records| <= maxRecords
      ensures tombstones == Bounded(old(tombstones) + [t])
      ensures disk.losses == old(disk.losses) + Crowds(old(tombstones), t)
    {
      hide Sound, Remembered, Coherent, Validate, Active, RepliesAgree, Bounded, HasRecord, HasTombstone, WrittenAhead,
        OncePerTombstone, AllFair, Ordered, Crowds, Without, RecordOk, ValidFields;
      FewTombstones(records, tombstones, disk.issued);
      PushingRemembers(tombstones, t, disk.state.tombstones, disk.starts, disk.losses, disk.clock, disk.issued);
      DiskGrows(disk.state, disk.issued);
      AccountGrows(disk.starts, disk.history, disk.history, disk.clock, disk.clock, disk.losses,
                   disk.losses + Crowds(tombstones, t));
      EnteringSound(records, tombstones, disk.issued, r, t, retired, maxRecords);
      disk.losses := disk.losses + Crowds(tombstones, t);
      records := Without(records, retired) + [r];
      tombstones := Bounded(tombstones + [t]);
      disk.issued := disk.issued + 1;
    }

    /** Enter an admitted start and write it; if that fails, put memory back. */
    method Book(r: Record, t: Tombstone, retired: Option<nat>) returns (w: Written, ghost at: real)
      requires Valid() && r.session == disk.issued && Active(records) < maxSessions
      requires !HasRecord(records, r.request) && !HasTombstone(tombstones, r.request) && !HasReply(replies, r.request)
      requires RecordOk(r) && r.result.None? && t.expiresAt >= 0.0
      requires t.request == r.request && t.session == r.session && t.digest == r.digest
      requires retired.Some? ==> retired.value < |records| && records[retired.value].result.Some?
      requires |records| < maxRecords || retired.Some?
      modifies this`records, this`tombstones, this`dirty
      modifies disk`state, disk`history, disk`clock, disk`losses, disk`issued
      ensures disk.Valid() && (!w.Crashed? ==> Valid())
      ensures w.Saved? ==> records == Without(old(records), retired) + [r]
      ensures w.Saved? ==> disk.state == State(AllToSave(records), tombstones)
      ensures w.Saved? ==> disk.history == old(disk.history) + [disk.state]
      ensures w.Saved? ==> tombstones == Unexpired(Bounded(old(tombstones) + [t]), at)
      ensures disk.clock == old(disk.clock) + [at] && old(disk.history) <= disk.history
      ensures disk.losses == if disk.history == old(disk.history) then old(disk.losses)
                             else old(disk.losses) + Booked(old(tombstones), t, at)
      ensures w.Unwritten? || w.Invalid? ==> disk.history == old(disk.history) && disk.state == old(disk.state)
      ensures !w.Saved? && !w.Crashed? ==> records == PutBack(old(records), retired) && tombstones == old(tombstones)
    {
      hide Sound, Remembered, WrittenAhead, OncePerTombstone, Coherent, Validate, Active, AllFair, Ordered, Outlives, Crowds;
      hide RepliesAgree, HasRecord, HasTombstone, HasReply, Unexpired, Bounded, PutBack, AllToSave, Booked, AnyStuck;
      var recordsBefore, tombstonesBefore := records, tombstones;
      ghost var lossesBefore, history, starts := disk.losses, disk.history, disk.starts;
      SoundGrows(records, tombstones, disk.issued, disk.issued + 1);
      FairGrows(lossesBefore, disk.clock, disk.clock, disk.issued, disk.issued + 1);
      Enter(r, t, retired);
      w, at := Persist();
      FairGrows(lossesBefore, old(disk.clock), disk.clock, disk.issued, disk.issued);
      BookedIs(lossesBefore, tombstonesBefore, t, at);
      StillRemembered(tombstonesBefore, starts, lossesBefore, Booked(tombstonesBefore, t, at));
      if w.Saved? {
        WrittenFrom(recordsBefore, retired, r, tombstonesBefore, t, at, replies);
      } else if !w.Crashed? {
        PuttingBackKeeps(recordsBefore, retired, tombstonesBefore, disk.issued, replies);
        records, tombstones := PutBack(recordsBefore, retired), tombstonesBefore;
      }
      if disk.history == history {
        // Nothing reached the disk, and memory is as it was or dead: nothing is lost.
        AccountGrows(starts, history, disk.history, old(disk.clock), disk.clock, lossesBefore, lossesBefore);
        disk.losses := lossesBefore;
      }
    }

    /**
     Admit a start that passed its checks. The session starts only once its
     record and tombstone are written; if they cannot be, memory is put back.
     */
    method Commence(request: int, digest: int, retired: Option<nat>, timeout: real, pid: Option<int>)
      returns (h: Handled)
      requires Valid() && Active(records) < maxSessions
      requires !HasRecord(records, request) && !HasTombstone(tombstones, request) && !HasReply(replies, request)
      requires retired.Some? ==> retired.value < |records| && records[retired.value].result.Some?
      requires |records| < maxRecords || retired.Some?
      requires timeout >= 0.0 && (pid.Some? ==> 1 <= pid.value < 0x1_0000_0000)
      modifies this`records, this`tombstones, this`dirty, disk
      ensures disk.Valid() && (h.Answered? ==> Valid())
      ensures old(disk.starts) <= disk.starts && old(disk.history) <= disk.history
      ensures FairlyLost(old(tombstones), old(disk.losses), disk.losses, old(disk.clock), disk.clock, true)
      ensures h.Answered? ==> h.response.Accepted? || h.response.Storage?
      ensures h.Answered? ==> AllLost(old(tombstones), tombstones, old(disk.losses), disk.losses)
      ensures h == Answered(Storage) ==>
        disk.starts == old(disk.starts) && records == PutBack(old(records), retired) && tombstones == old(tombstones)
      ensures h.Answered? && h.response.Accepted? ==>
        NewStart(old(disk.starts), disk.starts, old(disk.history), disk.history, request, digest, h.response.session)
      ensures h.Answered? && h.response.Accepted? ==> Retains(records, request, digest, h.response.session)
      ensures h.Answered? && h.response.Accepted? ==>
        |records| == |Without(old(records), retired)| + 1 && records[..|records| - 1] == Without(old(records), retired)
    {
      hide *;
      ghost var ts, losses, history, clock := tombstones, disk.losses, disk.history, disk.clock;
      ValidMeans();
      assert |tombstones| <= MAX_TOMBSTONES by { FewTombstones(records, tombstones, disk.issued); }
      var session := disk.issued;
      var now: real := *;
      now := if now < 0.0 then 0.0 else now;
      var r := Record(session, request, digest, Phase.Accepted, None, [], -1, now, now, now + timeout, session, pid);
      FreshRecordOk(r);
      var t := Tombstone(request, digest, session, now + retention);
      var w;
      ghost var at;
      w, at := Book(r, t, retired);
      BookingIsFair(ts, losses, clock, t, at);
      NothingLost(ts, losses, clock, disk.clock);
      FairEither(ts, losses, losses, clock, disk.clock);
      if w.Crashed? {
        return Died;
      }
      if !w.Saved? {
        AllLostGrows(ts, losses, disk.losses);
        return Answered(Storage);
      }
      Launch(r, t, ts, at, losses);
      ghost var tombstones1, losses1, history1, clock1 := tombstones, disk.losses, disk.history, disk.clock;
      StartedNow(old(disk.starts), disk.starts[|old(disk.starts)|], history, disk.state);
      var died := SetOff(|records| - 1);
      LostTransitive(ts, tombstones1, losses, losses1, disk.losses, clock, clock1, disk.clock, true, false);
      AllLostTransitive(ts, tombstones1, tombstones, losses, losses1, disk.losses);
      NewStartLater(old(disk.starts), disk.starts, history, history, history1, disk.history, request, digest, session);
      if died {
        return Died;
      }
      Retained(records, |records| - 1, r);
      return Answered(Response.Accepted(session));
    }

    /** session.start(): the call is noted with what is on disk at that moment. */
    ghost method Launch(r: Record, t: Tombstone, before: seq<Tombstone>, at: real, known: seq<Loss>)
      requires Valid() && Remembered(before, disk.starts, known)
      requires r in records && disk.state == State(AllToSave(records), tombstones) && at in disk.clock
      requires !HasTombstone(before, r.request) && tombstones == Unexpired(Bounded(before + [t]), at)
      requires t.request == r.request && t.session == r.session && t.digest == r.digest
      requires disk.losses == known + Booked(before, t, at)
      modifies disk`starts
      ensures Valid() && disk.Valid()
      ensures disk.starts == old(disk.starts)
        + [Start(r.request, r.digest, r.session, disk.state, t.expiresAt, at, |known|)]
    {
      hide Remembered, WrittenAhead, OncePerTombstone, Unexpired, Bounded, Retains, Outlives, Crowds, AllFair, Validate,
        Coherent, HasTombstone, Booked, AllToSave, Lost;
      SavedRetains(records, r);
      WrittenTombstone(before, t, at);
      var s := Start(r.request, r.digest, r.session, disk.state, t.expiresAt, at, |known|);
      assert disk.history[|disk.history| - 1] in disk.history;
      assert s.Stone() == t;
      LostAtOnce(before, t, at, known, s);
      StartRemembered(disk.starts, s, before, tombstones, known, disk.losses, disk.history, disk.clock);
      RememberedMore(disk.state.tombstones, tombstones, disk.starts, s, disk.losses);
      disk.starts := disk.starts + [s];
    }

    /** Start the session: if that raises, its record ends as failed, and that is written if it can be. */
    method SetOff(k: nat) returns (died: bool)
      requires Valid() && k < |records| && records[k].result.None?
      modifies this`records, this`tombstones, this`dirty, disk`state, disk`history, disk`clock, disk`losses
      ensures disk.Valid() && (!died ==> Valid()) && old(disk.history) <= disk.history
      ensures records == old(records) || records == old(records)[k := Fail(old(records)[k])]
      ensures FairlyLost(old(tombstones), old(disk.losses), disk.losses, old(disk.clock), disk.clock, false)
      ensures AllLost(old(tombstones), tombstones, old(disk.losses), disk.losses)
    {
      hide Sound, Remembered, WrittenAhead, OncePerTombstone, Coherent, Validate, Active, AllFair, FairlyLost, AllLost;
      NothingLost(tombstones, disk.losses, disk.clock, disk.clock);
      var raises: bool := *;
      if !raises {
        return false;
      }
      FailingKeeps(records, k, tombstones, replies, disk.issued);
      records := records[k := Fail(records[k])];
      dirty := true;
      var w;
      ghost var ts, now := tombstones, 0.0;
      w, now := Persist();
      ExpiryIsFair(ts, old(disk.losses), old(disk.clock), now);
      FewerTombstonesAgree(replies, records, ts, now);
      return w.Crashed?;
    }

    /** Look at every live session; what finished gets its result. Failing to write that loses nothing. */
    method Refresh() returns (raised: bool, died: bool)
      requires Valid()
      modifies this`records, this`tombstones, this`dirty, disk`state, disk`history, disk`clock, disk`losses
      ensures disk.Valid() && (!died ==> Valid())
      ensures Advances(old(records), records)
      ensures raised ==> AnyStuck(records)
      ensures !raised ==> forall i | 0 <= i < |records| && records[i].Stuck() :: old(records)[i].Stuck()
      ensures old(disk.history) <= disk.history
      ensures disk.clock == old(disk.clock) ==> tombstones == old(tombstones) && disk.losses == old(disk.losses)
      ensures disk.clock != old(disk.clock) ==>
        && |disk.clock| == |old(disk.clock)| + 1 && old(disk.clock) <= disk.clock
        && tombstones == Unexpired(old(tombstones), disk.clock[|old(disk.clock)|])
        && disk.losses == old(disk.losses) + Outlives(old(tombstones), disk.clock[|old(disk.clock)|])
    {
      hide Sound, Remembered, WrittenAhead, OncePerTombstone, Coherent, Validate, Active, RepliesAgree,
        AllFair, Unexpired, Outlives;
      ghost var before := records;
      Unchanged(records, tombstones, disk.issued);
      for i := 0 to |records|
        invariant Advances(before, records) && tombstones == old(tombstones)
        invariant forall j | 0 <= j < |records| && records[j].Stuck() :: before[j].Stuck()
        invariant disk.Valid() && disk.issued == old(disk.issued) && disk.starts == old(disk.starts)
        invariant disk.losses == old(disk.losses) && disk.clock == old(disk.clock) && disk.history == old(disk.history)
      {
        assert ApiLook(Quiet);
        var look :| ApiLook(look);
        var now: real := *;
        now := if now < 0.0 then 0.0 else now;
        ObservedOk(records[i], look, now);
        var escaped := records[i].result.None? && look.Finished? && !look.inside;
        records := records[i := Observed(records[i], look, now)];
        if escaped {
          assert records[i] in records;
          AdvancingKeeps(before, records, tombstones, replies, disk.issued);
          return true, false;
        }
      }
      AdvancingKeeps(before, records, tombstones, replies, disk.issued);
      dirty := true;
      var due: bool := *;
      if due {
        var w;
        ghost var at, ts := 0.0, tombstones;
        w, at := Persist();
        FewerTombstonesAgree(replies, records, ts, at);
        return false, w.Crashed?;
      }
      return false, false;
    }

    /** Start, unless a limit or a check refuses it. */
    method StartSession(request: int, body: int, operation: Operation) returns (h: Handled)
      requires Valid() && operation.StartSession?
      requires !HasRecord(records, request) && !HasTombstone(tombstones, request) && !HasReply(replies, request)
      modifies this`records, this`tombstones, this`dirty, disk
      ensures disk.Valid() && (h.Answered? ==> Valid())
      ensures old(disk.starts) <= disk.starts && old(disk.history) <= disk.history
      ensures FairlyLost(old(tombstones), old(disk.losses), disk.losses, old(disk.clock), disk.clock, true)
      ensures h.Answered? ==> AllLost(old(tombstones), tombstones, old(disk.losses), disk.losses)
      ensures h.Answered? && !h.response.Accepted? ==> disk.starts == old(disk.starts) && tombstones == old(tombstones)
      ensures h.Answered? && h.response.Accepted? ==>
        NewStart(old(disk.starts), disk.starts, old(disk.history), disk.history, request, body, h.response.session)
      ensures h.Answered? && h.response.Accepted? ==> Retains(records, request, body, h.response.session)
      ensures h.Answered? && !h.response.Accepted? ==> !HasRecord(records, request) && !HasTombstone(tombstones, request)
      ensures h.Answered? ==> forall r | r in old(records) && r.result.None? :: r in records
    {
      hide FairlyLost, AllLost, NewStart, Sound, Remembered, WrittenAhead, OncePerTombstone, Coherent, Validate,
        RepliesAgree, AllFair;
      NothingLost(tombstones, disk.losses, disk.clock, disk.clock);
      FairEither(tombstones, disk.losses, disk.losses, disk.clock, disk.clock);
      if stopping || Active(records) >= maxSessions {
        return Answered(Refused);
      }
      var retired: Option<nat> := None;
      if |records| >= maxRecords {
        retired := FirstFinished();
        if retired.None? {
          return Answered(Refused);
        }
      }
      if operation.refused || operation.timeout < 1.0 ||
         (operation.pid.Some? && !(1 <= operation.pid.value < 0x1_0000_0000)) {
        return Answered(Refused);
      }
      ghost var before := records;
      UnfinishedStayIn(before, retired);
      h := Commence(request, body, retired, operation.timeout, operation.pid);
      if h == Answered(Storage) {
        assert forall r | r in records :: r in before;
      } else if h.Answered? {
        assert forall r | r in records[..|records| - 1] :: r in records;
      }
    }

    /** Cache a reply; the oldest beyond the bound is given up. */
    method Remember(request: Request, response: Response)
      requires Valid() && !HasReply(replies, request.id)
      requires forall t | t in tombstones && t.request == request.id ::
        Agrees(Reply(request.id, request.Digest(), response), t.digest, t.session)
      requires forall r | r in records && r.request == request.id ::
        Agrees(Reply(request.id, request.Digest(), response), r.digest, r.session)
      modifies this`replies
      ensures Valid()
      ensures Reply(request.id, request.Digest(), response) in replies
    {
      hide Sound, Remembered, WrittenAhead, OncePerTombstone, Coherent, Validate, Active;
      ghost var before := replies;
      var more := replies + [Reply(request.id, request.Digest(), response)];
      assert more[|replies|] in more;
      assert forall i | 0 <= i < |before| :: before[i] in before && before[i].request != request.id;
      replies := if |more| > MAX_REPLIES then more[|more| - MAX_REPLIES..] else more;
      assert replies[|replies| - 1] == Reply(request.id, request.Digest(), response);
      assert forall p | p in replies :: p in before || p == Reply(request.id, request.Digest(), response);
    }

    /**
     One request. What is still remembered of it answers it without running
     anything; a start runs at most once, and only for a request nothing remembers.
     */
    method Handle(q: Request) returns (h: Handled)
      requires Valid()
      modifies this, disk
      ensures disk.Valid() && (h.Answered? ==> Valid())
      ensures old(Lookup(replies, records, tombstones, q)).Some? ==>
        h == Answered(old(Lookup(replies, records, tombstones, q)).value) && disk.starts == old(disk.starts) &&
        disk.state == old(disk.state) && records == old(records) && tombstones == old(tombstones)
      ensures old(disk.history) <= disk.history
      ensures FairlyLost(old(tombstones), old(disk.losses), disk.losses, old(disk.clock), disk.clock, true)
      ensures h.Answered? ==> AllLost(old(tombstones), tombstones, old(disk.losses), disk.losses)
      ensures h.Answered? ==> UnfinishedStay(old(records), records)
      ensures disk.starts == old(disk.starts) || (old(disk.starts) <= disk.starts && q.operation.StartSession? &&
        old(Lookup(replies, records, tombstones, q)).None?)
      ensures h.Answered? ==> HasReply(replies, q.id)
      ensures h.Answered? && old(Lookup(replies, records, tombstones, q)).None? && q.operation.StartSession? ==>
        if h.response.Accepted?
        then NewStart(old(disk.starts), disk.starts, old(disk.history), disk.history, q.id, q.body, h.response.session)
        else disk.starts == old(disk.starts)
    {
      hide Sound, Remembered, WrittenAhead, OncePerTombstone, Coherent, Validate, Active, RepliesAgree,
        FairlyLost, AllLost, NewStart, AllFair, Unexpired, Outlives, Advances, UnfinishedStay;
      ghost var losses0, clock0, history0 := disk.losses, disk.clock, disk.history;
      NothingLost(tombstones, losses0, clock0, clock0);
      FairEither(tombstones, losses0, losses0, clock0, clock0);
      assert UnfinishedStay(records, records) by {
        Unchanged(records, tombstones, disk.issued);
        StayingAll(records, records, records);
      }
      var known := Lookup(replies, records, tombstones, q);
      if known.Some? {
        if FindReply(replies, q.id).None? {
          KnownAgrees(replies, records, tombstones, disk.issued, q);
          Remember(q, known.value);
        }
        return Answered(known.value);
      }
      ghost var records0, tombstones0, starts0 := records, tombstones, disk.starts;
      assert |tombstones| <= MAX_TOMBSTONES by { FewTombstones(records, tombstones, disk.issued); }
      var raised, died := Refresh();
      ghost var records1, tombstones1, losses1, clock1, history1 := records, tombstones, disk.losses, disk.clock, disk.history;
      RefreshIsFair(tombstones0, tombstones1, losses0, losses1, clock0, clock1);
      FairEither(tombstones0, losses0, losses1, clock0, clock1);
      StayingAll(records0, records1, records1);
      if died {
        return Died;
      }
      AdvancingNames(records0, records);
      SameRequests(records0, records, q.id);
      if raised {
        h := Answered(Storage);
      } else if q.operation.StartSession? {
        h := StartSession(q.id, q.body, q.operation);
        LostTransitive(tombstones0, tombstones1, losses0, losses1, disk.losses, clock0, clock1, disk.clock, false, true);
        if h.Answered? {
          AllLostTransitive(tombstones0, tombstones1, tombstones, losses0, losses1, disk.losses);
          StayingAll(records0, records1, records);
          if h.response.Accepted? {
            NewStartLater(starts0, disk.starts, history0, history1, disk.history, disk.history, q.id, q.body, h.response.session);
          }
        }
        if h.Died? {
          return;
        }
      } else {
        stopping := stopping || q.operation.Shutdown?;
        h := Answered(if q.operation == Other(false) then Response.Failed else Done);
      }
      if q.operation.StartSession? && h.response.Accepted? {
        StartedAgrees(records, tombstones, disk.issued, q, h.response.session);
      } else {
        UnknownAgrees(records, tombstones, q, h.response);
      }
      Remember(q, h.response);
    }
  }

  /** What is kept of starts and losses is not touched by a look at the clock. */
  method Time(disk: Disk) returns (now: real)
    requires disk.Valid()
    modifies disk`clock
    ensures disk.Valid() && now >= 0.0 && now in disk.clock && old(disk.clock) <= disk.clock
  {
    now := disk.Now();
    FairGrows(disk.losses, old(disk.clock), disk.clock, disk.issued, disk.issued);
    AccountGrows(disk.starts, disk.history, disk.history, old(disk.clock), disk.clock, disk.losses, disk.losses);
  }

  /** A new agent process: it serves only if the interrupted state could be written. */
  method Startup(disk: Disk, maxSessions: nat, maxRecords: nat, retention: real) returns (agent: AgentRegistry?)
    requires disk.Valid()
    requires 1 <= maxSessions <= maxRecords <= MAX_SESSIONS_SAVED && retention >= 1.0
    modifies disk
    ensures disk.Valid() && disk.starts == old(disk.starts)
    ensures old(disk.history) <= disk.history && old(disk.clock) <= disk.clock && old(disk.losses) <= disk.losses
    ensures agent != null ==> fresh(agent) && agent.disk == disk && agent.Valid() && Active(agent.records) == 0
  {
    hide Sound, Remembered, WrittenAhead, OncePerTombstone, Coherent, Validate, Active, RepliesAgree, AnyStuck, Resumed,
      AllFair, Unexpired, Outlives;
    var now := Time(disk);
    var loaded := new AgentRegistry.Load(disk, maxSessions, maxRecords, retention, now);
    ghost var ts := loaded.tombstones;
    var w;
    ghost var at;
    w, at := loaded.Persist();
    FewerTombstonesAgree(loaded.replies, loaded.records, ts, at);
    return if w.Saved? then loaded else null;
  }

  datatype Event = Ask(request: Request) | Poll | Crash | Restart

  /**
   Any run of agent processes over one disk: requests, failed and lost writes,
   crashes at any write, restarts. Every start was written ahead, in a state that
   was on disk; a request was started again only after the tombstone of its first
   session had been lost; and a tombstone is lost only when its time was up at a
   clock reading, or when as many newer sessions as a registry holds pushed it out.
   */
  method Run(disk: Disk, maxSessions: nat, maxRecords: nat, retention: real, events: seq<Event>)
    requires disk.Valid()
    requires 1 <= maxSessions <= maxRecords <= MAX_SESSIONS_SAVED && retention >= 1.0
    modifies disk
    ensures Validate(disk.state) && WrittenAhead(disk.starts, disk.history, disk.clock)
    ensures forall i, j | 0 <= i < j < |disk.starts| && disk.starts[i].request == disk.starts[j].request ::
      disk.starts[j].losses <= |disk.losses| && Lost(disk.starts[i], disk.losses[..disk.starts[j].losses])
    ensures forall k | 0 <= k < |disk.starts| ::
      disk.starts[k].Stone() in disk.state.tombstones || Lost(disk.starts[k], disk.losses)
    ensures forall l | l in disk.losses :: l.Fair(disk.clock, disk.issued)
    ensures old(disk.starts) <= disk.starts && old(disk.history) <= disk.history
    ensures old(disk.clock) <= disk.clock && old(disk.losses) <= disk.losses
  {
    var agent: AgentRegistry? := null;
    for n := 0 to |events|
      invariant disk.Valid()
      invariant old(disk.starts) <= disk.starts && old(disk.history) <= disk.history
      invariant old(disk.clock) <= disk.clock && old(disk.losses) <= disk.losses
      invariant agent != null ==> fresh(agent) && agent.disk == disk && agent.Valid()
    {
      hide Validate, Coherent, WrittenAhead, OncePerTombstone, AllFair, Remembered, Sound, Active, RepliesAgree;
      match events[n] {
        case Ask(request) =>
          if agent != null {
            var h := agent.Handle(request);
            if h.Died? {
              agent := null;
            }
          }
        case Poll =>
          if agent != null {
            var raised, died := agent.Refresh();
            if died {
              agent := null;
            }
          }
        case Crash =>
          agent := null;
        case Restart =>
          agent := Startup(disk, maxSessions, maxRecords, retention);
      }
    }
  }
}
