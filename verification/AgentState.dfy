/**
 The local agent's durable scheduling state: what the journal accepts, and the
 one file it replaces atomically. The disk outlives every agent process.
 */
module AgentState {
  import opened Wrappers

  const MAX_SESSIONS_SAVED := 256
  const MAX_TOMBSTONES := 256

  datatype Phase = Accepted | Starting | Running | Stopping | Completed | Failed | Interrupted
  {
    predicate Terminal() {
      Completed? || Failed? || Interrupted?
    }
  }

  datatype Result = Result(reason: string, exitCode: Option<int>, errors: seq<string>, errorCount: int)

  /** One retained session. UUIDs, digests and checkpoint names are numbers here. */
  datatype Record = Record(
    session: int,
    request: int,
    digest: int,
    phase: Phase,
    result: Option<Result>,
    reports: seq<string>,
    samples: int,
    requestedAt: real,
    updatedAt: real,
    deadline: real,
    checkpoint: int,
    pid: Option<int>)
  {
    /** A terminal phase without a result: what an export outside the report directory leaves behind. */
    predicate Stuck() {
      phase.Terminal() && result.None?
    }
  }

  /** What is remembered of a start request after its record may be gone. */
  datatype Tombstone = Tombstone(request: int, digest: int, session: int, expiresAt: real)

  datatype State = State(sessions: seq<Record>, tombstones: seq<Tombstone>)

  predicate ValidResult(r: Result) {
    && |r.reason| <= 64
    && (r.exitCode.Some? ==> -0x1_0000_0000 <= r.exitCode.value < 0x1_0000_0000)
    && |r.errors| <= 8 && (forall e | e in r.errors :: |e| <= 512)
    && r.errorCount >= 0
  }

  /** Everything the journal asks of one record but the agreement of result and phase. */
  predicate ValidFields(r: Record) {
    && r.requestedAt >= 0.0 && r.updatedAt >= 0.0 && r.deadline >= 0.0
    && (r.pid.Some? ==> 1 <= r.pid.value < 0x1_0000_0000)
    && r.checkpoint == r.session
    && |r.reports| <= 2
    && (r.result.Some? ==> ValidResult(r.result.value))
  }

  predicate Validate(s: State) {
    && |s.sessions| <= MAX_SESSIONS_SAVED && |s.tombstones| <= MAX_TOMBSTONES
    && (forall r | r in s.sessions ::
          ValidFields(r) && r.samples >= 0 && (r.phase.Terminal() <==> r.result.Some?))
    && (forall i, j | 0 <= i < j < |s.sessions| :: s.sessions[i].session != s.sessions[j].session)
    && DistinctTombstones(s.tombstones)
    && (forall t | t in s.tombstones :: t.expiresAt >= 0.0)
  }

  /**
   A session's start call: what was on disk when it was made, when its tombstone
   expires, when that was written, and how many tombstones had been lost before.
   */
  datatype Start = Start(request: int, digest: int, session: int, onDisk: State, expiresAt: real, writtenAt: real,
                         losses: nat)
  {
    function Stone(): Tombstone {
      Tombstone(request, digest, session, expiresAt)
    }
  }

  /** Why a tombstone is no longer held: its time was up at a clock reading, or newer ones took its place. */
  datatype Loss = Outlived(tombstone: Tombstone, at: real) | Crowded(tombstone: Tombstone, newer: seq<Tombstone>)
  {
    ghost predicate Fair(clock: seq<real>, issued: int) {
      match this
      case Outlived(t, at) => t.expiresAt <= at && at in clock
      case Crowded(t, newer) =>
        |newer| == MAX_TOMBSTONES && Ordered(newer, issued) && t.session < newer[0].session
    }
  }

  /** Tombstones stand in the order their sessions were issued. */
  ghost predicate Ordered(ts: seq<Tombstone>, issued: int) {
    && (forall i, j | 0 <= i < j < |ts| :: ts[i].session < ts[j].session)
    && (forall t | t in ts :: t.session < issued)
  }

  predicate Holds(ts: seq<Tombstone>, request: int, digest: int, session: int) {
    exists t :: t in ts && t.request == request && t.digest == digest && t.session == session
  }

  predicate Retains(rs: seq<Record>, request: int, digest: int, session: int) {
    exists r :: r in rs && r.request == request && r.digest == digest && r.session == session
  }

  ghost predicate DistinctRecords(rs: seq<Record>) {
    forall i, j | 0 <= i < j < |rs| :: rs[i].session != rs[j].session && rs[i].request != rs[j].request
  }

  predicate DistinctTombstones(ts: seq<Tombstone>) {
    forall i, j | 0 <= i < j < |ts| :: ts[i].request != ts[j].request
  }

  /** One request names one session: records and tombstones never disagree, and every session id was issued. */
  ghost predicate Coherent(s: State, issued: int) {
    && DistinctRecords(s.sessions) && DistinctTombstones(s.tombstones) && Ordered(s.tombstones, issued)
    && (forall r, t | r in s.sessions && t in s.tombstones && r.request == t.request ::
          r.session == t.session && r.digest == t.digest)
    && (forall r | r in s.sessions :: r.session < issued)
  }

  /** The tombstone of this start was lost. */
  ghost predicate Lost(s: Start, losses: seq<Loss>) {
    exists l :: l in losses && l.tombstone == s.Stone()
  }

  /** Every session ever started still has its tombstone, unless that tombstone was lost. */
  ghost predicate Remembered(ts: seq<Tombstone>, starts: seq<Start>, losses: seq<Loss>) {
    forall k | 0 <= k < |starts| :: starts[k].Stone() in ts || Lost(starts[k], losses)
  }

  ghost predicate AllFair(losses: seq<Loss>, clock: seq<real>, issued: int) {
    forall l | l in losses :: l.Fair(clock, issued)
  }

  /**
   Write-ahead: each start found, in a state that was written, its record; and its
   tombstone exactly if that had not expired when the clock was read for the write.
   */
  ghost predicate WrittenAhead(starts: seq<Start>, history: seq<State>, clock: seq<real>) {
    forall k | 0 <= k < |starts| ::
      var s := starts[k];
      && s.onDisk in history && s.writtenAt in clock
      && Retains(s.onDisk.sessions, s.request, s.digest, s.session)
      && (s.Stone() in s.onDisk.tombstones <==> s.writtenAt < s.expiresAt)
  }

  /** A request was started again only after the tombstone of its first session had been lost. */
  ghost predicate OncePerTombstone(starts: seq<Start>, losses: seq<Loss>) {
    && (forall k | 0 <= k < |starts| :: starts[k].losses <= |losses|)
    && (forall i, j | 0 <= i < j < |starts| && starts[i].request == starts[j].request ::
          Lost(starts[i], losses[..starts[j].losses]))
  }

  datatype Written =
    | Saved
    | Invalid      // refused by validation, nothing written
    | Unwritten    // failed before the replace
    | Replaced     // the replace happened, then an exception
    | Crashed

  class Disk {
    var state: State
    /** Session ids are fresh: every id given out is below this. */
    var issued: nat
    ghost var starts: seq<Start>
    /** Every state there ever was in the file, the present one last. */
    ghost var history: seq<State>
    /** Every reading of the clock. */
    ghost var clock: seq<real>
    ghost var losses: seq<Loss>

    ghost predicate Valid()
      reads this
    {
      && Validate(state) && Coherent(state, issued)
      && history != [] && history[|history| - 1] == state
      && AllFair(losses, clock, issued)
      && Remembered(state.tombstones, starts, losses)
      && WrittenAhead(starts, history, clock) && OncePerTombstone(starts, losses)
    }

    /** What time it is, counted from 1970; clocks may be set back. */
    method Now() returns (now: real)
      modifies this`clock
      ensures clock == old(clock) + [now] && now >= 0.0
    {
      now := *;
      now := if now < 0.0 then 0.0 else now;
      clock := clock + [now];
    }

    /** Replace the journal file: all or nothing, and a crash may come on either side. */
    method Write(offered: State) returns (w: Written)
      modifies this`state, this`history
      ensures w.Invalid? <==> !Validate(offered)
      ensures w.Saved? || w.Replaced? ==> Validate(offered) && state == offered && history == old(history) + [offered]
      ensures w.Invalid? || w.Unwritten? ==> state == old(state) && history == old(history)
      ensures w.Crashed? ==>
        || (state == old(state) && history == old(history))
        || (Validate(offered) && state == offered && history == old(history) + [offered])
    {
      if !Validate(offered) {
        return Invalid;
      }
      w := *;
      if w.Invalid? {
        w := Unwritten;
      }
      var late: bool := *;
      if w.Saved? || w.Replaced? || (w.Crashed? && late) {
        state := offered;
        history := history + [offered];
      }
    }
  }
}
