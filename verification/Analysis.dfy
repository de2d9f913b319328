/**
 Two independent folds over the samples of a report: one finds where signals rise or get
 worse, the other how long they stand. They have to agree.
 */
module Analysis {

  import opened Wrappers

  const RESOURCES := 3

  /** rank is the severity's place among none, low, medium, high and critical. */
  datatype Alert = Alert(rank: nat, message: string)

  datatype Sample = Sample(at: real, alerts: map<nat, Alert>, paused: bool, error: bool)

  /** What one sample says about one resource. */
  datatype Reading = Reading(at: real, alert: Option<Alert>)

  datatype Kind = Raised | Escalated

  datatype Change = Change(resource: nat, at: real, rank: nat, kind: Kind, message: string)

  datatype Episode = Episode(resource: nat, rank: nat, start: real, end: real, message: string)

  /** Paused samples repeat old alerts and failed ones carry none; neither says anything. */
  predicate Telling(s: Sample) {
    !s.paused && !s.error
  }

  function Look(s: Sample, r: nat): Reading {
    Reading(s.at, if r in s.alerts then Some(s.alerts[r]) else None)
  }

  function Readings(samples: seq<Sample>, r: nat): seq<Reading> {
    if samples == [] then []
    else
      var last := samples[|samples| - 1];
      Readings(samples[..|samples| - 1], r) + if Telling(last) then [Look(last, r)] else []
  }

  function Rank(x: Reading): nat {
    if x.alert.Some? then x.alert.value.rank else 0
  }

  function Message(x: Reading): string {
    if x.alert.Some? then x.alert.value.message else ""
  }

  // ----- Changes -----

  function Before(rs: seq<Reading>): nat {
    if rs == [] then 0 else Rank(rs[|rs| - 1])
  }

  /** The change a reading makes after what the reading before it said. */
  function ChangeOn(previous: nat, x: Reading, r: nat): seq<Change> {
    if Rank(x) > previous then
      [Change(r, x.at, Rank(x), if previous == 0 then Raised else Escalated, Message(x))]
    else []
  }

  function Changes(rs: seq<Reading>, r: nat): seq<Change> {
    if rs == [] then []
    else
      var n := |rs| - 1;
      Changes(rs[..n], r) + ChangeOn(Before(rs[..n]), rs[n], r)
  }

  // ----- Episodes -----

  /** Closed episodes and the one still open. */
  datatype Standing = Standing(closed: seq<Episode>, current: Option<Episode>)

  function Stand(s: Standing, x: Reading, r: nat): Standing {
    if x.alert.None? then
      if s.current.Some? then Standing(s.closed + [s.current.value], None) else s
    else if s.current.None? then
      s.(current := Some(Episode(r, Rank(x), x.at, x.at, Message(x))))
    else
      var e := s.current.value.(end := x.at);
      s.(current := Some(if Rank(x) > e.rank then e.(rank := Rank(x), message := Message(x)) else e))
  }

  function Stands(rs: seq<Reading>, r: nat): Standing {
    if rs == [] then Standing([], None) else Stand(Stands(rs[..|rs| - 1], r), rs[|rs| - 1], r)
  }

  function Closed(s: Standing): seq<Episode> {
    s.closed + if s.current.Some? then [s.current.value] else []
  }

  function Episodes(rs: seq<Reading>, r: nat): seq<Episode> {
    Closed(Stands(rs, r))
  }

  // ----- Maximal runs of signalled readings -----

  datatype Run = Run(from: nat, to: nat)

  /** In order, disjoint, each unable to grow, and together every signalled reading. */
  ghost predicate Partition(runs: seq<Run>, rs: seq<Reading>) {
    && (forall k | 0 <= k < |runs| :: IsRun(runs[k], rs))
    && (forall k | 0 < k < |runs| :: runs[k - 1].to + 1 < runs[k].from)
    && (forall i | 0 <= i < |rs| && rs[i].alert.Some? ::
          exists k | 0 <= k < |runs| :: runs[k].from <= i <= runs[k].to)
  }

  ghost predicate IsRun(u: Run, rs: seq<Reading>) {
    && u.from <= u.to < |rs|
    && (forall i | u.from <= i <= u.to :: rs[i].alert.Some?)
    && (u.from > 0 ==> rs[u.from - 1].alert.None?)
    && (u.to + 1 < |rs| ==> rs[u.to + 1].alert.None?)
  }

  function OpenRun(rs: seq<Reading>): (r: seq<Run>)
    requires rs != [] && rs[|rs| - 1].alert.Some?
    ensures |r| == 1
  {
    var n := |rs| - 1;
    if n > 0 && rs[n - 1].alert.Some? then [Run(OpenRun(rs[..n])[0].from, n)] else [Run(n, n)]
  }

  /** The runs that have ended before the last reading, or at it when it is clear. */
  function ClosedRuns(rs: seq<Reading>): seq<Run> {
    if rs == [] then []
    else
      var n := |rs| - 1;
      if rs[n].alert.None? && n > 0 && rs[n - 1].alert.Some? then ClosedRuns(rs[..n]) + OpenRun(rs[..n])
      else ClosedRuns(rs[..n])
  }

  function Runs(rs: seq<Reading>): seq<Run> {
    ClosedRuns(rs) + if rs != [] && rs[|rs| - 1].alert.Some? then OpenRun(rs) else []
  }

  /** e tells of the run: its ends, its greatest rank, and the first message at that rank. */
  ghost predicate Describes(e: Episode, u: Run, rs: seq<Reading>, r: nat) {
    && IsRun(u, rs) && e.resource == r
    && e.start == rs[u.from].at && e.end == rs[u.to].at
    && (forall i | u.from <= i <= u.to :: Rank(rs[i]) <= e.rank)
    && exists i | u.from <= i <= u.to :: Peaks(e, u, rs, i)
  }

  /** The first reading of the run at the episode's rank. */
  ghost predicate Peaks(e: Episode, u: Run, rs: seq<Reading>, i: nat)
    requires u.to < |rs| && u.from <= i <= u.to
  {
    && Rank(rs[i]) == e.rank && Message(rs[i]) == e.message
    && forall j | u.from <= j < i :: Rank(rs[j]) < e.rank
  }

  lemma DescribesExtended(e: Episode, u: Run, rs: seq<Reading>, r: nat)
    requires rs != [] && Describes(e, u, rs[..|rs| - 1], r)
    requires u.to + 1 < |rs| - 1 || rs[|rs| - 1].alert.None?
    ensures Describes(e, u, rs, r)
  {
    var n := |rs| - 1;
    var i :| u.from <= i <= u.to && Peaks(e, u, rs[..n], i);
    assert forall j | u.from <= j <= u.to :: rs[..n][j] == rs[j];
    assert Peaks(e, u, rs, i);
  }

  lemma {:induction false} OpenRunNext(rs: seq<Reading>)
    requires rs != [] && rs[|rs| - 1].alert.Some?
    ensures IsRun(OpenRun(rs)[0], rs) && OpenRun(rs)[0].to == |rs| - 1
  {
    var n := |rs| - 1;
    if n > 0 && rs[n - 1].alert.Some? {
      OpenRunNext(rs[..n]);
    }
  }

  /** The open episode after one more signalled reading. */
  lemma CurrentDescribes(e: Episode, rs: seq<Reading>, r: nat)
    requires |rs| > 1 && rs[|rs| - 1].alert.Some? && rs[|rs| - 2].alert.Some?
    requires Describes(e, OpenRun(rs[..|rs| - 1])[0], rs[..|rs| - 1], r)
    ensures var x := rs[|rs| - 1];
      var f := e.(end := x.at);
      Describes(if Rank(x) > f.rank then f.(rank := Rank(x), message := Message(x)) else f, OpenRun(rs)[0], rs, r)
  {
    var n := |rs| - 1;
    OpenRunNext(rs[..n]);
    OpenRunNext(rs);
    var u := OpenRun(rs[..n])[0];
    assert OpenRun(rs)[0] == Run(u.from, n);
    hide OpenRun;
    if Rank(rs[n]) > e.rank {
      StrongerDescribes(e, u, rs, r);
    } else {
      SteadyDescribes(e, u, rs, r);
    }
  }

  lemma StrongerDescribes(e: Episode, u: Run, rs: seq<Reading>, r: nat)
    requires rs != [] && Describes(e, u, rs[..|rs| - 1], r) && u.to == |rs| - 2
    requires IsRun(Run(u.from, |rs| - 1), rs) && Rank(rs[|rs| - 1]) > e.rank
    ensures var x := rs[|rs| - 1];
      Describes(e.(end := x.at, rank := Rank(x), message := Message(x)), Run(u.from, |rs| - 1), rs, r)
  {
    hide IsRun, Rank, Message;
    var n := |rs| - 1;
    var x := rs[n];
    assert u.from <= u.to by { RunBounds(u, rs[..n]); }
    assert forall j | u.from <= j < n :: rs[..n][j] == rs[j];
    assert Peaks(e.(end := x.at, rank := Rank(x), message := Message(x)), Run(u.from, n), rs, n);
  }

  lemma SteadyDescribes(e: Episode, u: Run, rs: seq<Reading>, r: nat)
    requires rs != [] && Describes(e, u, rs[..|rs| - 1], r) && u.to == |rs| - 2
    requires IsRun(Run(u.from, |rs| - 1), rs) && Rank(rs[|rs| - 1]) <= e.rank
    ensures Describes(e.(end := rs[|rs| - 1].at), Run(u.from, |rs| - 1), rs, r)
  {
    var n := |rs| - 1;
    assert u.from <= u.to by { RunBounds(u, rs[..n]); }
    var i :| u.from <= i <= u.to && Peaks(e, u, rs[..n], i);
    hide IsRun, Rank, Message;
    assert forall j | u.from <= j < n :: rs[..n][j] == rs[j];
    assert Peaks(e.(end := rs[n].at), Run(u.from, n), rs, i);
  }

  lemma RunBounds(u: Run, rs: seq<Reading>)
    requires IsRun(u, rs)
    ensures u.from <= u.to < |rs|
  {
  }

  /** The fold's episodes are the runs, one for one and in order. */
  lemma {:induction false} StandsDescribe(rs: seq<Reading>, r: nat)
    ensures var s := Stands(rs, r);
      && |s.closed| == |ClosedRuns(rs)|
      && (forall k | 0 <= k < |s.closed| ::
            Describes(s.closed[k], ClosedRuns(rs)[k], rs, r) && ClosedRuns(rs)[k].to + 1 < |rs|)
      && (s.current.Some? <==> rs != [] && rs[|rs| - 1].alert.Some?)
      && (s.current.Some? ==> Describes(s.current.value, OpenRun(rs)[0], rs, r))
  {
    if rs != [] {
      var n := |rs| - 1;
      StandsDescribe(rs[..n], r);
      var s, t := Stands(rs[..n], r), Stands(rs, r);
      if n > 0 && rs[n - 1].alert.Some? {
        OpenRunNext(rs[..n]);
        if rs[n].alert.Some? {
          CurrentDescribes(s.current.value, rs, r);
        }
      } else if rs[n].alert.Some? {
        OpenRunNext(rs);
        assert Peaks(t.current.value, OpenRun(rs)[0], rs, n);
      }
      hide Describes;
      forall k | 0 <= k < |t.closed|
        ensures Describes(t.closed[k], ClosedRuns(rs)[k], rs, r) && ClosedRuns(rs)[k].to + 1 < |rs|
      {
        if k < |s.closed| {
          DescribesExtended(s.closed[k], ClosedRuns(rs[..n])[k], rs, r);
        } else {
          DescribesExtended(s.current.value, OpenRun(rs[..n])[0], rs, r);
        }
      }
    }
  }

  lemma RunExtended(u: Run, rs: seq<Reading>)
    requires rs != [] && IsRun(u, rs[..|rs| - 1])
    requires u.to + 1 < |rs| - 1 || rs[|rs| - 1].alert.None?
    ensures IsRun(u, rs)
  {
    assert forall i | 0 <= i < |rs| - 1 :: rs[..|rs| - 1][i] == rs[i];
  }

  lemma {:induction false} ClosedRunsAre(rs: seq<Reading>)
    ensures forall k | 0 <= k < |ClosedRuns(rs)| :: IsRun(ClosedRuns(rs)[k], rs) && ClosedRuns(rs)[k].to + 1 < |rs|
  {
    if rs != [] {
      var n := |rs| - 1;
      ClosedRunsAre(rs[..n]);
      if n > 0 && rs[n - 1].alert.Some? {
        OpenRunNext(rs[..n]);
      }
      hide IsRun;
      forall k | 0 <= k < |ClosedRuns(rs)|
        ensures IsRun(ClosedRuns(rs)[k], rs) && ClosedRuns(rs)[k].to + 1 < |rs|
      {
        RunExtended(if k < |ClosedRuns(rs[..n])| then ClosedRuns(rs[..n])[k] else OpenRun(rs[..n])[0], rs);
      }
    }
  }

  lemma {:induction false} ClosedRunsOrder(rs: seq<Reading>)
    ensures forall k | 0 <= k < |ClosedRuns(rs)| :: IsRun(ClosedRuns(rs)[k], rs) && ClosedRuns(rs)[k].to + 1 < |rs|
    ensures forall k | 0 < k < |ClosedRuns(rs)| :: ClosedRuns(rs)[k - 1].to + 1 < ClosedRuns(rs)[k].from
    ensures rs != [] && rs[|rs| - 1].alert.Some? ==>
      forall k | 0 <= k < |ClosedRuns(rs)| :: ClosedRuns(rs)[k].to + 1 < OpenRun(rs)[0].from
  {
    ClosedRunsAre(rs);
    if rs != [] {
      var n := |rs| - 1;
      hide IsRun;
      ClosedRunsOrder(rs[..n]);
    }
  }

  ghost predicate InRun(runs: seq<Run>, i: nat) {
    exists k | 0 <= k < |runs| :: runs[k].from <= i <= runs[k].to
  }

  lemma {:induction false} EverySignalled(rs: seq<Reading>, i: nat)
    requires i < |rs| && rs[i].alert.Some?
    ensures InRun(Runs(rs), i)
  {
    var n, runs := |rs| - 1, Runs(rs);
    if i < n {
      EverySignalled(rs[..n], i);
      var before := Runs(rs[..n]);
      var k :| 0 <= k < |before| && before[k].from <= i <= before[k].to;
      if k < |ClosedRuns(rs[..n])| || rs[n].alert.None? {
        assert runs[k] == before[k];
      } else {
        OpenRunNext(rs[..n]);
        OpenRunNext(rs);
        assert runs[|runs| - 1] == OpenRun(rs)[0];
      }
    } else {
      OpenRunNext(rs);
      assert runs[|runs| - 1] == OpenRun(rs)[0];
    }
  }

  lemma RunsPartition(rs: seq<Reading>)
    ensures Partition(Runs(rs), rs)
  {
    RunsOrdered(rs);
    hide Runs, IsRun;
    forall i | 0 <= i < |rs| && rs[i].alert.Some?
      ensures InRun(Runs(rs), i)
    {
      EverySignalled(rs, i);
    }
  }

  lemma RunsOrdered(rs: seq<Reading>)
    ensures forall k | 0 <= k < |Runs(rs)| :: IsRun(Runs(rs)[k], rs)
    ensures forall k | 0 < k < |Runs(rs)| :: Runs(rs)[k - 1].to + 1 < Runs(rs)[k].from
  {
    ClosedRunsOrder(rs);
    if rs != [] && rs[|rs| - 1].alert.Some? {
      OpenRunNext(rs);
    }
    hide ClosedRuns, OpenRun, IsRun;
  }

  /** Episodes are exactly the maximal runs of signalled readings, in order. */
  lemma EpisodesAreRuns(rs: seq<Reading>, r: nat)
    ensures Partition(Runs(rs), rs)
    ensures |Episodes(rs, r)| == |Runs(rs)|
    ensures forall k | 0 <= k < |Runs(rs)| :: Describes(Episodes(rs, r)[k], Runs(rs)[k], rs, r)
  {
    RunsPartition(rs);
    StandsDescribe(rs, r);
    hide Partition, Describes, Stands, ClosedRuns;
  }

  // ----- The two folds agree -----

  /** Every stored alert says something: the loader drops those of rank zero. */
  ghost predicate Ranked(rs: seq<Reading>) {
    forall i | 0 <= i < |rs| && rs[i].alert.Some? :: rs[i].alert.value.rank > 0
  }

  function RaisedAt(changes: seq<Change>): seq<real> {
    if changes == [] then []
    else
      var last := changes[|changes| - 1];
      RaisedAt(changes[..|changes| - 1]) + if last.kind.Raised? then [last.at] else []
  }

  function Starts(episodes: seq<Episode>): (r: seq<real>)
    ensures |r| == |episodes| && forall i | 0 <= i < |r| :: r[i] == episodes[i].start
  {
    seq(|episodes|, i requires 0 <= i < |episodes| => episodes[i].start)
  }

  lemma {:induction false} RaisedAtConcat(a: seq<Change>, b: seq<Change>)
    ensures RaisedAt(a + b) == RaisedAt(a) + RaisedAt(b)
  {
    if b == [] {
      assert a + b == a;
    } else {
      assert (a + b)[..|a + b| - 1] == a + b[..|b| - 1];
      RaisedAtConcat(a, b[..|b| - 1]);
    }
  }

  /** An episode is open exactly when the last reading had a rank. */
  lemma OpenWhenRanked(rs: seq<Reading>, r: nat)
    requires Ranked(rs)
    ensures Stands(rs, r).current.Some? <==> Before(rs) > 0
  {
    StandsDescribe(rs, r);
    hide Describes, Stands, ClosedRuns, OpenRun;
  }

  /** A reading opens an episode exactly when it raises the signal. */
  lemma RaiseStep(s: Standing, previous: nat, x: Reading, r: nat)
    requires s.current.Some? <==> previous > 0
    requires x.alert.Some? ==> x.alert.value.rank > 0
    ensures Starts(Closed(Stand(s, x, r))) == Starts(Closed(s)) + RaisedAt(ChangeOn(previous, x, r))
  {
    var change := ChangeOn(previous, x, r);
    StartsAppend(s.closed);
    RaisedAtShort(change);
    hide RaisedAt, Starts;
    if s.current.Some? {
      var e := s.current.value;
      assert x.alert.Some? ==> Stand(s, x, r).closed == s.closed && Stand(s, x, r).current.value.start == e.start;
      assert x.alert.None? ==> Closed(Stand(s, x, r)) == s.closed + [e];
    }
  }

  lemma StartsAppend(episodes: seq<Episode>)
    ensures forall e: Episode :: Starts(episodes + [e]) == Starts(episodes) + [e.start]
    ensures forall e: Episode, f: Episode ::
      e.start == f.start ==> Starts(episodes + [e]) == Starts(episodes + [f])
    ensures Starts(episodes + []) == Starts(episodes)
  {
    assert episodes + [] == episodes;
  }

  lemma RaisedAtShort(changes: seq<Change>)
    requires |changes| <= 1
    ensures RaisedAt(changes) == if changes != [] && changes[0].kind.Raised? then [changes[0].at] else []
  {
    if changes != [] {
      assert changes[..0] == [];
    }
  }

  /** One raise per episode, at the moment it starts. */
  lemma {:induction false} RaisesStartEpisodes(rs: seq<Reading>, r: nat)
    requires Ranked(rs)
    ensures RaisedAt(Changes(rs, r)) == Starts(Episodes(rs, r))
  {
    if rs != [] {
      var n := |rs| - 1;
      RaisesStartEpisodes(rs[..n], r);
      OpenWhenRanked(rs[..n], r);
      StandsUnfold(rs, r);
      hide Stands, Stand, ChangeOn, Before, RaisedAt;
      RaiseStep(Stands(rs[..n], r), Before(rs[..n]), rs[n], r);
      RaisedAtConcat(Changes(rs[..n], r), ChangeOn(Before(rs[..n]), rs[n], r));
    } else {
      NothingRaised(r);
    }
  }

  lemma NothingRaised(r: nat)
    ensures RaisedAt(Changes([], r)) == [] && Starts(Episodes([], r)) == []
  {
  }

  lemma StandsUnfold(rs: seq<Reading>, r: nat)
    requires rs != []
    ensures Stands(rs, r) == Stand(Stands(rs[..|rs| - 1], r), rs[|rs| - 1], r)
  {
  }

  lemma {:induction false} ChangeIn(rs: seq<Reading>, r: nat, i: nat)
    requires i < |rs|
    ensures forall c | c in ChangeOn(Before(rs[..i]), rs[i], r) :: c in Changes(rs, r)
  {
    var n := |rs| - 1;
    if i < n {
      ChangeIn(rs[..n], r, i);
      assert rs[..n][..i] == rs[..i];
    }
  }

  /** Somewhere inside an episode a change reaches its severity, with its message. */
  ghost predicate Reached(e: Episode, u: Run, rs: seq<Reading>, changes: seq<Change>) {
    exists c, i :: c in changes && ReachesAt(c, e, u, rs, i)
  }

  ghost predicate ReachesAt(c: Change, e: Episode, u: Run, rs: seq<Reading>, i: int) {
    && u.from <= i <= u.to && i < |rs|
    && c.at == rs[i].at && c.rank == e.rank && c.message == e.message && c.resource == e.resource
  }

  lemma SeverityReached(e: Episode, u: Run, rs: seq<Reading>, r: nat)
    requires Ranked(rs) && Describes(e, u, rs, r)
    ensures Reached(e, u, rs, Changes(rs, r))
  {
    var i :| u.from <= i <= u.to && Peaks(e, u, rs, i);
    assert Peaks(e, u, rs, i);
    ChangeIn(rs, r, i);
    var previous := Before(rs[..i]);
    assert rs[i].alert.Some? && rs[i].alert.value.rank > 0;
    if i > u.from {
      assert previous == Rank(rs[i - 1]);
    } else if i > 0 {
      assert rs[i - 1].alert.None?;
    }
    assert previous < Rank(rs[i]);
    var c := ChangeOn(previous, rs[i], r)[0];
    assert c in ChangeOn(previous, rs[i], r);
    assert ReachesAt(c, e, u, rs, i);
  }

  // ----- Without the ranks the loader sees to -----

  /** A run of signalled readings begins here. */
  predicate BeginsRun(rs: seq<Reading>, i: nat)
    requires i < |rs|
  {
    rs[i].alert.Some? && (i > 0 ==> rs[i - 1].alert.None?)
  }

  /** The rank rises from zero here. */
  predicate RisesFromZero(rs: seq<Reading>, i: nat)
    requires i < |rs|
  {
    Rank(rs[i]) > 0 && (i > 0 ==> Rank(rs[i - 1]) == 0)
  }

  /** Each run begins above rank zero, and inside a run nothing above zero follows a rank of zero. */
  predicate SoundRanks(rs: seq<Reading>) {
    forall i: nat | i < |rs| ::
      && (BeginsRun(rs, i) ==> Rank(rs[i]) > 0)
      && (i > 0 && rs[i - 1].alert.Some? && Rank(rs[i - 1]) == 0 ==> Rank(rs[i]) == 0)
  }

  /** The times at which runs begin, or ranks rise from zero. */
  function RunTimes(rs: seq<Reading>): seq<real> {
    if rs == [] then []
    else RunTimes(rs[..|rs| - 1]) + if BeginsRun(rs, |rs| - 1) then [rs[|rs| - 1].at] else []
  }

  function RiseTimes(rs: seq<Reading>): seq<real> {
    if rs == [] then []
    else RiseTimes(rs[..|rs| - 1]) + if RisesFromZero(rs, |rs| - 1) then [rs[|rs| - 1].at] else []
  }

  lemma {:induction false} RaisesAreRises(rs: seq<Reading>, r: nat)
    ensures RaisedAt(Changes(rs, r)) == RiseTimes(rs)
  {
    if rs != [] {
      var n := |rs| - 1;
      RaisesAreRises(rs[..n], r);
      RaisedAtConcat(Changes(rs[..n], r), ChangeOn(Before(rs[..n]), rs[n], r));
      RaisedAtShort(ChangeOn(Before(rs[..n]), rs[n], r));
    }
  }

  lemma {:induction false} StartsAreRunTimes(rs: seq<Reading>, r: nat)
    ensures Starts(Episodes(rs, r)) == RunTimes(rs)
  {
    if rs != [] {
      var n := |rs| - 1;
      StartsAreRunTimes(rs[..n], r);
      StandsUnfold(rs, r);
      CurrentIsOpen(rs[..n], r);
      StartsAppend(Stands(rs[..n], r).closed);
      hide Stands, Starts;
    }
  }

  lemma CurrentIsOpen(rs: seq<Reading>, r: nat)
    ensures Stands(rs, r).current.Some? <==> rs != [] && rs[|rs| - 1].alert.Some?
  {
  }

  ghost predicate TimesRise(rs: seq<Reading>) {
    forall i, j | 0 <= i < j < |rs| :: rs[i].at < rs[j].at
  }

  lemma {:induction false} TimesWithin(rs: seq<Reading>, t: real)
    requires forall i | 0 <= i < |rs| :: rs[i].at < t
    ensures t !in RunTimes(rs) && t !in RiseTimes(rs)
  {
    if rs != [] {
      TimesWithin(rs[..|rs| - 1], t);
    }
  }

  /** With rising times, the two lists are equal only if they agree at every reading. */
  lemma {:induction false} EqualTimes(rs: seq<Reading>)
    requires TimesRise(rs) && RunTimes(rs) == RiseTimes(rs)
    ensures forall i: nat | i < |rs| :: BeginsRun(rs, i) <==> RisesFromZero(rs, i)
  {
    if rs != [] {
      var n := |rs| - 1;
      var x, y := RunTimes(rs[..n]), RiseTimes(rs[..n]);
      TimesWithin(rs[..n], rs[n].at);
      LastDecides(x, y, rs[n].at, BeginsRun(rs, n), RisesFromZero(rs, n));
      EqualTimes(rs[..n]);
      forall i: nat | i < n
        ensures BeginsRun(rs, i) <==> RisesFromZero(rs, i)
      {
        assert BeginsRun(rs[..n], i) <==> RisesFromZero(rs[..n], i);
      }
    }
  }

  lemma LastDecides(x: seq<real>, y: seq<real>, t: real, a: bool, b: bool)
    requires t !in x && t !in y
    requires x + (if a then [t] else []) == y + (if b then [t] else [])
    ensures a == b && x == y
  {
    var left, right := x + (if a then [t] else []), y + (if b then [t] else []);
    assert x + [] == x && y + [] == y;
    assert a ==> t in left;
    assert b ==> t in right;
    if a && b {
      assert x == left[..|left| - 1] && y == right[..|right| - 1];
    }
  }

  lemma {:induction false} EqualWhereAlike(rs: seq<Reading>)
    requires forall i: nat | i < |rs| :: BeginsRun(rs, i) <==> RisesFromZero(rs, i)
    ensures RunTimes(rs) == RiseTimes(rs)
  {
    if rs != [] {
      var n := |rs| - 1;
      forall i: nat | i < n
        ensures BeginsRun(rs[..n], i) <==> RisesFromZero(rs[..n], i)
      {
        assert BeginsRun(rs, i) <==> RisesFromZero(rs, i);
      }
      EqualWhereAlike(rs[..n]);
    }
  }

  lemma SoundRanksAlike(rs: seq<Reading>)
    ensures SoundRanks(rs) <==> forall i: nat | i < |rs| :: BeginsRun(rs, i) <==> RisesFromZero(rs, i)
  {
    if SoundRanks(rs) {
      forall i: nat | i < |rs|
        ensures BeginsRun(rs, i) <==> RisesFromZero(rs, i)
      {
      }
    } else {
      var i: nat :| i < |rs| && !(
          && (BeginsRun(rs, i) ==> Rank(rs[i]) > 0)
          && (i > 0 && rs[i - 1].alert.Some? && Rank(rs[i - 1]) == 0 ==> Rank(rs[i]) == 0));
      assert !(BeginsRun(rs, i) <==> RisesFromZero(rs, i));
    }
  }

  /**
   Whatever the ranks: raises and episodes match one for one, at equal times, exactly
   when each run begins above rank zero and none rises from zero on its way.
   */
  lemma FoldsAgreeExactly(rs: seq<Reading>, r: nat)
    ensures SoundRanks(rs) ==> RaisedAt(Changes(rs, r)) == Starts(Episodes(rs, r))
    ensures TimesRise(rs) && RaisedAt(Changes(rs, r)) == Starts(Episodes(rs, r)) ==> SoundRanks(rs)
  {
    RaisesAreRises(rs, r);
    StartsAreRunTimes(rs, r);
    SoundRanksAlike(rs);
    hide RaisedAt, Starts, Changes, Episodes, SoundRanks, BeginsRun, RisesFromZero;
    if forall i: nat | i < |rs| :: BeginsRun(rs, i) <==> RisesFromZero(rs, i) {
      EqualWhereAlike(rs);
    }
    if TimesRise(rs) && RunTimes(rs) == RiseTimes(rs) {
      EqualTimes(rs);
    }
  }

  /** For one, an alert of rank zero would make an episode that was never raised. */
  lemma RankZeroDisagrees()
    ensures var rs := [Reading(0.0, Some(Alert(0, "")))];
      |Episodes(rs, 0)| == 1 && Changes(rs, 0) == [] && !SoundRanks(rs)
  {
    var rs := [Reading(0.0, Some(Alert(0, "")))];
    assert rs[..0] == [];
    assert Stands(rs, 0) == Stand(Stands([], 0), rs[0], 0);
    assert BeginsRun(rs, 0);
  }

  // ----- The two passes over a report -----

  function ChangesOf(changes: seq<Change>, r: nat): seq<Change> {
    if changes == [] then []
    else
      var last := changes[|changes| - 1];
      ChangesOf(changes[..|changes| - 1], r) + if last.resource == r then [last] else []
  }

  function EpisodesOf(episodes: seq<Episode>, r: nat): seq<Episode> {
    if episodes == [] then []
    else
      var last := episodes[|episodes| - 1];
      EpisodesOf(episodes[..|episodes| - 1], r) + if last.resource == r then [last] else []
  }

  lemma {:induction false} EpisodesOfConcat(a: seq<Episode>, b: seq<Episode>, r: nat)
    ensures EpisodesOf(a + b, r) == EpisodesOf(a, r) + EpisodesOf(b, r)
  {
    if b == [] {
      assert a + b == a;
    } else {
      assert (a + b)[..|a + b| - 1] == a + b[..|b| - 1];
      EpisodesOfConcat(a, b[..|b| - 1], r);
    }
  }

  /** What the first pass knows of a resource after some readings. */
  ghost predicate Tracks(changes: seq<Change>, previous: map<nat, nat>, rs: seq<Reading>, r: nat) {
    r in previous && previous[r] == Before(rs) && ChangesOf(changes, r) == Changes(rs, r)
  }

  /** Resources below q have seen the sample, the others not yet. */
  ghost predicate Passed(changes: seq<Change>, previous: map<nat, nat>, seen: seq<Sample>, all: seq<Sample>, q: nat) {
    forall r: nat | r < RESOURCES :: Column(changes, previous, seen, all, q, r)
  }

  ghost predicate Column(changes: seq<Change>, previous: map<nat, nat>, seen: seq<Sample>, all: seq<Sample>,
                         q: nat, r: nat)
  {
    Tracks(changes, previous, if r < q then Readings(all, r) else Readings(seen, r), r)
  }

  lemma ReadingsAppend(seen: seq<Sample>, s: Sample, r: nat)
    ensures Readings(seen + [s], r) == Readings(seen, r) + if Telling(s) then [Look(s, r)] else []
  {
    assert (seen + [s])[..|seen|] == seen;
  }

  lemma ChangesOfAppend(changes: seq<Change>, more: seq<Change>, q: nat, r: nat)
    requires |more| <= 1 && (more != [] ==> more[0].resource == q)
    ensures ChangesOf(changes + more, r) == ChangesOf(changes, r) + if r == q then more else []
  {
    if more == [] {
      assert changes + more == changes;
    } else {
      assert (changes + more)[..|changes|] == changes;
    }
  }

  lemma TracksNext(changes: seq<Change>, previous: map<nat, nat>, rs: seq<Reading>, x: Reading, q: nat, r: nat)
    requires Tracks(changes, previous, rs, r) && q in previous
    ensures Tracks(changes + ChangeOn(previous[q], x, q), previous[q := Rank(x)],
                   if r == q then rs + [x] else rs, r)
  {
    ChangesOfAppend(changes, ChangeOn(previous[q], x, q), q, r);
    if r == q {
      assert (rs + [x])[..|rs|] == rs;
    }
  }

  lemma PassStep(changes: seq<Change>, previous: map<nat, nat>, seen: seq<Sample>, s: Sample, q: nat)
    requires q < RESOURCES && Telling(s) && Passed(changes, previous, seen, seen + [s], q)
    ensures q in previous
    ensures Passed(changes + ChangeOn(previous[q], Look(s, q), q), previous[q := Rank(Look(s, q))],
                   seen, seen + [s], q + 1)
  {
    assert Column(changes, previous, seen, seen + [s], q, q);
    ReadingsAppend(seen, s, q);
    hide Readings, ChangeOn, Changes, ChangesOf;
    var grown, known := changes + ChangeOn(previous[q], Look(s, q), q), previous[q := Rank(Look(s, q))];
    var all, next := seen + [s], q + 1;
    forall r: nat | r < RESOURCES
      ensures Column(grown, known, seen, all, next, r)
    {
      assert Column(changes, previous, seen, seen + [s], q, r);
      TracksNext(changes, previous, if r < q then Readings(seen + [s], r) else Readings(seen, r), Look(s, q), q, r);
    }
  }

  /** A sample that tells nothing leaves every resource where it is. */
  lemma PassNothing(changes: seq<Change>, previous: map<nat, nat>, seen: seq<Sample>, s: Sample)
    requires Passed(changes, previous, seen, seen, 0) && !Telling(s)
    ensures Passed(changes, previous, seen + [s], seen + [s], 0)
  {
    hide Tracks, Readings;
    forall r: nat | r < RESOURCES
      ensures Column(changes, previous, seen + [s], seen + [s], 0, r)
    {
      assert Column(changes, previous, seen, seen, 0, r);
      ReadingsAppend(seen, s, r);
      assert Readings(seen, r) + [] == Readings(seen, r);
    }
  }

  /** Where signals appear or get worse; within one sample, resource by resource. */
  method SignalChanges(samples: seq<Sample>) returns (changes: seq<Change>)
    ensures forall r: nat | r < RESOURCES :: ChangesOf(changes, r) == Changes(Readings(samples, r), r)
  {
    hide Readings, Changes, ChangesOf, ChangeOn, Passed;
    changes := [];
    var previous: map<nat, nat> := map[0 := 0, 1 := 0, 2 := 0];
    NothingSeen(previous);
    for k := 0 to |samples|
      invariant Passed(changes, previous, samples[..k], samples[..k], 0)
    {
      var s := samples[k];
      ghost var seen := samples[..k];
      assert samples[..k + 1] == seen + [s];
      if Telling(s) {
        PassStart(changes, previous, seen, seen + [s], 0);
        for q := 0 to RESOURCES
          invariant Passed(changes, previous, seen, seen + [s], q)
        {
          PassStep(changes, previous, seen, s, q);
          var x := Look(s, q);
          changes := changes + ChangeOn(previous[q], x, q);
          previous := previous[q := Rank(x)];
        }
        PassStart(changes, previous, seen, seen + [s], RESOURCES);
      } else {
        PassNothing(changes, previous, seen, s);
      }
    }
    assert samples[..|samples|] == samples;
    PassDone(changes, previous, samples);
  }

  lemma PassDone(changes: seq<Change>, previous: map<nat, nat>, samples: seq<Sample>)
    requires Passed(changes, previous, samples, samples, 0)
    ensures forall r: nat | r < RESOURCES :: ChangesOf(changes, r) == Changes(Readings(samples, r), r)
  {
    hide Readings, Changes, ChangesOf;
    forall r: nat | r < RESOURCES
      ensures ChangesOf(changes, r) == Changes(Readings(samples, r), r)
    {
      assert Column(changes, previous, samples, samples, 0, r);
    }
  }

  /** Before the first resource and after the last, only one of the two sample lists matters. */
  lemma PassStart(changes: seq<Change>, previous: map<nat, nat>, seen: seq<Sample>, all: seq<Sample>, q: nat)
    ensures q == 0 && Passed(changes, previous, seen, seen, 0) ==> Passed(changes, previous, seen, all, 0)
    ensures q == RESOURCES && Passed(changes, previous, seen, all, q) ==> Passed(changes, previous, all, all, 0)
  {
    hide Tracks;
    forall r: nat | r < RESOURCES
      ensures q == 0 && Column(changes, previous, seen, seen, 0, r) ==> Column(changes, previous, seen, all, 0, r)
      ensures q == RESOURCES && Column(changes, previous, seen, all, q, r) ==> Column(changes, previous, all, all, 0, r)
    {
    }
  }

  lemma NothingSeen(previous: map<nat, nat>)
    requires previous == map[0 := 0, 1 := 0, 2 := 0]
    ensures Passed([], previous, [], [], 0)
  {
  }

  // ----- The second pass -----

  ghost predicate Groups(episodes: seq<Episode>, current: map<nat, Episode>, rs: seq<Reading>, r: nat) {
    var s := Stands(rs, r);
    && EpisodesOf(episodes, r) == s.closed
    && (r in current <==> s.current.Some?)
    && (r in current ==> current[r] == s.current.value)
  }

  ghost predicate Grouped(episodes: seq<Episode>, current: map<nat, Episode>, seen: seq<Sample>, all: seq<Sample>,
                          q: nat, r: nat)
  {
    Groups(episodes, current, if r < q then Readings(all, r) else Readings(seen, r), r)
  }

  ghost predicate AllGrouped(episodes: seq<Episode>, current: map<nat, Episode>, seen: seq<Sample>,
                             all: seq<Sample>, q: nat)
  {
    forall r: nat | r < RESOURCES :: Grouped(episodes, current, seen, all, q, r)
  }

  lemma EpisodesOfAppend(episodes: seq<Episode>, e: Episode, r: nat)
    ensures EpisodesOf(episodes + [e], r) == EpisodesOf(episodes, r) + if e.resource == r then [e] else []
  {
    assert (episodes + [e])[..|episodes|] == episodes;
  }

  lemma {:induction false} CurrentResource(rs: seq<Reading>, r: nat)
    ensures Stands(rs, r).current.Some? ==> Stands(rs, r).current.value.resource == r
  {
    if rs != [] {
      CurrentResource(rs[..|rs| - 1], r);
    }
  }

  /** One resource's turn: what it stores is what the fold says, and the others are untouched. */
  lemma GroupStep(episodes: seq<Episode>, current: map<nat, Episode>, rs: seq<Reading>, x: Reading, q: nat, r: nat,
                  after: seq<Episode>, standing: map<nat, Episode>)
    requires Groups(episodes, current, rs, r)
    requires x.alert.None? && q in current ==>
      current[q].resource == q && after == episodes + [current[q]] && standing == current - {q}
    requires x.alert.None? && q !in current ==> after == episodes && standing == current
    requires x.alert.Some? ==> after == episodes && standing == current[q :=
      Stand(Standing([], if q in current then Some(current[q]) else None), x, q).current.value]
    ensures Groups(after, standing, if r == q then rs + [x] else rs, r)
  {
    if after != episodes {
      EpisodesOfAppend(episodes, current[q], r);
    }
    if r == q {
      assert (rs + [x])[..|rs|] == rs;
      assert Stands(rs + [x], r) == Stand(Stands(rs, r), x, r);
    }
  }

  lemma GroupAll(episodes: seq<Episode>, current: map<nat, Episode>, seen: seq<Sample>, s: Sample, q: nat,
                 after: seq<Episode>, standing: map<nat, Episode>)
    requires q < RESOURCES && Telling(s) && AllGrouped(episodes, current, seen, seen + [s], q)
    requires var x := Look(s, q);
      && (x.alert.None? && q in current ==> after == episodes + [current[q]] && standing == current - {q})
      && (x.alert.None? && q !in current ==> after == episodes && standing == current)
      && (x.alert.Some? ==> after == episodes && standing == current[q :=
            Stand(Standing([], if q in current then Some(current[q]) else None), x, q).current.value])
    ensures AllGrouped(after, standing, seen, seen + [s], q + 1)
  {
    hide Stand, Readings, EpisodesOf;
    var all, next := seen + [s], q + 1;
    ReadingsAppend(seen, s, q);
    assert Grouped(episodes, current, seen, all, q, q);
    CurrentResource(Readings(seen, q), q);
    hide Groups;
    forall r: nat | r < RESOURCES
      ensures Grouped(after, standing, seen, all, next, r)
    {
      assert Grouped(episodes, current, seen, all, q, r);
      GroupStep(episodes, current, if r < q then Readings(all, r) else Readings(seen, r), Look(s, q), q, r,
                after, standing);
    }
  }

  lemma GroupNothing(episodes: seq<Episode>, current: map<nat, Episode>, seen: seq<Sample>, s: Sample)
    requires AllGrouped(episodes, current, seen, seen, 0) && !Telling(s)
    ensures AllGrouped(episodes, current, seen + [s], seen + [s], 0)
  {
    hide Groups, Readings;
    forall r: nat | r < RESOURCES
      ensures Grouped(episodes, current, seen + [s], seen + [s], 0, r)
    {
      assert Grouped(episodes, current, seen, seen, 0, r);
      ReadingsAppend(seen, s, r);
      assert Readings(seen, r) + [] == Readings(seen, r);
    }
  }

  lemma GroupTurn(episodes: seq<Episode>, current: map<nat, Episode>, seen: seq<Sample>, all: seq<Sample>, q: nat)
    ensures q == 0 && AllGrouped(episodes, current, seen, seen, 0) ==> AllGrouped(episodes, current, seen, all, 0)
    ensures q == RESOURCES && AllGrouped(episodes, current, seen, all, q)
      ==> AllGrouped(episodes, current, all, all, 0)
  {
    hide Groups;
    forall r: nat | r < RESOURCES
      ensures q == 0 && Grouped(episodes, current, seen, seen, 0, r) ==> Grouped(episodes, current, seen, all, 0, r)
      ensures q == RESOURCES && Grouped(episodes, current, seen, all, q, r)
        ==> Grouped(episodes, current, all, all, 0, r)
    {
    }
  }

  lemma NothingGrouped()
    ensures AllGrouped([], map[], [], [], 0)
  {
  }

  /** After the last sample, resources below q have had their open episode closed. */
  ghost predicate Finishes(found: seq<Episode>, current: map<nat, Episode>, samples: seq<Sample>, q: nat, r: nat) {
    var rs := Readings(samples, r);
    var s := Stands(rs, r);
    && EpisodesOf(found, r) == (if r < q then Closed(s) else s.closed)
    && (r in current <==> s.current.Some?)
    && (r in current ==> current[r] == s.current.value)
  }

  ghost predicate Finished(found: seq<Episode>, current: map<nat, Episode>, samples: seq<Sample>, q: nat) {
    forall r: nat | r < RESOURCES :: Finishes(found, current, samples, q, r)
  }

  lemma FinishStart(found: seq<Episode>, current: map<nat, Episode>, samples: seq<Sample>)
    requires AllGrouped(found, current, samples, samples, 0)
    ensures Finished(found, current, samples, 0)
  {
    hide EpisodesOf, Readings, Stands;
    forall r: nat | r < RESOURCES
      ensures Finishes(found, current, samples, 0, r)
    {
      assert Grouped(found, current, samples, samples, 0, r);
    }
  }

  lemma FinishStep(found: seq<Episode>, current: map<nat, Episode>, samples: seq<Sample>, q: nat)
    requires q < RESOURCES && Finished(found, current, samples, q)
    ensures Finished(if q in current then found + [current[q]] else found, current, samples, q + 1)
  {
    hide EpisodesOf, Readings, Stands;
    var next, after := q + 1, if q in current then found + [current[q]] else found;
    assert Finishes(found, current, samples, q, q);
    CurrentResource(Readings(samples, q), q);
    forall r: nat | r < RESOURCES
      ensures Finishes(after, current, samples, next, r)
    {
      assert Finishes(found, current, samples, q, r);
      if q in current {
        EpisodesOfAppend(found, current[q], r);
      }
    }
  }

  // ----- Order -----

  ghost predicate TimeOrdered(samples: seq<Sample>) {
    forall i, j | 0 <= i < j < |samples| :: samples[i].at <= samples[j].at
  }

  predicate NotAfter(e: Episode, f: Episode) {
    e.start < f.start || (e.start == f.start && e.resource <= f.resource)
  }

  ghost predicate Ordered(episodes: seq<Episode>) {
    forall i, j | 0 <= i < j < |episodes| :: NotAfter(episodes[i], episodes[j])
  }

  ghost predicate StartsRise(episodes: seq<Episode>) {
    forall i, j | 0 <= i < j < |episodes| :: episodes[i].start <= episodes[j].start
  }

  lemma {:induction false} EpisodesOfMember(episodes: seq<Episode>, r: nat)
    ensures forall e :: e in EpisodesOf(episodes, r) <==> e in episodes && e.resource == r
  {
    if episodes != [] {
      var n := |episodes| - 1;
      EpisodesOfMember(episodes[..n], r);
      assert episodes == episodes[..n] + [episodes[n]];
    }
  }

  lemma {:induction false} NoneOf(episodes: seq<Episode>, r: nat)
    requires forall f | f in episodes :: f.resource != r
    ensures EpisodesOf(episodes, r) == []
  {
    if episodes != [] {
      var n := |episodes| - 1;
      assert episodes[n] in episodes;
      NoneOf(episodes[..n], r);
    }
  }

  lemma NoneBehind(sorted: seq<Episode>, e: Episode, p: nat)
    requires p <= |sorted| && forall i | p <= i < |sorted| :: !NotAfter(sorted[i], e)
    requires forall f | f in EpisodesOf(sorted, e.resource) :: f.start <= e.start
    ensures EpisodesOf(sorted[p..], e.resource) == []
  {
    EpisodesOfMember(sorted, e.resource);
    hide EpisodesOf;
    forall f | f in sorted[p..]
      ensures f.resource != e.resource
    {
      assert f in sorted && !NotAfter(f, e);
    }
    NoneOf(sorted[p..], e.resource);
  }

  /** A stable insertion: behind everything that does not come after it. */
  lemma InsertedOf(sorted: seq<Episode>, e: Episode, p: nat, r: nat)
    requires p <= |sorted| && (forall i | p <= i < |sorted| :: !NotAfter(sorted[i], e))
    requires e.resource == r ==> forall f | f in EpisodesOf(sorted, r) :: f.start <= e.start
    ensures EpisodesOf(sorted[..p] + [e] + sorted[p..], r)
         == EpisodesOf(sorted, r) + if e.resource == r then [e] else []
  {
    hide EpisodesOf, NotAfter;
    var front, back := sorted[..p], sorted[p..];
    assert sorted == front + back;
    EpisodesOfAppend(front, e, r);
    EpisodesOfConcat(front + [e], back, r);
    EpisodesOfConcat(front, back, r);
    if e.resource == r {
      NoneBehind(sorted, e, p);
    }
  }

  lemma InsertedOrdered(sorted: seq<Episode>, e: Episode, p: nat)
    requires p <= |sorted| && Ordered(sorted)
    requires (p > 0 ==> NotAfter(sorted[p - 1], e)) && (p < |sorted| ==> !NotAfter(sorted[p], e))
    ensures Ordered(sorted[..p] + [e] + sorted[p..])
    ensures forall i | p <= i < |sorted| :: !NotAfter(sorted[i], e)
  {
    forall i | 0 <= i < p
      ensures NotAfter(sorted[i], e)
    {
      assert i == p - 1 || NotAfter(sorted[i], sorted[p - 1]);
    }
    forall i | p <= i < |sorted|
      ensures !NotAfter(sorted[i], e) && NotAfter(e, sorted[i])
    {
      assert i == p || NotAfter(sorted[p], sorted[i]);
    }
  }

  /** Sorting by start and resource keeps each resource's episodes in order when their starts rise. */
  method Sorted(episodes: seq<Episode>) returns (sorted: seq<Episode>)
    ensures Ordered(sorted) && multiset(sorted) == multiset(episodes)
    ensures forall r: nat | StartsRise(EpisodesOf(episodes, r)) :: EpisodesOf(sorted, r) == EpisodesOf(episodes, r)
  {
    hide Ordered, NotAfter, StartsRise, EpisodesOf;
    NothingSorted();
    sorted := [];
    for k := 0 to |episodes|
      invariant Ordered(sorted) && multiset(sorted) == multiset(episodes[..k])
      invariant forall r: nat | StartsRise(EpisodesOf(episodes[..k], r)) ::
        EpisodesOf(sorted, r) == EpisodesOf(episodes[..k], r)
    {
      var e := episodes[k];
      assert episodes[..k + 1] == episodes[..k] + [e];
      var p := |sorted|;
      while p > 0 && !NotAfter(sorted[p - 1], e)
        invariant 0 <= p <= |sorted| && (p < |sorted| ==> !NotAfter(sorted[p], e))
      {
        p := p - 1;
      }
      InsertedOrdered(sorted, e, p);
      InsertedAll(sorted, episodes[..k], e, p);
      InsertedOnce(sorted, e, p);
      sorted := sorted[..p] + [e] + sorted[p..];
    }
    assert episodes[..|episodes|] == episodes;
  }

  lemma NothingSorted()
    ensures Ordered([])
  {
  }

  lemma InsertedOnce(sorted: seq<Episode>, e: Episode, p: nat)
    requires p <= |sorted|
    ensures multiset(sorted[..p] + [e] + sorted[p..]) == multiset(sorted) + multiset{e}
  {
    assert sorted == sorted[..p] + sorted[p..];
  }

  lemma InsertedAll(sorted: seq<Episode>, seen: seq<Episode>, e: Episode, p: nat)
    requires p <= |sorted| && (forall i | p <= i < |sorted| :: !NotAfter(sorted[i], e))
    requires forall r: nat | StartsRise(EpisodesOf(seen, r)) :: EpisodesOf(sorted, r) == EpisodesOf(seen, r)
    ensures forall r: nat | StartsRise(EpisodesOf(seen + [e], r)) ::
      EpisodesOf(sorted[..p] + [e] + sorted[p..], r) == EpisodesOf(seen + [e], r)
  {
    hide EpisodesOf;
    forall r: nat | StartsRise(EpisodesOf(seen + [e], r))
      ensures EpisodesOf(sorted[..p] + [e] + sorted[p..], r) == EpisodesOf(seen + [e], r)
    {
      EpisodesOfAppend(seen, e, r);
      var was, now := EpisodesOf(seen, r), EpisodesOf(seen + [e], r);
      assert forall i | 0 <= i < |was| :: now[i] == was[i];
      assert StartsRise(was);
      if e.resource == r {
        assert now[|was|] == e;
        assert forall i | 0 <= i < |was| :: was[i].start <= e.start;
      }
      InsertedOf(sorted, e, p, r);
    }
  }

  lemma {:induction false} ReadingsOrdered(samples: seq<Sample>, r: nat)
    requires TimeOrdered(samples)
    ensures forall i, j | 0 <= i < j < |Readings(samples, r)| :: Readings(samples, r)[i].at <= Readings(samples, r)[j].at
    ensures samples != [] ==> forall x | x in Readings(samples, r) :: x.at <= samples[|samples| - 1].at
  {
    if samples != [] {
      ReadingsOrdered(samples[..|samples| - 1], r);
      var rs := Readings(samples[..|samples| - 1], r);
      assert forall i | 0 <= i < |rs| :: rs[i] in rs;
    }
  }

  lemma DescribedStart(e: Episode, u: Run, rs: seq<Reading>, r: nat)
    requires Describes(e, u, rs, r)
    ensures u.from <= u.to < |rs| && e.start == rs[u.from].at
  {
  }

  lemma StartsOrdered(samples: seq<Sample>, r: nat)
    requires TimeOrdered(samples)
    ensures StartsRise(Episodes(Readings(samples, r), r))
  {
    var rs := Readings(samples, r);
    var episodes, runs := Episodes(rs, r), Runs(rs);
    ReadingsOrdered(samples, r);
    EpisodesAreRuns(rs, r);
    hide Episodes, Runs, Readings, Describes, Partition;
    forall i, j | 0 <= i < j < |episodes|
      ensures episodes[i].start <= episodes[j].start
    {
      RunsApart(runs, rs, i, j);
      DescribedStart(episodes[i], runs[i], rs, r);
      DescribedStart(episodes[j], runs[j], rs, r);
    }
  }

  lemma {:induction false} RunsApart(runs: seq<Run>, rs: seq<Reading>, i: nat, j: nat)
    requires Partition(runs, rs) && i < j < |runs|
    ensures runs[i].from <= runs[i].to < runs[j].from
    decreases j
  {
    assert IsRun(runs[i], rs);
    if i < j - 1 {
      RunsApart(runs, rs, i, j - 1);
    }
  }

  /** The stretches during which each resource was signalled, sorted. */
  method AlertEpisodes(samples: seq<Sample>) returns (episodes: seq<Episode>)
    ensures Ordered(episodes)
    ensures TimeOrdered(samples) ==>
      forall r: nat | r < RESOURCES :: EpisodesOf(episodes, r) == Episodes(Readings(samples, r), r)
  {
    hide AllGrouped, Readings, EpisodesOf, Finished;
    var found: seq<Episode> := [];
    var current: map<nat, Episode> := map[];
    NothingGrouped();
    for k := 0 to |samples|
      invariant AllGrouped(found, current, samples[..k], samples[..k], 0)
    {
      var s := samples[k];
      ghost var seen := samples[..k];
      assert samples[..k + 1] == seen + [s];
      if Telling(s) {
        GroupTurn(found, current, seen, seen + [s], 0);
        for q := 0 to RESOURCES
          invariant AllGrouped(found, current, seen, seen + [s], q)
        {
          var x := Look(s, q);
          ghost var before, standing := found, current;
          if x.alert.None? {
            if q in current {
              found := found + [current[q]];
              current := current - {q};
            }
          } else if q !in current {
            current := current[q := Episode(q, Rank(x), x.at, x.at, Message(x))];
          } else {
            var e := current[q].(end := x.at);
            if Rank(x) > e.rank {
              e := e.(rank := Rank(x), message := Message(x));
            }
            current := current[q := e];
          }
          GroupAll(before, standing, seen, s, q, found, current);
        }
        GroupTurn(found, current, seen, seen + [s], RESOURCES);
      } else {
        GroupNothing(found, current, seen, s);
      }
    }
    assert samples[..|samples|] == samples;
    FinishStart(found, current, samples);
    for q := 0 to RESOURCES
      invariant Finished(found, current, samples, q)
    {
      FinishStep(found, current, samples, q);
      if q in current {
        found := found + [current[q]];
      }
    }
    episodes := Sorted(found);
    AllFinished(found, current, samples, episodes);
  }

  lemma AllFinished(found: seq<Episode>, current: map<nat, Episode>, samples: seq<Sample>, sorted: seq<Episode>)
    requires Finished(found, current, samples, RESOURCES)
    requires forall r: nat | StartsRise(EpisodesOf(found, r)) :: EpisodesOf(sorted, r) == EpisodesOf(found, r)
    ensures TimeOrdered(samples) ==>
      forall r: nat | r < RESOURCES :: EpisodesOf(sorted, r) == Episodes(Readings(samples, r), r)
  {
    if TimeOrdered(samples) {
      forall r: nat | r < RESOURCES
        ensures EpisodesOf(sorted, r) == Episodes(Readings(samples, r), r)
      {
        StartsOrdered(samples, r);
        assert Finishes(found, current, samples, RESOURCES, r);
      }
    }
  }

  /**
   In a report whose stored alerts all have a rank, as the loader makes them: each
   resource's raises and episodes match one for one at equal times, the episodes are
   the maximal runs of signalled samples, and some change in each reaches its severity.
   */
  lemma FoldsAgree(samples: seq<Sample>, r: nat)
    requires forall i | 0 <= i < |samples| && r in samples[i].alerts :: samples[i].alerts[r].rank > 0
    ensures var rs := Readings(samples, r);
      && RaisedAt(Changes(rs, r)) == Starts(Episodes(rs, r))
      && |Episodes(rs, r)| == |Runs(rs)| && Partition(Runs(rs), rs)
      && forall k | 0 <= k < |Runs(rs)| ::
           && Describes(Episodes(rs, r)[k], Runs(rs)[k], rs, r)
           && Reached(Episodes(rs, r)[k], Runs(rs)[k], rs, Changes(rs, r))
  {
    var rs := Readings(samples, r);
    ReadingsRanked(samples, r);
    RaisesStartEpisodes(rs, r);
    EpisodesAreRuns(rs, r);
    hide Episodes, Runs, Readings, Changes, Describes, Reached, Partition, RaisedAt, Starts;
    forall k | 0 <= k < |Runs(rs)|
      ensures Reached(Episodes(rs, r)[k], Runs(rs)[k], rs, Changes(rs, r))
    {
      SeverityReached(Episodes(rs, r)[k], Runs(rs)[k], rs, r);
    }
  }

  lemma {:induction false} ReadingsRanked(samples: seq<Sample>, r: nat)
    requires forall i | 0 <= i < |samples| && r in samples[i].alerts :: samples[i].alerts[r].rank > 0
    ensures Ranked(Readings(samples, r))
  {
    if samples != [] {
      ReadingsRanked(samples[..|samples| - 1], r);
    }
  }
}
