/**
 Per-process histories of one monitored tree: starts, exits and restarts per
 sample, bounded point histories, and who accounts for the growth seen over a
 window. One metric is followed; each metric is kept the same way.
 */
module ProcessHistory {

  import opened Wrappers

  const MAX_POINTS := 1024
  const MAX_EVENTS_PER_SAMPLE := 64
  const RESTART_SECONDS := 10.0
  const SAME_START := 0.001

  /** One process of a sample; value is None when it was not measured or access was denied. */
  datatype Process = Process(pid: nat, created: Option<real>, name: string, ppid: Option<nat>,
                             dead: bool, value: Option<real>)

  datatype Point = Point(stamp: real, value: Option<real>)

  datatype Track = Track(pid: nat, created: Option<real>, name: string, ppid: Option<nat>,
                         firstSeen: real, lastSeen: real, points: Option<seq<Point>>, samples: nat,
                         exitedAt: Option<real>, existedAtReset: bool)
  {
    /** Without both creation times, the PID alone decides. */
    predicate SameProcess(p: Process) {
      created.None? || p.created.None? || -SAME_START <= created.value - p.created.value <= SAME_START
    }
  }

  predicate Placeholder(name: string) {
    name == "access-denied" || name == "terminated" || name == "unavailable" || name == ""
  }

  // ----- Points of one track -----

  function Bounded(ps: seq<Point>): seq<Point> {
    if |ps| > MAX_POINTS then ps[|ps| - MAX_POINTS..] else ps
  }

  function Fresh(ps: seq<Point>, cutoff: real): seq<Point> {
    if ps != [] && ps[0].stamp < cutoff then Fresh(ps[1..], cutoff) else ps
  }

  function Recorded(t: Track, now: real, p: Process, maxAge: real): Track {
    var u := t.(lastSeen := now, samples := t.samples + 1,
                created := if t.created.None? then p.created else t.created,
                name := if Placeholder(t.name) && !Placeholder(p.name) then p.name else t.name,
                ppid := if p.ppid.Some? then p.ppid else t.ppid);
    if t.points.None? then u
    else u.(points := Some(Fresh(Bounded(t.points.value + [Point(now, p.value)]), now - maxAge)))
  }

  /** The value of a point stamped s, or zero. */
  function At(ps: seq<Point>, s: real): real {
    if ps == [] then 0.0
    else
      var last := ps[|ps| - 1];
      if last.stamp == s then (if last.value.Some? then last.value.value else 0.0)
      else At(ps[..|ps| - 1], s)
  }

  function ValueAt(t: Track, s: real): real {
    if t.points.Some? then At(t.points.value, s) else 0.0
  }

  function SumAt(ts: seq<Track>, s: real): real {
    if ts == [] then 0.0 else SumAt(ts[..|ts| - 1], s) + ValueAt(ts[|ts| - 1], s)
  }

  /** Samples later than this have lost none of their points. */
  predicate Held(lost: Option<real>, s: real) {
    lost.None? || lost.value < s
  }

  function Later(a: Option<real>, b: Option<real>): (r: Option<real>)
    ensures forall s: real :: Held(r, s) <==> Held(a, s) && Held(b, s)
  {
    if a.None? then b else if b.None? || b.value <= a.value then a else b
  }

  /** The newest stamp of points that are given up. */
  function LossOf(ps: seq<Point>): Option<real> {
    if ps == [] then None else Some(ps[|ps| - 1].stamp)
  }

  /** What recording costs: the stamps that fall off the front. */
  function RecordLoss(t: Track, now: real, p: Process, maxAge: real): Option<real> {
    if t.points.None? then None
    else
      var all := t.points.value + [Point(now, p.value)];
      var kept := Fresh(Bounded(all), now - maxAge);
      if |kept| <= |all| then LossOf(all[..|all| - |kept|]) else None
  }

  ghost predicate Increasing(ps: seq<Point>) {
    forall i, j | 0 <= i < j < |ps| :: ps[i].stamp < ps[j].stamp
  }

  predicate Has(ps: seq<Point>, s: real) {
    exists j | 0 <= j < |ps| :: ps[j].stamp == s && ps[j].value.Some?
  }

  /** What existed when the windows were restarted was there before them, whatever its clock said. */
  predicate Began(t: Track, s: real) {
    t.existedAtReset || t.firstSeen <= s
  }

  predicate Alive(t: Track, s: real) {
    Began(t, s) && (t.exitedAt.None? || s < t.exitedAt.value)
  }

  /** A track's points lie in its life, in order. */
  ghost predicate Shaped(t: Track) {
    t.points.Some? ==>
      && Increasing(t.points.value)
      && forall j | 0 <= j < |t.points.value| :: Alive(t, t.points.value[j].stamp)
  }

  /** None of its points is later than s, or none even as late. */
  ghost predicate Until(t: Track, s: real) {
    t.points.Some? ==> forall j | 0 <= j < |t.points.value| :: t.points.value[j].stamp <= s
  }

  ghost predicate Before(t: Track, s: real) {
    t.points.Some? ==> forall j | 0 <= j < |t.points.value| :: t.points.value[j].stamp < s
  }

  predicate Covers(t: Track, s: real) {
    t.points.Some? && Has(t.points.value, s)
  }

  /** It has a measured point for every held sample it lived through. */
  ghost predicate Covered(t: Track, times: seq<real>, lost: Option<real>) {
    forall i | 0 <= i < |times| && Alive(t, times[i]) && Held(lost, times[i]) :: Covers(t, times[i])
  }

  ghost predicate Whole(t: Track, times: seq<real>, lost: Option<real>) {
    Shaped(t) && Covered(t, times, lost)
  }

  lemma FreshSuffix(ps: seq<Point>, cutoff: real)
    ensures |Fresh(ps, cutoff)| <= |ps| && Fresh(ps, cutoff) == ps[|ps| - |Fresh(ps, cutoff)|..]
    ensures ps != [] && ps[|ps| - 1].stamp >= cutoff ==> Fresh(ps, cutoff) != []
  {
    var n := FreshFrom(ps, cutoff);
    hide Fresh;
    assert |ps[n..]| == |ps| - n;
  }

  lemma {:induction false} FreshFrom(ps: seq<Point>, cutoff: real) returns (n: nat)
    ensures n <= |ps| && Fresh(ps, cutoff) == ps[n..]
    ensures ps != [] && ps[|ps| - 1].stamp >= cutoff ==> n < |ps|
  {
    if ps != [] && ps[0].stamp < cutoff {
      var k := FreshFrom(ps[1..], cutoff);
      n := k + 1;
      assert Fresh(ps, cutoff) == Fresh(ps[1..], cutoff);
      hide Fresh;
      RestSuffix(ps, n);
    } else {
      n := 0;
    }
  }

  lemma RestSuffix(ps: seq<Point>, n: nat)
    requires 0 < n <= |ps|
    ensures ps[1..][n - 1..] == ps[n..]
  {
  }

  lemma {:induction false} AtPoint(ps: seq<Point>, j: nat, s: real)
    requires Increasing(ps) && j < |ps| && ps[j].stamp == s
    ensures At(ps, s) == if ps[j].value.Some? then ps[j].value.value else 0.0
  {
    if j < |ps| - 1 {
      assert ps[j].stamp < ps[|ps| - 1].stamp;
      AtPoint(ps[..|ps| - 1], j, s);
    }
  }

  lemma {:induction false} AtNone(ps: seq<Point>, s: real)
    requires forall j | 0 <= j < |ps| :: ps[j].stamp != s
    ensures At(ps, s) == 0.0
  {
    if ps != [] {
      AtNone(ps[..|ps| - 1], s);
    }
  }

  /** Giving up old points changes nothing at later times. */
  lemma {:induction false} AtSuffix(ps: seq<Point>, n: nat, s: real)
    requires Increasing(ps) && n <= |ps| && (n > 0 ==> ps[n - 1].stamp < s)
    ensures At(ps[n..], s) == At(ps, s)
  {
    if n == |ps| {
      AtNone(ps, s);
    } else if ps[|ps| - 1].stamp != s {
      assert ps[n..][..|ps| - n - 1] == ps[..|ps| - 1][n..];
      AtSuffix(ps[..|ps| - 1], n, s);
    }
  }

  /** A point of a later time is appended, and n old ones fall off. */
  lemma KeptPoints(ps: seq<Point>, now: real, value: Option<real>, cutoff: real) returns (n: nat)
    requires Increasing(ps) && cutoff <= now && forall j | 0 <= j < |ps| :: ps[j].stamp < now
    ensures var all := ps + [Point(now, value)];
      n <= |ps| && Increasing(all) && Fresh(Bounded(all), cutoff) == all[n..]
  {
    var all := ps + [Point(now, value)];
    FreshSuffix(Bounded(all), cutoff);
    n := |all| - |Fresh(Bounded(all), cutoff)|;
  }

  lemma KeptValues(ps: seq<Point>, now: real, value: Option<real>, n: nat, s: real)
    requires var all := ps + [Point(now, value)]; Increasing(all) && n <= |ps|
    requires (n > 0 ==> ps[n - 1].stamp < s) && s <= now
    ensures var all := ps + [Point(now, value)];
      At(all[n..], s) == if s == now then (if value.Some? then value.value else 0.0) else At(ps, s)
  {
    var all := ps + [Point(now, value)];
    assert all[|ps|] == Point(now, value);
    assert all[..|ps|] == ps;
    AtSuffix(all, n, s);
  }

  lemma KeptHas(ps: seq<Point>, now: real, value: Option<real>, n: nat, s: real)
    requires Increasing(ps) && n <= |ps| && (n > 0 ==> ps[n - 1].stamp < s) && Has(ps, s)
    ensures Has((ps + [Point(now, value)])[n..], s)
  {
    var j :| 0 <= j < |ps| && ps[j].stamp == s && ps[j].value.Some?;
    assert (ps + [Point(now, value)])[n..][j - n] == ps[j];
  }

  /** The time before which recording may have lost points; it lies in the past. */
  ghost predicate Recording(t: Track, times: seq<real>, lost: Option<real>, now: real) {
    && Whole(t, times, lost) && t.exitedAt.None?
    && (forall i | 0 <= i < |times| :: times[i] < now)
    && Before(t, now) && Began(t, now)
  }

  /** Recording a sample adds the process's value at that time, and changes no held one. */
  lemma RecordValues(t: Track, times: seq<real>, lost: Option<real>, now: real, p: Process, maxAge: real)
    requires Recording(t, times, lost, now) && maxAge >= 0.0
    ensures var u, loss := Recorded(t, now, p, maxAge), RecordLoss(t, now, p, maxAge);
      && (loss.Some? ==> loss.value < now)
      && (forall s: real | Held(loss, s) && s < now :: ValueAt(u, s) == ValueAt(t, s))
      && ValueAt(u, now) == if t.points.Some? && p.value.Some? then p.value.value else 0.0
  {
    if t.points.Some? {
      var ps := t.points.value;
      var n := KeptPoints(ps, now, p.value, now - maxAge);
      assert (ps + [Point(now, p.value)])[..n] == ps[..n];
      var loss := RecordLoss(t, now, p, maxAge);
      hide At, Fresh, Bounded;
      forall s: real | Held(loss, s) && s <= now
        ensures At((ps + [Point(now, p.value)])[n..], s)
             == if s == now then (if p.value.Some? then p.value.value else 0.0) else At(ps, s)
      {
        KeptValues(ps, now, p.value, n, s);
      }
    }
  }

  /** The horizon after recording one process: everything up to now when it could not be recorded. */
  function Horizon(t: Track, lost: Option<real>, now: real, p: Process, maxAge: real): Option<real> {
    if p.value.Some? && t.points.Some? then Later(lost, RecordLoss(t, now, p, maxAge)) else Some(now)
  }

  lemma RecordShaped(t: Track, times: seq<real>, lost: Option<real>, now: real, p: Process, maxAge: real)
    requires Recording(t, times, lost, now) && maxAge >= 0.0 && (lost.Some? ==> lost.value <= now)
    ensures Shaped(Recorded(t, now, p, maxAge)) && Until(Recorded(t, now, p, maxAge), now)
  {
    var u := Recorded(t, now, p, maxAge);
    if t.points.Some? {
      var ps := t.points.value;
      var n := KeptPoints(ps, now, p.value, now - maxAge);
      hide Fresh, Bounded;
      var all := ps + [Point(now, p.value)];
      assert u.points.value == all[n..];
      hide Recorded, Covered, Horizon;
      SuffixShaped(u, all, n, now);
    }
  }

  lemma SuffixShaped(t: Track, ps: seq<Point>, n: nat, high: real)
    requires n <= |ps| && Increasing(ps) && t.points == Some(ps[n..])
    requires forall j | 0 <= j < |ps| :: Alive(t, ps[j].stamp) && ps[j].stamp <= high
    ensures Shaped(t) && Until(t, high)
  {
  }

  lemma StillCovers(t: Track, now: real, p: Process, maxAge: real, s: real)
    requires t.points.Some? && Increasing(t.points.value) && maxAge >= 0.0
    requires forall j | 0 <= j < |t.points.value| :: t.points.value[j].stamp < now
    ensures Covers(t, s) && Held(RecordLoss(t, now, p, maxAge), s) ==> Covers(Recorded(t, now, p, maxAge), s)
    ensures p.value.Some? ==> Covers(Recorded(t, now, p, maxAge), now)
  {
    var ps := t.points.value;
    var n := KeptPoints(ps, now, p.value, now - maxAge);
    assert (ps + [Point(now, p.value)])[..n] == ps[..n];
    if Covers(t, s) && Held(RecordLoss(t, now, p, maxAge), s) {
      KeptHas(ps, now, p.value, n, s);
    }
    if p.value.Some? {
      NowHas(ps, now, p.value, n);
    }
  }

  lemma RecordCovered(t: Track, times: seq<real>, lost: Option<real>, now: real, p: Process, maxAge: real)
    requires Recording(t, times, lost, now) && maxAge >= 0.0
    ensures Covered(Recorded(t, now, p, maxAge), times + [now], Horizon(t, lost, now, p, maxAge))
  {
    var u, next := Recorded(t, now, p, maxAge), Horizon(t, lost, now, p, maxAge);
    assert forall s: real :: Alive(u, s) <==> Alive(t, s);
    hide Recorded, Alive, RecordLoss, Covers;
    forall i | 0 <= i < |times + [now]| && Alive(u, (times + [now])[i]) && Held(next, (times + [now])[i])
      ensures Covers(u, (times + [now])[i])
    {
      var s := (times + [now])[i];
      assert t.points.Some?;
      StillCovers(t, now, p, maxAge, s);
      if i < |times| {
        assert Alive(t, times[i]) && Covers(t, times[i]);
      }
    }
  }

  lemma NowHas(ps: seq<Point>, now: real, value: Option<real>, n: nat)
    requires n <= |ps| && value.Some?
    ensures Has((ps + [Point(now, value)])[n..], now)
  {
    assert (ps + [Point(now, value)])[n..][|ps| - n] == Point(now, value);
  }

  // ----- All tracks of a tree -----

  /** One past sample: its time and the total over its processes. */
  datatype Sample = Sample(time: real, total: real)

  function Times(log: seq<Sample>): (r: seq<real>)
    ensures |r| == |log| && forall i | 0 <= i < |r| :: r[i] == log[i].time
  {
    seq(|log|, i requires 0 <= i < |log| => log[i].time)
  }

  /** A deque with a maximal length. */
  function Push<T>(q: seq<T>, x: T, limit: nat): (r: seq<T>)
    requires |q| <= limit
    ensures |r| <= limit
  {
    if limit == 0 then [] else if |q| < limit then q + [x] else q[1..] + [x]
  }

  function TrackLoss(t: Track): Option<real> {
    if t.points.Some? then LossOf(t.points.value) else None
  }

  /** The points given up when a track joins the departed ones. */
  function PushLoss(q: seq<Track>, x: Track, limit: nat): Option<real>
    requires |q| <= limit
  {
    if limit == 0 then TrackLoss(x) else if |q| < limit then None else TrackLoss(q[0])
  }

  function Gone(t: Track, now: real): Track {
    t.(exitedAt := Some(now))
  }

  function Departing(q: seq<Track>, t: Track, now: real, limit: nat): seq<Track>
    requires |q| <= limit
  {
    if t.points.Some? then Push(q, Gone(t, now), limit) else q
  }

  function DepartLoss(q: seq<Track>, t: Track, now: real, limit: nat): Option<real>
    requires |q| <= limit
  {
    if t.points.Some? then PushLoss(q, Gone(t, now), limit) else None
  }

  function Without<T>(xs: seq<T>, i: nat): seq<T>
    requires i < |xs|
  {
    xs[..i] + xs[i + 1..]
  }

  ghost predicate DistinctPids(live: seq<Track>) {
    forall i, j | 0 <= i < j < |live| :: live[i].pid != live[j].pid
  }

  ghost predicate LiveOk(t: Track, times: seq<real>, lost: Option<real>, now: real, done: set<nat>) {
    && t.exitedAt.None? && Began(t, now)
    && (if t.pid in done then t.lastSeen == now && Until(t, now) && Whole(t, times + [now], lost)
        else Before(t, now) && Whole(t, times, lost))
  }

  ghost predicate DepartedOk(t: Track, times: seq<real>, lost: Option<real>, now: real) {
    t.exitedAt.Some? && t.exitedAt.value <= now && t.points.Some? && Whole(t, times, lost)
  }

  ghost predicate SumsTo(live: seq<Track>, departed: seq<Track>, s: real, total: real, lost: Option<real>) {
    Held(lost, s) ==> SumAt(live, s) + SumAt(departed, s) == total
  }

  /** Part-way through a sample taken at now: the pids in done are recorded, and their values sum to sum. */
  ghost predicate Mid(live: seq<Track>, departed: seq<Track>, log: seq<Sample>, lost: Option<real>,
                      now: real, done: set<nat>, sum: real)
  {
    && (forall i | 0 <= i < |log| :: log[i].time < now)
    && (lost.Some? ==> lost.value <= now)
    && DistinctPids(live)
    && (forall i | 0 <= i < |live| :: LiveOk(live[i], Times(log), lost, now, done))
    && (forall i | 0 <= i < |departed| :: DepartedOk(departed[i], Times(log), lost, now))
    && (forall i | 0 <= i < |log| :: SumsTo(live, departed, log[i].time, log[i].total, lost))
    && SumsTo(live, departed, now, sum, lost)
  }

  // ----- Sums -----

  lemma {:induction false} SumConcat(a: seq<Track>, b: seq<Track>, s: real)
    ensures SumAt(a + b, s) == SumAt(a, s) + SumAt(b, s)
  {
    if b == [] {
      assert a + b == a;
    } else {
      assert (a + b)[..|a + b| - 1] == a + b[..|b| - 1];
      SumConcat(a, b[..|b| - 1], s);
    }
  }

  lemma SumOne(t: Track, s: real)
    ensures SumAt([t], s) == ValueAt(t, s)
  {
    assert [t][..0] == [];
  }

  lemma SumWithout(ts: seq<Track>, i: nat, s: real)
    requires i < |ts|
    ensures SumAt(Without(ts, i), s) + ValueAt(ts[i], s) == SumAt(ts, s)
  {
    assert ts == ts[..i] + ([ts[i]] + ts[i + 1..]);
    SumConcat(ts[..i], [ts[i]] + ts[i + 1..], s);
    SumConcat([ts[i]], ts[i + 1..], s);
    SumConcat(ts[..i], ts[i + 1..], s);
    SumOne(ts[i], s);
  }

  lemma SumUpdate(ts: seq<Track>, i: nat, t: Track, s: real)
    requires i < |ts|
    ensures SumAt(ts[i := t], s) + ValueAt(ts[i], s) == SumAt(ts, s) + ValueAt(t, s)
  {
    SumWithout(ts, i, s);
    SumWithout(ts[i := t], i, s);
    assert Without(ts[i := t], i) == Without(ts, i);
  }

  /** A track holds nothing later than what its loss would be. */
  lemma NothingLater(t: Track, s: real)
    requires Shaped(t) && Held(TrackLoss(t), s)
    ensures ValueAt(t, s) == 0.0
  {
    if t.points.Some? {
      AtNone(t.points.value, s);
    }
  }

  lemma NotYet(t: Track, s: real)
    requires Before(t, s)
    ensures ValueAt(t, s) == 0.0
  {
    if t.points.Some? {
      AtNone(t.points.value, s);
    }
  }

  lemma WholeMonotone(t: Track, times: seq<real>, lost: Option<real>, next: Option<real>)
    requires Whole(t, times, lost) && forall s: real :: Held(next, s) ==> Held(lost, s)
    ensures Whole(t, times, next)
  {
  }

  lemma LiveMonotone(t: Track, times: seq<real>, lost: Option<real>, next: Option<real>, now: real,
                     done: set<nat>, pid: nat)
    requires LiveOk(t, times, lost, now, done) && t.pid != pid
    requires forall s: real :: Held(next, s) ==> Held(lost, s)
    ensures LiveOk(t, times, next, now, done + {pid}) && LiveOk(t, times, next, now, done)
  {
    hide Whole;
    if t.pid in done {
      WholeMonotone(t, times + [now], lost, next);
    } else {
      WholeMonotone(t, times, lost, next);
    }
  }

  // ----- The steps of a sample -----

  /** Moving a track to the departed ones loses no sum later than the points it costs. */
  lemma DepartSums(live: seq<Track>, departed: seq<Track>, i: nat, now: real, limit: nat, lost: Option<real>, s: real)
    requires i < |live| && |departed| <= limit && Shaped(Gone(live[i], now))
    requires forall j | 0 <= j < |departed| :: Shaped(departed[j])
    requires Held(DepartLoss(departed, live[i], now, limit), s)
    ensures SumAt(Without(live, i), s) + SumAt(Departing(departed, live[i], now, limit), s)
         == SumAt(live, s) + SumAt(departed, s)
  {
    var t, u := live[i], Gone(live[i], now);
    SumWithout(live, i, s);
    if t.points.Some? {
      hide At, Shaped;
      assert ValueAt(u, s) == ValueAt(t, s);
      if limit == 0 {
        NothingLater(u, s);
      } else if |departed| < limit {
        SumConcat(departed, [u], s);
        SumOne(u, s);
      } else {
        NothingLater(departed[0], s);
        SumWithout(departed, 0, s);
        assert Without(departed, 0) == departed[1..];
        SumConcat(departed[1..], [u], s);
        SumOne(u, s);
      }
    }
  }

  /** Retiring a track that this sample has not recorded. */
  lemma RetireKeeps(live: seq<Track>, departed: seq<Track>, log: seq<Sample>, lost: Option<real>,
                    now: real, done: set<nat>, sum: real, i: nat, limit: nat)
    requires Mid(live, departed, log, lost, now, done, sum) && |departed| <= limit
    requires i < |live| && live[i].pid !in done
    ensures Mid(Without(live, i), Departing(departed, live[i], now, limit), log,
                Later(lost, DepartLoss(departed, live[i], now, limit)), now, done, sum)
  {
    var t := live[i];
    var next := Later(lost, DepartLoss(departed, t, now, limit));
    var rest, away := Without(live, i), Departing(departed, t, now, limit);
    hide Whole, Covered, Alive;
    GoneWhole(t, Times(log), lost, now);
    forall j | 0 <= j < |rest|
      ensures LiveOk(rest[j], Times(log), next, now, done)
    {
      var k := if j < i then j else j + 1;
      assert rest[j] == live[k];
      LiveMonotone(live[k], Times(log), lost, next, now, done, t.pid);
    }
    forall j | 0 <= j < |away|
      ensures DepartedOk(away[j], Times(log), next, now)
    {
      assert away[j] == Gone(t, now) || away[j] in departed;
      WholeMonotone(away[j], Times(log), lost, next);
    }
    forall s: real, total: real | SumsTo(live, departed, s, total, lost)
      ensures SumsTo(rest, away, s, total, next)
    {
      if Held(next, s) {
        DepartSums(live, departed, i, now, limit, lost, s);
      }
    }
  }

  lemma GoneWhole(t: Track, times: seq<real>, lost: Option<real>, now: real)
    requires Whole(t, times, lost) && t.exitedAt.None? && Before(t, now)
    ensures Whole(Gone(t, now), times, lost)
    ensures forall s: real :: ValueAt(Gone(t, now), s) == ValueAt(t, s)
  {
    assert forall s: real :: Alive(Gone(t, now), s) ==> Alive(t, s);
  }

  /** A track without points may begin a history; what it lived through before stays lost. */
  function Opened(t: Track, room: bool): Track {
    if t.points.None? && room then t.(points := Some([])) else t
  }

  function NewTrack(now: real, p: Process, room: bool): Track {
    Track(p.pid, p.created, if Placeholder(p.name) then "" else p.name, p.ppid, now, now,
          if room then Some([]) else None, 0, None, false)
  }

  function ValueOf(p: Process): real {
    if p.value.Some? then p.value.value else 0.0
  }

  /** One process recorded in its track t: the track is whole up to now, at the cost of the horizon. */
  lemma RecordKeeps(t: Track, times: seq<real>, lost: Option<real>, now: real, p: Process, maxAge: real)
    requires Recording(t, times, lost, now) && maxAge >= 0.0 && (lost.Some? ==> lost.value <= now)
    ensures var u, next := Recorded(t, now, p, maxAge), Later(lost, Horizon(t, lost, now, p, maxAge));
      && u.pid == t.pid && u.lastSeen == now && u.exitedAt.None? && Began(u, now) && Until(u, now)
      && Whole(u, times + [now], next)
      && (next.Some? ==> next.value <= now)
      && (forall s: real | Held(next, s) && s < now :: ValueAt(u, s) == ValueAt(t, s))
      && (Held(next, now) ==> ValueAt(u, now) == ValueOf(p))
  {
    RecordShaped(t, times, lost, now, p, maxAge);
    RecordCovered(t, times, lost, now, p, maxAge);
    RecordValues(t, times, lost, now, p, maxAge);
    RecordedFields(t, now, p, maxAge);
    hide Shaped, Covered, Recorded, Until;
    CoveredMonotone(Recorded(t, now, p, maxAge), times + [now], Horizon(t, lost, now, p, maxAge),
                    Later(lost, Horizon(t, lost, now, p, maxAge)));
  }

  lemma RecordedFields(t: Track, now: real, p: Process, maxAge: real)
    ensures var u := Recorded(t, now, p, maxAge);
      && u.pid == t.pid && u.lastSeen == now && u.exitedAt == t.exitedAt && u.points.Some? == t.points.Some?
      && (Began(u, now) <==> Began(t, now))
  {
  }

  lemma CoveredMonotone(t: Track, times: seq<real>, lost: Option<real>, next: Option<real>)
    requires Covered(t, times, lost) && forall s: real :: Held(next, s) ==> Held(lost, s)
    ensures Covered(t, times, next)
  {
  }

  lemma OpenedRecorded(live: seq<Track>, departed: seq<Track>, log: seq<Sample>, lost: Option<real>, now: real,
                       done: set<nat>, sum: real, i: nat, room: bool, p: Process, maxAge: real)
    requires Mid(live, departed, log, lost, now, done, sum) && maxAge >= 0.0
    requires i < |live| && live[i].pid == p.pid && p.pid !in done
    ensures var t := Opened(live[i], room);
      var u, next := Recorded(t, now, p, maxAge), Later(lost, Horizon(t, lost, now, p, maxAge));
      && u.pid == p.pid && u.lastSeen == now && u.exitedAt.None? && Began(u, now) && Until(u, now)
      && Whole(u, Times(log) + [now], next)
      && (next.Some? ==> next.value <= now)
      && (forall s: real | Held(next, s) && s < now :: ValueAt(u, s) == ValueAt(live[i], s))
      && (Held(next, now) ==> ValueAt(u, now) == ValueOf(p))
  {
    var t := Opened(live[i], room);
    assert LiveOk(live[i], Times(log), lost, now, done);
    OpenedRecording(live[i], Times(log), lost, now, room);
    assert t.pid == p.pid;
    hide Recording, Recorded, Whole, Horizon, ValueAt, Mid, LiveOk, Held, Opened;
    RecordKeeps(t, Times(log), lost, now, p, maxAge);
  }

  /** Recording a process in the track it already has. */
  lemma UpdateKeeps(live: seq<Track>, departed: seq<Track>, log: seq<Sample>, lost: Option<real>, now: real,
                    done: set<nat>, sum: real, i: nat, room: bool, p: Process, maxAge: real)
    requires Mid(live, departed, log, lost, now, done, sum) && maxAge >= 0.0
    requires i < |live| && live[i].pid == p.pid && p.pid !in done
    ensures var t := Opened(live[i], room);
      Mid(live[i := Recorded(t, now, p, maxAge)], departed, log, Later(lost, Horizon(t, lost, now, p, maxAge)),
          now, done + {p.pid}, sum + ValueOf(p))
  {
    hide *;
    var t := Opened(live[i], room);
    var u, next := Recorded(t, now, p, maxAge), Later(lost, Horizon(t, lost, now, p, maxAge));
    OpenedRecorded(live, departed, log, lost, now, done, sum, i, room, p, maxAge);
    MidAfter(live, departed, log, lost, next, now, done, sum, i, u, ValueOf(p));
  }

  /** A track that is whole up to now, and holds what it held, takes the place of one not yet recorded. */
  lemma MidAfter(live: seq<Track>, departed: seq<Track>, log: seq<Sample>, lost: Option<real>, next: Option<real>,
                 now: real, done: set<nat>, sum: real, i: nat, u: Track, more: real)
    requires Mid(live, departed, log, lost, now, done, sum)
    requires i < |live| && u.pid == live[i].pid && u.pid !in done
    requires u.exitedAt.None? && u.lastSeen == now && Began(u, now) && Until(u, now) && Whole(u, Times(log) + [now], next)
    requires (next.Some? ==> next.value <= now) && forall s: real :: Held(next, s) ==> Held(lost, s)
    requires forall s: real | Held(next, s) && s < now :: ValueAt(u, s) == ValueAt(live[i], s)
    requires Held(next, now) ==> ValueAt(u, now) == more
    ensures Mid(live[i := u], departed, log, next, now, done + {u.pid}, sum + more)
  {
    hide Recorded, ValueAt, SumAt, Covered;
    assert LiveOk(live[i], Times(log), lost, now, done);
    NotYet(live[i], now);
    SumsGained(live, departed, i, u, now, sum, more, lost, next);
    hide Whole;
    var after := live[i := u];
    assert LiveOk(u, Times(log), next, now, done + {u.pid});
    forall j | 0 <= j < |after|
      ensures LiveOk(after[j], Times(log), next, now, done + {u.pid})
    {
      if j != i {
        LiveMonotone(live[j], Times(log), lost, next, now, done, u.pid);
      }
    }
    hide LiveOk, DepartedOk, SumsTo;
    DepartedMonotone(departed, Times(log), lost, next, now);
    forall k | 0 <= k < |log|
      ensures SumsTo(after, departed, log[k].time, log[k].total, next)
    {
      SumsUpdated(live, departed, i, u, log[k].time, log[k].total, lost, next);
    }
    UpdatedPids(live, i, u);
  }

  lemma UpdatedPids(live: seq<Track>, i: nat, u: Track)
    requires DistinctPids(live) && i < |live| && u.pid == live[i].pid
    ensures DistinctPids(live[i := u])
  {
    assert forall j | 0 <= j < |live| :: live[i := u][j].pid == live[j].pid;
  }

  lemma SumsGained(live: seq<Track>, departed: seq<Track>, i: nat, u: Track, now: real, sum: real, more: real,
                   lost: Option<real>, next: Option<real>)
    requires i < |live| && SumsTo(live, departed, now, sum, lost) && ValueAt(live[i], now) == 0.0
    requires Held(next, now) ==> Held(lost, now) && ValueAt(u, now) == more
    ensures SumsTo(live[i := u], departed, now, sum + more, next)
  {
    SumUpdate(live, i, u, now);
    hide SumAt, ValueAt;
  }

  /** A track that holds the same at a held time leaves the sum there as it was. */
  lemma SumsUpdated(live: seq<Track>, departed: seq<Track>, i: nat, u: Track, s: real, total: real,
                    lost: Option<real>, next: Option<real>)
    requires i < |live| && SumsTo(live, departed, s, total, lost)
    requires Held(next, s) ==> Held(lost, s) && ValueAt(u, s) == ValueAt(live[i], s)
    ensures SumsTo(live[i := u], departed, s, total, next)
  {
    SumUpdate(live, i, u, s);
  }

  lemma OpenedRecording(t: Track, times: seq<real>, lost: Option<real>, now: real, room: bool)
    requires Whole(t, times, lost) && Before(t, now) && Began(t, now) && t.exitedAt.None?
    requires forall i | 0 <= i < |times| :: times[i] < now
    ensures Recording(Opened(t, room), times, lost, now)
    ensures forall s: real :: ValueAt(Opened(t, room), s) == ValueAt(t, s)
  {
  }

  lemma DepartedMonotone(departed: seq<Track>, times: seq<real>, lost: Option<real>, next: Option<real>, now: real)
    requires forall i | 0 <= i < |departed| :: DepartedOk(departed[i], times, lost, now)
    requires forall s: real :: Held(next, s) ==> Held(lost, s)
    ensures forall i | 0 <= i < |departed| :: DepartedOk(departed[i], times, next, now)
  {
    hide Whole;
    forall i | 0 <= i < |departed|
      ensures DepartedOk(departed[i], times, next, now)
    {
      WholeMonotone(departed[i], times, lost, next);
    }
  }

  lemma NewRecording(now: real, p: Process, room: bool, times: seq<real>, lost: Option<real>)
    requires forall i | 0 <= i < |times| :: times[i] < now
    ensures Recording(NewTrack(now, p, room), times, lost, now)
    ensures forall s: real :: ValueAt(NewTrack(now, p, room), s) == 0.0
  {
  }

  lemma NewRecorded(now: real, p: Process, room: bool, times: seq<real>, lost: Option<real>, maxAge: real)
    requires (forall i | 0 <= i < |times| :: times[i] < now) && (lost.Some? ==> lost.value <= now) && maxAge >= 0.0
    ensures var t := NewTrack(now, p, room);
      var u, next := Recorded(t, now, p, maxAge), Later(lost, Horizon(t, lost, now, p, maxAge));
      && u.pid == p.pid && u.lastSeen == now && u.exitedAt.None? && Began(u, now) && Until(u, now)
      && Whole(u, times + [now], next)
      && (next.Some? ==> next.value <= now)
      && (forall s: real | Held(next, s) && s < now :: ValueAt(u, s) == 0.0)
      && (Held(next, now) ==> ValueAt(u, now) == ValueOf(p))
  {
    var t := NewTrack(now, p, room);
    NewRecording(now, p, room, times, lost);
    assert t.pid == p.pid;
    hide NewTrack, Recording, Recorded, Whole, Horizon, ValueAt, Held, ValueOf, Began, Until;
    RecordKeeps(t, times, lost, now, p, maxAge);
  }

  lemma MidEarlier(live: seq<Track>, departed: seq<Track>, log: seq<Sample>, lost: Option<real>, now: real,
                   done: set<nat>, sum: real)
    requires Mid(live, departed, log, lost, now, done, sum)
    ensures (forall i | 0 <= i < |Times(log)| :: Times(log)[i] < now) && (lost.Some? ==> lost.value <= now)
  {
  }

  /** Recording a process nobody tracks yet. */
  lemma EnterKeeps(live: seq<Track>, departed: seq<Track>, log: seq<Sample>, lost: Option<real>, now: real,
                   done: set<nat>, sum: real, room: bool, p: Process, maxAge: real)
    requires Mid(live, departed, log, lost, now, done, sum) && maxAge >= 0.0
    requires forall i | 0 <= i < |live| :: live[i].pid != p.pid
    ensures var t := NewTrack(now, p, room);
      Mid(live + [Recorded(t, now, p, maxAge)], departed, log, Later(lost, Horizon(t, lost, now, p, maxAge)),
          now, done + {p.pid}, sum + ValueOf(p))
  {
    hide *;
    var t := NewTrack(now, p, room);
    var u, next := Recorded(t, now, p, maxAge), Later(lost, Horizon(t, lost, now, p, maxAge));
    MidEarlier(live, departed, log, lost, now, done, sum);
    NewRecorded(now, p, room, Times(log), lost, maxAge);
    MidEntered(live, departed, log, lost, next, now, done, sum, u, ValueOf(p));
  }

  /** A new track, whole up to now and without a past, joins the live ones. */
  lemma MidEntered(live: seq<Track>, departed: seq<Track>, log: seq<Sample>, lost: Option<real>, next: Option<real>,
                   now: real, done: set<nat>, sum: real, u: Track, more: real)
    requires Mid(live, departed, log, lost, now, done, sum)
    requires forall i | 0 <= i < |live| :: live[i].pid != u.pid
    requires u.exitedAt.None? && u.lastSeen == now && Began(u, now) && Until(u, now) && Whole(u, Times(log) + [now], next)
    requires (next.Some? ==> next.value <= now) && forall s: real :: Held(next, s) ==> Held(lost, s)
    requires forall s: real | Held(next, s) && s < now :: ValueAt(u, s) == 0.0
    requires Held(next, now) ==> ValueAt(u, now) == more
    ensures Mid(live + [u], departed, log, next, now, done + {u.pid}, sum + more)
  {
    hide Recorded, ValueAt, SumAt, Covered, Whole, Until;
    var after := live + [u];
    assert LiveOk(u, Times(log), next, now, done + {u.pid});
    SumsJoined(live, departed, u, now, sum, more, lost, next);
    forall j | 0 <= j < |after|
      ensures LiveOk(after[j], Times(log), next, now, done + {u.pid})
    {
      if j < |live| {
        LiveMonotone(live[j], Times(log), lost, next, now, done, u.pid);
      }
    }
    hide LiveOk, DepartedOk, SumsTo;
    DepartedMonotone(departed, Times(log), lost, next, now);
    forall k | 0 <= k < |log|
      ensures SumsTo(after, departed, log[k].time, log[k].total, next)
    {
      assert log[k].total + 0.0 == log[k].total;
      SumsJoined(live, departed, u, log[k].time, log[k].total, 0.0, lost, next);
    }
  }

  lemma SumsJoined(live: seq<Track>, departed: seq<Track>, u: Track, s: real, total: real, more: real,
                   lost: Option<real>, next: Option<real>)
    requires SumsTo(live, departed, s, total, lost)
    requires Held(next, s) ==> Held(lost, s) && ValueAt(u, s) == more
    ensures SumsTo(live + [u], departed, s, total + more, next)
  {
    SumConcat(live, [u], s);
    SumOne(u, s);
    hide SumAt, ValueAt;
  }

  /** Forgetting the oldest departed track. */
  lemma PruneKeeps(live: seq<Track>, departed: seq<Track>, log: seq<Sample>, lost: Option<real>,
                   now: real, done: set<nat>, sum: real)
    requires Mid(live, departed, log, lost, now, done, sum) && departed != []
    ensures Mid(live, departed[1..], log, Later(lost, TrackLoss(departed[0])), now, done, sum)
  {
    var next := Later(lost, TrackLoss(departed[0]));
    hide Whole;
    forall j | 0 <= j < |live|
      ensures LiveOk(live[j], Times(log), next, now, done)
    {
      LiveMonotone(live[j], Times(log), lost, next, now, done, live[j].pid + 1);
    }
    DepartedMonotone(departed, Times(log), lost, next, now);
    LossIsPast(departed[0], Times(log), lost, now);
    forall s: real, total: real | SumsTo(live, departed, s, total, lost)
      ensures SumsTo(live, departed[1..], s, total, next)
    {
      if Held(next, s) {
        assert DepartedOk(departed[0], Times(log), lost, now);
        ShapedOf(departed[0], Times(log), lost);
        NothingLater(departed[0], s);
        SumWithout(departed, 0, s);
        assert Without(departed, 0) == departed[1..];
      }
    }
  }

  lemma ShapedOf(t: Track, times: seq<real>, lost: Option<real>)
    requires Whole(t, times, lost)
    ensures Shaped(t)
  {
  }

  lemma LossIsPast(t: Track, times: seq<real>, lost: Option<real>, now: real)
    requires DepartedOk(t, times, lost, now)
    ensures TrackLoss(t).Some? ==> TrackLoss(t).value <= now
  {
  }

  // ----- Between samples -----

  /** A track the windows were restarted on: it waits for its next sample, without points. */
  ghost predicate Waits(t: Track) {
    t.exitedAt.None? && t.existedAtReset && (t.points.Some? ==> t.points.value == [])
  }

  /** At rest, every held past sample's total is spread over the tracks' points. */
  ghost predicate Settled(live: seq<Track>, departed: seq<Track>, log: seq<Sample>, lost: Option<real>) {
    && (log == [] ==>
          && departed == [] && lost == None && DistinctPids(live)
          && forall i | 0 <= i < |live| :: Waits(live[i]))
    && (log != [] ==>
          var now := log[|log| - 1].time;
          && (forall i, j | 0 <= i < j < |log| :: log[i].time < log[j].time)
          && (lost.Some? ==> lost.value <= now)
          && DistinctPids(live)
          && (forall i | 0 <= i < |live| ::
                live[i].exitedAt.None? && Began(live[i], now) && Until(live[i], now) && Whole(live[i], Times(log), lost))
          && (forall i | 0 <= i < |departed| :: DepartedOk(departed[i], Times(log), lost, now))
          && (forall i | 0 <= i < |log| :: SumsTo(live, departed, log[i].time, log[i].total, lost)))
  }

  lemma {:induction false} SumNotYet(ts: seq<Track>, s: real)
    requires forall i | 0 <= i < |ts| :: Before(ts[i], s)
    ensures SumAt(ts, s) == 0.0
  {
    if ts != [] {
      SumNotYet(ts[..|ts| - 1], s);
      NotYet(ts[|ts| - 1], s);
    }
  }

  lemma SettledFacts(live: seq<Track>, departed: seq<Track>, log: seq<Sample>, lost: Option<real>)
    requires Settled(live, departed, log, lost)
    ensures log == [] ==> lost == None
    ensures forall i, j | 0 <= i < j < |log| :: log[i].time < log[j].time
  {
  }

  lemma BeginSample(live: seq<Track>, departed: seq<Track>, log: seq<Sample>, lost: Option<real>, now: real)
    requires Settled(live, departed, log, lost) && (log != [] ==> log[|log| - 1].time < now)
    ensures Mid(live, departed, log, lost, now, {}, 0.0)
  {
    hide Covered;
    forall i | 0 <= i < |departed| ensures Before(departed[i], now) {
      assert DepartedOk(departed[i], Times(log), lost, log[|log| - 1].time);
    }
    SumNotYet(live, now);
    SumNotYet(departed, now);
    if log == [] {
      WaitingWhole(live, lost);
    }
  }

  lemma WaitingWhole(live: seq<Track>, lost: Option<real>)
    requires forall i | 0 <= i < |live| :: Waits(live[i])
    ensures forall i | 0 <= i < |live| :: Whole(live[i], [], lost)
  {
  }

  lemma EndSample(live: seq<Track>, departed: seq<Track>, log: seq<Sample>, lost: Option<real>, now: real,
                  done: set<nat>, sum: real)
    requires Mid(live, departed, log, lost, now, done, sum)
    requires forall i, j | 0 <= i < j < |log| :: log[i].time < log[j].time
    requires forall i | 0 <= i < |live| :: live[i].pid in done
    ensures Settled(live, departed, log + [Sample(now, sum)], lost)
  {
    var after := log + [Sample(now, sum)];
    assert Times(after) == Times(log) + [now];
    forall i | 0 <= i < |departed|
      ensures DepartedOk(departed[i], Times(after), lost, now)
    {
      assert !Alive(departed[i], now);
    }
    hide Whole;
  }

  // ----- Splitting a window's growth -----

  /** The values measured in a window, oldest first. */
  function Window(ps: seq<Point>, since: real, until: real): seq<real> {
    if ps == [] then []
    else
      var last := ps[|ps| - 1];
      Window(ps[..|ps| - 1], since, until)
      + if since <= last.stamp <= until && last.value.Some? then [last.value.value] else []
  }

  function Values(t: Track, since: real, until: real): seq<real> {
    if t.points.Some? then Window(t.points.value, since, until) else []
  }

  predicate New(t: Track, since: real) {
    !t.existedAtReset && t.firstSeen > since
  }

  /** New is exactly what had not begun by the start of the window, and what a restart of the windows found never is. */
  lemma NewIsLater(t: Track, since: real)
    ensures New(t, since) <==> !Began(t, since)
    ensures !New(Cleared(t), since)
  {
  }

  predicate ExitedBy(t: Track, until: real) {
    t.exitedAt.Some? && t.exitedAt.value <= until
  }

  /** A track's signed change: its last value unless it left, minus its first unless it arrived. */
  function Change(t: Track, since: real, until: real): real {
    var values := Values(t, since, until);
    if values == [] then 0.0
    else
      (if ExitedBy(t, until) then 0.0 else values[|values| - 1]) - if New(t, since) then 0.0 else values[0]
  }

  function Net(ts: seq<Track>, since: real, until: real): real {
    if ts == [] then 0.0
    else Net(ts[..|ts| - 1], since, until) + Change(ts[|ts| - 1], since, until)
  }

  function Positive(x: real): real {
    if x > 0.0 then x else 0.0
  }

  /** The growth of the tracks that are new in the window, or of those that are not. */
  function Growth(ts: seq<Track>, since: real, until: real, arrived: bool): real {
    if ts == [] then 0.0
    else
      var t := ts[|ts| - 1];
      Growth(ts[..|ts| - 1], since, until, arrived)
      + if New(t, since) == arrived then Positive(Change(t, since, until)) else 0.0
  }

  function Arrivals(ts: seq<Track>, since: real, until: real): nat {
    if ts == [] then 0
    else
      var t := ts[|ts| - 1];
      Arrivals(ts[..|ts| - 1], since, until) + if New(t, since) && Change(t, since, until) > 0.0 then 1 else 0
  }

  predicate Shrank(ts: seq<Track>, since: real, until: real) {
    exists i | 0 <= i < |ts| :: Change(ts[i], since, until) < 0.0
  }

  lemma {:induction false} WindowFirst(ps: seq<Point>, since: real, until: real)
    requires Increasing(ps) && since <= until && Has(ps, since)
    ensures Window(ps, since, until) != [] && Window(ps, since, until)[0] == At(ps, since)
  {
    var j :| 0 <= j < |ps| && ps[j].stamp == since && ps[j].value.Some?;
    AtPoint(ps, j, since);
    var n := |ps| - 1;
    if j < n {
      AtPoint(ps[..n], j, since);
      assert Has(ps[..n], since) by { assert ps[..n][j] == ps[j]; }
      hide At, Has;
      WindowFirst(ps[..n], since, until);
    } else {
      WindowBefore(ps[..n], since, until);
    }
  }

  lemma {:induction false} WindowBefore(ps: seq<Point>, since: real, until: real)
    requires forall j | 0 <= j < |ps| :: ps[j].stamp < since
    ensures Window(ps, since, until) == []
  {
    if ps != [] {
      WindowBefore(ps[..|ps| - 1], since, until);
    }
  }

  lemma {:induction false} WindowLast(ps: seq<Point>, since: real, until: real)
    requires Increasing(ps) && since <= until && Has(ps, until)
    ensures var w := Window(ps, since, until); w != [] && w[|w| - 1] == At(ps, until)
  {
    var j :| 0 <= j < |ps| && ps[j].stamp == until && ps[j].value.Some?;
    AtPoint(ps, j, until);
    var n := |ps| - 1;
    if j < n {
      assert ps[j].stamp < ps[n].stamp;
      assert ps[..n][j] == ps[j];
      WindowLast(ps[..n], since, until);
    }
  }

  /** A non-empty window has a measured point in it; an empty one has none. */
  lemma {:induction false} WindowPoint(ps: seq<Point>, since: real, until: real)
    ensures Window(ps, since, until) != []
      <==> exists j | 0 <= j < |ps| :: since <= ps[j].stamp <= until && ps[j].value.Some?
  {
    if ps != [] {
      var n := |ps| - 1;
      WindowPoint(ps[..n], since, until);
      assert forall j | 0 <= j < n :: ps[..n][j] == ps[j];
      if Window(ps[..n], since, until) != [] {
        var j :| 0 <= j < n && since <= ps[..n][j].stamp <= until && ps[..n][j].value.Some?;
        assert since <= ps[j].stamp <= until && ps[j].value.Some?;
      }
    }
  }

  lemma {:induction false} AtUnmeasured(ps: seq<Point>, s: real)
    requires !exists j | 0 <= j < |ps| :: ps[j].stamp == s && ps[j].value.Some?
    ensures At(ps, s) == 0.0
  {
    if ps != [] {
      var n := |ps| - 1;
      assert !(ps[n].stamp == s && ps[n].value.Some?);
      forall j | 0 <= j < n
        ensures !(ps[..n][j].stamp == s && ps[..n][j].value.Some?)
      {
        assert ps[..n][j] == ps[j];
      }
      AtUnmeasured(ps[..n], s);
    }
  }

  /** The change the code computes is the difference of what the track held at the two ends. */
  lemma ChangeIsDifference(t: Track, times: seq<real>, lost: Option<real>, a: nat, b: nat)
    requires Whole(t, times, lost) && a <= b < |times| && times[a] <= times[b] && Held(lost, times[a])
    ensures Change(t, times[a], times[b]) == ValueAt(t, times[b]) - ValueAt(t, times[a])
  {
    var since, until := times[a], times[b];
    if t.points.Some? {
      var ps := t.points.value;
      WindowPoint(ps, since, until);
      hide Window, At;
      if Values(t, since, until) == [] {
        assert !Has(ps, since) && !Has(ps, until);
        AtUnmeasured(ps, since);
        AtUnmeasured(ps, until);
      } else {
        var j :| 0 <= j < |ps| && since <= ps[j].stamp <= until && ps[j].value.Some?;
        assert Alive(t, ps[j].stamp);
        NewIsLater(t, since);
        if New(t, since) {
          AtNone(ps, since);
        } else {
          assert Alive(t, since) && Covers(t, since);
          WindowFirst(ps, since, until);
        }
        if ExitedBy(t, until) {
          AtNone(ps, until);
        } else {
          assert Alive(t, until) && Covers(t, until);
          WindowLast(ps, since, until);
        }
      }
    }
  }

  lemma {:induction false} NetIsDifference(ts: seq<Track>, times: seq<real>, lost: Option<real>, a: nat, b: nat)
    requires forall i | 0 <= i < |ts| :: Whole(ts[i], times, lost)
    requires a <= b < |times| && times[a] <= times[b] && Held(lost, times[a])
    ensures Net(ts, times[a], times[b]) == SumAt(ts, times[b]) - SumAt(ts, times[a])
  {
    hide Whole;
    if ts != [] {
      NetIsDifference(ts[..|ts| - 1], times, lost, a, b);
      ChangeIsDifference(ts[|ts| - 1], times, lost, a, b);
    }
  }

  /** New plus existing growth bounds the net change, and reaches it only when nothing shrank. */
  lemma {:induction false} GrowthBoundsNet(ts: seq<Track>, since: real, until: real)
    ensures var grown := Growth(ts, since, until, true) + Growth(ts, since, until, false);
      grown >= Net(ts, since, until) && (grown == Net(ts, since, until) <==> !Shrank(ts, since, until))
  {
    if ts != [] {
      var n := |ts| - 1;
      GrowthBoundsNet(ts[..n], since, until);
      ShrankSplit(ts, since, until);
      hide Change, Shrank;
    }
  }

  lemma ShrankSplit(ts: seq<Track>, since: real, until: real)
    requires ts != []
    ensures Shrank(ts, since, until)
      <==> Shrank(ts[..|ts| - 1], since, until) || Change(ts[|ts| - 1], since, until) < 0.0
  {
    hide Change;
    var n := |ts| - 1;
    if Shrank(ts[..n], since, until) {
      var i :| 0 <= i < n && Change(ts[..n][i], since, until) < 0.0;
      assert Change(ts[i], since, until) < 0.0;
    }
    if Shrank(ts, since, until) && !(Change(ts[n], since, until) < 0.0) {
      var i :| 0 <= i < |ts| && Change(ts[i], since, until) < 0.0;
      assert Change(ts[..n][i], since, until) < 0.0;
    }
  }

  /**
   Attribution conserves growth: over a window of sample times that lost no points,
   the signed changes of all tracks sum to the change of the total, across starts,
   exits and reused PIDs.
   */
  lemma AttributionConserves(live: seq<Track>, departed: seq<Track>, log: seq<Sample>, lost: Option<real>,
                             a: nat, b: nat)
    requires Settled(live, departed, log, lost) && a <= b < |log| && Held(lost, log[a].time)
    ensures Net(live + departed, log[a].time, log[b].time) == log[b].total - log[a].total
  {
    hide Whole;
    assert Held(lost, log[b].time);
    NetIsDifference(live + departed, Times(log), lost, a, b);
    SumConcat(live, departed, log[a].time);
    SumConcat(live, departed, log[b].time);
  }

  /** The two parts of the growth bound the change of the total, and reach it exactly when nothing shrank. */
  lemma SplitBoundsChange(live: seq<Track>, departed: seq<Track>, log: seq<Sample>, lost: Option<real>,
                          since: real, until: real)
    requires Settled(live, departed, log, lost)
    ensures forall a, b | 0 <= a <= b < |log| && log[a].time == since && log[b].time == until && Held(lost, since) ::
      var grown := Growth(live + departed, since, until, true) + Growth(live + departed, since, until, false);
      var change := log[b].total - log[a].total;
      grown >= change && (grown == change <==> !Shrank(live + departed, since, until))
  {
    hide Growth, Shrank, Settled;
    GrowthBoundsNet(live + departed, since, until);
    forall a, b | 0 <= a <= b < |log| && log[a].time == since && log[b].time == until && Held(lost, since)
      ensures Net(live + departed, since, until) == log[b].total - log[a].total
    {
      AttributionConserves(live, departed, log, lost, a, b);
    }
  }

  // ----- Restarts -----

  /** An exit that may still be taken for a restart; occurrence is which exit it was. */
  datatype Candidate = Candidate(occurrence: nat, summary: Track)

  /** A start that was counted as a restart, and the exit it consumed. */
  datatype Restart = Restart(at: real, name: string, ppid: Option<nat>, occurrence: nat)

  ghost predicate RestartOk(r: Restart, exits: seq<Track>) {
    && r.occurrence < |exits|
    && var gone := exits[r.occurrence];
    && r.name != "" && gone.name == r.name && gone.ppid == r.ppid
    && gone.exitedAt.Some? && r.at - gone.exitedAt.value <= RESTART_SECONDS
  }

  /** Candidates are exits nobody consumed; each restart consumed a fitting exit of its own. */
  ghost predicate Matched(candidates: seq<Candidate>, exits: seq<Track>, restarts: seq<Restart>) {
    && (forall i | 0 <= i < |candidates| ::
          candidates[i].occurrence < |exits| && exits[candidates[i].occurrence] == candidates[i].summary)
    && (forall i, j | 0 <= i < j < |candidates| :: candidates[i].occurrence < candidates[j].occurrence)
    && (forall i | 0 <= i < |restarts| :: RestartOk(restarts[i], exits))
    && (forall i, j | 0 <= i < j < |restarts| :: restarts[i].occurrence != restarts[j].occurrence)
    && (forall i, j | 0 <= i < |restarts| && 0 <= j < |candidates| ::
          restarts[i].occurrence != candidates[j].occurrence)
  }

  lemma ExitMatched(candidates: seq<Candidate>, exits: seq<Track>, restarts: seq<Restart>, gone: Track, limit: nat)
    requires Matched(candidates, exits, restarts) && |candidates| <= limit
    ensures Matched(Push(candidates, Candidate(|exits|, gone), limit), exits + [gone], restarts)
  {
    var x := Candidate(|exits|, gone);
    AppendMatched(candidates, exits, restarts, gone);
    if |candidates| == limit {
      ForgetMatched(candidates + [x], exits + [gone], restarts, 0);
      assert Without(candidates + [x], 0) == Push(candidates, x, limit);
    }
  }

  lemma AppendMatched(candidates: seq<Candidate>, exits: seq<Track>, restarts: seq<Restart>, gone: Track)
    requires Matched(candidates, exits, restarts)
    ensures Matched(candidates + [Candidate(|exits|, gone)], exits + [gone], restarts)
  {
    forall i | 0 <= i < |restarts|
      ensures RestartOk(restarts[i], exits + [gone])
    {
      assert RestartOk(restarts[i], exits);
    }
  }

  lemma ForgetMatched(candidates: seq<Candidate>, exits: seq<Track>, restarts: seq<Restart>, i: nat)
    requires Matched(candidates, exits, restarts) && i < |candidates|
    ensures Matched(Without(candidates, i), exits, restarts)
  {
    var rest := Without(candidates, i);
    assert forall j | 0 <= j < |rest| :: rest[j] == candidates[if j < i then j else j + 1];
  }

  lemma RestartMatched(candidates: seq<Candidate>, exits: seq<Track>, restarts: seq<Restart>, i: nat, r: Restart)
    requires Matched(candidates, exits, restarts) && i < |candidates|
    requires r.occurrence == candidates[i].occurrence && RestartOk(r, exits)
    ensures Matched(Without(candidates, i), exits, restarts + [r])
  {
    ForgetMatched(candidates, exits, restarts, i);
    var rest := Without(candidates, i);
    assert forall j | 0 <= j < |rest| :: rest[j] == candidates[if j < i then j else j + 1];
  }

  /** Each restart has an exit of its own, so there are no more restarts than exits. */
  lemma RestartsWithinExits(restarts: seq<Restart>, n: nat)
    requires forall i | 0 <= i < |restarts| :: restarts[i].occurrence < n
    requires forall i, j | 0 <= i < j < |restarts| :: restarts[i].occurrence != restarts[j].occurrence
    ensures |restarts| <= n
  {
    var used := set i | 0 <= i < |restarts| :: restarts[i].occurrence;
    OccurrencesDistinct(restarts);
    assert used <= UpTo(n);
    SubsetSmaller(used, UpTo(n));
  }

  lemma {:induction false} OccurrencesDistinct(restarts: seq<Restart>)
    requires forall i, j | 0 <= i < j < |restarts| :: restarts[i].occurrence != restarts[j].occurrence
    ensures |set i | 0 <= i < |restarts| :: restarts[i].occurrence| == |restarts|
  {
    if restarts != [] {
      var n := |restarts| - 1;
      OccurrencesDistinct(restarts[..n]);
      assert (set i | 0 <= i < |restarts| :: restarts[i].occurrence)
          == (set i | 0 <= i < n :: restarts[..n][i].occurrence) + {restarts[n].occurrence};
    }
  }

  ghost function UpTo(n: nat): (r: set<nat>)
    ensures |r| == n && forall i: nat :: i in r <==> i < n
  {
    if n == 0 then {} else UpTo(n - 1) + {n - 1}
  }

  lemma {:induction false} SubsetSmaller(a: set<nat>, b: set<nat>)
    requires a <= b
    ensures |a| <= |b|
  {
    if a != {} {
      var x :| x in a;
      SubsetSmaller(a - {x}, b - {x});
    }
  }

  // ----- Counting -----

  /** How many live tracks keep points. */
  function WithPoints(ts: seq<Track>): (n: nat)
    ensures n <= |ts|
  {
    if ts == [] then 0 else WithPoints(ts[..|ts| - 1]) + if ts[|ts| - 1].points.Some? then 1 else 0
  }

  function One(t: Track): nat {
    if t.points.Some? then 1 else 0
  }

  lemma {:induction false} WithPointsConcat(a: seq<Track>, b: seq<Track>)
    ensures WithPoints(a + b) == WithPoints(a) + WithPoints(b)
  {
    if b == [] {
      assert a + b == a;
    } else {
      assert (a + b)[..|a + b| - 1] == a + b[..|b| - 1];
      WithPointsConcat(a, b[..|b| - 1]);
    }
  }

  lemma WithPointsOne(t: Track)
    ensures WithPoints([t]) == One(t)
  {
    assert [t][..0] == [];
  }

  lemma {:induction false} WithPointsWithout(ts: seq<Track>, i: nat)
    requires i < |ts|
    ensures WithPoints(Without(ts, i)) + One(ts[i]) == WithPoints(ts)
  {
    hide One;
    var n := |ts| - 1;
    if i < n {
      WithPointsWithout(ts[..n], i);
      assert Without(ts, i)[..n - 1] == Without(ts[..n], i);
    } else {
      assert Without(ts, i) == ts[..n];
    }
    assert WithPoints(ts) == WithPoints(ts[..n]) + if ts[n].points.Some? then 1 else 0;
    OneOf(ts[n]);
  }

  lemma OneOf(t: Track)
    ensures One(t) == if t.points.Some? then 1 else 0
  {
  }

  lemma WithPointsUpdate(ts: seq<Track>, i: nat, t: Track)
    requires i < |ts|
    ensures WithPoints(ts[i := t]) + One(ts[i]) == WithPoints(ts) + One(t)
  {
    WithPointsWithout(ts, i);
    WithPointsWithout(ts[i := t], i);
    assert Without(ts[i := t], i) == Without(ts, i);
  }

  lemma {:induction false} AllWithPoints(ts: seq<Track>)
    ensures WithPoints(ts) == |ts| <==> forall i | 0 <= i < |ts| :: ts[i].points.Some?
  {
    if ts != [] {
      var n := |ts| - 1;
      AllWithPoints(ts[..n]);
      assert forall i | 0 <= i < n :: ts[..n][i] == ts[i];
    }
  }

  function Living(ps: seq<Process>): (r: seq<Process>)
    ensures |r| <= |ps|
  {
    if ps == [] then [] else Living(ps[..|ps| - 1]) + if ps[|ps| - 1].dead then [] else [ps[|ps| - 1]]
  }

  function Total(ps: seq<Process>): real {
    if ps == [] then 0.0 else Total(ps[..|ps| - 1]) + ValueOf(ps[|ps| - 1])
  }

  function Pids(ps: seq<Process>): set<nat> {
    set i | 0 <= i < |ps| :: ps[i].pid
  }

  function LivePids(ts: seq<Track>): set<nat> {
    set i | 0 <= i < |ts| :: ts[i].pid
  }

  ghost predicate Distinct(ps: seq<Process>) {
    forall i, j | 0 <= i < j < |ps| :: ps[i].pid != ps[j].pid
  }

  lemma {:induction false} DistinctCount(ps: seq<Process>)
    requires Distinct(ps)
    ensures |Pids(ps)| == |ps|
  {
    if ps != [] {
      var n := |ps| - 1;
      DistinctCount(ps[..n]);
      assert Pids(ps) == Pids(ps[..n]) + {ps[n].pid};
    }
  }

  lemma {:induction false} LiveCount(ts: seq<Track>)
    requires DistinctPids(ts)
    ensures |LivePids(ts)| == |ts|
  {
    if ts != [] {
      var n := |ts| - 1;
      LiveCount(ts[..n]);
      assert LivePids(ts) == LivePids(ts[..n]) + {ts[n].pid};
    }
  }

  lemma PidsNext(ps: seq<Process>, k: nat)
    requires k < |ps|
    ensures Pids(ps[..k + 1]) == Pids(ps[..k]) + {ps[k].pid}
    ensures Total(ps[..k + 1]) == Total(ps[..k]) + ValueOf(ps[k])
  {
    assert ps[..k + 1][..k] == ps[..k];
  }

  // ----- The history object -----

  datatype Kind = Started | Exited | Restarted

  datatype LifecycleEvent = LifecycleEvent(kind: Kind, at: real, pid: nat, name: string, replacedPid: Option<nat>)

  function Shown(name: string): string {
    if name == "" then "unknown" else name
  }

  /** Candidates in order of exit, none of them later than now. */
  ghost predicate Aged(candidates: seq<Candidate>, now: real) {
    && (forall i | 0 <= i < |candidates| ::
          candidates[i].summary.exitedAt.Some? && candidates[i].summary.exitedAt.value <= now)
    && (forall i, j | 0 <= i < j < |candidates| ::
          candidates[i].summary.exitedAt.value <= candidates[j].summary.exitedAt.value)
  }

  predicate Fits(c: Candidate, now: real, name: string, ppid: Option<nat>) {
    && name != "" && c.summary.name == name && c.summary.ppid == ppid
    && c.summary.exitedAt.Some? && now - c.summary.exitedAt.value <= RESTART_SECONDS
  }

  lemma AgedPush(candidates: seq<Candidate>, now: real, x: Candidate, limit: nat)
    requires Aged(candidates, now) && |candidates| <= limit && x.summary.exitedAt == Some(now)
    ensures Aged(Push(candidates, x, limit), now)
  {
  }

  /** A new track takes a free place for points, and is left without only when there is none. */
  lemma FullEntered(live: seq<Track>, done: set<nat>, limit: nat, t: Track)
    requires WithPoints(live) <= limit && (t.points.Some? <==> WithPoints(live) < limit)
    requires Full(live, done, limit) || WithPoints(live) + 1 == limit
    requires forall i | 0 <= i < |live| :: live[i].pid != t.pid
    ensures Full(live + [t], done + {t.pid}, limit)
    ensures WithPoints(live + [t]) == WithPoints(live) + One(t)
  {
    WithPointsConcat(live, [t]);
    WithPointsOne(t);
    hide WithPoints;
    var after := live + [t];
    forall i | 0 <= i < |after| && after[i].pid in done + {t.pid} && after[i].points.None?
      ensures WithPoints(after) == limit
    {
      if i < |live| && WithPoints(live) + 1 != limit {
        assert WithPoints(live) == limit;
      }
    }
  }

  /** A track without points takes a free place, if there is one. */
  lemma FullKnown(live: seq<Track>, done: set<nat>, limit: nat, i: nat, t: Track)
    requires i < |live| && t.pid == live[i].pid && WithPoints(live) <= limit && Full(live, done, limit)
    requires DistinctPids(live) && (t.points.Some? <==> live[i].points.Some? || WithPoints(live) < limit)
    ensures Full(live[i := t], done + {t.pid}, limit)
    ensures WithPoints(live[i := t]) == WithPoints(live) + One(t) - One(live[i])
  {
    WithPointsUpdate(live, i, t);
    OneOf(t);
    OneOf(live[i]);
    hide WithPoints, One;
  }

  /** Retiring a track frees at most one place for points. */
  lemma FullRetired(live: seq<Track>, done: set<nat>, limit: nat, i: nat)
    requires i < |live| && WithPoints(live) <= limit && Full(live, done, limit)
    ensures Full(Without(live, i), done, limit) || WithPoints(Without(live, i)) + 1 == limit
    ensures WithPoints(Without(live, i)) + One(live[i]) == WithPoints(live)
  {
    WithPointsWithout(live, i);
    OneOf(live[i]);
    hide WithPoints, One, Full, Without;
    if WithPoints(live) != limit {
      AllFullWithout(live, done, limit, i);
    }
  }

  lemma AllFullWithout(live: seq<Track>, done: set<nat>, limit: nat, i: nat)
    requires i < |live| && Full(live, done, limit) && WithPoints(live) != limit
    ensures Full(Without(live, i), done, limit)
  {
    hide WithPoints;
    var rest := Without(live, i);
    assert forall j | 0 <= j < |rest| :: rest[j] == live[if j < i then j else j + 1];
  }

  lemma OnlyTrack(live: seq<Track>, i: nat)
    requires DistinctPids(live) && i < |live|
    ensures forall j | 0 <= j < |Without(live, i)| :: Without(live, i)[j].pid != live[i].pid
  {
    var rest := Without(live, i);
    assert forall j | 0 <= j < |rest| :: rest[j] == live[if j < i then j else j + 1];
  }

  lemma MidPids(live: seq<Track>, departed: seq<Track>, log: seq<Sample>, lost: Option<real>,
                now: real, done: set<nat>, sum: real)
    requires Mid(live, departed, log, lost, now, done, sum)
    ensures DistinctPids(live)
  {
  }

  lemma AllRecorded(live: seq<Track>, ps: seq<Process>, limit: nat)
    requires DistinctPids(live) && Distinct(ps) && LivePids(live) == Pids(ps)
    requires WithPoints(live) <= limit && Full(live, Pids(ps), limit)
    ensures |live| == |ps| && WithPoints(live) == if |live| < limit then |live| else limit
    ensures forall i | 0 <= i < |live| :: live[i].pid in Pids(ps)
  {
    LiveCount(live);
    DistinctCount(ps);
    AllWithPoints(live);
    hide WithPoints;
    PidsHeld(live);
  }

  lemma PidsHeld(live: seq<Track>)
    ensures forall i | 0 <= i < |live| :: live[i].pid in LivePids(live)
  {
  }

  lemma NoneDone(live: seq<Track>, ps: seq<Process>)
    ensures Pids(ps[..0]) == {} && Total(ps[..0]) == 0.0 && Full(live, {}, 0)
    ensures forall limit: nat :: Full(live, {}, limit)
    ensures live == [] ==> LivePids(live) == {}
  {
  }

  lemma NotDone(ps: seq<Process>, k: nat)
    requires Distinct(ps) && k < |ps|
    ensures ps[k].pid !in Pids(ps[..k]) && ps[k].pid in Pids(ps) && Pids(ps[..k]) <= Pids(ps)
    ensures AllMeasured(ps) ==> ps[k].value.Some?
  {
  }

  lemma AgedWithout(candidates: seq<Candidate>, now: real, i: nat)
    requires Aged(candidates, now) && i < |candidates|
    ensures Aged(Without(candidates, i), now)
  {
    var rest := Without(candidates, i);
    assert forall j | 0 <= j < |rest| :: rest[j] == candidates[if j < i then j else j + 1];
  }

  lemma CandidateFits(candidates: seq<Candidate>, exits: seq<Track>, restarts: seq<Restart>, i: nat, r: Restart)
    requires Matched(candidates, exits, restarts) && i < |candidates|
    requires r.occurrence == candidates[i].occurrence && Fits(candidates[i], r.at, r.name, r.ppid)
    ensures RestartOk(r, exits) && exits[r.occurrence] == candidates[i].summary
  {
  }

  lemma AgedLater(candidates: seq<Candidate>, log: seq<Sample>, now: real)
    requires log == [] ==> candidates == []
    requires log != [] ==> Aged(candidates, log[|log| - 1].time) && log[|log| - 1].time < now
    ensures Aged(candidates, now)
  {
  }

  function Cleared(t: Track): Track {
    t.(points := if t.points.Some? then Some([]) else None, existedAtReset := true)
  }

  lemma {:induction false} ClearedCount(before: seq<Track>, after: seq<Track>)
    requires |after| == |before| && forall i | 0 <= i < |before| :: after[i] == Cleared(before[i])
    ensures WithPoints(after) == WithPoints(before)
  {
    if before != [] {
      ClearedCount(before[..|before| - 1], after[..|before| - 1]);
    }
  }

  /** With every past sample given up, the tracks only wait for the next one, whatever time it may have. */
  lemma ClearedSettled(before: seq<Track>, after: seq<Track>, departed: seq<Track>, log: seq<Sample>, was: Option<real>)
    requires |after| == |before| && forall i | 0 <= i < |before| :: after[i] == Cleared(before[i])
    requires Settled(before, departed, log, was)
    ensures Settled(after, [], [], None)
  {
    forall i | 0 <= i < |after| ensures Waits(after[i]) {
      assert before[i].exitedAt.None?;
    }
  }

  lemma ForgottenMatched(candidates: seq<Candidate>, exits: seq<Track>, restarts: seq<Restart>)
    requires Matched(candidates, exits, restarts)
    ensures Matched([], exits, restarts)
  {
  }

  /** No sample from the cutoff on is given up between two horizons. */
  ghost predicate Spared(was: Option<real>, lost: Option<real>, cutoff: real) {
    forall s: real | s >= cutoff && Held(was, s) :: Held(lost, s)
  }

  /** Every live track still to be recorded keeps points and has room for one more. */
  ghost predicate Ample(live: seq<Track>, done: set<nat>) {
    forall i | 0 <= i < |live| && live[i].pid !in done :: live[i].points.Some? && |live[i].points.value| < MAX_POINTS
  }

  lemma {:induction false} FreshLoss(ps: seq<Point>, cutoff: real)
    requires Increasing(ps)
    ensures var n := |ps| - |Fresh(ps, cutoff)|; n >= 0 && (n > 0 ==> ps[n - 1].stamp < cutoff)
  {
    if ps != [] && ps[0].stamp < cutoff {
      FreshLoss(ps[1..], cutoff);
    }
  }

  /** Recording a measured process in a track with room costs only what is too old. */
  lemma RecordSpares(t: Track, lost: Option<real>, now: real, p: Process, maxAge: real)
    requires p.value.Some? && t.points.Some? && |t.points.value| < MAX_POINTS && Increasing(t.points.value)
    requires forall j | 0 <= j < |t.points.value| :: t.points.value[j].stamp < now
    ensures Spared(lost, Later(lost, Horizon(t, lost, now, p, maxAge)), now - maxAge)
  {
    FreshLoss(t.points.value + [Point(now, p.value)], now - maxAge);
  }

  lemma SparedTwice(a: Option<real>, b: Option<real>, c: Option<real>, cutoff: real)
    requires Spared(a, b, cutoff) && Spared(b, c, cutoff)
    ensures Spared(a, c, cutoff)
  {
  }

  lemma MidPoints(live: seq<Track>, departed: seq<Track>, log: seq<Sample>, lost: Option<real>,
                  now: real, done: set<nat>, sum: real, i: nat)
    requires Mid(live, departed, log, lost, now, done, sum) && i < |live| && live[i].pid !in done
    requires live[i].points.Some?
    ensures Increasing(live[i].points.value)
    ensures forall j | 0 <= j < |live[i].points.value| :: live[i].points.value[j].stamp < now
  {
    assert LiveOk(live[i], Times(log), lost, now, done);
  }

  lemma PruneSpares(live: seq<Track>, departed: seq<Track>, log: seq<Sample>, lost: Option<real>,
                    now: real, done: set<nat>, sum: real, cutoff: real)
    requires Mid(live, departed, log, lost, now, done, sum) && departed != []
    requires departed[0].exitedAt.Some? ==> departed[0].exitedAt.value < cutoff
    ensures Spared(lost, Later(lost, TrackLoss(departed[0])), cutoff)
  {
    assert DepartedOk(departed[0], Times(log), lost, now);
  }

  lemma AmpleWithout(live: seq<Track>, done: set<nat>, i: nat)
    requires i < |live| && Ample(live, done)
    ensures Ample(Without(live, i), done)
  {
    var rest := Without(live, i);
    assert forall j | 0 <= j < |rest| :: rest[j] == live[if j < i then j else j + 1];
  }

  lemma AmpleAt(live: seq<Track>, done: set<nat>, i: nat)
    requires i < |live| && live[i].pid !in done
    ensures Ample(live, done) ==> One(live[i]) == 1
  {
  }

  lemma AmpleEntered(live: seq<Track>, done: set<nat>, t: Track)
    ensures Ample(live, done) ==> Ample(live + [t], done + {t.pid})
  {
  }

  predicate AllMeasured(ps: seq<Process>) {
    forall i | 0 <= i < |ps| :: ps[i].value.Some?
  }

  lemma SparedStart(lost: Option<real>, cutoff: real)
    ensures Spared(lost, lost, cutoff)
  {
  }

  lemma Room(live: seq<Track>, ps: seq<Process>, k: nat)
    requires Distinct(ps) && k < |ps| && LivePids(live) <= Pids(ps)
    ensures DistinctPids(live) && ps[k].pid !in LivePids(live) ==> WithPoints(live) < |ps|
  {
    if DistinctPids(live) && ps[k].pid !in LivePids(live) {
      RoomForNew(live, ps, ps[k].pid);
    }
  }

  /** What recording a process in its own track does besides keeping the sample's account. */
  lemma Known(live: seq<Track>, departed: seq<Track>, log: seq<Sample>, lost: Option<real>, now: real,
              done: set<nat>, sum: real, i: nat, limit: nat, p: Process, maxAge: real)
    requires Mid(live, departed, log, lost, now, done, sum) && i < |live| && live[i].pid == p.pid && p.pid !in done
    requires WithPoints(live) <= limit && Full(live, done, limit)
    ensures var room := WithPoints(live) < limit;
      var t := Opened(live[i], room);
      var u := Recorded(t, now, p, maxAge);
      && Full(live[i := u], done + {p.pid}, limit)
      && WithPoints(live[i := u]) == WithPoints(live) + (if live[i].points.None? && room then 1 else 0)
      && LivePids(live[i := u]) == LivePids(live)
      && (Ample(live, done) ==> Ample(live[i := u], done + {p.pid}))
      && (Ample(live, done) && p.value.Some? ==>
            Spared(lost, Later(lost, Horizon(t, lost, now, p, maxAge)), now - maxAge))
  {
    var t := Opened(live[i], WithPoints(live) < limit);
    var u := Recorded(t, now, p, maxAge);
    RecordedFields(t, now, p, maxAge);
    MidPids(live, departed, log, lost, now, done, sum);
    if Ample(live, done) && p.value.Some? {
      MidPoints(live, departed, log, lost, now, done, sum, i);
      RecordSpares(live[i], lost, now, p, maxAge);
    }
    hide Mid, Recorded, Horizon, Spared, Full, LivePids, WithPoints;
    OneOf(live[i]);
    OneOf(u);
    FullKnown(live, done, limit, i, u);
    UpdatePids(live, i, u);
  }

  /** What entering a process's new track does besides keeping the sample's account. */
  lemma Entered(live: seq<Track>, done: set<nat>, limit: nat, lost: Option<real>, now: real, p: Process, maxAge: real)
    requires WithPoints(live) <= limit && (Full(live, done, limit) || WithPoints(live) + 1 == limit)
    requires forall i | 0 <= i < |live| :: live[i].pid != p.pid
    ensures var t := NewTrack(now, p, WithPoints(live) < limit);
      var u := Recorded(t, now, p, maxAge);
      && u.pid == p.pid
      && Full(live + [u], done + {p.pid}, limit) && WithPoints(live + [u]) == WithPoints(live) + One(t)
      && LivePids(live + [u]) == LivePids(live) + {p.pid}
      && (Ample(live, done) ==> Ample(live + [u], done + {p.pid}))
      && (WithPoints(live) < limit && p.value.Some? ==>
            Spared(lost, Later(lost, Horizon(t, lost, now, p, maxAge)), now - maxAge))
  {
    var t := NewTrack(now, p, WithPoints(live) < limit);
    var u := Recorded(t, now, p, maxAge);
    RecordedFields(t, now, p, maxAge);
    if t.points.Some? && p.value.Some? {
      RecordSpares(t, lost, now, p, maxAge);
    }
    hide Recorded, Horizon, Spared, Full, LivePids, WithPoints, Ample;
    OneOf(t);
    OneOf(u);
    FullEntered(live, done, limit, u);
    LivePidsConcat(live, [u]);
    LivePidsOne(u);
    AmpleEntered(live, done, u);
  }

  /** A process nobody tracks finds a place for points when the sample's processes all have one. */
  lemma RoomForNew(live: seq<Track>, ps: seq<Process>, pid: nat)
    requires DistinctPids(live) && Distinct(ps) && LivePids(live) <= Pids(ps) && pid in Pids(ps)
    requires forall i | 0 <= i < |live| :: live[i].pid != pid
    ensures WithPoints(live) < |ps|
  {
    LiveCount(live);
    DistinctCount(ps);
    assert pid !in LivePids(live);
    SubsetSmaller(LivePids(live) + {pid}, Pids(ps));
  }

  lemma DepartedBound(departed: seq<Track>, t: Track, now: real, limit: nat)
    requires |departed| <= limit
    ensures |Departing(departed, t, now, limit)| <= limit
    ensures |Departing(departed, t, now, limit)| <= |departed| + 1
    ensures |departed| < limit ==> forall lost :: Later(lost, DepartLoss(departed, t, now, limit)) == lost
  {
  }

  /** The samples of the present windows are the last of all. */
  ghost predicate Tail(log: seq<Sample>, all: seq<Sample>) {
    |log| <= |all| && log == all[|all| - |log|..]
  }

  lemma NothingSettled()
    ensures Settled([], [], [], None) && Matched([], [], []) && Tail([], []) && WithPoints([]) == 0
  {
  }

  /** Every exit since ends one of these tracks. */
  ghost predicate ExitsFollow(live: seq<Track>, before: seq<Track>, after: seq<Track>, now: real) {
    && before <= after
    && forall k | |before| <= k < |after| :: Ended(live, after[k], now)
  }

  ghost predicate Ended(live: seq<Track>, gone: Track, now: real) {
    exists t :: t in live && gone == Gone(t, now)
  }

  lemma ExitsOn(live: seq<Track>, e0: seq<Track>, e1: seq<Track>, e2: seq<Track>, now: real, seen: seq<Track>,
                done: set<nat>)
    requires ExitsFollow(live, e0, e1, now) && Carried(live, seen, done)
    requires e2 == e1 || exists t :: t in seen && t.pid !in done && e2 == e1 + [Gone(t, now)]
    ensures ExitsFollow(live, e0, e2, now)
  {
  }

  /** Tracks this sample has not recorded are as they were. */
  ghost predicate Carried(before: seq<Track>, after: seq<Track>, done: set<nat>) {
    forall j | 0 <= j < |after| && after[j].pid !in done :: after[j] in before
  }

  lemma CarriedWithout(live: seq<Track>, i: nat, done: set<nat>)
    requires i < |live|
    ensures Carried(live, Without(live, i), done)
  {
    var rest := Without(live, i);
    assert forall j | 0 <= j < |rest| :: rest[j] == live[if j < i then j else j + 1];
  }

  lemma CarriedSelf(live: seq<Track>, done: set<nat>)
    ensures Carried(live, live, done)
  {
  }

  lemma ExitsNone(live: seq<Track>, exits: seq<Track>, now: real)
    ensures ExitsFollow(live, exits, exits, now)
  {
  }

  /** The exits of two stretches of a sample, the second over tracks carried through the first. */
  lemma ExitsTwice(live: seq<Track>, later: seq<Track>, e0: seq<Track>, e1: seq<Track>, e2: seq<Track>, now: real)
    requires ExitsFollow(live, e0, e1, now) && Carried(live, later, {}) && ExitsFollow(later, e1, e2, now)
    ensures ExitsFollow(live, e0, e2, now)
  {
    forall k | |e0| <= k < |e2|
      ensures Ended(live, e2[k], now)
    {
      if k < |e1| {
        assert e2[k] == e1[k];
      } else {
        assert Ended(later, e2[k], now);
        var t :| t in later && e2[k] == Gone(t, now);
        assert t.pid !in {};
      }
    }
  }

  lemma CarriedOn(a: seq<Track>, b: seq<Track>, c: seq<Track>, done: set<nat>, more: set<nat>)
    requires Carried(a, b, done) && Carried(b, c, more) && done <= more
    ensures Carried(a, c, more)
  {
    forall j | 0 <= j < |c| && c[j].pid !in more
      ensures c[j] in a
    {
      var i :| 0 <= i < |b| && b[i] == c[j];
    }
  }

  class ProcessHistory {
    const maxAge: real
    const maxProcesses: nat
    const maxExited: nat
    var live: seq<Track>
    var departed: seq<Track>
    var exited: seq<Track>
    var candidates: seq<Candidate>
    var observed: bool
    var started: nat
    var exitedCount: nat
    var restarted: nat
    /** The samples since the windows were last restarted, and all there ever were. */
    ghost var log: seq<Sample>
    ghost var all: seq<Sample>
    ghost var lost: Option<real>
    ghost var firstSize: nat
    ghost var exits: seq<Track>
    ghost var restarts: seq<Restart>

    constructor (maxAge: real, maxProcesses: nat, maxExited: nat)
      requires maxAge >= 0.0
      ensures Valid() && all == log == [] && started == exitedCount == restarted == 0 && live == []
      ensures this.maxAge == maxAge && this.maxProcesses == maxProcesses && this.maxExited == maxExited
    {
      hide Settled, Matched, Tail, WithPoints, Aged;
      NothingSettled();
      this.maxAge, this.maxProcesses, this.maxExited := maxAge, maxProcesses, maxExited;
      live, departed, exited, candidates, observed := [], [], [], [], false;
      started, exitedCount, restarted := 0, 0, 0;
      log, all, lost, firstSize, exits, restarts := [], [], None, 0, [], [];
    }

    ghost predicate Bounds()
      reads this
    {
      && maxAge >= 0.0
      && |departed| <= maxExited && |exited| <= maxExited && |candidates| <= maxExited
      && |exits| == exitedCount && |restarts| == restarted <= started
      && Matched(candidates, exits, restarts)
    }

    /**
     Between samples: the tracks hold every total that was not lost, live processes
     are the first tree plus starts minus exits, and as many as may keep points do.
     */
    ghost predicate Valid()
      reads this
    {
      && Bounds()
      && Settled(live, departed, log, lost)
      && (observed <==> all != []) && Tail(log, all)
      && (log == [] ==> candidates == [])
      && (!observed ==> live == [] && firstSize == started == exitedCount == 0)
      && (log != [] ==> Aged(candidates, log[|log| - 1].time))
      && |live| + exitedCount == firstSize + started
      && WithPoints(live) == (if |live| < maxProcesses then |live| else maxProcesses)
    }

    /** Inside a sample; starts counts the new tracks not yet announced. */
    ghost predicate During(now: real, done: set<nat>, sum: real, starts: nat)
      reads this
    {
      && Bounds() && Aged(candidates, now)
      && Mid(live, departed, log, lost, now, done, sum)
      && |live| + exitedCount == firstSize + started + starts
    }

    /** Restarts never outnumber exits or starts. */
    lemma RestartsBounded()
      requires Valid()
      ensures restarted <= started && restarted <= exitedCount
    {
      RestartsWithinExits(restarts, |exits|);
    }

    method Retire(i: nat, now: real, ghost done: set<nat>, ghost sum: real, ghost starts: nat)
      returns (event: LifecycleEvent)
      requires During(now, done, sum, starts) && i < |live| && live[i].pid !in done
      modifies `live, `departed, `exited, `candidates, `exitedCount, `lost, `exits
      ensures During(now, done, sum, starts)
      ensures live == Without(old(live), i) && exitedCount == old(exitedCount) + 1
      ensures event == LifecycleEvent(Exited, now, old(live[i].pid), Shown(old(live[i].name)), None)
      ensures exits == old(exits) + [Gone(old(live)[i], now)]
      ensures |departed| <= |old(departed)| + 1 && (|old(departed)| < maxExited ==> lost == old(lost))
      ensures Ample(old(live), done) ==> Ample(live, done)
      ensures Carried(old(live), live, done)
    {
      hide Mid, Matched, Aged, Departing, DepartLoss, Later, Ample, Carried, Shown, TrackLoss;
      CarriedWithout(live, i, done);
      var track := live[i];
      var gone := Gone(track, now);
      AgedPush(candidates, now, Candidate(exitedCount, gone), maxExited);
      DepartedBound(departed, track, now, maxExited);
      if Ample(live, done) {
        AmpleWithout(live, done, i);
      }
      RetireKeeps(live, departed, log, lost, now, done, sum, i, maxExited);
      ExitMatched(candidates, exits, restarts, gone, maxExited);
      lost := Later(lost, DepartLoss(departed, track, now, maxExited));
      live := Without(live, i);
      exited := Push(exited, gone, maxExited);
      candidates := Push(candidates, Candidate(exitedCount, gone), maxExited);
      exits := exits + [gone];
      exitedCount := exitedCount + 1;
      departed := Departing(departed, track, now, maxExited);
      event := LifecycleEvent(Exited, now, track.pid, Shown(track.name), None);
    }

    method Find(pid: nat) returns (index: Option<nat>)
      ensures index.None? ==> forall i | 0 <= i < |live| :: live[i].pid != pid
      ensures index.Some? ==> index.value < |live| && live[index.value].pid == pid
    {
      for i := 0 to |live|
        invariant forall j | 0 <= j < i :: live[j].pid != pid
      {
        if live[i].pid == pid {
          return Some(i);
        }
      }
      index := None;
    }

    method CountPoints() returns (n: nat)
      ensures n == WithPoints(live)
    {
      n := 0;
      for i := 0 to |live|
        invariant n == WithPoints(live[..i])
      {
        assert live[..i + 1][..i] == live[..i];
        if live[i].points.Some? {
          n := n + 1;
        }
      }
      assert live[..|live|] == live;
    }

    /** A process whose track is still its own, or has just been retired. */
    method RecordKnown(i: nat, now: real, p: Process, withPoints: nat,
                       ghost done: set<nat>, ghost sum: real, ghost starts: nat) returns (count: nat)
      requires During(now, done, sum, starts) && i < |live| && live[i].pid == p.pid && p.pid !in done
      requires withPoints == WithPoints(live) <= maxProcesses && Full(live, done, maxProcesses)
      modifies `live, `lost
      ensures During(now, done + {p.pid}, sum + ValueOf(p), starts)
      ensures count == WithPoints(live) <= maxProcesses && Full(live, done + {p.pid}, maxProcesses)
      ensures LivePids(live) == LivePids(old(live)) && |live| == |old(live)|
      ensures Ample(old(live), done) ==> Ample(live, done + {p.pid})
      ensures Ample(old(live), done) && p.value.Some? ==> Spared(old(lost), lost, now - maxAge)
      ensures Carried(old(live), live, done + {p.pid})
    {
      RecordedFields(Opened(live[i], withPoints < maxProcesses), now, p, maxAge);
      hide *;
      var room := withPoints < maxProcesses;
      var track := Opened(live[i], room);
      var recorded := Recorded(track, now, p, maxAge);
      count := if live[i].points.None? && room then withPoints + 1 else withPoints;
      UpdateKeeps(live, departed, log, lost, now, done, sum, i, room, p, maxAge);
      Known(live, departed, log, lost, now, done, sum, i, maxProcesses, p, maxAge);
      lost := Later(lost, Horizon(track, lost, now, p, maxAge));
      live := live[i := recorded];
    }

    method RecordNew(now: real, p: Process, withPoints: nat, first: bool,
                     ghost done: set<nat>, ghost sum: real, ghost starts: nat) returns (count: nat)
      requires During(now, done, sum, starts) && forall i | 0 <= i < |live| :: live[i].pid != p.pid
      requires withPoints == WithPoints(live) <= maxProcesses
      requires Full(live, done, maxProcesses) || withPoints + 1 == maxProcesses
      modifies `live, `lost, `firstSize
      ensures During(now, done + {p.pid}, sum + ValueOf(p), starts + if first then 0 else 1)
      ensures count == WithPoints(live) <= maxProcesses && Full(live, done + {p.pid}, maxProcesses)
      ensures LivePids(live) == LivePids(old(live)) + {p.pid} && |live| == |old(live)| + 1
      ensures firstSize == old(firstSize) + if first then 1 else 0
      ensures Ample(old(live), done) ==> Ample(live, done + {p.pid})
      ensures withPoints < maxProcesses && p.value.Some? ==> Spared(old(lost), lost, now - maxAge)
      ensures Carried(old(live), live, done + {p.pid})
    {
      hide Mid, Matched, Aged, Recorded, Horizon, LivePids, WithPoints, Full, Later, Ample, Spared;
      var points := CountPoints();
      var track := NewTrack(now, p, points < maxProcesses);
      var recorded := Recorded(track, now, p, maxAge);
      count := if track.points.Some? then withPoints + 1 else withPoints;
      EnterKeeps(live, departed, log, lost, now, done, sum, points < maxProcesses, p, maxAge);
      Entered(live, done, maxProcesses, lost, now, p, maxAge);
      lost := Later(lost, Horizon(track, lost, now, p, maxAge));
      live := live + [recorded];
      if first {
        firstSize := firstSize + 1;
      }
    }

    /** One process of the sample: its own track, or after a reused PID a new one. */
    method RecordOne(now: real, p: Process, withPoints: nat, first: bool,
                     ghost done: set<nat>, ghost sum: real, ghost starts: nat)
      returns (arrived: bool, exit: Option<LifecycleEvent>, count: nat)
      requires During(now, done, sum, starts) && p.pid !in done
      requires withPoints == WithPoints(live) <= maxProcesses && Full(live, done, maxProcesses)
      modifies `live, `departed, `exited, `candidates, `exitedCount, `lost, `exits, `firstSize
      ensures During(now, done + {p.pid}, sum + ValueOf(p), starts + if arrived && !first then 1 else 0)
      ensures count == WithPoints(live) <= maxProcesses && Full(live, done + {p.pid}, maxProcesses)
      ensures LivePids(live) == LivePids(old(live)) + {p.pid}
      ensures exitedCount == old(exitedCount) + if exit.Some? then 1 else 0
      ensures p.pid !in LivePids(old(live)) ==> arrived && exit.None?
      ensures firstSize == old(firstSize) + if arrived && first then 1 else 0
      ensures |departed| <= |old(departed)| + if exit.Some? then 1 else 0
      ensures Ample(old(live), done) ==> Ample(live, done + {p.pid})
      ensures Ample(old(live), done) && p.value.Some? && (exit.Some? ==> |old(departed)| < maxExited)
              && (p.pid !in LivePids(old(live)) ==> withPoints < maxProcesses)
              ==> Spared(old(lost), lost, now - maxAge)
      ensures Carried(old(live), live, done + {p.pid})
      ensures exits == old(exits)
        || exists t :: t in old(live) && t.pid !in done && exits == old(exits) + [Gone(t, now)]
    {
      hide Mid, Matched, Aged, WithPoints, Full, Ample, Spared, Carried;
      MidPids(live, departed, log, lost, now, done, sum);
      var index := Find(p.pid);
      exit := None;
      count := withPoints;
      ghost var before := live;
      if index.Some? {
        var i := index.value;
        assert before[i].pid in LivePids(before);
        arrived := !live[i].SameProcess(p);
        if !arrived {
          count := RecordKnown(i, now, p, withPoints, done, sum, starts);
          assert LivePids(live) == LivePids(before) + {p.pid};
          return;
        }
        FullRetired(live, done, maxProcesses, i);
        count := withPoints - One(live[i]);
        OnlyTrack(live, i);
        WithoutPids(live, i);
        AmpleAt(live, done, i);
        hide LivePids;
        var event := Retire(i, now, done, sum, starts);
        exit := Some(event);
        assert before[i] in before;
      } else {
        CarriedSelf(live, done);
        arrived := true;
        hide LivePids;
      }
      ghost var between := live;
      count := RecordNew(now, p, count, first, done, sum, starts);
      CarriedOn(before, between, live, done, done + {p.pid});
    }

    lemma DuringPids(now: real, done: set<nat>, sum: real, starts: nat)
      requires During(now, done, sum, starts)
      ensures DistinctPids(live)
    {
      MidPids(live, departed, log, lost, now, done, sum);
    }

    /** Every process of the sample, in its order. */
    method RecordAll(now: real, ps: seq<Process>, first: bool)
      returns (starts: seq<Process>, exits: seq<LifecycleEvent>)
      requires During(now, {}, 0.0, 0) && Distinct(ps)
      requires WithPoints(live) <= maxProcesses && LivePids(live) <= Pids(ps)
      requires first ==> live == []
      modifies `live, `departed, `exited, `candidates, `exitedCount, `lost, `exits, `firstSize
      ensures During(now, Pids(ps), Total(ps), |starts|)
      ensures LivePids(live) == Pids(ps) && WithPoints(live) <= maxProcesses && Full(live, Pids(ps), maxProcesses)
      ensures exitedCount == old(exitedCount) + |exits|
      ensures first ==> starts == [] && exits == [] && firstSize == old(firstSize) + |ps|
      ensures !first ==> firstSize == old(firstSize)
      ensures forall i | 0 <= i < |starts| :: starts[i].pid in Pids(ps)
      ensures Ample(old(live), {}) && AllMeasured(ps) && |ps| <= maxProcesses
              && |old(departed)| + |exits| <= maxExited
              ==> Spared(old(lost), lost, now - maxAge)
      ensures |departed| <= |old(departed)| + |exits|
      ensures ExitsFollow(old(live), old(this.exits), this.exits, now)
    {
      hide *;
      ExitsNone(live, this.exits, now);
      CarriedSelf(live, {});
      ghost var ample := Ample(live, {}) && AllMeasured(ps) && |ps| <= maxProcesses;
      SparedStart(lost, now - maxAge);
      var withPoints := CountPoints();
      starts, exits := [], [];
      NoneDone(live, ps);
      for k := 0 to |ps|
        invariant During(now, Pids(ps[..k]), Total(ps[..k]), |starts|)
        invariant withPoints == WithPoints(live) <= maxProcesses && Full(live, Pids(ps[..k]), maxProcesses)
        invariant LivePids(live) == LivePids(old(live)) + Pids(ps[..k])
        invariant exitedCount == old(exitedCount) + |exits|
        invariant first ==> starts == [] && exits == [] && firstSize == old(firstSize) + k
        invariant !first ==> firstSize == old(firstSize)
        invariant forall i | 0 <= i < |starts| :: starts[i].pid in Pids(ps)
        invariant ample ==> Ample(live, Pids(ps[..k]))
        invariant |departed| <= |old(departed)| + |exits|
        invariant ample && |old(departed)| + |exits| <= maxExited ==> Spared(old(lost), lost, now - maxAge)
        invariant Carried(old(live), live, Pids(ps[..k]))
        invariant ExitsFollow(old(live), old(this.exits), this.exits, now)
      {
        PidsNext(ps, k);
        NotDone(ps, k);
        Room(live, ps, k);
        DuringPids(now, Pids(ps[..k]), Total(ps[..k]), |starts|);
        ghost var before, tracks, ended := lost, live, this.exits;
        var arrived, exit;
        arrived, exit, withPoints :=
          RecordOne(now, ps[k], withPoints, first, Pids(ps[..k]), Total(ps[..k]), |starts|);
        ExitsOn(old(live), old(this.exits), ended, this.exits, now, tracks, Pids(ps[..k]));
        CarriedOn(old(live), tracks, live, Pids(ps[..k]), Pids(ps[..k]) + {ps[k].pid});
        if exit.Some? {
          exits := exits + [exit.value];
        }
        if ample && |old(departed)| + |exits| <= maxExited {
          SparedTwice(old(lost), before, lost, now - maxAge);
        }
        if arrived && !first {
          starts := starts + [ps[k]];
        }
      }
      assert ps[..|ps|] == ps;
    }

    /** Live processes that this sample does not show have exited. */
    method RetireUnseen(now: real, seen: set<nat>, ghost starts: nat) returns (exits: seq<LifecycleEvent>)
      requires During(now, {}, 0.0, starts)
      modifies `live, `departed, `exited, `candidates, `exitedCount, `lost, `exits
      ensures During(now, {}, 0.0, starts)
      ensures LivePids(live) == LivePids(old(live)) * seen
      ensures exitedCount == old(exitedCount) + |exits| && WithPoints(live) <= old(WithPoints(live))
      ensures old(live) == [] ==> live == [] && exits == []
      ensures |departed| <= |old(departed)| + |exits|
      ensures |old(departed)| + |exits| <= maxExited ==> lost == old(lost)
      ensures Ample(old(live), {}) ==> Ample(live, {})
      ensures Carried(old(live), live, {}) && ExitsFollow(old(live), old(this.exits), this.exits, now)
    {
      hide During, WithPoints, Ample, Carried, ExitsFollow;
      ExitsNone(live, this.exits, now);
      CarriedSelf(live, {});
      exits := [];
      var i := 0;
      while i < |live|
        invariant i <= |live| && During(now, {}, 0.0, starts)
        invariant forall j | 0 <= j < i :: live[j].pid in seen
        invariant LivePids(live) <= LivePids(old(live))
        invariant LivePids(old(live)) * seen <= LivePids(live)
        invariant exitedCount == old(exitedCount) + |exits| && WithPoints(live) <= old(WithPoints(live))
        invariant old(live) == [] ==> live == [] && exits == []
        invariant |departed| <= |old(departed)| + |exits|
        invariant |old(departed)| + |exits| <= maxExited ==> lost == old(lost)
        invariant Ample(old(live), {}) ==> Ample(live, {})
        invariant Carried(old(live), live, {}) && ExitsFollow(old(live), old(this.exits), this.exits, now)
        decreases |live| - i
      {
        if live[i].pid in seen {
          i := i + 1;
        } else {
          ghost var before, ended := live, this.exits;
          assert before[i] in before && before[i].pid !in {};
          var event := Retire(i, now, {}, 0.0, starts);
          ExitsOn(old(live), old(this.exits), ended, this.exits, now, before, {});
          CarriedOn(old(live), before, live, {}, {});
          WithoutPids(before, i);
          WithPointsWithout(before, i);
          exits := exits + [event];
        }
      }
    }

    /** Departed tracks that ended before any window could start are forgotten. */
    method PruneDeparted(now: real, ghost done: set<nat>, ghost sum: real, ghost starts: nat)
      requires During(now, done, sum, starts)
      modifies `departed, `lost
      ensures During(now, done, sum, starts)
      ensures departed != [] && departed[0].exitedAt.Some? ==> departed[0].exitedAt.value >= now - maxAge
      ensures Spared(old(lost), lost, now - maxAge)
    {
      hide Mid, Matched, Aged, Later, Spared;
      SparedStart(lost, now - maxAge);
      while departed != []
            && (if departed[0].exitedAt.Some? then departed[0].exitedAt.value else now) < now - maxAge
        invariant During(now, done, sum, starts)
        invariant Spared(old(lost), lost, now - maxAge)
        decreases |departed|
      {
        PruneSpares(live, departed, log, lost, now, done, sum, now - maxAge);
        SparedTwice(old(lost), lost, Later(lost, TrackLoss(departed[0])), now - maxAge);
        PruneKeeps(live, departed, log, lost, now, done, sum);
        lost := Later(lost, TrackLoss(departed[0]));
        departed := departed[1..];
      }
    }

    /** Exits too old to be restarted are forgotten, oldest first. */
    method DropCandidates(now: real, ghost done: set<nat>, ghost sum: real, ghost starts: nat)
      requires During(now, done, sum, starts)
      modifies `candidates
      ensures During(now, done, sum, starts)
      ensures forall i | 0 <= i < |candidates| ::
        candidates[i].summary.exitedAt.Some? && now - candidates[i].summary.exitedAt.value <= RESTART_SECONDS
    {
      hide Mid, Matched;
      while candidates != [] && now - candidates[0].summary.exitedAt.value > RESTART_SECONDS
        invariant During(now, done, sum, starts)
        decreases |candidates|
      {
        ForgetMatched(candidates, exits, restarts, 0);
        AgedWithout(candidates, now, 0);
        assert Without(candidates, 0) == candidates[1..];
        candidates := candidates[1..];
      }
    }

    /** Which lately exited process this start takes the place of, if any; each is taken once. */
    method Replaced(now: real, name: string, ppid: Option<nat>) returns (r: Option<Track>)
      requires Bounds() && Aged(candidates, now) && restarted < started
      modifies `candidates, `restarted, `restarts
      ensures Bounds() && Aged(candidates, now)
      ensures r.None? ==> restarts == old(restarts) && candidates == old(candidates)
      ensures r.None? ==> forall i | 0 <= i < |candidates| :: !Fits(candidates[i], now, name, ppid)
      ensures r.Some? ==> |restarts| == |old(restarts)| + 1 && restarts[..|old(restarts)|] == old(restarts)
      ensures r.Some? ==>
        var last := restarts[|old(restarts)|];
        && last.at == now && last.name == name && last.ppid == ppid
        && last.occurrence < |exits| && exits[last.occurrence] == r.value
        && exists i | 0 <= i < |old(candidates)| ::
             && old(candidates)[i].summary == r.value && candidates == Without(old(candidates), i)
             && old(candidates)[i].occurrence == last.occurrence
             && forall j | i < j < |old(candidates)| :: !Fits(old(candidates)[j], now, name, ppid)
    {
      hide Matched;
      if name == "" {
        return None;
      }
      var index := |candidates|;
      while index > 0
        invariant 0 <= index <= |candidates|
        invariant forall i | index <= i < |candidates| :: !Fits(candidates[i], now, name, ppid)
      {
        index := index - 1;
        var summary := candidates[index].summary;
        if now - summary.exitedAt.value > RESTART_SECONDS {
          return None;
        }
        if summary.name == name && summary.ppid == ppid {
          ghost var restart := Restart(now, name, ppid, candidates[index].occurrence);
          CandidateFits(candidates, exits, restarts, index, restart);
          RestartMatched(candidates, exits, restarts, index, restart);
          AgedWithout(candidates, now, index);
          restarts := restarts + [restart];
          restarted := restarted + 1;
          candidates := Without(candidates, index);
          return Some(summary);
        }
      }
      r := None;
    }

    method Announce(now: real, p: Process, ghost done: set<nat>, ghost sum: real, ghost starts: nat)
      returns (event: LifecycleEvent)
      requires During(now, done, sum, starts) && starts > 0 && p.pid in LivePids(live)
      modifies `started, `candidates, `restarted, `restarts
      ensures During(now, done, sum, starts - 1) && started == old(started) + 1
      ensures event.pid == p.pid && event.at == now
      ensures event.kind == if restarted > old(restarted) then Restarted else Started
      ensures event.replacedPid.Some? <==> event.kind == Restarted
    {
      hide Mid, Matched, Aged;
      started := started + 1;
      var index := Find(p.pid);
      var name := live[index.value].name;
      var replaced := Replaced(now, name, p.ppid);
      event := LifecycleEvent(if replaced.Some? then Restarted else Started, now, p.pid, Shown(name),
                              if replaced.Some? then Some(replaced.value.pid) else None);
    }

    method LivingOf(processes: seq<Process>) returns (ps: seq<Process>)
      ensures ps == Living(processes)
    {
      ps := [];
      for k := 0 to |processes|
        invariant ps == Living(processes[..k])
      {
        assert processes[..k + 1][..k] == processes[..k];
        if !processes[k].dead {
          ps := ps + [processes[k]];
        }
      }
      assert processes[..|processes|] == processes;
    }

    /** The passes over one sample's processes; what is left is to note the sample itself. */
    method Pass(now: real, ps: seq<Process>, first: bool) returns (events: seq<LifecycleEvent>)
      requires During(now, {}, 0.0, 0) && Distinct(ps) && WithPoints(live) <= maxProcesses
      requires first ==> live == []
      modifies `live, `departed, `exited, `candidates, `started, `exitedCount, `restarted,
               `lost, `firstSize, `exits, `restarts
      ensures During(now, Pids(ps), Total(ps), 0)
      ensures LivePids(live) == Pids(ps) && WithPoints(live) <= maxProcesses && Full(live, Pids(ps), maxProcesses)
      ensures first ==> firstSize == old(firstSize) + |ps| && started == old(started)
                        && exitedCount == old(exitedCount)
      ensures !first ==> firstSize == old(firstSize)
      ensures Ample(old(live), {}) && AllMeasured(ps) && |ps| <= maxProcesses
              && |old(departed)| + exitedCount - old(exitedCount) <= maxExited
              ==> Spared(old(lost), lost, now - maxAge)
      ensures ExitsFollow(old(live), old(exits), exits, now)
    {
      hide During, WithPoints, Full, LivePids, Pids, Ample, Spared, AllMeasured, Carried, ExitsFollow;
      var exits := RetireUnseen(now, Pids(ps), 0);
      ghost var remaining, ended := live, this.exits;
      var starts, reused := RecordAll(now, ps, first);
      ExitsTwice(old(live), remaining, old(this.exits), ended, this.exits, now);
      exits := exits + reused;
      ghost var recorded := lost;
      PruneDeparted(now, Pids(ps), Total(ps), |starts|);
      if Spared(old(lost), recorded, now - maxAge) {
        SparedTwice(old(lost), recorded, lost, now - maxAge);
      }
      DropCandidates(now, Pids(ps), Total(ps), |starts|);
      events := exits;
      for k := 0 to |starts|
        modifies `started, `candidates, `restarted, `restarts
        invariant During(now, Pids(ps), Total(ps), |starts| - k)
        invariant started == old(started) + k
      {
        var event := Announce(now, starts[k], Pids(ps), Total(ps), |starts| - k);
        events := events + [event];
      }
    }

    /** With all its processes recorded, the sample joins those the tracks hold. */
    method Note(now: real, ps: seq<Process>)
      requires During(now, Pids(ps), Total(ps), 0) && Distinct(ps) && observed
      requires LivePids(live) == Pids(ps) && WithPoints(live) <= maxProcesses && Full(live, Pids(ps), maxProcesses)
      requires forall i, j | 0 <= i < j < |log| :: log[i].time < log[j].time
      requires Tail(log, all)
      modifies `log, `all
      ensures Valid() && |live| == |ps|
      ensures log == old(log) + [Sample(now, Total(ps))] && all == old(all) + [Sample(now, Total(ps))]
    {
      hide Mid, Matched, WithPoints, Full, Settled, LivePids, Pids, Aged;
      MidPids(live, departed, log, lost, now, Pids(ps), Total(ps));
      AllRecorded(live, ps, maxProcesses);
      EndSample(live, departed, log, lost, now, Pids(ps), Total(ps));
      log, all := log + [Sample(now, Total(ps))], all + [Sample(now, Total(ps))];
    }

    /** Take in one sample: exits first, then whoever is there, then starts and restarts. */
    method Observe(now: real, processes: seq<Process>) returns (events: seq<LifecycleEvent>)
      requires Valid() && Distinct(Living(processes))
      requires log != [] ==> log[|log| - 1].time < now
      modifies this
      ensures Valid()
      ensures log == old(log) + [Sample(now, Total(Living(processes)))]
      ensures all == old(all) + [Sample(now, Total(Living(processes)))]
      ensures ExitsFollow(old(live), old(exits), exits, now)
      ensures LivePids(live) == Pids(Living(processes)) && |live| == |Living(processes)|
      ensures firstSize == if old(all) == [] then |live| else old(firstSize)
      ensures |events| <= MAX_EVENTS_PER_SAMPLE
      ensures Ample(old(live), {}) && AllMeasured(Living(processes)) && |Living(processes)| <= maxProcesses
              && |old(departed)| + exitedCount - old(exitedCount) <= maxExited
              ==> Spared(old(lost), lost, now - maxAge)
    {
      hide Mid, Matched, WithPoints, Full, Settled, LivePids, Pids, Aged, Ample, Spared, AllMeasured, ExitsFollow, Tail;
      var ps := LivingOf(processes);
      BeginSample(live, departed, log, lost, now);
      SettledFacts(live, departed, log, lost);
      AgedLater(candidates, log, now);
      events := Pass(now, ps, !observed);
      observed := true;
      Note(now, ps);
      events := if |events| > MAX_EVENTS_PER_SAMPLE then events[..MAX_EVENTS_PER_SAMPLE] else events;
    }

    /** Forget timing-dependent points; identities and lifetime counts stay. */
    method RestartWindows()
      requires Valid()
      modifies `live, `departed, `candidates, `lost, `log
      ensures Valid() && log == [] && lost == None
      ensures |live| == |old(live)| && departed == [] && candidates == []
      ensures forall i | 0 <= i < |live| :: live[i] == Cleared(old(live)[i])
    {
      hide WithPoints, Settled, Matched;
      ghost var before := live;
      ForgottenMatched(candidates, exits, restarts);
      var tracks := live;
      live := seq(|tracks|, i requires 0 <= i < |tracks| => Cleared(tracks[i]));
      ClearedCount(before, live);
      ClearedSettled(before, live, departed, log, lost);
      departed, candidates, log, lost := [], [], [], None;
    }

    /** How much of the growth over a window came with new processes, and how much from older ones. */
    method Attribute(since: real, until: real) returns (arrived: real, existing: real, arrivals: nat)
      requires Valid()
      ensures arrived == Growth(live + departed, since, until, true)
      ensures existing == Growth(live + departed, since, until, false)
      ensures arrivals == Arrivals(live + departed, since, until)
      ensures forall a, b | 0 <= a <= b < |log| && log[a].time == since && log[b].time == until && Held(lost, since) ::
        var change := log[b].total - log[a].total;
        && arrived + existing >= change
        && (arrived + existing == change <==> !Shrank(live + departed, since, until))
    {
      hide Change, Settled, Matched, WithPoints, Shrank, Tail, Aged;
      var tracks := live + departed;
      arrived, existing, arrivals := 0.0, 0.0, 0;
      for i := 0 to |tracks|
        invariant arrived == Growth(tracks[..i], since, until, true)
        invariant existing == Growth(tracks[..i], since, until, false)
        invariant arrivals == Arrivals(tracks[..i], since, until)
      {
        assert tracks[..i + 1][..i] == tracks[..i];
        var change := Change(tracks[i], since, until);
        if change > 0.0 {
          if New(tracks[i], since) {
            arrived, arrivals := arrived + change, arrivals + 1;
          } else {
            existing := existing + change;
          }
        }
      }
      assert tracks[..|tracks|] == tracks;
      hide Growth, Arrivals, Shrank, Settled;
      SplitBoundsChange(live, departed, log, lost, since, until);
    }
  }

  lemma LivePidsConcat(a: seq<Track>, b: seq<Track>)
    ensures LivePids(a + b) == LivePids(a) + LivePids(b)
  {
    forall x
      ensures x in LivePids(a + b) <==> x in LivePids(a) + LivePids(b)
    {
      if x in LivePids(a) {
        var i :| 0 <= i < |a| && a[i].pid == x;
        assert (a + b)[i].pid == x;
      }
      if x in LivePids(b) {
        var i :| 0 <= i < |b| && b[i].pid == x;
        assert (a + b)[|a| + i].pid == x;
      }
    }
  }

  lemma LivePidsOne(t: Track)
    ensures LivePids([t]) == {t.pid}
  {
    assert [t][0] == t;
  }

  lemma WithoutPids(ts: seq<Track>, i: nat)
    requires i < |ts|
    ensures LivePids(ts) == LivePids(Without(ts, i)) + {ts[i].pid}
  {
    hide LivePids;
    var before, after, t := ts[..i], ts[i + 1..], [ts[i]];
    assert ts == before + (t + after);
    LivePidsConcat(before, t + after);
    LivePidsConcat(t, after);
    LivePidsConcat(before, after);
    LivePidsOne(ts[i]);
  }

  lemma UpdatePids(ts: seq<Track>, i: nat, t: Track)
    requires i < |ts| && t.pid == ts[i].pid
    ensures LivePids(ts[i := t]) == LivePids(ts)
  {
    WithoutPids(ts, i);
    WithoutPids(ts[i := t], i);
    assert Without(ts[i := t], i) == Without(ts, i);
  }

  /** Recorded tracks lack points only when no more may keep them. */
  ghost predicate Full(live: seq<Track>, done: set<nat>, limit: nat) {
    forall i | 0 <= i < |live| && live[i].pid in done && live[i].points.None? :: WithPoints(live) == limit
  }
}
