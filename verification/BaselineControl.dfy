/**
 The baseline store: an audit log whose entries are chained by digest, the state that
 replaying it gives, and the order in which evidence and manifest reach the disk.
 */
module BaselineControl {

  import opened Wrappers
  import ReportContract

  const MAX_MANIFEST_BYTES := 2 * 1024 * 1024
  const MAX_AUDIT_ENTRIES := 512
  const MAX_SUPPRESSIONS := 64
  const MAX_GROUP_RUNS := 20
  const MAX_GROUP_BYTES := 128 * 1024 * 1024
  const MAX_TEXT := 1000
  const NINETY_DAYS := 7776000.0

  const RESOURCES := ["memory", "handles", "threads"]
  const METRICS := ["private_bytes", "handles", "threads"]

  /** A SHA-256 digest, and a report by the whole of its contents. */
  type Hash = nat
  type Report = nat

  datatype Details =
    | Promotion(reports: seq<Hash>, budgets: map<string, real>, workload: string)
    | Suppression(resource: string, kind: string, expires: Option<real>, revision: int, workload: string)
    | Unknown

  /** An audit entry without its own digest. A time that is no UTC timestamp is None. */
  datatype Body = Body(sequence: int, previous: Option<Hash>, details: Details, at: Option<real>,
                       actor: string, approvedBy: string, reason: string, sourceCommit: string)

  datatype Entry = Entry(body: Body, digest: Hash)

  /** A suppression in force, with who approved it and which entry recorded it. */
  datatype Exception = Exception(resource: string, kind: string, expires: real, revision: int, workload: string,
                                 approvedBy: string, reason: string, sequence: nat)

  datatype State = State(revision: nat, reports: seq<Hash>, budgets: map<string, real>, workload: Option<string>,
                         suppressions: seq<Exception>)

  const INITIAL := State(0, [], map[], None, [])

  /** The two digest functions: of an entry's body, and of a report. Both may collide. */
  datatype Digests = Digests(ofBody: Body -> Hash, ofReport: Report -> Hash)

  /** Something worse than the baseline: a regressed resource, or a budget exceeded. */
  datatype Finding = Finding(resource: string, regression: bool)

  /** What comparing new runs with approved ones under some budgets gives. */
  datatype Comparison = Comparison(inconclusive: bool, worse: bool, findings: seq<Finding>)

  /**
   What the rest of the program makes of reports: the encoded size, validity, the one
   workload of runs that are eligible together, their common budgets, whether they show
   a signal or exceed a budget of their own, and their comparison with approved runs.
   */
  datatype Criteria = Criteria(
    size: Report -> nat,
    valid: Report -> bool,
    workload: seq<Report> -> Option<string>,
    budgets: seq<Report> -> Option<map<string, real>>,
    signalled: seq<Report> -> bool,
    compare: (seq<Report>, seq<Report>, map<string, real>) -> Comparison)

  // ----- Checking one entry -----

  function StripLeft(s: string): string {
    if s != "" && ReportContract.IsSpace(s[0]) then StripLeft(s[1..]) else s
  }

  function Strip(s: string): string {
    StripRight(StripLeft(s))
  }

  function StripRight(s: string): string {
    if s != "" && ReportContract.IsSpace(s[|s| - 1]) then StripRight(s[..|s| - 1]) else s
  }

  /** Nonempty text without controls, not too long. */
  predicate IsText(s: string) {
    Strip(s) != "" && |s| <= MAX_TEXT && forall c | c in s :: c as int >= 32
  }

  predicate IsCommit(s: string) {
    (|s| == 40 || |s| == 64) && forall c | c in s :: '0' <= c <= '9' || 'a' <= c <= 'f'
  }

  predicate IsBudget(metric: string, amount: real) {
    metric in METRICS && amount > 0.0 && (metric != "private_bytes" ==> amount == amount.Floor as real)
  }

  predicate DistinctHashes(hs: seq<Hash>) {
    forall i, j | 0 <= i < j < |hs| :: hs[i] != hs[j]
  }

  /** The chain: its place, what it follows, and its own digest. */
  predicate Chained(e: Entry, number: nat, previous: Option<Hash>, digests: Digests) {
    e.body.sequence == number && e.body.previous == previous && e.digest == digests.ofBody(e.body)
  }

  predicate WellSigned(b: Body) {
    IsText(b.actor) && IsText(b.approvedBy) && IsText(b.reason) && IsCommit(b.sourceCommit) && b.at.Some?
  }

  /** What a well-formed entry makes of the state; None where it is refused. */
  function Applied(s: State, b: Body, number: nat): Option<State> {
    match b.details
    case Promotion(reports, budgets, workload) =>
      if 2 <= |reports| <= MAX_GROUP_RUNS && DistinctHashes(reports)
         && (forall m | m in budgets :: IsBudget(m, budgets[m])) && IsText(workload)
      then Some(State(s.revision + 1, reports, budgets, Some(Strip(workload)), []))
      else None
    case Suppression(resource, kind, expires, revision, workload) =>
      if resource in RESOURCES && (kind == "regression" || kind == "budget")
         && revision == s.revision && s.revision != 0 && Some(workload) == s.workload
         && |s.suppressions| < MAX_SUPPRESSIONS
         && expires.Some? && b.at.Some? && b.at.value < expires.value <= b.at.value + NINETY_DAYS
      then
        Some(s.(suppressions := s.suppressions
          + [Exception(resource, kind, expires.value, revision, workload, b.approvedBy, b.reason, number)]))
      else None
    case Unknown => None
  }

  function Step(s: State, previous: Option<Hash>, number: nat, e: Entry, digests: Digests): Option<State> {
    if Chained(e, number, previous, digests) && WellSigned(e.body) then Applied(s, e.body, number) else None
  }

  function Head(entries: seq<Entry>): Option<Hash> {
    if entries == [] then None else Some(entries[|entries| - 1].digest)
  }

  /** The state an audit log gives, if every entry of it is accepted. */
  function Replay(entries: seq<Entry>, digests: Digests): Option<State> {
    if entries == [] then Some(INITIAL)
    else
      var n := |entries| - 1;
      match Replay(entries[..n], digests)
      case None => None
      case Some(s) => Step(s, Head(entries[..n]), n + 1, entries[n], digests)
  }

  /** Replaying from the front, stopping at the first entry refused. */
  method ReplayAll(entries: seq<Entry>, digests: Digests) returns (state: Option<State>)
    ensures state == Replay(entries, digests)
  {
    hide Step;
    var previous: Option<Hash> := None;
    var s := INITIAL;
    for n := 0 to |entries|
      invariant previous == Head(entries[..n])
      invariant Replay(entries[..n], digests) == Some(s)
    {
      assert entries[..n + 1][..n] == entries[..n];
      var next := Step(s, previous, n + 1, entries[n], digests);
      if next.None? {
        RefusedStays(entries[..n + 1], entries[n + 1..], digests);
        assert entries == entries[..n + 1] + entries[n + 1..];
        return None;
      }
      s := next.value;
      previous := Some(entries[n].digest);
    }
    assert entries[..|entries|] == entries;
    state := Some(s);
  }

  /** A log is accepted only if every beginning of it is. */
  lemma {:induction false} RefusedStays(a: seq<Entry>, b: seq<Entry>, digests: Digests)
    requires Replay(a, digests).None?
    ensures Replay(a + b, digests).None?
  {
    if b == [] {
      assert a + b == a;
    } else {
      assert (a + b)[..|a + b| - 1] == a + b[..|b| - 1];
      RefusedStays(a, b[..|b| - 1], digests);
    }
  }

  /** Replaying a longer log is one step from replaying the log. */
  lemma ReplayExtended(a: seq<Entry>, e: Entry, digests: Digests)
    ensures Replay(a + [e], digests)
         == match Replay(a, digests)
            case None => None
            case Some(s) => Step(s, Head(a), |a| + 1, e, digests)
  {
    assert (a + [e])[..|a|] == a;
  }

  // ----- What replay guarantees -----

  function Promotions(entries: seq<Entry>): nat {
    if entries == [] then 0
    else
      Promotions(entries[..|entries| - 1]) + if entries[|entries| - 1].body.details.Promotion? then 1 else 0
  }

  /** The latest promotion's references. */
  function Approved(entries: seq<Entry>): seq<Hash> {
    if entries == [] then []
    else
      var last := entries[|entries| - 1].body.details;
      if last.Promotion? then last.reports else Approved(entries[..|entries| - 1])
  }

  /** The state counts promotions, holds the latest one's evidence, and its exceptions are for that one. */
  lemma {:induction false} ReplayMeans(entries: seq<Entry>, digests: Digests)
    requires Replay(entries, digests).Some?
    ensures var s := Replay(entries, digests).value;
      && s.revision == Promotions(entries) && s.reports == Approved(entries)
      && (s.revision == 0 <==> s.workload == None)
      && |s.suppressions| <= MAX_SUPPRESSIONS
      && (forall i | 0 <= i < |s.suppressions| :: ForCurrent(s.suppressions[i], s, entries))
      && (forall i, j | 0 <= i < j < |s.suppressions| :: s.suppressions[i].sequence < s.suppressions[j].sequence)
  {
    if entries != [] {
      var n := |entries| - 1;
      ReplayMeans(entries[..n], digests);
      var before, s := Replay(entries[..n], digests).value, Replay(entries, digests).value;
      assert Applied(before, entries[n].body, n + 1) == Some(s);
      forall i | 0 <= i < |s.suppressions|
        ensures ForCurrent(s.suppressions[i], s, entries)
      {
        if i < |before.suppressions| {
          assert ForCurrent(before.suppressions[i], before, entries[..n]);
        }
      }
    }
  }

  /** An exception names the approved revision and workload, and an entry of the log recorded it. */
  ghost predicate ForCurrent(x: Exception, s: State, entries: seq<Entry>) {
    && x.revision == s.revision && s.revision > 0 && Some(x.workload) == s.workload
    && x.resource in RESOURCES && (x.kind == "regression" || x.kind == "budget")
    && 1 <= x.sequence <= |entries|
    && var b := entries[x.sequence - 1].body;
      && b.details == Suppression(x.resource, x.kind, Some(x.expires), x.revision, x.workload)
      && b.approvedBy == x.approvedBy && b.reason == x.reason
      && b.at.Some? && b.at.value < x.expires <= b.at.value + NINETY_DAYS
  }

  /** Different entries of the two logs with one digest. */
  ghost predicate Collide(a: seq<Entry>, b: seq<Entry>, digests: Digests) {
    exists i, j | 0 <= i < |a| && 0 <= j < |b| ::
      a[i].body != b[j].body && digests.ofBody(a[i].body) == digests.ofBody(b[j].body)
  }

  lemma LastChained(entries: seq<Entry>, digests: Digests)
    requires Replay(entries, digests).Some? && entries != []
    ensures var n := |entries| - 1;
      Chained(entries[n], n + 1, Head(entries[..n]), digests) && Replay(entries[..n], digests).Some?
  {
  }

  /**
   Two accepted logs with one head are one log, or two of their entries are a digest
   collision: the head vouches for everything before it.
   */
  lemma {:induction false} EqualHeads(a: seq<Entry>, b: seq<Entry>, digests: Digests)
    ensures Replay(a, digests).Some? && Replay(b, digests).Some? && Head(a) == Head(b) ==>
      a == b || Collide(a, b, digests)
  {
    hide Replay;
    if Replay(a, digests).Some? && Replay(b, digests).Some? && Head(a) == Head(b) && a != [] && b != [] {
      var m, n := |a| - 1, |b| - 1;
      LastChained(a, digests);
      LastChained(b, digests);
      if a[m].body == b[n].body {
        EqualHeads(a[..m], b[..n], digests);
        assert a == a[..m] + [a[m]] && b == b[..n] + [b[n]];
      }
    }
  }

  // ----- The store on disk -----

  /** How a step ended: refused or failed with nothing done, or cut short by a crash. */
  datatype Outcome = Done | Refused | Failed | Crashed

  /** The store's directory; each replacement is atomic, and may fail or be the last thing that happens. */
  class Directory {
    var manifest: Option<seq<Entry>>
    var objects: map<Hash, Report>
    /** Every report that was ever offered as evidence. */
    ghost var met: set<Report>

    constructor ()
      ensures manifest == None && objects == map[] && met == {}
    {
      manifest, objects, met := None, map[], {};
    }

    method Replace(entries: seq<Entry>) returns (outcome: Outcome)
      modifies `manifest
      ensures outcome != Refused
      ensures outcome.Done? ==> manifest == Some(entries)
      ensures outcome.Failed? ==> manifest == old(manifest)
      ensures outcome.Crashed? ==> manifest == old(manifest) || manifest == Some(entries)
    {
      outcome := *;
      if outcome.Refused? {
        outcome := Failed;
      }
      var late: bool := *;
      if outcome.Done? || (outcome.Crashed? && late) {
        manifest := Some(entries);
      }
    }

    method Publish(h: Hash, report: Report) returns (outcome: Outcome)
      modifies `objects
      ensures outcome != Refused
      ensures outcome.Done? ==> objects == old(objects)[h := report]
      ensures outcome.Failed? ==> objects == old(objects)
      ensures outcome.Crashed? ==> objects == old(objects) || objects == old(objects)[h := report]
    {
      outcome := *;
      if outcome.Refused? {
        outcome := Failed;
      }
      var late: bool := *;
      if outcome.Done? || (outcome.Crashed? && late) {
        objects := objects[h := report];
      }
    }
  }

  /** These references are published, each object with the content it is named after. */
  ghost predicate Published(references: seq<Hash>, objects: map<Hash, Report>, digests: Digests) {
    forall i | 0 <= i < |references| ::
      references[i] in objects && digests.ofReport(objects[references[i]]) == references[i]
  }

  function Contents(references: seq<Hash>, objects: map<Hash, Report>): (r: seq<Report>)
    requires forall i | 0 <= i < |references| :: references[i] in objects
    ensures |r| == |references| && forall i | 0 <= i < |r| :: r[i] == objects[references[i]]
  {
    seq(|references|, i requires 0 <= i < |references| => objects[references[i]])
  }

  function TotalSize(reports: seq<Report>, size: Report -> nat): nat {
    if reports == [] then 0 else TotalSize(reports[..|reports| - 1], size) + size(reports[|reports| - 1])
  }

  /** The workload of runs that may be a baseline together. */
  function Workload(reports: seq<Report>, criteria: Criteria): Option<string> {
    if 2 <= |reports| <= MAX_GROUP_RUNS then criteria.workload(reports) else None
  }

  /** Evidence that may be loaded: within the group's bytes, and eligible. */
  predicate Usable(reports: seq<Report>, criteria: Criteria) {
    TotalSize(reports, criteria.size) <= MAX_GROUP_BYTES && Workload(reports, criteria).Some?
  }

  /** What the baseline is compared with is published unchanged, and usable. */
  ghost predicate Intact(references: seq<Hash>, objects: map<Hash, Report>, digests: Digests, criteria: Criteria) {
    Published(references, objects, digests) && Usable(Contents(references, objects), criteria)
  }

  /** Two different reports with one digest have been offered. */
  ghost predicate Clash(met: set<Report>, digests: Digests) {
    exists a, b | a in met && b in met :: a != b && digests.ofReport(a) == digests.ofReport(b)
  }

  /** A promotion's evidence is there; and but for a clash of digests, it is what was approved, and usable. */
  ghost predicate Vouched(e: Entry, objects: map<Hash, Report>, met: set<Report>, digests: Digests, criteria: Criteria) {
    e.body.details.Promotion? ==>
      Published(e.body.details.reports, objects, digests)
      && (Clash(met, digests) || Intact(e.body.details.reports, objects, digests, criteria))
  }

  ghost predicate Backed(entries: seq<Entry>, objects: map<Hash, Report>, met: set<Report>, digests: Digests,
                         criteria: Criteria)
  {
    forall i | 0 <= i < |entries| :: Vouched(entries[i], objects, met, digests, criteria)
  }

  /** What a directory holds at any moment, crashes included: an accepted log, all of whose evidence is there. */
  ghost predicate OnDisk(manifest: Option<seq<Entry>>, objects: map<Hash, Report>, met: set<Report>, digests: Digests,
                         criteria: Criteria)
  {
    && (forall h | h in objects :: objects[h] in met)
    && (manifest.Some? ==> Replay(manifest.value, digests).Some? && Backed(manifest.value, objects, met, digests, criteria))
  }

  lemma VouchedByMore(e: Entry, objects: map<Hash, Report>, met: set<Report>, more: map<Hash, Report>,
                      since: set<Report>, digests: Digests, criteria: Criteria)
    requires Vouched(e, objects, met, digests, criteria) && met <= since
    requires forall h | h in objects :: h in more && more[h] == objects[h]
    ensures Vouched(e, more, since, digests, criteria)
  {
    if e.body.details.Promotion? {
      var references := e.body.details.reports;
      assert Contents(references, more) == Contents(references, objects);
    }
  }

  /** More objects and more offers leave a sound directory sound. */
  lemma SoundGrown(manifest: Option<seq<Entry>>, objects: map<Hash, Report>, met: set<Report>,
                   more: map<Hash, Report>, since: set<Report>, digests: Digests, criteria: Criteria)
    requires forall h | h in objects :: h in more && more[h] == objects[h]
    requires met <= since && forall h | h in more :: (h in objects && more[h] == objects[h]) || more[h] in since
    ensures OnDisk(manifest, objects, met, digests, criteria) ==> OnDisk(manifest, more, since, digests, criteria)
  {
    hide Vouched, Replay;
    if OnDisk(manifest, objects, met, digests, criteria) && manifest.Some? {
      forall i | 0 <= i < |manifest.value|
        ensures Vouched(manifest.value[i], more, since, digests, criteria)
      {
        VouchedByMore(manifest.value[i], objects, met, more, since, digests, criteria);
      }
    }
  }

  /** Before and after the manifest is replaced, the directory is sound, provided the evidence came first. */
  lemma SoundAppend(manifest: Option<seq<Entry>>, audit: seq<Entry>, e: Entry, objects: map<Hash, Report>,
                    met: set<Report>, digests: Digests, criteria: Criteria)
    requires manifest == Some(audit) || (audit == [] && manifest == None)
    requires Replay(audit + [e], digests).Some? && Vouched(e, objects, met, digests, criteria)
    requires OnDisk(manifest, objects, met, digests, criteria)
    ensures OnDisk(Some(audit + [e]), objects, met, digests, criteria)
  {
    hide Replay, Vouched;
    var entries := audit + [e];
    forall i | 0 <= i < |entries|
      ensures Vouched(entries[i], objects, met, digests, criteria)
    {
      if i < |audit| {
        assert Vouched(audit[i], objects, met, digests, criteria);
      }
    }
  }

  lemma {:induction false} ApprovedVouched(entries: seq<Entry>, objects: map<Hash, Report>, met: set<Report>,
                                           digests: Digests, criteria: Criteria)
    requires Backed(entries, objects, met, digests, criteria) && Promotions(entries) > 0
    ensures Published(Approved(entries), objects, digests)
    ensures Clash(met, digests) || Intact(Approved(entries), objects, digests, criteria)
  {
    var n := |entries| - 1;
    assert Vouched(entries[n], objects, met, digests, criteria);
    if !entries[n].body.details.Promotion? {
      forall i | 0 <= i < n
        ensures Vouched(entries[..n][i], objects, met, digests, criteria)
      {
        assert Vouched(entries[i], objects, met, digests, criteria);
      }
      ApprovedVouched(entries[..n], objects, met, digests, criteria);
    }
  }

  /** In a sound store the approved evidence is there, and but for a clash of digests it is intact. */
  lemma SoundIsIntact(manifest: Option<seq<Entry>>, audit: seq<Entry>, state: State, objects: map<Hash, Report>,
                      met: set<Report>, digests: Digests, criteria: Criteria)
    requires manifest == Some(audit) || (audit == [] && manifest == None)
    requires Replay(audit, digests) == Some(state) && OnDisk(manifest, objects, met, digests, criteria)
    requires state.revision > 0
    ensures Published(state.reports, objects, digests)
    ensures Clash(met, digests) || Intact(state.reports, objects, digests, criteria)
  {
    ReplayMeans(audit, digests);
    hide Replay, Intact, Clash, Published;
    ApprovedVouched(audit, objects, met, digests, criteria);
  }

  /** Who does something, why, and from which source. */
  datatype Approval = Approval(actor: string, approvedBy: string, reason: string, sourceCommit: string)
  {
    predicate Signed() {
      IsText(approvedBy) && IsText(reason) && IsCommit(sourceCommit)
    }
  }

  /** Reports handed in: as many as a group holds, valid, and each and all within their bytes. */
  predicate Current(reports: seq<Report>, criteria: Criteria) {
    && 2 <= |reports| <= MAX_GROUP_RUNS
    && (forall r | r in reports :: criteria.size(r) <= ReportContract.MAX_REPORT_BYTES && criteria.valid(r))
    && TotalSize(reports, criteria.size) <= MAX_GROUP_BYTES
  }

  /** By themselves these reports may become a baseline: a signal of their own has to be accepted. */
  predicate Eligible(reports: seq<Report>, accepted: bool, criteria: Criteria) {
    && Current(reports, criteria) && Workload(reports, criteria).Some? && criteria.budgets(reports).Some?
    && (criteria.signalled(reports) ==> accepted)
  }

  /** They may replace approved ones: the comparison is conclusive, and where they are worse, that is accepted. */
  predicate Replaces(reports: seq<Report>, approved: seq<Report>, budgets: map<string, real>, accepted: bool,
                     criteria: Criteria)
  {
    var c := criteria.compare(approved, reports, budgets);
    !c.inconclusive && (c.worse ==> accepted)
  }

  class BaselineStore {
    const directory: Directory
    const digests: Digests
    const criteria: Criteria
    /** The size of the manifest that holds some entries. */
    const size: seq<Entry> -> nat
    var audit: seq<Entry>
    var state: State

    /** In memory the state is the replay of the audit, and the audit is what the directory holds. */
    ghost predicate Valid()
      reads this, directory
    {
      && Replay(audit, digests) == Some(state)
      && (directory.manifest == Some(audit) || (audit == [] && directory.manifest == None))
    }

    ghost predicate Sound()
      reads this, directory
    {
      OnDisk(directory.manifest, directory.objects, directory.met, digests, criteria)
    }

    /** There is a baseline, and its evidence is published unchanged and usable. */
    ghost predicate Ready()
      reads this, directory
    {
      state.revision > 0 && Intact(state.reports, directory.objects, digests, criteria)
    }

    /** These reports may be promoted now. */
    ghost predicate Promotable(reports: seq<Report>, accepted: bool)
      reads this, directory
    {
      && Eligible(reports, accepted, criteria)
      && (state.revision > 0 ==>
            Ready() && Replaces(reports, Contents(state.reports, directory.objects), state.budgets, accepted, criteria))
    }

    constructor (directory: Directory, digests: Digests, criteria: Criteria, size: seq<Entry> -> nat, audit: seq<Entry>,
                 state: State)
      requires Replay(audit, digests) == Some(state)
      requires directory.manifest == Some(audit) || (audit == [] && directory.manifest == None)
      ensures Valid() && this.directory == directory && this.digests == digests && this.audit == audit
    {
      this.directory, this.digests, this.criteria, this.size := directory, digests, criteria, size;
      this.audit, this.state := audit, state;
    }

    method Append(details: Details, approval: Approval, at: real, ghost sound: bool) returns (outcome: Outcome)
      requires Valid()
      requires sound ==> Sound()
      requires sound && details.Promotion? ==>
        && Published(details.reports, directory.objects, digests)
        && (Clash(directory.met, digests) || Intact(details.reports, directory.objects, digests, criteria))
      modifies `audit, `state, directory`manifest
      ensures sound ==> Sound()
      ensures outcome != Crashed ==> Valid()
      ensures outcome.Done? ==>
        && |audit| == |old(audit)| + 1 && audit[..|old(audit)|] == old(audit)
        && audit[|old(audit)|].body.details == details && audit[|old(audit)|].body.at == Some(at)
        && Step(old(state), Head(old(audit)), |audit|, audit[|old(audit)|], digests) == Some(state)
      ensures !outcome.Done? ==> audit == old(audit) && state == old(state)
      ensures outcome.Refused? || outcome.Failed? ==> directory.manifest == old(directory.manifest)
    {
      hide Step, Replay, Backed, OnDisk, IsText, Strip, Published, Clash, Intact;
      ghost var before := directory.manifest;
      if |audit| >= MAX_AUDIT_ENTRIES {
        return Refused;
      }
      if !approval.Signed() {
        return Refused;
      }
      var body := Body(|audit| + 1, Head(audit), details, Some(at), approval.actor, Strip(approval.approvedBy),
                       Strip(approval.reason), approval.sourceCommit);
      var entry := Entry(body, digests.ofBody(body));
      var entries := audit + [entry];
      var next := ReplayAll(entries, digests);
      if next.None? || size(entries) > MAX_MANIFEST_BYTES {
        return Refused;
      }
      ReplayExtended(audit, entry, digests);
      if sound {
        SoundAppend(before, audit, entry, directory.objects, directory.met, digests, criteria);
      }
      outcome := directory.Replace(entries);
      if outcome.Done? {
        audit, state := entries, next.value;
      }
    }

    /**
     The approved evidence, if there is any and it can be loaded: every object of it
     present and unchanged, all within the group's bytes, and eligible together.
     */
    method Reports() returns (reports: Option<seq<Report>>)
      ensures reports.Some? <==> Ready()
      ensures reports.Some? ==> reports.value == Contents(state.reports, directory.objects)
      ensures Valid() && Sound() && state.revision > 0 && !Clash(directory.met, digests) ==> reports.Some?
    {
      if Valid() && Sound() && state.revision > 0 {
        SoundIsIntact(directory.manifest, audit, state, directory.objects, directory.met, digests, criteria);
      }
      hide Replay, OnDisk, Clash;
      if state.revision == 0 {
        return None;
      }
      var result: seq<Report>, total := [], 0;
      for i := 0 to |state.reports|
        invariant |result| == i && total == TotalSize(result, criteria.size) <= MAX_GROUP_BYTES
        invariant forall j | 0 <= j < i ::
          && state.reports[j] in directory.objects && result[j] == directory.objects[state.reports[j]]
          && digests.ofReport(result[j]) == state.reports[j]
      {
        var identifier := state.reports[i];
        if identifier !in directory.objects {
          return None;
        }
        var report := directory.objects[identifier];
        total := total + criteria.size(report);
        TotalGrows(state.reports, directory.objects, i, result, criteria.size);
        if total > MAX_GROUP_BYTES || digests.ofReport(report) != identifier {
          return None;
        }
        assert (result + [report])[..i] == result;
        result := result + [report];
      }
      assert Published(state.reports, directory.objects, digests);
      assert result == Contents(state.reports, directory.objects);
      return if Workload(result, criteria).Some? then Some(result) else None;
    }

    /** Evidence reaches the disk first; an object that is there already must be the same report. */
    method PublishAll(reports: seq<Report>) returns (outcome: Outcome, identifiers: seq<Hash>)
      modifies directory`objects, directory`met
      ensures old(Sound()) ==> Sound()
      ensures outcome.Done? ==>
        && |identifiers| == |reports| && Published(identifiers, directory.objects, digests)
        && forall i | 0 <= i < |reports| :: identifiers[i] == digests.ofReport(reports[i])
      ensures outcome.Done? && old(Sound()) ==>
        Clash(directory.met, digests) || Contents(identifiers, directory.objects) == reports
      ensures outcome.Done? ==> TotalSize(reports, criteria.size) <= MAX_GROUP_BYTES
      ensures forall h | h in old(directory.objects) ::
        h in directory.objects && directory.objects[h] == old(directory.objects)[h]
      ensures old(directory.met) <= directory.met
    {
      hide OnDisk, Clash;
      identifiers := [];
      var total := 0;
      for i := 0 to |reports|
        invariant old(Sound()) ==> Sound()
        invariant total == TotalSize(reports[..i], criteria.size) <= MAX_GROUP_BYTES
        invariant |identifiers| == i && Published(identifiers, directory.objects, digests)
        invariant forall j | 0 <= j < i :: identifiers[j] == digests.ofReport(reports[j])
        invariant old(Sound()) ==> Clash(directory.met, digests) || Contents(identifiers, directory.objects) == reports[..i]
        invariant forall h | h in old(directory.objects) ::
          h in directory.objects && directory.objects[h] == old(directory.objects)[h]
        invariant old(directory.met) <= directory.met
      {
        var report := reports[i];
        assert reports[..i + 1][..i] == reports[..i];
        total := total + criteria.size(report);
        if total > MAX_GROUP_BYTES {
          outcome := Refused;
          return;
        }
        ghost var done := identifiers;
        var identifier;
        outcome, identifier := PublishOne(report, done);
        if !outcome.Done? {
          return;
        }
        identifiers := identifiers + [identifier];
        PublishedMore(done, reports[..i], identifier, report, directory.objects, directory.met, digests);
        assert reports[..i + 1] == reports[..i] + [report];
      }
      assert reports[..|reports|] == reports;
      outcome := Done;
    }

    /** Publish one report under its digest, or verify the object that is there. */
    method PublishOne(report: Report, ghost done: seq<Hash>) returns (outcome: Outcome, identifier: Hash)
      requires Published(done, directory.objects, digests)
      modifies directory`objects, directory`met
      ensures old(Sound()) ==> Sound()
      ensures identifier == digests.ofReport(report)
      ensures forall h | h in old(directory.objects) ::
        h in directory.objects && directory.objects[h] == old(directory.objects)[h]
      ensures directory.met == old(directory.met) + {report}
      ensures Published(done, directory.objects, digests)
      ensures Contents(done, directory.objects) == old(Contents(done, directory.objects))
      ensures Clash(old(directory.met), digests) ==> Clash(directory.met, digests)
      ensures outcome.Done? ==>
        && identifier in directory.objects && digests.ofReport(directory.objects[identifier]) == identifier
        && (old(Sound()) ==> Clash(directory.met, digests) || directory.objects[identifier] == report)
    {
      identifier := digests.ofReport(report);
      ghost var before, met := directory.objects, directory.met;
      directory.met := met + {report};
      SoundGrown(directory.manifest, before, met, before, directory.met, digests, criteria);
      hide Backed, Replay;
      outcome := Done;
      if identifier in directory.objects {
        if digests.ofReport(directory.objects[identifier]) != identifier {
          outcome := Refused;
        }
      } else {
        outcome := directory.Publish(identifier, report);
        SoundGrown(directory.manifest, before, directory.met, directory.objects, directory.met, digests, criteria);
      }
    }

    /**
     Approve new evidence: it must be eligible, comparable with the evidence approved so
     far, and where it shows a signal or is worse, that has to be accepted in so many words.
     */
    method Promote(reports: seq<Report>, accepted: bool, approval: Approval, at: real) returns (outcome: Outcome)
      requires Valid()
      modifies this, directory
      ensures old(Sound()) ==> Sound()
      ensures outcome != Crashed ==> Valid()
      ensures !old(Promotable(reports, accepted)) || !approval.Signed() ==>
        outcome.Refused? && directory.objects == old(directory.objects) && directory.met == old(directory.met)
      ensures outcome.Done? ==>
        && state.revision == old(state.revision) + 1 && state.suppressions == []
        && Some(state.budgets) == criteria.budgets(reports)
        && state.workload == Some(Strip(Workload(reports, criteria).value))
        && |state.reports| == |reports| && Published(state.reports, directory.objects, digests)
        && forall i | 0 <= i < |reports| :: state.reports[i] == digests.ofReport(reports[i])
      ensures outcome.Done? && old(Sound()) ==>
        Clash(directory.met, digests) || (Ready() && Contents(state.reports, directory.objects) == reports)
      ensures !outcome.Done? ==> audit == old(audit) && state == old(state)
      ensures outcome.Refused? || outcome.Failed? ==> directory.manifest == old(directory.manifest)
    {
      hide Replay, Backed, Published, OnDisk, Clash, IsText, IsCommit, Strip;
      if !Eligible(reports, accepted, criteria) || !approval.Signed() {
        return Refused;
      }
      if state.revision > 0 {
        var current := Reports();
        if current.None? || !Replaces(reports, current.value, state.budgets, accepted, criteria) {
          return Refused;
        }
      }
      var identifiers;
      outcome, identifiers := PublishAll(reports);
      if !outcome.Done? {
        return;
      }
      outcome := Append(Promotion(identifiers, criteria.budgets(reports).value, Workload(reports, criteria).value), approval, at,
                        old(Sound()));
    }

    /** Add an exception to the approved baseline, for one resource and at most ninety days. */
    method Suppress(resource: string, kind: string, expires: real, now: real, approval: Approval, at: real)
      returns (outcome: Outcome)
      requires Valid()
      modifies this, directory
      ensures old(Sound()) ==> Sound()
      ensures outcome != Crashed ==> Valid()
      ensures outcome.Done? ==>
        && old(Ready()) && now < expires <= now + NINETY_DAYS && at < expires
        && resource in RESOURCES && (kind == "regression" || kind == "budget")
        && state == old(state).(suppressions := state.suppressions)
        && |state.suppressions| == |old(state.suppressions)| + 1
        && state.suppressions[..|old(state.suppressions)|] == old(state.suppressions)
        && var x := state.suppressions[|old(state.suppressions)|];
           x.resource == resource && x.kind == kind && x.expires == expires
           && x.revision == state.revision && Some(x.workload) == state.workload
      ensures !outcome.Done? ==> audit == old(audit) && state == old(state)
      ensures outcome.Refused? || outcome.Failed? ==> directory.manifest == old(directory.manifest)
    {
      hide Replay, Backed, Published, OnDisk, Intact;
      var current := Reports();
      if current.None? || !(now < expires <= now + NINETY_DAYS) {
        return Refused;
      }
      if resource !in RESOURCES || (kind != "regression" && kind != "budget")
         || |state.suppressions| >= MAX_SUPPRESSIONS
      {
        return Refused;
      }
      HasWorkload(audit, digests);
      outcome := Append(Suppression(resource, kind, Some(expires), state.revision, state.workload.value), approval, at,
                        Sound());
    }

    /**
     Compare new runs with the baseline: three when the evidence does not allow a verdict,
     one for a regression and four for a budget that no active exception covers, else zero.
     */
    method Check(reports: seq<Report>, overrides: map<string, real>, sourceCommit: string, now: real)
      returns (code: Option<nat>)
      requires Valid()
      ensures code.Some? <==> Ready() && Admitted(reports, overrides, sourceCommit, criteria)
      ensures code.Some? ==>
        var c := criteria.compare(Contents(state.reports, directory.objects), reports, state.budgets + overrides);
        && (code.value == 0 <==> !c.inconclusive && forall f | f in c.findings :: Excepted(f, state.suppressions, now))
        && (code.value == 3 <==> c.inconclusive)
        && (code.value == 1 <==>
              !c.inconclusive && exists f :: f in c.findings && f.regression && !Excepted(f, state.suppressions, now))
        && code.value in {0, 1, 3, 4}
        && (code.value == 0 ==> forall f | f in c.findings ::
              exists x :: x in state.suppressions && Covers(x, f, now) && ForCurrent(x, state, audit))
    {
      if !Admitted(reports, overrides, sourceCommit, criteria) {
        return None;
      }
      var current := Reports();
      if current.None? {
        return None;
      }
      ReplayMeans(audit, digests);
      hide Replay, Published, Intact, Admitted, Excepted;
      var c := criteria.compare(current.value, reports, state.budgets + overrides);
      var regressed, over := Exceeded(c.findings, now);
      code := Some(if c.inconclusive then 3 else if regressed then 1 else if over then 4 else 0);
    }

    /** Whether a regression, or a budget exceeded, is left that no active exception covers. */
    method Exceeded(findings: seq<Finding>, now: real) returns (regressed: bool, over: bool)
      ensures regressed <==> exists f :: f in findings && f.regression && !Excepted(f, state.suppressions, now)
      ensures over <==> exists f :: f in findings && !f.regression && !Excepted(f, state.suppressions, now)
    {
      hide Excepted;
      regressed, over := false, false;
      for i := 0 to |findings|
        invariant regressed <==> exists f :: f in findings[..i] && f.regression && !Excepted(f, state.suppressions, now)
        invariant over <==> exists f :: f in findings[..i] && !f.regression && !Excepted(f, state.suppressions, now)
      {
        var f := findings[i];
        assert findings[..i + 1] == findings[..i] + [f];
        var covered := FindException(f, now);
        regressed, over := regressed || (!covered && f.regression), over || (!covered && !f.regression);
      }
      assert findings[..|findings|] == findings;
    }

    method FindException(f: Finding, now: real) returns (covered: bool)
      ensures covered <==> Excepted(f, state.suppressions, now)
    {
      for i := 0 to |state.suppressions|
        invariant forall j | 0 <= j < i :: !Covers(state.suppressions[j], f, now)
      {
        if Covers(state.suppressions[i], f, now) {
          return true;
        }
      }
      covered := false;
    }
  }

  /** What a check asks of its own arguments. */
  predicate Admitted(reports: seq<Report>, overrides: map<string, real>, sourceCommit: string, criteria: Criteria) {
    && IsCommit(sourceCommit) && Current(reports, criteria) && Workload(reports, criteria).Some?
    && forall m | m in overrides :: IsBudget(m, overrides[m])
  }

  /** The evidence loaded so far is no larger than all of it. */
  lemma {:induction false} TotalGrows(references: seq<Hash>, objects: map<Hash, Report>, i: nat, result: seq<Report>,
                                      size: Report -> nat)
    requires i < |references| && |result| == i && references[i] in objects
    requires forall j | 0 <= j < i :: references[j] in objects && result[j] == objects[references[j]]
    ensures (forall j | 0 <= j < |references| :: references[j] in objects) ==>
      TotalSize(result, size) + size(objects[references[i]]) <= TotalSize(Contents(references, objects), size)
  {
    if forall j | 0 <= j < |references| :: references[j] in objects {
      var all := Contents(references, objects);
      assert all[..i + 1][..i] == result;
      TotalPrefix(all, i + 1, size);
    }
  }

  lemma {:induction false} TotalPrefix(reports: seq<Report>, n: nat, size: Report -> nat)
    requires n <= |reports|
    ensures TotalSize(reports[..n], size) <= TotalSize(reports, size)
  {
    if n == |reports| {
      assert reports[..n] == reports;
    } else {
      TotalPrefix(reports[..|reports| - 1], n, size);
      assert reports[..|reports| - 1][..n] == reports[..n];
    }
  }

  /** One more object published, and unless digests clash, with the report it is named after. */
  lemma PublishedMore(identifiers: seq<Hash>, reports: seq<Report>, identifier: Hash, report: Report,
                      objects: map<Hash, Report>, met: set<Report>, digests: Digests)
    requires Published(identifiers, objects, digests) && |identifiers| == |reports|
    requires identifier in objects && digests.ofReport(objects[identifier]) == identifier
    ensures Published(identifiers + [identifier], objects, digests)
    ensures Contents(identifiers, objects) == reports && objects[identifier] == report ==>
      Contents(identifiers + [identifier], objects) == reports + [report]
  {
  }

  lemma HasWorkload(audit: seq<Entry>, digests: Digests)
    requires Replay(audit, digests).Some? && Replay(audit, digests).value.revision > 0
    ensures Replay(audit, digests).value.workload.Some?
  {
    ReplayMeans(audit, digests);
  }

  predicate Covers(x: Exception, f: Finding, now: real) {
    x.expires > now && x.resource == f.resource && x.kind == if f.regression then "regression" else "budget"
  }

  predicate Excepted(f: Finding, suppressions: seq<Exception>, now: real) {
    exists i | 0 <= i < |suppressions| :: Covers(suppressions[i], f, now)
  }

  /** Opening a store reads the manifest and replays it; what does not replay is not opened. */
  method Open(directory: Directory, create: bool, digests: Digests, criteria: Criteria, size: seq<Entry> -> nat)
    returns (store: BaselineStore?)
    ensures store != null ==> fresh(store) && store.directory == directory && store.digests == digests && store.Valid()
    ensures store == null <==>
      (directory.manifest.None? && !create)
      || (directory.manifest.Some?
          && (size(directory.manifest.value) > MAX_MANIFEST_BYTES || |directory.manifest.value| > MAX_AUDIT_ENTRIES
              || Replay(directory.manifest.value, digests).None?))
  {
    store := null;
    if directory.manifest.None? {
      if create {
        store := new BaselineStore(directory, digests, criteria, size, [], INITIAL);
      }
      return;
    }
    var audit := directory.manifest.value;
    if size(audit) > MAX_MANIFEST_BYTES || |audit| > MAX_AUDIT_ENTRIES {
      return;
    }
    var state := ReplayAll(audit, digests);
    if state.Some? {
      store := new BaselineStore(directory, digests, criteria, size, audit, state.value);
    }
  }
}
