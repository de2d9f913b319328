/**
 The schema of src/privacy.py: every place of a report where evidence may stand, and
 of what kind. It is a schema of whole reports, so what is proved of redaction holds.
 */
module PrivacySchema {

  import opened Privacy

  type Entries = seq<(string, Spec)>

  const Num := Plain(NumLeaf)
  const Count := Plain(CountLeaf)
  const Time := Plain(TimeLeaf)
  const Iso := Plain(IsoLeaf)
  const Flag := Plain(BoolLeaf)
  const Strict := Plain(StrictBoolLeaf)
  const Removed := Plain(RedactLeaf)
  const PidSpec := Plain(PidLeaf)
  const Created := Plain(IdentityLeaf)
  const Named := Plain(NameLeaf)

  const UNITS := ["private_bytes", "rss_bytes", "vms_bytes", "handles", "threads", "cpu_percent",
                  "io_read_bytes_per_sec", "io_write_bytes_per_sec"]
  const METRICS := {"private_bytes", "rss_bytes", "vms_bytes", "handles", "threads", "cpu_percent",
                    "io_read_bytes_per_sec", "io_write_bytes_per_sec"}
  const SEVERITIES := {"none", "low", "medium", "high", "critical"}
  const RESOURCE_NAMES := {"memory", "handles", "threads"}
  const CATEGORIES := {"file", "socket", "registry", "event", "thread", "process", "mutex", "semaphore", "section",
                       "other"}
  const STATUS := {"running", "sleeping", "disk-sleep", "stopped", "tracing-stop", "zombie", "dead", "wake-kill",
                   "waking", "idle", "locked", "waiting", "parked", "unknown"}
  const EVIDENCE := {"warming_up", "collecting", "no_growth", "growth", "unavailable", "partial", "stale"}

  const PerMetric := MapOf(METRICS, Num)
  const PerType := MapOf(CATEGORIES, Count)

  // ----- Sound places -----

  /** Well-formed, and no place that needs a process beside it. */
  ghost predicate Sound(spec: Spec) {
    WellFormed(spec) && !NeedsPid(spec)
  }

  ghost predicate Quiet(entries: Entries) {
    forall i | 0 <= i < |entries| :: Sound(entries[i].1)
  }

  /** These entries, each of them found sound. */
  function Checked(entries: Entries): (r: Entries)
    requires forall i | 0 <= i < |entries| :: Sound(entries[i].1)
    ensures r == entries && Quiet(r)
  {
    entries
  }

  /** A record of these entries, which it has exactly. */
  function Table(entries: Entries): (r: map<string, Spec>)
    ensures forall i | 0 <= i < |entries| :: entries[i].0 in r
    ensures forall k | k in r :: exists i | 0 <= i < |entries| :: entries[i].0 == k && r[k] == entries[i].1
  {
    if entries == [] then map[]
    else
      var last := entries[|entries| - 1];
      var rest := Table(entries[..|entries| - 1]);
      assert forall i | 0 <= i < |entries| - 1 :: entries[..|entries| - 1][i] == entries[i];
      rest[last.0 := last.1]
  }

  lemma SoundTable(table: map<string, Spec>)
    requires forall k | k in table :: Sound(table[k])
    ensures Sound(Record(table))
  {
  }

  /** A record without a process of its own. */
  function Of(entries: Entries): (r: Spec)
    requires forall i | 0 <= i < |entries| :: Sound(entries[i].1)
    ensures Sound(r)
  {
    QuietTable(entries);
    SoundTable(Table(entries));
    Record(Table(entries))
  }

  lemma QuietTable(entries: Entries)
    requires forall i | 0 <= i < |entries| :: Sound(entries[i].1)
    ensures forall k | k in Table(entries) :: Sound(Table(entries)[k])
  {
    hide Sound;
    forall k | k in Table(entries)
      ensures Sound(Table(entries)[k])
    {
      var i :| 0 <= i < |entries| && entries[i].0 == k && Table(entries)[k] == entries[i].1;
    }
  }

  /** A record about one process, which it names by its PID. */
  function OfProcess(entries: Entries): (r: Spec)
    requires forall i | 0 <= i < |entries| :: WellFormed(entries[i].1)
    ensures Sound(r)
  {
    GoodTable(entries);
    Record(Table(entries)["pid" := Plain(PidLeaf)])
  }

  lemma GoodTable(entries: Entries)
    requires forall i | 0 <= i < |entries| :: WellFormed(entries[i].1)
    ensures forall k | k in Table(entries) :: WellFormed(Table(entries)[k])
  {
    hide WellFormed;
    forall k | k in Table(entries)
      ensures WellFormed(Table(entries)[k])
    {
      var i :| 0 <= i < |entries| && entries[i].0 == k && Table(entries)[k] == entries[i].1;
    }
  }

  function Each(keys: seq<string>, spec: Spec): (r: Entries)
    requires Sound(spec)
    ensures |r| == |keys| && forall i | 0 <= i < |r| :: Sound(r[i].1) && WellFormed(r[i].1)
  {
    seq(|keys|, i requires 0 <= i < |keys| => (keys[i], spec))
  }

  function Many(item: Spec): (r: Spec)
    requires Sound(item)
    ensures Sound(r)
  {
    ListOf(item)
  }

  function PerKey(keys: set<string>, entry: Spec): (r: Spec)
    requires Sound(entry)
    ensures Sound(r)
  {
    MapOf(keys, entry)
  }

  lemma Leaves()
    ensures forall leaf: Leaf | leaf != NameLeaf && leaf != IdentityLeaf :: Sound(Plain(leaf))
    ensures WellFormed(Created) && WellFormed(Named)
    ensures forall values: set<string> :: Sound(Enum(values))
    ensures Sound(PerMetric) && Sound(PerType)
    ensures Sound(Num) && Sound(Count) && Sound(Time) && Sound(Iso) && Sound(Flag) && Sound(Strict) && Sound(Removed)
    ensures Sound(PidSpec)
    ensures forall spec | Sound(spec) :: WellFormed(spec)
  {
  }

  // ----- The schema -----

  function Counts(): (r: Spec)
    ensures Sound(r)
  {
    hide *;
    Leaves();
    Of(Each(["live", "started", "exited", "restarted"], Count))
  }

  function ProcessSpec(): (r: Spec)
    ensures Sound(r)
  {
    hide *;
    Leaves();
    OfProcess([("ppid", PidSpec), ("create_time", Created), ("name", Named), ("status", Enum(STATUS)),
               ("access_denied", Flag), ("unmeasured", Many(Enum(METRICS))), ("handle_types", PerType)]
              + Each(UNITS, Num))
  }

  function SummarySpec(): (r: Spec)
    ensures Sound(r)
  {
    hide *;
    Leaves();
    OfProcess([("ppid", PidSpec), ("create_time", Created), ("name", Named), ("first_seen", Time), ("last_seen", Time),
               ("exited_at", Time), ("samples", Count)]
              + Each(["first", "last", "peak", "growth"], PerMetric))
  }

  function ContributorSpec(): (r: Spec)
    ensures Sound(r)
  {
    hide *;
    Leaves();
    OfProcess([("create_time", Created), ("name", Named), ("delta", Num), ("share", Num), ("new_process", Flag),
               ("exited", Flag)])
  }

  function AlertSpec(): (r: Spec)
    ensures Sound(r)
  {
    hide *;
    Leaves();
    Of([("resource", Enum(RESOURCE_NAMES)), ("metric", Enum(METRICS)), ("severity", Enum(SEVERITIES)),
        ("message", Removed), ("growth_by_type", PerType), ("contributors", Many(ContributorSpec())),
        ("mostly_new_processes", Flag)]
       + Each(["slope_per_second", "window_seconds", "current_value", "baseline_value", "growth_from_new_processes",
               "growth_within_existing"], Num))
  }

  function CoverageSpec(): (r: Spec)
    ensures Sound(r)
  {
    hide *;
    Leaves();
    PerKey(METRICS, Of([("measured", Count), ("total", Count), ("unmeasured_pids", Many(PidSpec))]))
  }

  function EvidenceSpec(): (r: Spec)
    ensures Sound(r)
  {
    hide *;
    Leaves();
    Of([("state", Enum(EVIDENCE)), ("severity", Enum(SEVERITIES)), ("valid_samples", Count), ("needed_samples", Count),
        ("elapsed_seconds", Num), ("needed_seconds", Num), ("evaluated_window_seconds", Num)])
  }

  function StatsSpec(): (r: Spec)
    ensures Sound(r)
  {
    hide *;
    Leaves();
    Of([("count", Count), ("mean", Num), ("max", Num)])
  }

  function DiagnosticsSpec(): (r: Spec)
    ensures Sound(r)
  {
    hide *;
    Leaves();
    Of(Each(["requested_interval_ms", "actual_interval_ms", "collection_ms", "handle_types_age_seconds",
             "handle_types_cost_ms", "monitor_cpu_percent", "monitor_rss_bytes", "monitor_private_bytes",
             "failed_samples", "dropped_snapshots"], Num)
       + Each(["clock_adjustments", "sampling_gaps"], Count))
  }

  function LifecycleSpec(): (r: Spec)
    ensures Sound(r)
  {
    hide *;
    Leaves();
    OfProcess([("kind", Enum({"started", "exited", "restarted"})), ("timestamp", Time), ("ppid", PidSpec),
               ("create_time", Created), ("name", Named), ("replaces_pid", PidSpec)])
  }

  function MetadataSpec(): (r: Spec)
    ensures Sound(r)
  {
    hide *;
    Leaves();
    Of([("sampling_error", Plain(ErrorLeaf)), ("timing_reset", Enum({"clock_adjustment", "sampling_gap"})),
        ("sample_gap_seconds", Num), ("clock_adjustment_seconds", Num)])
  }

  function SnapshotSpec(): (r: Spec)
    ensures Sound(r)
  {
    hide *;
    Leaves();
    Of([("timestamp", Time), ("root_pid", PidSpec), ("process_alive", Flag), ("monitoring_paused", Flag),
        ("processes", Many(ProcessSpec())), ("totals", PerMetric), ("alerts", Many(AlertSpec())),
        ("severity", Enum(SEVERITIES)), ("sample_interval_ms", Num), ("warming_up", Flag),
        ("coverage", CoverageSpec()), ("evidence", PerKey(RESOURCE_NAMES, EvidenceSpec())), ("handle_types", PerType),
        ("metadata", MetadataSpec()), ("lifecycle", Many(LifecycleSpec())), ("process_counts", Counts()),
        ("diagnostics", DiagnosticsSpec())])
  }

  function SignalSpec(): (r: Spec)
    ensures Sound(r)
  {
    hide *;
    Leaves();
    Of([("worst", Enum(SEVERITIES)), ("worst_at", Time), ("episodes", Count), ("escalations", Count),
        ("signal_seconds", Num), ("active", Flag)])
  }

  function MonitorSpec(): (r: Spec)
    ensures Sound(r)
  {
    hide *;
    Leaves();
    Of([("requested_interval_ms", Num), ("interval_ms", StatsSpec()), ("collection_ms", StatsSpec()),
        ("monitor_cpu_percent", StatsSpec()), ("handle_classification_ms", StatsSpec())]
       + Each(["monitor_rss_peak_bytes", "monitor_private_peak_bytes", "handle_types_max_age_seconds",
               "failed_samples", "dropped_snapshots"], Num)
       + Each(["clock_adjustments", "sampling_gaps"], Count))
  }

  function FactsSpec(): (r: Spec)
    ensures Sound(r)
  {
    hide *;
    Leaves();
    Of([("schema", Count), ("samples", Of(Each(["taken", "collected", "measured", "paused", "failed"], Count))),
        ("first_sample_at", Time), ("last_sample_at", Time),
        ("peaks", PerKey(METRICS, Of([("value", Num), ("timestamp", Time)]))),
        ("signals", PerKey(RESOURCE_NAMES, SignalSpec())),
        ("evaluation", Of([("after_warmup_seconds", Num), ("evaluated_seconds", Num), ("first_evaluated_at", Time)])),
        ("coverage", Of([("samples", Count), ("partial_samples", PerKey(METRICS, Count)),
                         ("unavailable_samples", PerKey(METRICS, Count))])),
        ("chart", Of(Each(["stride", "stored", "seen"], Count))), ("monitor", MonitorSpec())])
  }

  function SettingsSpec(): (r: Spec)
    ensures Sound(r)
  {
    hide *;
    Leaves();
    Of([("sample_interval_ms", Num), ("windows_seconds", Many(Num)), ("warmup_seconds", Num),
        ("timeout_seconds", Num),
        ("thresholds", PerKey(RESOURCE_NAMES, Of([("critical_delta", Num), ("critical_slope", Num)]))),
        ("fail_on", Enum(SEVERITIES)), ("fail_on_inconclusive", Flag), ("fail_on_target_error", Flag),
        ("require_full_coverage", Flag), ("budgets", PerMetric)])
  }

  function CleanupSpec(): (r: Spec)
    ensures Sound(r)
  {
    hide *;
    Leaves();
    Of([("state", Enum({"not_attempted", "complete", "incomplete"})), ("ownership", Enum({"attached", "launched"})),
        ("attempted_actions", Of(Each(["detach", "terminate", "kill"], Count))), ("remaining_count", Count),
        ("omitted_processes", Count), ("resume_required", Flag), ("errors", Many(Removed)),
        ("remaining_processes", Many(OfProcess([("create_time", Created), ("resume_required", Flag)])))])
  }

  function SeenSpec(): (r: Spec)
    ensures Sound(r)
  {
    hide *;
    Leaves();
    Of([("samples", Count), ("partial", Flag), ("full", Flag), ("measured_samples", Count),
        ("fully_measured_samples", Count), ("unreadable_pids", Many(PidSpec)), ("latest", CoverageSpec()),
        ("metrics", PerKey(METRICS, Of([("partial_samples", Count), ("unavailable_samples", Count)])))])
  }

  function OutcomeSpec(): (r: Spec)
    ensures Sound(r)
  {
    hide *;
    Leaves();
    Of([("target", Of([("state", Enum({"running", "stopped", "exited", "unknown", "left_running"})), ("exit_code", Num),
                       ("failed", Flag), ("description", Removed)])),
        ("measurement", Of([("result", Enum({"conclusive", "partial", "inconclusive"})), ("detection_ran", Flag),
                            ("partial_coverage", Flag), ("full_coverage", Flag), ("reason", Removed),
                            ("coverage", Removed)])),
        ("startup", Of([("state", Enum({"not_started", "started", "failed"})), ("error", Removed)])),
        ("cleanup", CleanupSpec()),
        ("workload", Of([("state", Enum({"not_started", "starting", "running", "complete", "failed", "interrupted",
                                         "monitor_error", "startup_failed"}))])),
        ("headless", Of([("require_full_coverage", Flag), ("exit_code", Num), ("decision_as_of_checkpoint", Num)])),
        ("monitor_errors", Many(Removed))])
  }

  function EventSpec(): (r: Spec)
    ensures Sound(r)
  {
    hide *;
    Leaves();
    Of([("timestamp", Time), ("time", Iso), ("level", Enum({"ok", "info", "warn", "alert", "error"})),
        ("message", Removed)])
  }

  function MarkerSpec(): (r: Spec)
    ensures Sound(r)
  {
    hide *;
    Leaves();
    Of([("timestamp", Time), ("kind", Enum({"marker"})), ("label", Removed), ("index", Count)])
  }

  function ExperimentSpec(): (r: Spec)
    ensures Sound(r)
  {
    hide *;
    Leaves();
    Of([("schema", Count), ("mode", Enum({"launch", "attach"})), ("operations", Num), ("duration_seconds", Num),
        ("budgets", PerMetric),
        ("sampling", Of([("interval_ms", Num), ("windows_seconds", Many(Num)), ("warmup_seconds", Num),
                         ("timeout_seconds", Num)])),
        ("environment", Of([("os", Enum({"Windows", "Linux"})), ("private_memory_metric", Enum({"private_bytes", "uss"})),
                            ("handle_metric", Enum({"handles", "file_descriptors"}))]))])
  }

  function ProcessesSpec(): (r: Spec)
    ensures Sound(r)
  {
    hide *;
    Leaves();
    Of([("counts", Counts()), ("live", Many(SummarySpec())), ("exited", Many(SummarySpec()))])
  }

  function WarmupSpec(): (r: Spec)
    ensures Sound(r)
  {
    hide *;
    Leaves();
    Of([("seconds", Num), ("completed", Flag), ("completed_at", Iso), ("baseline", PerMetric)])
  }

  /** Everything at the top of a report but its markers. */
  function RootEntries(): (r: Entries)
    ensures Quiet(r)
  {
    hide *;
    Leaves();
    Checked([("report_schema", Count), ("root_pid", PidSpec), ("mode", Enum({"launch", "attach"})),
      ("target_exit_code", Num), ("sample_count", Count), ("snapshot_stride", Count), ("session_started_at", Iso),
      ("session_ended_at", Iso), ("snapshots", Many(SnapshotSpec())), ("settings", SettingsSpec()),
      ("session_facts", FactsSpec()), ("detection_ran", Flag), ("coverage", SeenSpec()), ("outcome", OutcomeSpec()),
      ("processes", ProcessesSpec()), ("event_log", Many(EventSpec())),
      ("event_counts", Of(Each(["observed", "retained", "dropped"], Count))), ("warmup", WarmupSpec()),
      ("experiment", ExperimentSpec()),
      ("recovery", Of(Each(["partial", "final_outcome_confirmed", "exact_through_cutoff"], Strict)))])
  }

  function Root(): Spec {
    Record(Table(RootEntries())["markers" := Many(MarkerSpec())])
  }

  /** No key at the top of a report is one that redaction writes itself. */
  predicate Apart(key: string) {
    |key| != 3 && |key| != 11
    && (|key| == 7 ==> key[0] != 'v' && key[0] != 'p')
    && (|key| == 9 ==> key[0] != 'r')
    && (|key| == 10 ==> key[0] != 'c')
  }

  lemma RootKeysApart()
    ensures forall i | 0 <= i < |RootEntries()| :: Apart(RootEntries()[i].0)
    ensures Apart("markers")
  {
    hide SnapshotSpec, SettingsSpec, FactsSpec, SeenSpec, OutcomeSpec, SummarySpec, Counts, EventSpec, ExperimentSpec,
      Of, Each;
  }

  lemma OwnKeysNot(key: string)
    requires Apart(key)
    ensures key !in OWN_KEYS
  {
  }

  /** What redaction asks of its schema, the program's schema has. */
  lemma RootIsReportSchema()
    ensures ReportSchema(Root())
  {
    hide RootEntries, WellFormed, NeedsPid, Table, MarkerSpec, OWN_KEYS, Apart;
    RootKeysApart();
    MarkersIndexed();
    RootSound(RootEntries(), Many(MarkerSpec()));
  }

  lemma MarkersIndexed()
    ensures MarkerSpec().Record? && "index" in MarkerSpec().entries && MarkerSpec().entries["index"] == Count
  {
    hide Sound;
  }

  lemma RootSound(entries: Entries, markers: Spec)
    requires Quiet(entries) && Sound(markers)
    requires (forall i | 0 <= i < |entries| :: Apart(entries[i].0)) && Apart("markers")
    ensures var root := Record(Table(entries)["markers" := markers]);
      WellFormed(root) && forall i | 0 <= i < |OWN_KEYS| :: OWN_KEYS[i] !in root.entries
  {
    hide Apart;
    hide Apart, WellFormed, NeedsPid, Table, OWN_KEYS;
    var table := Table(entries)["markers" := markers];
    forall k | k in table
      ensures Sound(table[k]) && Apart(k)
    {
      if k != "markers" {
        EntryOf(entries, k);
      }
    }
    SoundTable(table);
    forall i | 0 <= i < |OWN_KEYS|
      ensures OWN_KEYS[i] !in table
    {
      if OWN_KEYS[i] in table {
        OwnKeysNot(OWN_KEYS[i]);
      }
    }
  }

  lemma EntryOf(entries: Entries, k: string)
    requires k in Table(entries) && Quiet(entries) && forall i | 0 <= i < |entries| :: Apart(entries[i].0)
    ensures Sound(Table(entries)[k]) && Apart(k)
  {
    hide Apart, WellFormed;
    var i :| 0 <= i < |entries| && entries[i].0 == k && Table(entries)[k] == entries[i].1;
  }
}
