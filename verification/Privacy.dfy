/**
 Schema-directed redaction of a report: what no path of the schema permits is dropped,
 text is removed, and processes, identities and times are renamed over the whole report.
 */
module Privacy {

  import opened Wrappers

  /** The fixed date all times are shifted to, and the range a date can be written for. */
  const EPOCH := 946684800.0
  const FIRST_DATE := -62135596800.0
  const LAST_DATE := 253402300800.0

  datatype Field = Field(key: string, value: Json)

  type Fields = seq<Field>

  /**
   A report value. Three kinds of strings matter: one that parses as an ISO date is known
   by the moment it names, and the names redaction itself gives processes by their number.
   */
  datatype Json =
    | Null
    | Bool(b: bool)
    | Int(n: int)
    | Float(x: real)
    | Text(s: string)
    | IsoText(at: real)
    | ProcessName(number: Option<nat>)
    | List(items: seq<Json>)
    | Dict(fields: seq<Field>)
  {
    predicate Numeric() {
      Int? || Float?
    }

    function Number(): real
      requires Numeric()
    {
      if Int? then n as real else x
    }

    /** Python's truth value. */
    predicate Truthy() {
      match this
      case Null => false
      case Bool(b) => b
      case Int(n) => n != 0
      case Float(x) => x != 0.0
      case Text(s) => s != ""
      case List(items) => items != []
      case Dict(fields) => fields != []
      case _ => true
    }

    function Children(): (c: seq<Json>)
      ensures forall i | 0 <= i < |c| :: c[i] < this
    {
      match this
      case List(items) => items
      case Dict(fields) => seq(|fields|, i requires 0 <= i < |fields| => fields[i].value)
      case _ => []
    }

    function KeyAt(i: nat): string {
      if Dict? && i < |fields| then fields[i].key else ""
    }

    function ChildAt(i: nat): (c: Json)
      ensures i < |Children()| ==> c == Children()[i]
    {
      if i < |Children()| then Children()[i] else Null
    }

    /** The dictionary a child can look its process up in. */
    function AsParent(): Option<Fields> {
      if Dict? then Some(fields) else None
    }
  }

  datatype Leaf =
    | PidLeaf | IdentityLeaf | NameLeaf | TimeLeaf | IsoLeaf | NumLeaf | CountLeaf
    | BoolLeaf | StrictBoolLeaf | RedactLeaf | ErrorLeaf

  /** Where evidence may stand, and what kind it must be. */
  datatype Spec =
    | Plain(leaf: Leaf)
    | Enum(values: set<string>)
    | Record(entries: map<string, Spec>)
    | ListOf(item: Spec)
    | MapOf(keys: set<string>, entry: Spec)

  /** Whether a value has the shape the schema asks for at a container. */
  predicate Fits(v: Json, spec: Spec) {
    (spec.Record? && v.Dict?) || (spec.ListOf? && v.List?) || (spec.MapOf? && v.Dict?)
  }

  /** What the schema says of one child, if it permits it at all. */
  function ChildSpec(v: Json, spec: Spec, i: nat): Option<Spec> {
    match spec
    case Record(entries) => if v.KeyAt(i) in entries then Some(entries[v.KeyAt(i)]) else None
    case ListOf(item) => Some(item)
    case MapOf(keys, entry) => if v.KeyAt(i) in keys then Some(entry) else None
    case _ => None
  }

  /** parent.get("pid"), where that is an integer. */
  function PidOf(fields: Fields): Option<int> {
    if fields == [] then None
    else if fields[0].key == "pid" then if fields[0].value.Int? then Some(fields[0].value.n) else None
    else PidOf(fields[1..])
  }

  function ParentPid(parent: Option<Fields>): Option<int> {
    if parent.Some? then PidOf(parent.value) else None
  }

  // ----- What a report is asked for -----

  /** A process number asked for, or an identity number, which asks for the process number first. */
  datatype Call = Pid(pid: Option<int>) | Identity(pid: Option<int>, value: real)

  function LeafCalls(v: Json, leaf: Leaf, parent: Option<Fields>): seq<Call> {
    if v.Null? then []
    else
      match leaf
      case PidLeaf => if v.Int? then [Pid(Some(v.n))] else []
      case NameLeaf => if parent.Some? then [Pid(ParentPid(parent))] else []
      case IdentityLeaf =>
        if v.Numeric() && parent.Some? then [Identity(ParentPid(parent), v.Number())] else []
      case _ => []
  }

  function Calls(v: Json, spec: Spec, parent: Option<Fields>): seq<Call>
    decreases v, |v.Children()| + 1
  {
    if spec.Plain? then LeafCalls(v, spec.leaf, parent)
    else if Fits(v, spec) then CallsOfFirst(v, spec, |v.Children()|)
    else []
  }

  function CallsOfFirst(v: Json, spec: Spec, n: nat): seq<Call>
    decreases v, n
  {
    if n == 0 || n > |v.Children()| then []
    else
      CallsOfFirst(v, spec, n - 1)
      + match ChildSpec(v, spec, n - 1)
        case None => []
        case Some(child) => Calls(v.Children()[n - 1], child, v.AsParent())
  }

  function LeafStamps(v: Json, leaf: Leaf): set<real> {
    if leaf == TimeLeaf && v.Numeric() then {v.Number()}
    else if leaf == IsoLeaf && v.IsoText? then {v.at}
    else {}
  }

  /** Every moment on a time path. */
  function Stamps(v: Json, spec: Spec): set<real>
    decreases v, |v.Children()| + 1
  {
    if spec.Plain? then LeafStamps(v, spec.leaf)
    else if Fits(v, spec) then StampsOfFirst(v, spec, |v.Children()|)
    else {}
  }

  function StampsOfFirst(v: Json, spec: Spec, n: nat): set<real>
    decreases v, n
  {
    if n == 0 || n > |v.Children()| then {}
    else
      StampsOfFirst(v, spec, n - 1)
      + match ChildSpec(v, spec, n - 1)
        case None => {}
        case Some(child) => Stamps(v.Children()[n - 1], child)
  }

  // ----- Renaming -----

  /** The numbering of one report: processes and identities in order of first call, and its first moment. */
  datatype Tables = Tables(pids: seq<int>, ids: seq<(Option<nat>, real)>, origin: real)

  /** One more than the place of x, or zero when it has none. */
  function NumberIn<T(==)>(xs: seq<T>, x: T): (k: nat)
    ensures k <= |xs| && (k == 0 <==> x !in xs) && (k > 0 ==> xs[k - 1] == x)
  {
    if xs == [] then 0
    else if x in xs[..|xs| - 1] then NumberIn(xs[..|xs| - 1], x)
    else if xs[|xs| - 1] == x then |xs| else 0
  }

  function PidNumber(t: Tables, pid: Option<int>): Option<nat> {
    if pid.Some? then Some(NumberIn(t.pids, pid.value)) else None
  }

  function IdNumber(t: Tables, pid: Option<int>, value: real): nat {
    NumberIn(t.ids, (PidNumber(t, pid), value))
  }

  function Entered<T(==)>(xs: seq<T>, x: T): seq<T> {
    if x in xs then xs else xs + [x]
  }

  function PidsAfter(pids: seq<int>, pid: Option<int>): seq<int> {
    if pid.Some? then Entered(pids, pid.value) else pids
  }

  /** The tables after one call. */
  function Enter(t: Tables, c: Call): Tables {
    var u := t.(pids := PidsAfter(t.pids, c.pid));
    match c
    case Pid(_) => u
    case Identity(pid, value) => u.(ids := Entered(t.ids, (PidNumber(u, pid), value)))
  }

  function After(t: Tables, calls: seq<Call>): Tables {
    if calls == [] then t else Enter(After(t, calls[..|calls| - 1]), calls[|calls| - 1])
  }

  function Shifted(t: Tables, at: real): real {
    EPOCH + (at - t.origin)
  }

  function LeafPure(v: Json, leaf: Leaf, parent: Option<Fields>, t: Tables): Option<Json> {
    if v.Null? then if leaf == StrictBoolLeaf then None else Some(Null)
    else
      match leaf
      case RedactLeaf => Some(Text("[removed]"))
      case ErrorLeaf => Some(if v.Truthy() then Text("[removed]") else Null)
      case NameLeaf =>
        Some(if parent.Some? then ProcessName(PidNumber(t, ParentPid(parent))) else Text("process"))
      case PidLeaf => Some(if v.Int? then Int(NumberIn(t.pids, v.n)) else Null)
      case IdentityLeaf =>
        if v.Numeric() && parent.Some? then
          Some(Float(IdNumber(t, ParentPid(parent), v.Number()) as real))
        else None
      case TimeLeaf => Some(if v.Numeric() then Float(Shifted(t, v.Number())) else Null)
      case IsoLeaf =>
        Some(if v.IsoText? && FIRST_DATE <= Shifted(t, v.at) < LAST_DATE then IsoText(Shifted(t, v.at)) else Null)
      case NumLeaf => if v.Numeric() then Some(v) else None
      case CountLeaf => if v.Int? && v.n >= 0 then Some(v) else None
      case BoolLeaf => if v.Bool? then Some(v) else None
      case StrictBoolLeaf => if v.Bool? then Some(v) else None
  }

  function Rebuilt(v: Json, kept: Fields): Json {
    if v.Dict? then Dict(kept) else List(seq(|kept|, i requires 0 <= i < |kept| => kept[i].value))
  }

  /** What is left of a value once the whole report's numbering is known; None is left out. */
  function Pure(v: Json, spec: Spec, parent: Option<Fields>, t: Tables): Option<Json>
    decreases v, |v.Children()| + 1
  {
    if spec.Plain? then LeafPure(v, spec.leaf, parent, t)
    else if v.Null? then Some(Null)
    else if spec.Enum? then if v.Text? && v.s in spec.values then Some(v) else None
    else if Fits(v, spec) then Some(Rebuilt(v, PureOfFirst(v, spec, |v.Children()|, t)))
    else None
  }

  function PureOfFirst(v: Json, spec: Spec, n: nat, t: Tables): Fields
    decreases v, n
  {
    if n == 0 || n > |v.Children()| then []
    else
      PureOfFirst(v, spec, n - 1, t)
      + match ChildSpec(v, spec, n - 1)
        case None => []
        case Some(child) => Kept(v.KeyAt(n - 1), Pure(v.Children()[n - 1], child, v.AsParent(), t))
  }

  function Kept(key: string, value: Option<Json>): Fields {
    if value.Some? then [Field(key, value.value)] else []
  }

  /** A record that names or identifies a process also says which, and no other place does. */
  ghost predicate WellFormed(spec: Spec) {
    match spec
    case Plain(_) => true
    case Enum(_) => true
    case Record(entries) =>
      && (forall k | k in entries :: WellFormed(entries[k]))
      && ((exists k | k in entries :: NeedsPid(entries[k])) ==>
            "pid" in entries && entries["pid"] == Plain(PidLeaf))
    case ListOf(item) => WellFormed(item)
    case MapOf(_, entry) => WellFormed(entry) && !NeedsPid(entry)
  }

  predicate NeedsPid(spec: Spec) {
    spec == Plain(NameLeaf) || spec == Plain(IdentityLeaf)
  }

  // ----- Tables only grow, and numbers never change -----

  ghost predicate Distinct<T(!new)>(xs: seq<T>) {
    forall i, j | 0 <= i < j < |xs| :: xs[i] != xs[j]
  }

  ghost predicate Grows(t: Tables, u: Tables) {
    t.pids <= u.pids && t.ids <= u.ids && u.origin == t.origin
  }

  ghost predicate Numbered(t: Tables) {
    && Distinct(t.pids) && Distinct(t.ids)
    && forall k | 0 <= k < |t.ids| && t.ids[k].0.Some? :: 1 <= t.ids[k].0.value <= |t.pids|
  }

  /** Everything these calls ask for has its number. */
  predicate Covers(t: Tables, calls: seq<Call>) {
    forall i | 0 <= i < |calls| :: CoversCall(t, calls[i])
  }

  predicate CoversCall(t: Tables, c: Call) {
    && (c.pid.Some? ==> c.pid.value in t.pids)
    && (c.Identity? ==> (PidNumber(t, c.pid), c.value) in t.ids)
  }

  lemma {:induction false} NumberStable<T(!new)>(xs: seq<T>, ys: seq<T>, x: T)
    requires xs <= ys && x in xs
    ensures NumberIn(ys, x) == NumberIn(xs, x)
  {
    if |xs| < |ys| {
      assert xs <= ys[..|ys| - 1];
      NumberStable(xs, ys[..|ys| - 1], x);
      assert x in ys[..|ys| - 1];
    } else {
      assert xs == ys;
    }
  }

  lemma {:induction false} NumberOf<T(!new)>(xs: seq<T>, k: nat)
    requires Distinct(xs) && k < |xs|
    ensures NumberIn(xs, xs[k]) == k + 1
  {
    if k < |xs| - 1 {
      NumberOf(xs[..|xs| - 1], k);
      assert xs[k] in xs[..|xs| - 1];
    }
  }

  lemma EnteredGrows<T(!new)>(xs: seq<T>, x: T)
    requires Distinct(xs)
    ensures Distinct(Entered(xs, x)) && xs <= Entered(xs, x) && x in Entered(xs, x)
  {
  }

  lemma EnterGrows(t: Tables, c: Call)
    requires Numbered(t)
    ensures Numbered(Enter(t, c)) && Grows(t, Enter(t, c)) && CoversCall(Enter(t, c), c)
  {
    var u := t.(pids := PidsAfter(t.pids, c.pid));
    if c.pid.Some? {
      EnteredGrows(t.pids, c.pid.value);
    }
    if c.Identity? {
      EnteredGrows(t.ids, (PidNumber(u, c.pid), c.value));
    }
  }

  lemma CoversGrown(t: Tables, u: Tables, c: Call)
    requires Grows(t, u) && CoversCall(t, c)
    ensures CoversCall(u, c) && PidNumber(u, c.pid) == PidNumber(t, c.pid)
    ensures c.Identity? ==> IdNumber(u, c.pid, c.value) == IdNumber(t, c.pid, c.value)
  {
    if c.pid.Some? {
      NumberStable(t.pids, u.pids, c.pid.value);
    }
    if c.Identity? {
      NumberStable(t.ids, u.ids, (PidNumber(t, c.pid), c.value));
    }
  }

  lemma {:induction false} AfterGrows(t: Tables, calls: seq<Call>)
    requires Numbered(t)
    ensures Numbered(After(t, calls)) && Grows(t, After(t, calls)) && Covers(After(t, calls), calls)
  {
    if calls != [] {
      var n := |calls| - 1;
      var u, w := After(t, calls[..n]), After(t, calls);
      AfterGrows(t, calls[..n]);
      EnterGrows(u, calls[n]);
      hide Enter, CoversCall, Numbered;
      forall i | 0 <= i < |calls|
        ensures CoversCall(w, calls[i])
      {
        if i < n {
          assert calls[..n][i] == calls[i];
          CoversGrown(u, w, calls[i]);
        }
      }
    }
  }

  lemma {:induction false} AfterConcat(t: Tables, a: seq<Call>, b: seq<Call>)
    ensures After(t, a + b) == After(After(t, a), b)
  {
    if b == [] {
      assert a + b == a;
    } else {
      assert (a + b)[..|a + b| - 1] == a + b[..|b| - 1];
      AfterConcat(t, a, b[..|b| - 1]);
    }
  }

  lemma CoversConcat(t: Tables, a: seq<Call>, b: seq<Call>)
    ensures Covers(t, a + b) <==> Covers(t, a) && Covers(t, b)
  {
    hide CoversCall;
    if Covers(t, a + b) {
      assert forall i | 0 <= i < |a| :: (a + b)[i] == a[i];
      assert forall i | 0 <= i < |b| :: (a + b)[|a| + i] == b[i];
    }
  }

  /** Once everything a value asks for has its number, later growth does not change what is left of it. */
  lemma {:induction false} PureStable(v: Json, spec: Spec, parent: Option<Fields>, t: Tables, u: Tables)
    requires Grows(t, u) && Covers(t, Calls(v, spec, parent))
    ensures Pure(v, spec, parent, u) == Pure(v, spec, parent, t)
    decreases v, |v.Children()| + 1
  {
    if spec.Plain? {
      LeafStable(v, spec.leaf, parent, t, u);
    } else if Fits(v, spec) {
      PureOfFirstStable(v, spec, |v.Children()|, t, u);
    }
  }

  lemma LeafStable(v: Json, leaf: Leaf, parent: Option<Fields>, t: Tables, u: Tables)
    requires Grows(t, u) && Covers(t, LeafCalls(v, leaf, parent))
    ensures LeafPure(v, leaf, parent, u) == LeafPure(v, leaf, parent, t)
  {
    var calls := LeafCalls(v, leaf, parent);
    if calls != [] {
      assert CoversCall(t, calls[0]);
      CoversGrown(t, u, calls[0]);
      hide NumberIn, PidOf;
    }
  }

  lemma {:induction false} PureOfFirstStable(v: Json, spec: Spec, n: nat, t: Tables, u: Tables)
    requires Fits(v, spec) && n <= |v.Children()| && Grows(t, u) && Covers(t, CallsOfFirst(v, spec, n))
    ensures PureOfFirst(v, spec, n, u) == PureOfFirst(v, spec, n, t)
    decreases v, n
  {
    if n > 0 {
      hide Covers, Grows;
      var child := ChildSpec(v, spec, n - 1);
      if child.Some? {
        CoversConcat(t, CallsOfFirst(v, spec, n - 1), Calls(v.Children()[n - 1], child.value, v.AsParent()));
        PureStable(v.Children()[n - 1], child.value, v.AsParent(), t, u);
      } else {
        assert CallsOfFirst(v, spec, n - 1) + [] == CallsOfFirst(v, spec, n - 1);
      }
      PureOfFirstStable(v, spec, n - 1, t, u);
    }
  }

  // ----- The walk that fills the tables as it goes -----

  class Redactor {
    const origin: real
    var pids: seq<int>
    var identities: seq<(Option<nat>, real)>

    constructor (origin: real)
      ensures State() == Tables([], [], origin)
    {
      this.origin := origin;
      pids, identities := [], [];
    }

    function State(): Tables
      reads this
    {
      Tables(pids, identities, origin)
    }

    method NumberPid(value: Option<int>) returns (number: Option<nat>)
      modifies `pids
      ensures State() == Enter(old(State()), Pid(value)) && number == PidNumber(State(), value)
    {
      if value.None? {
        return None;
      }
      if value.value !in pids {
        pids := pids + [value.value];
      }
      number := Some(NumberIn(pids, value.value));
    }

    method NumberIdentity(pid: Option<int>, value: real) returns (number: real)
      modifies this
      ensures State() == Enter(old(State()), Identity(pid, value))
      ensures number == IdNumber(State(), pid, value) as real
    {
      var process := NumberPid(pid);
      if (process, value) !in identities {
        identities := identities + [(process, value)];
      }
      number := NumberIn(identities, (process, value)) as real;
    }

    method TransformLeaf(value: Json, leaf: Leaf, parent: Option<Fields>) returns (r: Option<Json>)
      modifies this
      ensures State() == After(old(State()), LeafCalls(value, leaf, parent))
      ensures r == LeafPure(value, leaf, parent, State())
    {
      hide PidOf, NumberIn, PidNumber, Enter;
      OneCall(State());
      if value.Null? {
        return if leaf == StrictBoolLeaf then None else Some(Null);
      }
      if leaf == NameLeaf {
        if parent.None? {
          return Some(Text("process"));
        }
        var number := NumberPid(ParentPid(parent));
        return Some(ProcessName(number));
      }
      if leaf == PidLeaf {
        if !value.Int? {
          return Some(Null);
        }
        var number := NumberPid(Some(value.n));
        PidNumberIs(State(), value.n);
        return Some(Int(number.value));
      }
      if leaf == IdentityLeaf {
        if !value.Numeric() || parent.None? {
          return None;
        }
        var number := NumberIdentity(ParentPid(parent), value.Number());
        return Some(Float(number));
      }
      r := LeafPure(value, leaf, parent, State());
    }

    /** One value: its calls enter the tables, and what is left of it is told with their numbers. */
    method Transform(value: Json, spec: Spec, parent: Option<Fields>) returns (r: Option<Json>)
      requires Numbered(State())
      modifies this
      ensures State() == After(old(State()), Calls(value, spec, parent))
      ensures r == Pure(value, spec, parent, State())
      decreases value
    {
      if spec.Plain? {
        r := TransformLeaf(value, spec.leaf, parent);
        return;
      }
      if value.Null? {
        return Some(Null);
      }
      if spec.Enum? {
        return if value.Text? && value.s in spec.values then Some(value) else None;
      }
      if !Fits(value, spec) {
        return None;
      }
      ContainerIs(value, spec, parent);
      hide Calls, CallsOfFirst, Pure, PureOfFirst, After, Numbered, ChildSpec;
      var kept: Fields := [];
      ghost var start := State();
      var children := value.Children();
      for i := 0 to |children|
        invariant Numbered(State())
        invariant State() == After(start, CallsOfFirst(value, spec, i))
        invariant kept == PureOfFirst(value, spec, i, State())
      {
        var entry := ChildSpec(value, spec, i);
        if entry.Some? {
          ghost var before := State();
          var copied := Transform(children[i], entry.value, value.AsParent());
          NextChild(value, spec, i, start, before, State());
          kept := kept + Kept(value.KeyAt(i), copied);
        }
        ChildAdds(value, spec, i + 1, State());
      }
      r := Some(Rebuilt(value, kept));
    }
  }

  /** A container's account is its children's, from none to all. */
  lemma ContainerIs(v: Json, spec: Spec, parent: Option<Fields>)
    requires Fits(v, spec)
    ensures CallsOfFirst(v, spec, 0) == [] && Calls(v, spec, parent) == CallsOfFirst(v, spec, |v.Children()|)
    ensures forall t: Tables ::
      && After(t, []) == t && PureOfFirst(v, spec, 0, t) == []
      && Pure(v, spec, parent, t) == Some(Rebuilt(v, PureOfFirst(v, spec, |v.Children()|, t)))
  {
    hide CallsOfFirst, PureOfFirst;
    NoChildren(v, spec);
  }

  lemma NoChildren(v: Json, spec: Spec)
    ensures CallsOfFirst(v, spec, 0) == [] && StampsOfFirst(v, spec, 0) == {}
    ensures forall t: Tables :: PureOfFirst(v, spec, 0, t) == []
  {
  }

  lemma OneCall(t: Tables)
    ensures forall c: Call :: After(t, [c]) == Enter(t, c)
    ensures After(t, []) == t
  {
    forall c: Call
      ensures After(t, [c]) == Enter(t, c)
    {
      assert [c][..0] == [];
    }
  }

  lemma PidNumberIs(t: Tables, n: int)
    ensures PidNumber(t, Some(n)) == Some(NumberIn(t.pids, n))
  {
  }

  lemma NextChild(v: Json, spec: Spec, i: nat, start: Tables, before: Tables, after: Tables)
    requires Fits(v, spec) && i < |v.Children()| && Numbered(start)
    requires ChildSpec(v, spec, i).Some?
    requires before == After(start, CallsOfFirst(v, spec, i))
    requires after == After(before, Calls(v.Children()[i], ChildSpec(v, spec, i).value, v.AsParent()))
    ensures Numbered(after) && after == After(start, CallsOfFirst(v, spec, i + 1))
    ensures PureOfFirst(v, spec, i, after) == PureOfFirst(v, spec, i, before)
  {
    var calls, more := CallsOfFirst(v, spec, i), Calls(v.Children()[i], ChildSpec(v, spec, i).value, v.AsParent());
    AfterGrows(start, calls);
    AfterGrows(before, more);
    AfterConcat(start, calls, more);
    PureOfFirstStable(v, spec, i, before, after);
  }

  // ----- Redacting twice -----

  /** A call as the redacted report makes it. */
  function Image(t: Tables, c: Call): Call {
    match c
    case Pid(pid) => Pid(PidNumber(t, pid))
    case Identity(pid, value) => Identity(PidNumber(t, pid), IdNumber(t, pid, value) as real)
  }

  function Images(t: Tables, calls: seq<Call>): (r: seq<Call>)
    ensures |r| == |calls| && forall i | 0 <= i < |r| :: r[i] == Image(t, calls[i])
  {
    seq(|calls|, i requires 0 <= i < |calls| => Image(t, calls[i]))
  }

  /** The tables of the redacted report: it numbers 1, 2, 3 as 1, 2, 3. */
  function Again(t: Tables): (u: Tables)
    ensures |u.pids| == |t.pids| && forall k | 0 <= k < |t.pids| :: u.pids[k] == k + 1
    ensures u.ids == Renumbered(t.ids) && u.origin == EPOCH
  {
    Tables(seq(|t.pids|, k requires 0 <= k < |t.pids| => k + 1), Renumbered(t.ids), EPOCH)
  }

  function Renumbered(ids: seq<(Option<nat>, real)>): (r: seq<(Option<nat>, real)>)
    ensures |r| == |ids| && forall k | 0 <= k < |ids| :: r[k] == (ids[k].0, (k + 1) as real)
  {
    seq(|ids|, k requires 0 <= k < |ids| => (ids[k].0, (k + 1) as real))
  }

  lemma AgainPids(t: Tables, n: nat)
    ensures n in Again(t).pids <==> 1 <= n <= |t.pids|
    ensures 1 <= n <= |t.pids| ==> NumberIn(Again(t).pids, n) == n
  {
    var u := Again(t);
    if 1 <= n <= |t.pids| {
      assert u.pids[n - 1] == n;
      NumberOf(u.pids, n - 1);
    }
  }

  lemma RenumberedAt(ids: seq<(Option<nat>, real)>, k: nat)
    requires k < |ids|
    ensures var key := (ids[k].0, (k + 1) as real);
      key in Renumbered(ids) && NumberIn(Renumbered(ids), key) == k + 1
  {
    var r := Renumbered(ids);
    assert r[k] == (ids[k].0, (k + 1) as real);
    assert Distinct(r);
    NumberOf(r, k);
  }

  /** Asking again for what has a number gives that number. */
  lemma CallAgain(t: Tables, c: Call)
    requires Numbered(t) && CoversCall(t, c)
    ensures PidNumber(Again(t), PidNumber(t, c.pid)) == PidNumber(t, c.pid)
    ensures c.Identity? ==>
      IdNumber(Again(t), PidNumber(t, c.pid), IdNumber(t, c.pid, c.value) as real) == IdNumber(t, c.pid, c.value)
  {
    if c.pid.Some? {
      AgainPids(t, NumberIn(t.pids, c.pid.value));
    }
    if c.Identity? {
      var key := (PidNumber(t, c.pid), c.value);
      var k := NumberIn(t.ids, key) - 1;
      assert t.ids[k] == key;
      RenumberedAt(t.ids, k);
    }
  }

  lemma PidsImage(t: Tables, pid: Option<int>, last: Tables)
    requires Numbered(t) && var u := t.(pids := PidsAfter(t.pids, pid)); u.pids <= last.pids && Distinct(last.pids)
    ensures var u := t.(pids := PidsAfter(t.pids, pid));
      PidsAfter(Again(t).pids, PidNumber(last, pid)) == Again(u).pids
  {
    if pid.Some? {
      var u := t.(pids := Entered(t.pids, pid.value));
      NumberEntered(t.pids, pid.value, last.pids);
      AgainPids(t, NumberIn(last.pids, pid.value));
      hide NumberIn, Distinct;
      assert |Again(u).pids| == |u.pids|;
    }
  }

  /** Whoever is entered has its old number, or the next one, and keeps it. */
  lemma NumberEntered(pids: seq<int>, n: int, last: seq<int>)
    requires Distinct(pids) && Entered(pids, n) <= last && Distinct(last)
    ensures n in pids ==> 1 <= NumberIn(last, n) <= |pids|
    ensures n !in pids ==> NumberIn(last, n) == |pids| + 1
  {
    EnteredGrows(pids, n);
    NumberStable(Entered(pids, n), last, n);
    if n !in pids {
      NumberOf(pids + [n], |pids|);
    }
  }

  /** One call, made by a report and by its redaction, takes corresponding tables to corresponding tables. */
  lemma EnterImage(t: Tables, c: Call, last: Tables)
    requires Numbered(t) && Numbered(last) && Grows(Enter(t, c), last)
    ensures Enter(Again(t), Image(last, c)) == Again(Enter(t, c))
  {
    var u := t.(pids := PidsAfter(t.pids, c.pid));
    EnterGrows(t, c);
    PidsImage(t, c.pid, last);
    CoversGrown(Enter(t, c), last, c);
    if c.Identity? {
      var key := (PidNumber(u, c.pid), c.value);
      var w := Enter(t, c);
      assert PidNumber(w, c.pid) == PidNumber(u, c.pid);
      CallAgain(w, c);
      IdsImage(t.ids, key, last.ids);
    }
  }

  lemma IdsImage(ids: seq<(Option<nat>, real)>, key: (Option<nat>, real), last: seq<(Option<nat>, real)>)
    requires Distinct(ids) && Distinct(last) && Entered(ids, key) <= last
    ensures Entered(Renumbered(ids), (key.0, NumberIn(last, key) as real)) == Renumbered(Entered(ids, key))
  {
    EnteredGrows(ids, key);
    NumberStable(Entered(ids, key), last, key);
    if key in ids {
      RenumberedAt(ids, NumberIn(ids, key) - 1);
    } else {
      NumberOf(ids + [key], |ids|);
      hide NumberIn;
      NotRenumbered(ids, key);
      assert Renumbered(ids + [key]) == Renumbered(ids) + [(key.0, (|ids| + 1) as real)];
    }
  }

  lemma NotRenumbered(ids: seq<(Option<nat>, real)>, key: (Option<nat>, real))
    ensures (key.0, (|ids| + 1) as real) !in Renumbered(ids)
  {
    forall k | 0 <= k < |ids|
      ensures Renumbered(ids)[k] != (key.0, (|ids| + 1) as real)
    {
    }
  }

  const FIRST := Tables([], [], EPOCH)

  lemma AfterPrefix(start: Tables, calls: seq<Call>, n: nat)
    requires n <= |calls| && Numbered(start)
    ensures Numbered(After(start, calls[..n])) && Numbered(After(start, calls))
    ensures Grows(After(start, calls[..n]), After(start, calls))
  {
    hide After, Numbered, Grows;
    AfterGrows(start, calls[..n]);
    AfterGrows(After(start, calls[..n]), calls[n..]);
    AfterConcat(start, calls[..n], calls[n..]);
    assert calls == calls[..n] + calls[n..];
  }

  lemma AfterNext(start: Tables, calls: seq<Call>, n: nat)
    requires n < |calls|
    ensures After(start, calls[..n + 1]) == Enter(After(start, calls[..n]), calls[n])
  {
    assert calls[..n + 1][..n] == calls[..n];
  }

  lemma {:induction false} AfterImages(origin: real, calls: seq<Call>, n: nat)
    requires n <= |calls|
    ensures var start := Tables([], [], origin);
      After(FIRST, Images(After(start, calls), calls)[..n]) == Again(After(start, calls[..n]))
  {
    var start := Tables([], [], origin);
    var last := After(start, calls);
    if n > 0 {
      AfterImages(origin, calls, n - 1);
      AfterPrefix(start, calls, n - 1);
      AfterPrefix(start, calls, n);
      AfterNext(start, calls, n - 1);
      AfterNext(FIRST, Images(last, calls), n - 1);
      hide After, Enter, Image, Again, Numbered, Grows;
      EnterImage(After(start, calls[..n - 1]), calls[n - 1], last);
    }
  }

  predicate HasPid(fields: Fields) {
    exists i | 0 <= i < |fields| :: fields[i].key == "pid"
  }

  lemma {:induction false} PidOfConcat(a: Fields, b: Fields)
    ensures PidOf(a + b) == if HasPid(a) then PidOf(a) else PidOf(b)
    ensures HasPid(a + b) <==> HasPid(a) || HasPid(b)
  {
    assert HasPid(b) ==> HasPid(a + b) by {
      if HasPid(b) {
        var i :| 0 <= i < |b| && b[i].key == "pid";
        assert (a + b)[|a| + i].key == "pid";
      }
    }
    if a == [] {
      assert a + b == b;
    } else {
      assert (a + b)[1..] == a[1..] + b;
      PidOfConcat(a[1..], b);
      assert HasPid(a) <==> a[0].key == "pid" || HasPid(a[1..]) by { HasPidFirst(a); }
      assert HasPid(a + b) <==> a[0].key == "pid" || HasPid(a[1..] + b) by { HasPidFirst(a + b); }
    }
  }

  lemma HasPidFirst(a: Fields)
    requires a != []
    ensures HasPid(a) <==> a[0].key == "pid" || HasPid(a[1..])
  {
    if HasPid(a[1..]) {
      var i :| 0 <= i < |a| - 1 && a[1..][i].key == "pid";
      assert a[i + 1].key == "pid";
    }
    if HasPid(a) && a[0].key != "pid" {
      var i :| 0 <= i < |a| && a[i].key == "pid";
      assert a[1..][i - 1].key == "pid";
    }
  }

  /** The redacted record's process is the number of the record's process. */
  lemma {:induction false} PidKept(v: Json, spec: Spec, n: nat, t: Tables)
    requires v.Dict? && spec.Record? && "pid" in spec.entries && spec.entries["pid"] == Plain(PidLeaf)
    requires n <= |v.fields|
    ensures var kept := PureOfFirst(v, spec, n, t);
      && HasPid(kept) == HasPid(v.fields[..n]) && PidOf(kept) == PidNumber(t, PidOf(v.fields[..n]))
  {
    hide *;
    if n == 0 {
      NothingKept(v, spec, t);
    } else {
      PidKept(v, spec, n - 1, t);
      var last := [v.fields[n - 1]];
      var more := FieldKept(v, spec, n, t);
      assert v.fields[..n] == v.fields[..n - 1] + last;
      PidOfConcat(v.fields[..n - 1], last);
      PidOfConcat(PureOfFirst(v, spec, n - 1, t), more);
      NoPid(t);
    }
  }

  lemma NothingKept(v: Json, spec: Spec, t: Tables)
    requires v.Dict?
    ensures var kept := PureOfFirst(v, spec, 0, t);
      && HasPid(kept) == HasPid(v.fields[..0]) && PidOf(kept) == PidNumber(t, PidOf(v.fields[..0]))
  {
  }

  /** What one more field leaves of itself, which shows a PID where the field is one. */
  lemma FieldKept(v: Json, spec: Spec, n: nat, t: Tables) returns (more: Fields)
    requires v.Dict? && spec.Record? && "pid" in spec.entries && spec.entries["pid"] == Plain(PidLeaf)
    requires 0 < n <= |v.fields|
    ensures PureOfFirst(v, spec, n, t) == PureOfFirst(v, spec, n - 1, t) + more
    ensures HasPid(more) == HasPid([v.fields[n - 1]]) && PidOf(more) == PidNumber(t, PidOf([v.fields[n - 1]]))
  {
    var last := v.fields[n - 1];
    more := if last.key in spec.entries then Kept(last.key, Pure(last.value, spec.entries[last.key], v.AsParent(), t))
            else [];
    hide PureOfFirst, PidOf, HasPid, PidNumber, Pure, Kept;
    ChildAdds(v, spec, n, t);
    assert PureOfFirst(v, spec, n - 1, t) + [] == PureOfFirst(v, spec, n - 1, t);
    PidFieldKept(last, spec, v.AsParent(), t, more);
  }

  lemma NoPid(t: Tables)
    ensures !HasPid([]) && PidOf([]) == None && PidNumber(t, None) == None
  {
  }

  lemma PidFieldKept(last: Field, spec: Spec, parent: Option<Fields>, t: Tables, more: Fields)
    requires spec.Record? && "pid" in spec.entries && spec.entries["pid"] == Plain(PidLeaf)
    requires more == if last.key in spec.entries then Kept(last.key, Pure(last.value, spec.entries[last.key], parent, t))
                     else []
    ensures HasPid(more) == HasPid([last]) && PidOf(more) == PidNumber(t, PidOf([last]))
    ensures PidNumber(t, None) == None
  {
    PidOfOne(last);
    if more != [] {
      PidOfOne(more[0]);
      assert more == [more[0]];
    }
  }

  lemma PidOfOne(f: Field)
    ensures PidOf([f]) == if f.key == "pid" && f.value.Int? then Some(f.value.n) else None
    ensures HasPid([f]) <==> f.key == "pid"
    ensures !HasPid([]) && PidOf([]) == None
  {
    assert [f][0] == f;
  }

  /** The process a value belongs to, before and after. */
  ghost predicate Related(parent: Option<Fields>, again: Option<Fields>, t: Tables) {
    (parent.Some? <==> again.Some?) && ParentPid(again) == PidNumber(t, ParentPid(parent))
  }

  predicate Writable(at: real) {
    FIRST_DATE <= at < LAST_DATE
  }

  /** Moments move together; one that cannot be written as a date may be lost. */
  ghost predicate StampsMatch(before: set<real>, after: set<real>, t: Tables) {
    && (forall s | s in after :: s - EPOCH + t.origin in before)
    && (forall s | s in before && Writable(Shifted(t, s)) :: Shifted(t, s) in after)
  }

  ghost predicate AgreesAgain(v: Json, spec: Spec, parent: Option<Fields>, again: Option<Fields>, t: Tables) {
    match Pure(v, spec, parent, t)
    case None => Calls(v, spec, parent) == [] && Stamps(v, spec) == {}
    case Some(o) =>
      && Calls(o, spec, again) == Images(t, Calls(v, spec, parent))
      && Pure(o, spec, again, Again(t)) == Some(o)
      && StampsMatch(Stamps(v, spec), Stamps(o, spec), t)
  }

  lemma LeafAgain(v: Json, leaf: Leaf, parent: Option<Fields>, again: Option<Fields>, t: Tables)
    requires Numbered(t) && Covers(t, LeafCalls(v, leaf, parent))
    requires NeedsPid(Plain(leaf)) ==> Related(parent, again, t)
    ensures AgreesAgain(v, Plain(leaf), parent, again, t)
  {
    LeafStampsAgain(v, leaf, parent, t);
    if LeafCalls(v, leaf, parent) != [] {
      CallingLeafAgain(v, leaf, parent, again, t);
    } else {
      QuietLeafAgain(v, leaf, parent, again, t);
    }
  }

  lemma LeafStampsAgain(v: Json, leaf: Leaf, parent: Option<Fields>, t: Tables)
    ensures match LeafPure(v, leaf, parent, t)
            case None => LeafStamps(v, leaf) == {}
            case Some(o) => StampsMatch(LeafStamps(v, leaf), LeafStamps(o, leaf), t)
  {
    hide NumberIn, PidOf, PidNumber, IdNumber, ParentPid;
  }

  lemma CallingLeafAgain(v: Json, leaf: Leaf, parent: Option<Fields>, again: Option<Fields>, t: Tables)
    requires Numbered(t) && Covers(t, LeafCalls(v, leaf, parent)) && LeafCalls(v, leaf, parent) != []
    requires NeedsPid(Plain(leaf)) ==> Related(parent, again, t)
    ensures LeafPure(v, leaf, parent, t).Some?
    ensures var o := LeafPure(v, leaf, parent, t).value;
      && LeafCalls(o, leaf, again) == Images(t, LeafCalls(v, leaf, parent))
      && LeafPure(o, leaf, again, Again(t)) == Some(o)
  {
    var calls := LeafCalls(v, leaf, parent);
    assert CoversCall(t, calls[0]);
    CallAgain(t, calls[0]);
    hide NumberIn, PidOf, StampsMatch, Numbered, Covers, CoversCall;
    assert Images(t, calls) == [Image(t, calls[0])];
  }

  lemma QuietLeafAgain(v: Json, leaf: Leaf, parent: Option<Fields>, again: Option<Fields>, t: Tables)
    requires LeafCalls(v, leaf, parent) == []
    requires NeedsPid(Plain(leaf)) ==> Related(parent, again, t)
    ensures LeafPure(v, leaf, parent, t).Some? ==>
      var o := LeafPure(v, leaf, parent, t).value;
      && LeafCalls(o, leaf, again) == Images(t, LeafCalls(v, leaf, parent))
      && LeafPure(o, leaf, again, Again(t)) == Some(o)
  {
    hide NumberIn, PidOf, StampsMatch;
    assert Images(t, []) == [];
  }

  lemma {:induction false} PrefixKept(v: Json, spec: Spec, n: nat, t: Tables)
    requires Fits(v, spec) && n <= |v.Children()|
    ensures PureOfFirst(v, spec, n, t) <= PureOfFirst(v, spec, |v.Children()|, t)
    decreases |v.Children()| - n
  {
    if n < |v.Children()| {
      PrefixKept(v, spec, n + 1, t);
    }
  }

  lemma ImagesConcat(t: Tables, a: seq<Call>, b: seq<Call>)
    ensures Images(t, a + b) == Images(t, a) + Images(t, b)
  {
  }

  lemma StampsUnion(a: set<real>, b: set<real>, c: set<real>, d: set<real>, t: Tables)
    requires StampsMatch(a, b, t) && StampsMatch(c, d, t)
    ensures StampsMatch(a + c, b + d, t)
  {
  }

  /** The child a container's schema permits knows its process through the redacted container. */
  lemma ChildRelated(v: Json, spec: Spec, i: nat, t: Tables)
    requires WellFormed(spec) && Fits(v, spec) && i < |v.Children()| && ChildSpec(v, spec, i).Some?
    ensures WellFormed(ChildSpec(v, spec, i).value)
    ensures NeedsPid(ChildSpec(v, spec, i).value) ==>
      Related(v.AsParent(), Rebuilt(v, PureOfFirst(v, spec, |v.Children()|, t)).AsParent(), t)
  {
    if spec.Record? && NeedsPid(ChildSpec(v, spec, i).value) {
      assert v.KeyAt(i) in spec.entries && NeedsPid(spec.entries[v.KeyAt(i)]);
      PidKept(v, spec, |v.fields|, t);
      assert v.fields[..|v.fields|] == v.fields;
    }
  }

  /** Redacting the children already redacted changes nothing more. */
  ghost predicate FirstAgrees(v: Json, spec: Spec, n: nat, o: Json, t: Tables) {
    var m := |PureOfFirst(v, spec, n, t)|;
    && CallsOfFirst(o, spec, m) == Images(t, CallsOfFirst(v, spec, n))
    && PureOfFirst(o, spec, m, Again(t)) == PureOfFirst(v, spec, n, t)
    && StampsMatch(StampsOfFirst(v, spec, n), StampsOfFirst(o, spec, m), t)
  }

  lemma {:induction false} PureAgain(v: Json, spec: Spec, parent: Option<Fields>, again: Option<Fields>, t: Tables)
    requires WellFormed(spec) && Numbered(t) && Covers(t, Calls(v, spec, parent))
    requires NeedsPid(spec) ==> Related(parent, again, t)
    ensures AgreesAgain(v, spec, parent, again, t)
    decreases v, |v.Children()| + 1
  {
    if spec.Plain? {
      LeafAgain(v, spec.leaf, parent, again, t);
    } else if Fits(v, spec) {
      var n := |v.Children()|;
      var kept := PureOfFirst(v, spec, n, t);
      var o := Rebuilt(v, kept);
      KeptKeys(v, spec, n, t);
      RebuiltChildren(v, kept);
      PureOfFirstAgain(v, spec, n, o, t);
    } else {
      assert Images(t, []) == [];
    }
  }

  lemma RebuiltChildren(v: Json, kept: Fields)
    requires v.Dict? || v.List?
    requires v.List? ==> forall i | 0 <= i < |kept| :: kept[i].key == ""
    ensures var o := Rebuilt(v, kept);
      && |o.Children()| == |kept| && o.Dict? == v.Dict? && o.List? == v.List?
      && (forall i | 0 <= i < |kept| :: o.Children()[i] == kept[i].value && o.KeyAt(i) == kept[i].key)
      && Rebuilt(o, kept) == o
  {
  }

  lemma {:induction false} KeptKeys(v: Json, spec: Spec, n: nat, t: Tables)
    requires Fits(v, spec) && n <= |v.Children()|
    ensures v.List? ==> forall i | 0 <= i < |PureOfFirst(v, spec, n, t)| :: PureOfFirst(v, spec, n, t)[i].key == ""
    decreases v, n
  {
    if n > 0 {
      KeptKeys(v, spec, n - 1, t);
    }
  }

  /** o's children are these, with their keys. */
  ghost predicate Holds(o: Json, kept: Fields) {
    && |o.Children()| == |kept|
    && forall i | 0 <= i < |kept| :: o.Children()[i] == kept[i].value && o.KeyAt(i) == kept[i].key
  }

  /** What the n-th child adds to the four accounts of its container. */
  lemma ChildAdds(v: Json, spec: Spec, n: nat, t: Tables)
    requires Fits(v, spec) && 0 < n <= |v.Children()|
    ensures var child, x := ChildSpec(v, spec, n - 1), v.Children()[n - 1];
      if child.None? then
        && CallsOfFirst(v, spec, n) == CallsOfFirst(v, spec, n - 1)
        && StampsOfFirst(v, spec, n) == StampsOfFirst(v, spec, n - 1)
        && PureOfFirst(v, spec, n, t) == PureOfFirst(v, spec, n - 1, t)
      else
        && CallsOfFirst(v, spec, n) == CallsOfFirst(v, spec, n - 1) + Calls(x, child.value, v.AsParent())
        && StampsOfFirst(v, spec, n) == StampsOfFirst(v, spec, n - 1) + Stamps(x, child.value)
        && PureOfFirst(v, spec, n, t)
           == PureOfFirst(v, spec, n - 1, t) + Kept(v.KeyAt(n - 1), Pure(x, child.value, v.AsParent(), t))
  {
    hide Calls, Stamps, Pure, Kept;
    assert CallsOfFirst(v, spec, n - 1) + [] == CallsOfFirst(v, spec, n - 1);
    assert PureOfFirst(v, spec, n - 1, t) + [] == PureOfFirst(v, spec, n - 1, t);
  }

  /** How the n-th child continues the account, whether or not anything is left of it. */
  lemma NextAgrees(v: Json, spec: Spec, n: nat, o: Json, t: Tables)
    requires Fits(v, spec) && Fits(o, spec) && 0 < n <= |v.Children()|
    requires PureOfFirst(v, spec, n, t) <= PureOfFirst(v, spec, |v.Children()|, t)
    requires Holds(o, PureOfFirst(v, spec, |v.Children()|, t))
    requires |PureOfFirst(v, spec, n - 1, t)| <= |o.Children()| && FirstAgrees(v, spec, n - 1, o, t)
    requires ChildSpec(v, spec, n - 1).Some? ==>
      AgreesAgain(v.Children()[n - 1], ChildSpec(v, spec, n - 1).value, v.AsParent(), o.AsParent(), t)
    ensures FirstAgrees(v, spec, n, o, t)
  {
    hide StampsMatch, Calls, Stamps, Pure, CallsOfFirst, StampsOfFirst, PureOfFirst, Images, Again, ChildSpec;
    ChildAdds(v, spec, n, t);
    var child := ChildSpec(v, spec, n - 1);
    if child.Some? {
      var i := v.Children()[n - 1];
      var x := Pure(i, child.value, v.AsParent(), t);
      if x.None? {
        assert CallsOfFirst(v, spec, n - 1) + [] == CallsOfFirst(v, spec, n - 1);
        assert StampsOfFirst(v, spec, n - 1) + {} == StampsOfFirst(v, spec, n - 1);
        assert PureOfFirst(v, spec, n - 1, t) + [] == PureOfFirst(v, spec, n - 1, t);
      } else {
        var m := |PureOfFirst(v, spec, n - 1, t)|;
        assert PureOfFirst(v, spec, n, t)[m] == Field(v.KeyAt(n - 1), x.value);
        assert o.Children()[m] == x.value && o.KeyAt(m) == v.KeyAt(n - 1);
        SameChild(v, spec, n - 1, o, m);
        ChildAdds(o, spec, m + 1, Again(t));
        ImagesConcat(t, CallsOfFirst(v, spec, n - 1), Calls(i, child.value, v.AsParent()));
        StampsUnion(StampsOfFirst(v, spec, n - 1), StampsOfFirst(o, spec, m),
                    Stamps(i, child.value), Stamps(x.value, child.value), t);
      }
    }
  }

  lemma SameChild(v: Json, spec: Spec, i: nat, o: Json, m: nat)
    requires Fits(v, spec) && Fits(o, spec) && i < |v.Children()| && m < |o.Children()| && o.KeyAt(m) == v.KeyAt(i)
    ensures ChildSpec(o, spec, m) == ChildSpec(v, spec, i)
  {
  }

  lemma {:induction false} PureOfFirstAgain(v: Json, spec: Spec, n: nat, o: Json, t: Tables)
    requires WellFormed(spec) && Fits(v, spec) && n <= |v.Children()|
    requires Numbered(t) && Covers(t, CallsOfFirst(v, spec, n))
    requires o == Rebuilt(v, PureOfFirst(v, spec, |v.Children()|, t))
    ensures Fits(o, spec) && |PureOfFirst(v, spec, n, t)| <= |o.Children()| && FirstAgrees(v, spec, n, o, t)
    decreases v, n
  {
    hide FirstAgrees, AgreesAgain, Numbered, WellFormed, Related, Covers, Rebuilt, Holds, Fits;
    hide Calls, Stamps, Pure, StampsOfFirst, PureOfFirst, CallsOfFirst, ChildSpec;
    RebuiltHolds(v, spec, n, t);
    if n == 0 {
      NothingAgrees(v, spec, o, t);
    } else {
      ChildAdds(v, spec, n, t);
      var child := ChildSpec(v, spec, n - 1);
      if child.Some? {
        CoversConcat(t, CallsOfFirst(v, spec, n - 1), Calls(v.Children()[n - 1], child.value, v.AsParent()));
        ChildRelated(v, spec, n - 1, t);
        PureAgain(v.Children()[n - 1], child.value, v.AsParent(), o.AsParent(), t);
      }
      PureOfFirstAgain(v, spec, n - 1, o, t);
      NextAgrees(v, spec, n, o, t);
    }
  }

  lemma RebuiltHolds(v: Json, spec: Spec, n: nat, t: Tables)
    requires Fits(v, spec) && n <= |v.Children()|
    ensures var kept := PureOfFirst(v, spec, |v.Children()|, t);
      var o := Rebuilt(v, kept);
      && Fits(o, spec) && Holds(o, kept)
      && PureOfFirst(v, spec, n, t) <= kept && |PureOfFirst(v, spec, n, t)| <= |o.Children()|
  {
    hide PureOfFirst;
    KeptKeys(v, spec, |v.Children()|, t);
    RebuiltChildren(v, PureOfFirst(v, spec, |v.Children()|, t));
    PrefixKept(v, spec, n, t);
  }

  lemma NothingAgrees(v: Json, spec: Spec, o: Json, t: Tables)
    ensures FirstAgrees(v, spec, 0, o, t)
  {
    NoChildren(v, spec);
    NoChildren(o, spec);
    hide CallsOfFirst, StampsOfFirst, PureOfFirst;
    assert Images(t, []) == [];
  }

  // ----- What redaction can see of a report -----

  function LeafView(v: Json, leaf: Leaf): Json {
    if v.Null? then Null
    else if leaf == RedactLeaf || leaf == NameLeaf then Bool(true)
    else if leaf == ErrorLeaf then Bool(v.Truthy())
    else v
  }

  /**
   A report with everything else gone: only the schema's paths, of removed text and
   names only that they are there, and of error text only whether there is any.
   */
  function View(v: Json, spec: Spec): Option<Json>
    decreases v, |v.Children()| + 1
  {
    if spec.Plain? then Some(LeafView(v, spec.leaf))
    else if v.Null? then Some(Null)
    else if spec.Enum? then if v.Text? && v.s in spec.values then Some(v) else None
    else if Fits(v, spec) then Some(Rebuilt(v, ViewOfFirst(v, spec, |v.Children()|)))
    else None
  }

  function ViewOfFirst(v: Json, spec: Spec, n: nat): Fields
    decreases v, n
  {
    if n == 0 || n > |v.Children()| then []
    else
      ViewOfFirst(v, spec, n - 1)
      + match ChildSpec(v, spec, n - 1)
        case None => []
        case Some(child) => Kept(v.KeyAt(n - 1), View(v.Children()[n - 1], child))
  }

  /** Both parents are there or not, and name the same process. */
  predicate Alike(parent: Option<Fields>, seen: Option<Fields>) {
    (parent.Some? <==> seen.Some?) && ParentPid(seen) == ParentPid(parent)
  }

  ghost predicate Seen(v: Json, spec: Spec, parent: Option<Fields>, seen: Option<Fields>, t: Tables) {
    match View(v, spec)
    case None => Pure(v, spec, parent, t) == None && Calls(v, spec, parent) == [] && Stamps(v, spec) == {}
    case Some(w) =>
      && Pure(w, spec, seen, t) == Pure(v, spec, parent, t)
      && Calls(w, spec, seen) == Calls(v, spec, parent)
      && Stamps(w, spec) == Stamps(v, spec)
  }

  lemma {:induction false} PidViewed(v: Json, spec: Spec, n: nat)
    requires v.Dict? && spec.Record? && "pid" in spec.entries && spec.entries["pid"] == Plain(PidLeaf)
    requires n <= |v.fields|
    ensures var kept := ViewOfFirst(v, spec, n);
      HasPid(kept) == HasPid(v.fields[..n]) && PidOf(kept) == PidOf(v.fields[..n])
  {
    hide *;
    if n == 0 {
      NothingViewed(v, spec);
    } else {
      PidViewed(v, spec, n - 1);
      var last := [v.fields[n - 1]];
      var more := FieldViewed(v, spec, n);
      assert v.fields[..n] == v.fields[..n - 1] + last;
      PidOfConcat(v.fields[..n - 1], last);
      PidOfConcat(ViewOfFirst(v, spec, n - 1), more);
    }
  }

  lemma NothingViewed(v: Json, spec: Spec)
    requires v.Dict?
    ensures ViewOfFirst(v, spec, 0) == v.fields[..0]
  {
  }

  /** What one more field adds to the view, which shows a PID where the field is one. */
  lemma FieldViewed(v: Json, spec: Spec, n: nat) returns (more: Fields)
    requires v.Dict? && spec.Record? && "pid" in spec.entries && spec.entries["pid"] == Plain(PidLeaf)
    requires 0 < n <= |v.fields|
    ensures ViewOfFirst(v, spec, n) == ViewOfFirst(v, spec, n - 1) + more
    ensures HasPid(more) == HasPid([v.fields[n - 1]]) && PidOf(more) == PidOf([v.fields[n - 1]])
  {
    var last := v.fields[n - 1];
    more := if last.key in spec.entries then Kept(last.key, View(last.value, spec.entries[last.key])) else [];
    hide PidOf, HasPid, ViewOfFirst, View, Kept;
    ViewAdds(v, spec, n);
    PidFieldViewed(last, spec, more);
  }

  lemma ViewAdds(v: Json, spec: Spec, n: nat)
    requires Fits(v, spec) && 0 < n <= |v.Children()|
    ensures var child := ChildSpec(v, spec, n - 1);
      ViewOfFirst(v, spec, n)
      == ViewOfFirst(v, spec, n - 1)
         + if child.Some? then Kept(v.KeyAt(n - 1), View(v.Children()[n - 1], child.value)) else []
  {
    hide View, Kept;
  }

  lemma PidFieldViewed(last: Field, spec: Spec, more: Fields)
    requires spec.Record? && "pid" in spec.entries && spec.entries["pid"] == Plain(PidLeaf)
    requires more == if last.key in spec.entries then Kept(last.key, View(last.value, spec.entries[last.key])) else []
    ensures HasPid(more) == HasPid([last]) && PidOf(more) == PidOf([last])
  {
    PidOfOne(last);
    if more != [] {
      PidOfOne(more[0]);
      assert more == [more[0]];
    }
  }

  lemma {:induction false} PrefixViewed(v: Json, spec: Spec, n: nat)
    requires Fits(v, spec) && n <= |v.Children()|
    ensures ViewOfFirst(v, spec, n) <= ViewOfFirst(v, spec, |v.Children()|)
    decreases |v.Children()| - n
  {
    if n < |v.Children()| {
      PrefixViewed(v, spec, n + 1);
    }
  }

  lemma {:induction false} ViewedKeys(v: Json, spec: Spec, n: nat)
    requires Fits(v, spec) && n <= |v.Children()|
    ensures v.List? ==> forall i | 0 <= i < |ViewOfFirst(v, spec, n)| :: ViewOfFirst(v, spec, n)[i].key == ""
    decreases v, n
  {
    if n > 0 {
      ViewedKeys(v, spec, n - 1);
    }
  }

  lemma ChildAlike(v: Json, spec: Spec, i: nat)
    requires WellFormed(spec) && Fits(v, spec) && i < |v.Children()| && ChildSpec(v, spec, i).Some?
    ensures WellFormed(ChildSpec(v, spec, i).value)
    ensures NeedsPid(ChildSpec(v, spec, i).value) ==>
      Alike(v.AsParent(), Rebuilt(v, ViewOfFirst(v, spec, |v.Children()|)).AsParent())
  {
    if spec.Record? && NeedsPid(ChildSpec(v, spec, i).value) {
      assert v.KeyAt(i) in spec.entries && NeedsPid(spec.entries[v.KeyAt(i)]);
      PidViewed(v, spec, |v.fields|);
      assert v.fields[..|v.fields|] == v.fields;
    }
  }

  ghost predicate FirstSeen(v: Json, spec: Spec, n: nat, w: Json, t: Tables) {
    var m := |ViewOfFirst(v, spec, n)|;
    && PureOfFirst(w, spec, m, t) == PureOfFirst(v, spec, n, t)
    && CallsOfFirst(w, spec, m) == CallsOfFirst(v, spec, n)
    && StampsOfFirst(w, spec, m) == StampsOfFirst(v, spec, n)
  }

  lemma NextSeen(v: Json, spec: Spec, n: nat, w: Json, t: Tables)
    requires Fits(v, spec) && Fits(w, spec) && 0 < n <= |v.Children()|
    requires ViewOfFirst(v, spec, n) <= ViewOfFirst(v, spec, |v.Children()|)
    requires Holds(w, ViewOfFirst(v, spec, |v.Children()|))
    requires |ViewOfFirst(v, spec, n - 1)| <= |w.Children()| && FirstSeen(v, spec, n - 1, w, t)
    requires ChildSpec(v, spec, n - 1).Some? ==>
      Seen(v.Children()[n - 1], ChildSpec(v, spec, n - 1).value, v.AsParent(), w.AsParent(), t)
    ensures FirstSeen(v, spec, n, w, t)
  {
    hide Calls, Stamps, Pure, View, CallsOfFirst, StampsOfFirst, PureOfFirst, ViewOfFirst, ChildSpec;
    ChildAdds(v, spec, n, t);
    ViewAdds(v, spec, n);
    var child := ChildSpec(v, spec, n - 1);
    var kept := ViewOfFirst(v, spec, n - 1);
    assert kept + [] == kept;
    if child.Some? {
      var x := View(v.Children()[n - 1], child.value);
      if x.None? {
        assert CallsOfFirst(v, spec, n - 1) + [] == CallsOfFirst(v, spec, n - 1);
        assert StampsOfFirst(v, spec, n - 1) + {} == StampsOfFirst(v, spec, n - 1);
        assert PureOfFirst(v, spec, n - 1, t) + [] == PureOfFirst(v, spec, n - 1, t);
      } else {
        var m := |kept|;
        assert ViewOfFirst(v, spec, n)[m] == Field(v.KeyAt(n - 1), x.value);
        assert w.Children()[m] == x.value && w.KeyAt(m) == v.KeyAt(n - 1);
        SameChild(v, spec, n - 1, w, m);
        ChildAdds(w, spec, m + 1, t);
      }
    }
  }

  /** Redacting a report and redacting its view are the same. */
  lemma {:induction false} ViewSuffices(v: Json, spec: Spec, parent: Option<Fields>, seen: Option<Fields>, t: Tables)
    requires WellFormed(spec) && (NeedsPid(spec) ==> Alike(parent, seen))
    ensures Seen(v, spec, parent, seen, t)
    decreases v, |v.Children()| + 1
  {
    if spec.Plain? {
      LeafSeen(v, spec.leaf, parent, seen, t);
    } else if Fits(v, spec) {
      hide WellFormed, Alike, ViewOfFirst, PureOfFirst, CallsOfFirst, StampsOfFirst, FirstSeen, Rebuilt, Fits;
      var n := |v.Children()|;
      var w := Rebuilt(v, ViewOfFirst(v, spec, n));
      ViewOfFirstSuffices(v, spec, n, w, t);
      ContainerSeen(v, w, spec, parent, seen, t);
    }
  }

  lemma ContainerSeen(v: Json, w: Json, spec: Spec, parent: Option<Fields>, seen: Option<Fields>, t: Tables)
    requires Fits(v, spec) && w == Rebuilt(v, ViewOfFirst(v, spec, |v.Children()|))
    requires FirstSeen(v, spec, |v.Children()|, w, t)
    ensures Seen(v, spec, parent, seen, t)
  {
    ViewedHolds(v, spec, |v.Children()|);
    hide ViewOfFirst, PureOfFirst, CallsOfFirst, StampsOfFirst;
    RebuiltSame(v, w, PureOfFirst(v, spec, |v.Children()|, t));
  }

  lemma LeafSeen(v: Json, leaf: Leaf, parent: Option<Fields>, seen: Option<Fields>, t: Tables)
    requires NeedsPid(Plain(leaf)) ==> Alike(parent, seen)
    ensures var w := LeafView(v, leaf);
      && LeafPure(w, leaf, seen, t) == LeafPure(v, leaf, parent, t)
      && LeafCalls(w, leaf, seen) == LeafCalls(v, leaf, parent)
      && LeafStamps(w, leaf) == LeafStamps(v, leaf)
  {
    hide NumberIn, PidOf, PidNumber, IdNumber;
  }

  lemma RebuiltSame(v: Json, w: Json, kept: Fields)
    requires v.Dict? == w.Dict?
    ensures Rebuilt(v, kept) == Rebuilt(w, kept)
  {
  }

  lemma {:induction false} ViewOfFirstSuffices(v: Json, spec: Spec, n: nat, w: Json, t: Tables)
    requires WellFormed(spec) && Fits(v, spec) && n <= |v.Children()|
    requires w == Rebuilt(v, ViewOfFirst(v, spec, |v.Children()|))
    ensures Fits(w, spec) && |ViewOfFirst(v, spec, n)| <= |w.Children()| && FirstSeen(v, spec, n, w, t)
    decreases v, n
  {
    hide FirstSeen, Seen, WellFormed, Alike, Rebuilt, Holds, Fits, ChildSpec;
    hide View, Calls, Stamps, Pure, ViewOfFirst, StampsOfFirst, PureOfFirst, CallsOfFirst;
    ViewedHolds(v, spec, n);
    if n == 0 {
      NothingSeen(v, spec, w, t);
    } else {
      var child := ChildSpec(v, spec, n - 1);
      if child.Some? {
        ChildAlike(v, spec, n - 1);
        ViewSuffices(v.Children()[n - 1], child.value, v.AsParent(), w.AsParent(), t);
      }
      ViewOfFirstSuffices(v, spec, n - 1, w, t);
      NextSeen(v, spec, n, w, t);
    }
  }

  lemma ViewedHolds(v: Json, spec: Spec, n: nat)
    requires Fits(v, spec) && n <= |v.Children()|
    ensures var kept := ViewOfFirst(v, spec, |v.Children()|);
      var w := Rebuilt(v, kept);
      && Fits(w, spec) && Holds(w, kept)
      && ViewOfFirst(v, spec, n) <= kept && |ViewOfFirst(v, spec, n)| <= |w.Children()|
  {
    hide ViewOfFirst;
    ViewedKeys(v, spec, |v.Children()|);
    RebuiltChildren(v, ViewOfFirst(v, spec, |v.Children()|));
    PrefixViewed(v, spec, n);
  }

  lemma NothingSeen(v: Json, spec: Spec, w: Json, t: Tables)
    ensures FirstSeen(v, spec, 0, w, t)
  {
    NoChildren(v, spec);
    NoChildren(w, spec);
    hide CallsOfFirst, StampsOfFirst, PureOfFirst;
  }

  // ----- A whole report -----

  /** The report's first moment; zero when it has none. */
  ghost predicate IsOrigin(origin: real, stamps: set<real>) {
    && (stamps == {} ==> origin == 0.0)
    && (stamps != {} ==> origin in stamps && forall s | s in stamps :: origin <= s)
  }

  datatype Item = Item(value: Json, spec: Spec)

  function PendingStamps(pending: seq<Item>): set<real> {
    if pending == [] then {}
    else PendingStamps(pending[..|pending| - 1]) + Stamps(pending[|pending| - 1].value, pending[|pending| - 1].spec)
  }

  function Weight(v: Json): nat
    decreases v, |v.Children()| + 1
  {
    1 + WeightOfFirst(v, |v.Children()|)
  }

  function WeightOfFirst(v: Json, n: nat): nat
    decreases v, n
  {
    if n == 0 || n > |v.Children()| then 0 else WeightOfFirst(v, n - 1) + Weight(v.Children()[n - 1])
  }

  function Weights(pending: seq<Item>): (w: nat)
    ensures w >= |pending|
  {
    if pending == [] then 0 else Weights(pending[..|pending| - 1]) + Weight(pending[|pending| - 1].value)
  }

  /** The children of a container that the schema permits. */
  function Permitted(v: Json, spec: Spec, n: nat): seq<Item> {
    if n == 0 || n > |v.Children()| then []
    else
      Permitted(v, spec, n - 1)
      + if ChildSpec(v, spec, n - 1).Some? then [Item(v.Children()[n - 1], ChildSpec(v, spec, n - 1).value)] else []
  }

  lemma {:induction false} PermittedCounts(rest: seq<Item>, v: Json, spec: Spec, n: nat)
    requires n <= |v.Children()|
    ensures PendingStamps(rest + Permitted(v, spec, n)) == PendingStamps(rest) + StampsOfFirst(v, spec, n)
    ensures Weights(rest + Permitted(v, spec, n)) <= Weights(rest) + WeightOfFirst(v, n)
  {
    hide Stamps, Weight, ChildSpec, PendingStamps, Weights;
    if n == 0 {
      assert rest + [] == rest;
    } else {
      PermittedCounts(rest, v, spec, n - 1);
      var before, child := Permitted(v, spec, n - 1), ChildSpec(v, spec, n - 1);
      if child.Some? {
        var item := Item(v.Children()[n - 1], child.value);
        assert Permitted(v, spec, n) == before + [item];
        assert rest + Permitted(v, spec, n) == (rest + before) + [item];
        PendingAppend(rest + before, item);
      } else {
        assert Permitted(v, spec, n) == before;
      }
    }
  }

  lemma PendingAppend(pending: seq<Item>, item: Item)
    ensures PendingStamps(pending + [item]) == PendingStamps(pending) + Stamps(item.value, item.spec)
    ensures Weights(pending + [item]) == Weights(pending) + Weight(item.value)
  {
    hide Stamps, Weight;
    assert (pending + [item])[..|pending|] == pending;
  }

  method Least(stamps: seq<real>) returns (least: real)
    ensures IsOrigin(least, set s | s in stamps)
  {
    least := 0.0;
    for i := 0 to |stamps|
      invariant i == 0 ==> least == 0.0
      invariant i > 0 ==> least in stamps && forall j | 0 <= j < i :: least <= stamps[j]
    {
      if i == 0 || stamps[i] < least {
        least := stamps[i];
      }
    }
    ghost var all := set s | s in stamps;
    if stamps != [] {
      assert stamps[0] in all;
      forall s | s in all
        ensures least <= s
      {
        var j :| 0 <= j < |stamps| && stamps[j] == s;
      }
    } else {
      assert all == {};
    }
  }

  /** The first pass: every moment on a time path, with a worklist, and the least of them. */
  method FindOrigin(report: Json, schema: Spec) returns (origin: real)
    ensures IsOrigin(origin, Stamps(report, schema))
  {
    var pending := [Item(report, schema)];
    var stamps: seq<real> := [];
    assert pending[..0] == [];
    while pending != []
      invariant (set s | s in stamps) + PendingStamps(pending) == Stamps(report, schema)
      decreases Weights(pending)
    {
      var item := pending[|pending| - 1];
      var rest := pending[..|pending| - 1];
      var v, spec := item.value, item.spec;
      var known := stamps;
      if spec == Plain(TimeLeaf) && v.Numeric() {
        stamps := stamps + [v.Number()];
      } else if spec == Plain(IsoLeaf) && v.IsoText? {
        stamps := stamps + [v.at];
      }
      if Fits(v, spec) {
        PermittedCounts(rest, v, spec, |v.Children()|);
        pending := rest + Permitted(v, spec, |v.Children()|);
      } else {
        pending := rest;
      }
      StampStep(known, stamps, v, spec);
    }
    origin := Least(stamps);
  }

  lemma StampStep(known: seq<real>, stamps: seq<real>, v: Json, spec: Spec)
    requires stamps == known + (if spec == Plain(TimeLeaf) && v.Numeric() then [v.Number()]
                                else if spec == Plain(IsoLeaf) && v.IsoText? then [v.at] else [])
    ensures (set s | s in stamps)
         == (set s | s in known) + (if Fits(v, spec) then {} else Stamps(v, spec))
    ensures Fits(v, spec) ==> Stamps(v, spec) == StampsOfFirst(v, spec, |v.Children()|)
  {
    hide StampsOfFirst;
  }

  // ----- Values that redaction no longer changes -----

  /** Every child is permitted and left as it is. */
  ghost predicate Settles(v: Json, spec: Spec, n: nat, t: Tables) {
    forall i | 0 <= i < n && i < |v.Children()| :: ChildSettles(v, spec, i, t)
  }

  ghost predicate ChildSettles(v: Json, spec: Spec, i: nat, t: Tables) {
    var child := ChildSpec(v, spec, i);
    child.Some? && Pure(v.ChildAt(i), child.value, v.AsParent(), t) == Some(v.ChildAt(i))
  }

  /** The children of a container, each with its key. */
  function Entries(v: Json, n: nat): (r: Fields)
    requires n <= |v.Children()|
    ensures |r| == n && forall i | 0 <= i < n :: r[i] == Field(v.KeyAt(i), v.Children()[i])
  {
    seq(n, i requires 0 <= i < n => Field(v.KeyAt(i), v.Children()[i]))
  }

  lemma {:induction false} PureCount(v: Json, spec: Spec, n: nat, t: Tables)
    requires Fits(v, spec) && n <= |v.Children()|
    ensures |PureOfFirst(v, spec, n, t)| <= n
    ensures PureOfFirst(v, spec, n, t) == Entries(v, n) <==> Settles(v, spec, n, t)
    decreases v, n
  {
    hide PureOfFirst, ChildSpec, Pure, Settles, ChildSettles;
    if n == 0 {
      NoChildren(v, spec);
      NothingSettles(v, spec, t);
    } else {
      PureCount(v, spec, n - 1, t);
      ChildAdds(v, spec, n, t);
      SettlesNext(v, spec, n - 1, t);
      SettlesChild(v, spec, n - 1, t);
      EntriesNext(v, n - 1);
      var kept, before := PureOfFirst(v, spec, n, t), PureOfFirst(v, spec, n - 1, t);
      if kept == Entries(v, n) {
        assert |kept| == n;
        assert |before| == n - 1;
        assert before == kept[..n - 1];
      }
    }
  }

  lemma NothingSettles(v: Json, spec: Spec, t: Tables)
    ensures Settles(v, spec, 0, t)
  {
  }

  lemma SettlesNext(v: Json, spec: Spec, n: nat, t: Tables)
    requires n < |v.Children()|
    ensures Settles(v, spec, n + 1, t) <==> Settles(v, spec, n, t) && ChildSettles(v, spec, n, t)
  {
    hide ChildSettles;
  }

  lemma SettlesChild(v: Json, spec: Spec, i: nat, t: Tables)
    requires i < |v.Children()|
    ensures ChildSettles(v, spec, i, t)
      <==> ChildSpec(v, spec, i).Some?
           && Pure(v.Children()[i], ChildSpec(v, spec, i).value, v.AsParent(), t) == Some(v.Children()[i])
  {
    hide Pure, ChildSpec;
  }

  lemma EntriesNext(v: Json, n: nat)
    requires n < |v.Children()|
    ensures Entries(v, n + 1) == Entries(v, n) + [Field(v.KeyAt(n), v.Children()[n])]
    ensures Entries(v, n + 1)[..n] == Entries(v, n)
  {
  }

  lemma RebuiltEntries(v: Json)
    requires v.Dict? || v.List?
    ensures Rebuilt(v, Entries(v, |v.Children()|)) == v
    ensures v.Dict? ==> Entries(v, |v.Children()|) == v.fields
  {
  }

  /** A container is left as it is exactly when all its children are. */
  lemma SettledContainer(v: Json, spec: Spec, parent: Option<Fields>, t: Tables)
    requires Fits(v, spec)
    ensures Settles(v, spec, |v.Children()|, t) ==> Pure(v, spec, parent, t) == Some(v)
    ensures Pure(v, spec, parent, t) == Some(v) ==> Settles(v, spec, |v.Children()|, t)
  {
    var kept := PureOfFirst(v, spec, |v.Children()|, t);
    PureCount(v, spec, |v.Children()|, t);
    RebuiltEntries(v);
    KeptKeys(v, spec, |v.Children()|, t);
    RebuiltChildren(v, kept);
    hide PureOfFirst, Settles;
    if Pure(v, spec, parent, t) == Some(v) {
      SameEntries(v, kept);
    }
  }

  lemma SameEntries(v: Json, kept: Fields)
    requires (v.Dict? || v.List?) && Rebuilt(v, kept) == v
    requires v.List? ==> forall i | 0 <= i < |kept| :: kept[i].key == ""
    ensures kept == Entries(v, |v.Children()|)
  {
    RebuiltChildren(v, kept);
  }

  /** w's first n children answer for v's: same keys, same calls and moments, and as settled. */
  ghost predicate Stands(v: Json, w: Json, spec: Spec, n: nat, t: Tables) {
    forall i | 0 <= i < n :: ChildStands(v, w, spec, i, t)
  }

  ghost predicate ChildStands(v: Json, w: Json, spec: Spec, i: nat, t: Tables) {
    && w.KeyAt(i) == v.KeyAt(i)
    && match ChildSpec(v, spec, i)
       case None => true
       case Some(child) =>
         && Calls(w.ChildAt(i), child, w.AsParent()) == Calls(v.ChildAt(i), child, v.AsParent())
         && Stamps(w.ChildAt(i), child) == Stamps(v.ChildAt(i), child)
         && (Pure(v.ChildAt(i), child, v.AsParent(), t) == Some(v.ChildAt(i)) ==>
               Pure(w.ChildAt(i), child, w.AsParent(), t) == Some(w.ChildAt(i)))
  }

  lemma {:induction false} StandsFor(v: Json, w: Json, spec: Spec, n: nat, t: Tables)
    requires Fits(v, spec) && Fits(w, spec) && n <= |v.Children()| && n <= |w.Children()| && Stands(v, w, spec, n, t)
    ensures CallsOfFirst(w, spec, n) == CallsOfFirst(v, spec, n)
    ensures StampsOfFirst(w, spec, n) == StampsOfFirst(v, spec, n)
    ensures Settles(v, spec, n, t) ==> Settles(w, spec, n, t)
  {
    hide CallsOfFirst, StampsOfFirst, PureOfFirst, Calls, Stamps, Pure, ChildSpec, Settles, ChildSettles;
    if n == 0 {
      NoChildren(v, spec);
      NoChildren(w, spec);
      NothingSettles(w, spec, t);
    } else {
      StandsFor(v, w, spec, n - 1, t);
      assert ChildStands(v, w, spec, n - 1, t);
      ChildAdds(v, spec, n, t);
      ChildAdds(w, spec, n, t);
      SameChild(v, spec, n - 1, w, n - 1);
      SettlesNext(v, spec, n - 1, t);
      SettlesNext(w, spec, n - 1, t);
      SettlesChild(v, spec, n - 1, t);
      SettlesChild(w, spec, n - 1, t);
    }
  }

  // ----- Dictionary updates -----

  function Get(d: Fields, key: string): Option<Json> {
    if d == [] then None else if d[0].key == key then Some(d[0].value) else Get(d[1..], key)
  }

  /** Assignment to a key: in place when present, else at the end. */
  function Put(d: Fields, key: string, value: Json): Fields {
    if d == [] then [Field(key, value)]
    else if d[0].key == key then [Field(key, value)] + d[1..]
    else [d[0]] + Put(d[1..], key, value)
  }

  predicate Lacks(d: Fields, key: string) {
    forall i | 0 <= i < |d| :: d[i].key != key
  }

  /** What an assignment leaves where it was. */
  lemma {:induction false} PutShape(d: Fields, key: string, value: Json)
    ensures var r := Put(d, key, value);
      && |r| == (if Lacks(d, key) then |d| + 1 else |d|)
      && (forall i | 0 <= i < |d| ::
            && r[i].key == d[i].key
            && (r[i] == d[i] || (d[i].key == key && Get(d, key) == Some(d[i].value) && r[i].value == value)))
      && (Lacks(d, key) ==> r == d + [Field(key, value)])
  {
    if d != [] {
      LacksFirst(d, key);
      PutShape(d[1..], key, value);
      assert d == [d[0]] + d[1..];
    }
  }

  lemma LacksFirst(d: Fields, key: string)
    requires d != []
    ensures Lacks(d, key) <==> d[0].key != key && Lacks(d[1..], key)
  {
    if Lacks(d, key) {
      assert forall i | 0 <= i < |d| - 1 :: d[1..][i] == d[i + 1];
    }
    if d[0].key != key && Lacks(d[1..], key) {
      assert forall i | 0 < i < |d| :: d[i] == d[1..][i - 1];
    }
  }

  lemma {:induction false} GetConcat(a: Fields, b: Fields, key: string)
    ensures Get(a + b, key) == if Lacks(a, key) then Get(b, key) else Get(a, key)
    ensures !Lacks(a, key) ==> Get(a, key).Some?
  {
    if a == [] {
      assert a + b == b;
    } else {
      LacksFirst(a, key);
      assert (a + b)[1..] == a[1..] + b;
      GetConcat(a[1..], b, key);
    }
  }

  lemma {:induction false} PutConcat(a: Fields, b: Fields, key: string, value: Json)
    requires !Lacks(a, key)
    ensures Put(a + b, key, value) == Put(a, key, value) + b
  {
    LacksFirst(a, key);
    assert (a + b)[1..] == a[1..] + b;
    if a[0].key != key {
      PutConcat(a[1..], b, key, value);
    }
  }

  lemma {:induction false} GetPut(d: Fields, key: string, value: Json, other: string)
    ensures Get(Put(d, key, value), other) == if other == key then Some(value) else Get(d, other)
  {
    if d != [] && d[0].key != key {
      GetPut(d[1..], key, value, other);
    }
  }

  lemma {:induction false} PutSame(d: Fields, key: string)
    requires Get(d, key).Some?
    ensures Put(d, key, Get(d, key).value) == d
  {
    if d[0].key != key {
      PutSame(d[1..], key);
    }
  }

  lemma {:induction false} PutTwice(d: Fields, key: string, value: Json)
    ensures Put(Put(d, key, value), key, value) == Put(d, key, value)
  {
    GetPut(d, key, value, key);
    PutSame(Put(d, key, value), key);
  }

  lemma {:induction false} PidOfGet(d: Fields)
    ensures PidOf(d) == match Get(d, "pid") case Some(Int(n)) => Some(n) case _ => None
  {
    if d != [] {
      PidOfGet(d[1..]);
    }
  }

  lemma PidOfPut(d: Fields, key: string, value: Json)
    requires key != "pid"
    ensures PidOf(Put(d, key, value)) == PidOf(d)
  {
    GetPut(d, key, value, "pid");
    PidOfGet(d);
    PidOfGet(Put(d, key, value));
  }

  // ----- Markers are numbered afresh -----

  /** Only a leaf looks at its parent, and only for the process. */
  lemma ParentAlike(v: Json, spec: Spec, p: Option<Fields>, q: Option<Fields>, t: Tables)
    requires Alike(p, q)
    ensures Calls(v, spec, q) == Calls(v, spec, p) && Pure(v, spec, q, t) == Pure(v, spec, p, t)
  {
    hide PidOf, NumberIn;
  }

  function Numbering(items: seq<Json>): (r: seq<Json>)
    requires forall i | 0 <= i < |items| :: items[i].Dict?
    ensures |r| == |items|
    ensures forall i | 0 <= i < |r| :: r[i] == Dict(Put(items[i].fields, "index", Int(i + 1)))
  {
    seq(|items|, i requires 0 <= i < |items| => Dict(Put(items[i].fields, "index", Int(i + 1))))
  }

  /** w makes the calls v makes, shows the same moments, and is left as it is if v is. */
  ghost predicate Replaceable(v: Json, w: Json, spec: Spec, parent: Option<Fields>, t: Tables) {
    && Calls(w, spec, parent) == Calls(v, spec, parent)
    && Stamps(w, spec) == Stamps(v, spec)
    && (Pure(v, spec, parent, t) == Some(v) ==> Pure(w, spec, parent, t) == Some(w))
  }

  lemma ChildReplaced(v: Json, w: Json, spec: Spec, i: nat, t: Tables)
    requires w.KeyAt(i) == v.KeyAt(i) && Alike(v.AsParent(), w.AsParent())
    requires ChildSpec(v, spec, i).Some? ==>
      Replaceable(v.ChildAt(i), w.ChildAt(i), ChildSpec(v, spec, i).value, v.AsParent(), t)
    ensures ChildStands(v, w, spec, i, t)
  {
    hide Calls, Stamps, Pure, ChildSpec, Alike;
    var child := ChildSpec(v, spec, i);
    if child.Some? {
      ParentAlike(w.ChildAt(i), child.value, v.AsParent(), w.AsParent(), t);
    }
  }

  lemma CountReplaced(a: int, v: Json, parent: Option<Fields>, t: Tables)
    requires a >= 0
    ensures Replaceable(v, Int(a), Plain(CountLeaf), parent, t)
  {
  }

  lemma MarkerNumbered(v: Json, spec: Spec, k: nat, parent: Option<Fields>, t: Tables)
    requires v.Dict? && spec.Record? && "index" in spec.entries && spec.entries["index"] == Plain(CountLeaf)
    ensures Replaceable(v, Dict(Put(v.fields, "index", Int(k))), spec, parent, t)
  {
    var w := Dict(Put(v.fields, "index", Int(k)));
    var n := |v.fields|;
    PutShape(v.fields, "index", Int(k));
    PidOfPut(v.fields, "index", Int(k));
    forall i | 0 <= i < n
      ensures ChildStands(v, w, spec, i, t)
    {
      if w.fields[i] != v.fields[i] {
        CountReplaced(k, v.ChildAt(i), v.AsParent(), t);
      }
      hide Calls, Stamps, Pure;
      ChildReplaced(v, w, spec, i, t);
    }
    StandsFor(v, w, spec, n, t);
    hide Calls, Stamps, Pure, CallsOfFirst, StampsOfFirst, PureOfFirst, Put, ChildStands, Settles;
    Contained(v, spec, parent, t);
    Contained(w, spec, parent, t);
    if |w.fields| == n + 1 {
      CountTail(w, spec, n, k, t);
    }
  }

  lemma CountTail(w: Json, spec: Spec, n: nat, k: nat, t: Tables)
    requires w.Dict? && |w.fields| == n + 1 && w.fields[n] == Field("index", Int(k))
    requires spec.Record? && "index" in spec.entries && spec.entries["index"] == Plain(CountLeaf)
    ensures CallsOfFirst(w, spec, n + 1) == CallsOfFirst(w, spec, n)
    ensures StampsOfFirst(w, spec, n + 1) == StampsOfFirst(w, spec, n)
    ensures Settles(w, spec, n, t) ==> Settles(w, spec, n + 1, t)
  {
    hide CallsOfFirst, StampsOfFirst, PureOfFirst, Settles, ChildSettles;
    ChildAdds(w, spec, n + 1, t);
    SettlesNext(w, spec, n, t);
    SettlesChild(w, spec, n, t);
    assert CallsOfFirst(w, spec, n) + [] == CallsOfFirst(w, spec, n);
  }

  /** A container's account, and when it is left as it is. */
  lemma Contained(v: Json, spec: Spec, parent: Option<Fields>, t: Tables)
    requires Fits(v, spec)
    ensures Calls(v, spec, parent) == CallsOfFirst(v, spec, |v.Children()|)
    ensures Stamps(v, spec) == StampsOfFirst(v, spec, |v.Children()|)
    ensures Pure(v, spec, parent, t) == Some(v) <==> Settles(v, spec, |v.Children()|, t)
  {
    SettledContainer(v, spec, parent, t);
    hide CallsOfFirst, StampsOfFirst, PureOfFirst, Settles;
  }

  lemma MarkersNumbered(items: seq<Json>, spec: Spec, parent: Option<Fields>, t: Tables)
    requires spec.ListOf? && spec.item.Record? && "index" in spec.item.entries
    requires spec.item.entries["index"] == Plain(CountLeaf)
    requires forall i | 0 <= i < |items| :: items[i].Dict?
    ensures Replaceable(List(items), List(Numbering(items)), spec, parent, t)
  {
    var v, w := List(items), List(Numbering(items));
    forall i | 0 <= i < |items|
      ensures ChildStands(v, w, spec, i, t)
    {
      MarkerNumbered(items[i], spec.item, i + 1, None, t);
      hide Calls, Stamps, Pure, Put;
      ChildReplaced(v, w, spec, i, t);
    }
    StandsFor(v, w, spec, |items|, t);
    hide Calls, Stamps, Pure, CallsOfFirst, StampsOfFirst, PureOfFirst, ChildStands, Settles;
    Contained(v, spec, parent, t);
    Contained(w, spec, parent, t);
  }

  lemma NumberedAgain(items: seq<Json>)
    requires forall i | 0 <= i < |items| :: items[i].Dict?
    ensures Numbering(Numbering(items)) == Numbering(items)
  {
    forall i | 0 <= i < |items|
      ensures Numbering(Numbering(items))[i] == Numbering(items)[i]
    {
      PutTwice(items[i].fields, "index", Int(i + 1));
    }
  }

  // ----- The redacted report -----

  predicate AllDicts(items: seq<Json>) {
    forall i | 0 <= i < |items| :: items[i].Dict?
  }

  /** A schema of whole reports: it permits none of the keys redaction writes itself, and numbers markers. */
  ghost predicate ReportSchema(schema: Spec) {
    && WellFormed(schema) && schema.Record?
    && (forall i | 0 <= i < |OWN_KEYS| :: OWN_KEYS[i] !in schema.entries)
    && ("markers" in schema.entries ==>
          && schema.entries["markers"].ListOf? && schema.entries["markers"].item.Record?
          && "index" in schema.entries["markers"].item.entries
          && schema.entries["markers"].item.entries["index"] == Plain(CountLeaf))
  }

  const OWN_KEYS := ["report_id", "target_path", "app", "created_at", "version", "privacy"]

  const PRIVACY := Dict([
    Field("privacy_schema", Int(1)), Field("profile", Text("share")),
    Field("transformations", List([Text("paths and free text removed"), Text("process identities pseudonymized"),
                                   Text("wall-clock dates replaced"), Text("unknown fields and captured logs removed")])),
    Field("review_required", Bool(true))])

  /** The version, where it is one. */
  function VersionOf(d: Fields, isVersion: Json -> bool): Json {
    match Get(d, "version")
    case Some(v) => if isVersion(v) then v else Null
    case None => Null
  }

  function Own(id: string, version: Json): Fields {
    [Field("report_id", Text(id)), Field("target_path", Text("shared-target")), Field("app", Text("DrainTracer")),
     Field("created_at", IsoText(EPOCH)), Field("version", version), Field("privacy", PRIVACY)]
  }

  function PutAll(d: Fields, more: Fields): Fields {
    if more == [] then d else Put(PutAll(d, more[..|more| - 1]), more[|more| - 1].key, more[|more| - 1].value)
  }

  /** Number the markers from one; a marker that is null cannot be, and raises. */
  function WithMarkers(d: Fields): Option<Fields> {
    match Get(d, "markers")
    case Some(List(items)) => if AllDicts(items) then Some(Put(d, "markers", List(Numbering(items)))) else None
    case _ => Some(d)
  }

  function Redacted(report: Json, schema: Spec, origin: real, id: string, isVersion: Json -> bool): Option<Fields>
    requires report.Dict? && schema.Record?
  {
    var t := After(Tables([], [], origin), Calls(report, schema, None));
    var kept := PureOfFirst(report, schema, |report.fields|, t);
    WithMarkers(PutAll(kept, Own(id, VersionOf(report.fields, isVersion))))
  }

  /** The share profile of redact_report, between its two validations. */
  method RedactReport(report: Json, schema: Spec, id: string, isVersion: Json -> bool)
    returns (redacted: Option<Fields>, ghost origin: real)
    requires report.Dict? && schema.Record?
    ensures IsOrigin(origin, Stamps(report, schema))
    ensures redacted == Redacted(report, schema, origin, id, isVersion)
  {
    var least := FindOrigin(report, schema);
    origin := least;
    var redactor := new Redactor(least);
    NothingNumbered(least);
    var transformed := redactor.Transform(report, schema, None);
    PureFields(report, schema, redactor.State());
    hide Calls, CallsOfFirst, PureOfFirst, After, Pure, PutAll, Get, Put;
    var d := transformed.value.fields;
    var own := Own(id, VersionOf(report.fields, isVersion));
    d := PutAll(d, own);
    var markers := Get(d, "markers");
    if markers.Some? && markers.value.List? {
      var numbered := NumberMarkers(markers.value.items);
      redacted := if numbered.Some? then Some(Put(d, "markers", List(numbered.value))) else None;
    } else {
      redacted := Some(d);
    }
  }

  method NumberMarkers(items: seq<Json>) returns (numbered: Option<seq<Json>>)
    ensures numbered == if AllDicts(items) then Some(Numbering(items)) else None
  {
    hide Put;
    var result: seq<Json> := [];
    for index := 0 to |items|
      invariant forall i | 0 <= i < index :: items[i].Dict?
      invariant result == Numbering(items[..index])
    {
      if !items[index].Dict? {
        return None;
      }
      result := result + [Dict(Put(items[index].fields, "index", Int(index + 1)))];
    }
    assert items[..|items|] == items;
    numbered := Some(result);
  }

  lemma NothingNumbered(origin: real)
    ensures Numbered(Tables([], [], origin))
  {
  }

  // ----- Twice is once -----

  lemma {:induction false} KeptKeysPermitted(v: Json, spec: Spec, n: nat, t: Tables)
    requires v.Dict? && spec.Record? && n <= |v.fields|
    ensures forall i | 0 <= i < |PureOfFirst(v, spec, n, t)| :: PureOfFirst(v, spec, n, t)[i].key in spec.entries
  {
    if n > 0 {
      KeptKeysPermitted(v, spec, n - 1, t);
      ChildAdds(v, spec, n, t);
      hide PureOfFirst;
    }
  }

  lemma {:induction false} PutAllAppends(d: Fields, more: Fields)
    requires forall i | 0 <= i < |more| :: Lacks(d, more[i].key)
    requires forall i, j | 0 <= i < j < |more| :: more[i].key != more[j].key
    ensures PutAll(d, more) == d + more
  {
    if more == [] {
      assert d + more == d;
    } else {
      var n := |more| - 1;
      PutAllAppends(d, more[..n]);
      PutShape(d + more[..n], more[n].key, more[n].value);
      assert Lacks(d + more[..n], more[n].key);
      assert more == more[..n] + [more[n]];
    }
  }

  lemma OwnAppended(d: Fields, schema: Spec, id: string, version: Json)
    requires ReportSchema(schema) && forall i | 0 <= i < |d| :: d[i].key in schema.entries
    ensures PutAll(d, Own(id, version)) == d + Own(id, version)
    ensures Get(d + Own(id, version), "version") == Some(version)
    ensures Lacks(d, "report_id")
  {
    var own := Own(id, version);
    OwnShape(id, version);
    hide Own, Get;
    forall i | 0 <= i < |own|
      ensures Lacks(d, own[i].key)
    {
      assert OWN_KEYS[i] !in schema.entries;
    }
    PutAllAppends(d, own);
    assert OWN_KEYS[4] !in schema.entries && OWN_KEYS[0] !in schema.entries;
    GetConcat(d, own, "version");
  }

  lemma OwnShape(id: string, version: Json)
    ensures var own := Own(id, version);
      && |own| == |OWN_KEYS| && (forall i | 0 <= i < |own| :: own[i].key == OWN_KEYS[i])
      && (forall i, j | 0 <= i < j < |own| :: own[i].key != own[j].key)
      && Get(own, "version") == Some(version)
      && Lacks(own, "markers") && Lacks(own, "pid") && Get(own, "markers") == None && Get(own, "pid") == None
  {
    var own := Own(id, version);
    var before, after := own[..4], own[5..];
    KeysDiffer();
    assert own == before + ([own[4]] + after);
    GetConcat(before, [own[4]] + after, "version");
    assert own + [] == own;
    GetConcat(own, [], "markers");
    GetConcat(own, [], "pid");
  }

  lemma KeysDiffer()
    ensures forall i, j | 0 <= i < j < |OWN_KEYS| :: OWN_KEYS[i] != OWN_KEYS[j]
    ensures forall i | 0 <= i < |OWN_KEYS| :: OWN_KEYS[i] != "markers" && OWN_KEYS[i] != "pid"
    ensures "index" != "pid" && "markers" != "pid"
  {
    assert "version"[0] == 'v' && "privacy"[0] == 'p' && "markers"[0] == 'm';
    assert "app"[0] == 'a' && "pid"[0] == 'p';
  }

  /** A redacted report's markers, if it has any to number. */
  lemma MarkersOf(d: Fields, own: Fields)
    requires Get(own, "markers") == None
    ensures WithMarkers(d + own).Some? <==> WithMarkers(d).Some?
    ensures WithMarkers(d).Some? ==> WithMarkers(d + own) == Some(WithMarkers(d).value + own)
  {
    GetConcat(d, own, "markers");
    if !Lacks(d, "markers") {
      match Get(d, "markers")
      case Some(List(items)) =>
        if AllDicts(items) {
          PutConcat(d, own, "markers", List(Numbering(items)));
        }
      case _ =>
    } else {
      GetConcat(d, [], "markers");
      assert d + [] == d;
    }
  }

  /** Numbering the markers a second time changes nothing. */
  lemma MarkersAgain(d: Fields)
    requires WithMarkers(d).Some?
    ensures WithMarkers(WithMarkers(d).value) == WithMarkers(d)
  {
    match Get(d, "markers")
    case Some(List(items)) =>
      GetPut(d, "markers", List(Numbering(items)), "markers");
      NumberedAgain(items);
      PutTwice(d, "markers", List(Numbering(items)));
    case _ =>
  }

  /** The report's own fields, markers numbered, stand for those before. */
  lemma NumberedFieldsStand(d: Fields, schema: Spec, t: Tables)
    requires ReportSchema(schema) && WithMarkers(d).Some?
    requires forall i | 0 <= i < |d| :: d[i].key in schema.entries
    ensures var w := WithMarkers(d).value;
      && |w| == |d| && (forall i | 0 <= i < |d| :: w[i].key == d[i].key)
      && Replaceable(Dict(d), Dict(w), schema, None, t)
  {
    var w := WithMarkers(d).value;
    match Get(d, "markers")
    case Some(List(items)) =>
      var value := List(Numbering(items));
      PutShape(d, "markers", value);
      GetConcat(d, [], "markers");
      assert d + [] == d;
      PidOfPut(d, "markers", value);
      forall i | 0 <= i < |d|
        ensures ChildStands(Dict(d), Dict(w), schema, i, t)
      {
        MarkerFieldStands(d, w, schema, items, i, t);
      }
      StandsFor(Dict(d), Dict(w), schema, |d|, t);
      hide Calls, Stamps, Pure, CallsOfFirst, StampsOfFirst, PureOfFirst, ChildStands, Settles, Put;
      Contained(Dict(d), schema, None, t);
      Contained(Dict(w), schema, None, t);
    case _ =>
  }

  lemma MarkerFieldStands(d: Fields, w: Fields, schema: Spec, items: seq<Json>, i: nat, t: Tables)
    requires ReportSchema(schema) && Get(d, "markers") == Some(List(items)) && AllDicts(items)
    requires i < |d| == |w| && d[i].key in schema.entries && PidOf(w) == PidOf(d)
    requires w == Put(d, "markers", List(Numbering(items))) && w[i].key == d[i].key
    requires w[i] == d[i] || (d[i].key == "markers" && d[i].value == List(items) && w[i].value == List(Numbering(items)))
    ensures ChildStands(Dict(d), Dict(w), schema, i, t)
  {
    hide Calls, Stamps, Pure, Put, Get, PidOf;
    if w[i] != d[i] {
      MarkersNumbered(items, schema.entries["markers"], Some(d), t);
    }
    ChildReplaced(Dict(d), Dict(w), schema, i, t);
  }

  /** Children the schema does not know add nothing. */
  lemma {:induction false} TailIgnored(w: Json, spec: Spec, n: nat, m: nat, t: Tables)
    requires Fits(w, spec) && n <= m <= |w.Children()|
    requires forall i | n <= i < m :: ChildSpec(w, spec, i).None?
    ensures CallsOfFirst(w, spec, m) == CallsOfFirst(w, spec, n)
    ensures StampsOfFirst(w, spec, m) == StampsOfFirst(w, spec, n)
    ensures PureOfFirst(w, spec, m, t) == PureOfFirst(w, spec, n, t)
    decreases m - n
  {
    hide CallsOfFirst, StampsOfFirst, PureOfFirst, ChildSpec;
    if n < m {
      TailIgnored(w, spec, n, m - 1, t);
      ChildAdds(w, spec, m, t);
    }
  }

  /** The redacted report's own keys change nothing about the rest. */
  lemma OwnIgnored(d: Fields, own: Fields, schema: Spec, t: Tables)
    requires ReportSchema(schema) && (forall i | 0 <= i < |d| :: d[i].key in schema.entries)
    requires |own| == |OWN_KEYS| && (forall i | 0 <= i < |own| :: own[i].key == OWN_KEYS[i]) && Get(own, "pid") == None
    ensures Calls(Dict(d + own), schema, None) == Calls(Dict(d), schema, None)
    ensures Stamps(Dict(d + own), schema) == Stamps(Dict(d), schema)
    ensures Pure(Dict(d), schema, None, t) == Some(Dict(d)) ==>
      PureOfFirst(Dict(d + own), schema, |d + own|, t) == d
  {
    hide *;
    var v, w, n := Dict(d), Dict(d + own), |d|;
    OwnUnknown(d, own, schema, t);
    StandsFor(v, w, schema, n, t);
    TailIgnored(w, schema, n, |d + own|, t);
    Contained(v, schema, None, t);
    Contained(w, schema, None, t);
    PureCount(w, schema, n, t);
    FirstEntries(d, own);
  }

  lemma FirstEntries(d: Fields, own: Fields)
    ensures Entries(Dict(d + own), |d|) == d
  {
  }

  /** The report's fields stand as they are, and the schema knows none of the others. */
  lemma OwnUnknown(d: Fields, own: Fields, schema: Spec, t: Tables)
    requires ReportSchema(schema) && (forall i | 0 <= i < |d| :: d[i].key in schema.entries)
    requires |own| == |OWN_KEYS| && (forall i | 0 <= i < |own| :: own[i].key == OWN_KEYS[i]) && Get(own, "pid") == None
    ensures var v, w := Dict(d), Dict(d + own);
      && |v.Children()| == |d| && |w.Children()| == |d + own|
      && Fits(v, schema) && Fits(w, schema) && Stands(v, w, schema, |d|, t)
      && forall i | |d| <= i < |w.Children()| :: ChildSpec(w, schema, i).None?
  {
    var v, w := Dict(d), Dict(d + own);
    PidOfGet(d);
    PidOfGet(d + own);
    GetConcat(d, own, "pid");
    GetConcat(d, [], "pid");
    assert d + [] == d;
    forall i | 0 <= i < |d|
      ensures ChildStands(v, w, schema, i, t)
    {
      hide *;
      ChildReplaced(v, w, schema, i, t);
    }
    forall i | |d| <= i < |d + own|
      ensures ChildSpec(w, schema, i).None?
    {
      assert w.KeyAt(i) == OWN_KEYS[i - |d|];
    }
    hide ChildStands, ChildSpec;
  }

  lemma OriginAgain(before: set<real>, after: set<real>, t: Tables, origin: real)
    requires IsOrigin(t.origin, before) && StampsMatch(before, after, t) && IsOrigin(origin, after)
    ensures before != {} ==> origin == EPOCH
    ensures before == {} ==> after == {}
  {
    if before != {} {
      assert Shifted(t, t.origin) == EPOCH && EPOCH in after;
      assert origin - EPOCH + t.origin in before;
    } else {
      assert forall s | s in after :: s - EPOCH + t.origin in before;
    }
  }

  lemma {:induction false} AfterOrigin(calls: seq<Call>, a: real, b: real)
    ensures var t, u := After(Tables([], [], a), calls), After(Tables([], [], b), calls);
      t.pids == u.pids && t.ids == u.ids && t.origin == a && u.origin == b
  {
    if calls != [] {
      AfterOrigin(calls[..|calls| - 1], a, b);
    }
  }

  /** Without moments, the origin does not matter. */
  lemma {:induction false} PureNoStamps(v: Json, spec: Spec, parent: Option<Fields>, t: Tables, u: Tables)
    requires Stamps(v, spec) == {} && t.pids == u.pids && t.ids == u.ids
    ensures Pure(v, spec, parent, u) == Pure(v, spec, parent, t)
    decreases v, |v.Children()| + 1
  {
    if spec.Plain? {
      hide NumberIn, PidOf;
    } else if Fits(v, spec) {
      PureOfFirstNoStamps(v, spec, |v.Children()|, t, u);
    }
  }

  lemma {:induction false} PureOfFirstNoStamps(v: Json, spec: Spec, n: nat, t: Tables, u: Tables)
    requires Fits(v, spec) && n <= |v.Children()| && StampsOfFirst(v, spec, n) == {}
    requires t.pids == u.pids && t.ids == u.ids
    ensures PureOfFirst(v, spec, n, u) == PureOfFirst(v, spec, n, t)
    decreases v, n
  {
    if n > 0 {
      hide Stamps, Pure, ChildSpec;
      if ChildSpec(v, spec, n - 1).Some? {
        PureNoStamps(v.Children()[n - 1], ChildSpec(v, spec, n - 1).value, v.AsParent(), t, u);
      }
      PureOfFirstNoStamps(v, spec, n - 1, t, u);
    }
  }

  /** The second walk over a redacted report finds it as the first one left it. */
  lemma SecondWalk(report: Json, schema: Spec, origin: real, w: Json, again: real)
    requires ReportSchema(schema) && report.Dict? && w.Dict?
    requires IsOrigin(origin, Stamps(report, schema)) && IsOrigin(again, Stamps(w, schema))
    requires var t := After(Tables([], [], origin), Calls(report, schema, None));
      var kept := Dict(PureOfFirst(report, schema, |report.fields|, t));
      && Calls(w, schema, None) == Calls(kept, schema, None)
      && Stamps(w, schema) == Stamps(kept, schema)
    ensures var t := After(Tables([], [], origin), Calls(report, schema, None));
      var u := After(Tables([], [], again), Calls(w, schema, None));
      Pure(w, schema, None, u) == Pure(w, schema, None, Again(t))
  {
    hide Calls, Stamps, Pure, PureOfFirst, IsOrigin, StampsMatch, Numbered, Covers, WellFormed;
    var calls := Calls(report, schema, None);
    var t := After(Tables([], [], origin), calls);
    FirstWalk(report, schema, origin);
    OriginAgain(Stamps(report, schema), Stamps(w, schema), t, again);
    assert calls[..|calls|] == calls && Images(t, calls)[..|calls|] == Images(t, calls);
    AfterImages(origin, calls, |calls|);
    hide After;
    if Stamps(report, schema) == {} {
      AfterOrigin(Images(t, calls), EPOCH, again);
      PureNoStamps(w, schema, None, Again(t), After(Tables([], [], again), Calls(w, schema, None)));
    }
  }

  lemma FirstWalk(report: Json, schema: Spec, origin: real)
    requires ReportSchema(schema) && report.Dict?
    ensures var calls := Calls(report, schema, None);
      var t := After(Tables([], [], origin), calls);
      var kept := Dict(PureOfFirst(report, schema, |report.fields|, t));
      && t.origin == origin
      && Calls(kept, schema, None) == Images(t, calls)
      && Pure(kept, schema, None, Again(t)) == Some(kept)
      && StampsMatch(Stamps(report, schema), Stamps(kept, schema), t)
      && forall i | 0 <= i < |kept.fields| :: kept.fields[i].key in schema.entries
  {
    var calls := Calls(report, schema, None);
    var t := After(Tables([], [], origin), calls);
    AfterGrows(Tables([], [], origin), calls);
    PureAgain(report, schema, None, None, t);
    hide Calls, PureOfFirst, After;
    KeptKeysPermitted(report, schema, |report.fields|, t);
  }

  /** Redacting a redacted report changes its fresh report id and nothing else. */
  lemma RedactTwice(report: Json, schema: Spec, origin: real, id: string, isVersion: Json -> bool,
                    again: real, other: string)
    requires ReportSchema(schema) && report.Dict? && !isVersion(Null)
    requires IsOrigin(origin, Stamps(report, schema))
    requires Redacted(report, schema, origin, id, isVersion).Some?
    requires IsOrigin(again, Stamps(Dict(Redacted(report, schema, origin, id, isVersion).value), schema))
    ensures var first := Redacted(report, schema, origin, id, isVersion).value;
      Redacted(Dict(first), schema, again, other, isVersion) == Some(Put(first, "report_id", Text(other)))
  {
    hide Calls, Stamps, Pure, PureOfFirst, After, IsOrigin, StampsMatch, WellFormed, Own, WithMarkers, Get, PutAll;
    var t := After(Tables([], [], origin), Calls(report, schema, None));
    var kept := PureOfFirst(report, schema, |report.fields|, t);
    var version := VersionOf(report.fields, isVersion);
    var own, renewed := Own(id, version), Own(other, version);
    FirstWalk(report, schema, origin);
    OwnAppended(kept, schema, id, version);
    OwnShape(id, version);
    MarkersOf(kept, own);
    var d := WithMarkers(kept).value;
    assert Redacted(report, schema, origin, id, isVersion) == Some(d + own);
    NumberedFieldsStand(kept, schema, Again(t));
    OwnIgnored(d, own, schema, Again(t));
    var w := Dict(d + own);
    SecondWalk(report, schema, origin, w, again);
    var u := After(Tables([], [], again), Calls(w, schema, None));
    SameFields(w, schema, u, Again(t));
    OwnAppended(d, schema, id, version);
    VersionAgain(report.fields, d + own, isVersion);
    OwnAppended(d, schema, other, version);
    OwnShape(other, version);
    MarkersAgain(kept);
    MarkersOf(d, renewed);
    OwnReplaced(d, schema, id, other, version);
  }

  lemma SameFields(w: Json, spec: Spec, u: Tables, t: Tables)
    requires w.Dict? && spec.Record? && Pure(w, spec, None, u) == Pure(w, spec, None, t)
    ensures PureOfFirst(w, spec, |w.fields|, u) == PureOfFirst(w, spec, |w.fields|, t)
  {
    hide PureOfFirst;
  }

  lemma VersionAgain(before: Fields, after: Fields, isVersion: Json -> bool)
    requires Get(after, "version") == Some(VersionOf(before, isVersion)) && !isVersion(Null)
    ensures VersionOf(after, isVersion) == VersionOf(before, isVersion)
  {
    hide Get;
  }

  lemma OwnReplaced(d: Fields, schema: Spec, id: string, other: string, version: Json)
    requires ReportSchema(schema) && Lacks(d, "report_id")
    ensures Put(d + Own(id, version), "report_id", Text(other)) == d + Own(other, version)
  {
    PutTail(d, Own(id, version), "report_id", Text(other));
    assert Put(Own(id, version), "report_id", Text(other)) == Own(other, version);
  }

  lemma {:induction false} PutTail(a: Fields, b: Fields, key: string, value: Json)
    requires Lacks(a, key)
    ensures Put(a + b, key, value) == a + Put(b, key, value)
  {
    if a == [] {
      assert a + b == b;
    } else {
      LacksFirst(a, key);
      PutTail(a[1..], b, key, value);
      PutLater(a, b, key, value);
      hide Put, Lacks;
    }
  }

  lemma PutLater(a: Fields, b: Fields, key: string, value: Json)
    requires a != [] && a[0].key != key
    ensures Put(a + b, key, value) == [a[0]] + Put(a[1..] + b, key, value)
    ensures forall tail: Fields :: [a[0]] + (a[1..] + tail) == a + tail
  {
    assert (a + b)[1..] == a[1..] + b;
  }

  /** Two reports that look alike through the schema, and have one version, redact to the same report. */
  lemma LookAlikes(a: Json, b: Json, schema: Spec, origin: real, other: real, id: string, isVersion: Json -> bool)
    requires ReportSchema(schema) && a.Dict? && b.Dict? && View(a, schema) == View(b, schema)
    requires VersionOf(a.fields, isVersion) == VersionOf(b.fields, isVersion)
    requires IsOrigin(origin, Stamps(a, schema)) && IsOrigin(other, Stamps(b, schema))
    ensures Redacted(a, schema, origin, id, isVersion) == Redacted(b, schema, other, id, isVersion)
  {
    hide View, Pure, PureOfFirst, After, WithMarkers, PutAll, WellFormed;
    var t := After(Tables([], [], origin), Calls(a, schema, None));
    ViewSuffices(a, schema, None, None, t);
    ViewSuffices(b, schema, None, None, t);
    assert View(a, schema).Some? by { DictViewed(a, schema); }
    hide Calls, Stamps;
    assert origin == other;
    PureFields(a, schema, t);
    PureFields(b, schema, t);
  }

  lemma DictViewed(v: Json, spec: Spec)
    requires v.Dict? && spec.Record?
    ensures View(v, spec).Some?
  {
  }

  lemma PureFields(v: Json, spec: Spec, t: Tables)
    requires v.Dict? && spec.Record?
    ensures Pure(v, spec, None, t) == Some(Dict(PureOfFirst(v, spec, |v.fields|, t)))
  {
    hide PureOfFirst;
  }

  /** One numbering serves the whole report: different processes, and different identities, get different numbers. */
  lemma NumbersDiffer(report: Json, schema: Spec, origin: real, c: Call, d: Call)
    requires c in Calls(report, schema, None) && d in Calls(report, schema, None)
    ensures var t := After(Tables([], [], origin), Calls(report, schema, None));
      && (c.pid != d.pid ==> PidNumber(t, c.pid) != PidNumber(t, d.pid))
      && (c.Identity? && d.Identity? && c != d ==> IdNumber(t, c.pid, c.value) != IdNumber(t, d.pid, d.value))
  {
    var calls := Calls(report, schema, None);
    var t := After(Tables([], [], origin), calls);
    AfterGrows(Tables([], [], origin), calls);
    hide After, Calls, Numbered, Grows;
    var i :| 0 <= i < |calls| && calls[i] == c;
    var j :| 0 <= j < |calls| && calls[j] == d;
    assert CoversCall(t, calls[i]) && CoversCall(t, calls[j]);
    hide Covers;
    CoveredDiffer(t, c, d);
  }

  lemma CoveredDiffer(t: Tables, c: Call, d: Call)
    requires CoversCall(t, c) && CoversCall(t, d)
    ensures c.pid != d.pid ==> PidNumber(t, c.pid) != PidNumber(t, d.pid)
    ensures c.Identity? && d.Identity? && c != d ==> IdNumber(t, c.pid, c.value) != IdNumber(t, d.pid, d.value)
  {
    if c.pid.Some? && d.pid.Some? {
      assert t.pids[NumberIn(t.pids, c.pid.value) - 1] == c.pid.value;
      assert t.pids[NumberIn(t.pids, d.pid.value) - 1] == d.pid.value;
    }
  }
}
