/**
 Bounding a report for export: values and bytes are checked against the contract,
 and chart samples are thinned by two until the report fits or nothing may go.
 */
module ReportExport {

  import opened Arithmetic
  import opened Wrappers
  import opened ReportContract
  import opened JsonText

  // ----- Non-finite numbers -----

  predicate Finite(v: Json) {
    !v.NonFinite? && forall i | 0 <= i < |v.Children()| :: Finite(v.Children()[i])
  }

  /** A copy with every non-finite number replaced by null. */
  function FiniteOnly(v: Json): Json {
    match v
    case NonFinite => Literal("null")
    case Array(items) => Array(seq(|items|, i requires 0 <= i < |items| => FiniteOnly(items[i])))
    case Object(fields) => Object(FiniteFields(fields))
    case _ => v
  }

  function FiniteFields(fields: seq<Field>): (r: seq<Field>)
    ensures |r| == |fields|
    ensures forall i | 0 <= i < |r| :: r[i] == Field(fields[i].key, FiniteOnly(fields[i].value))
  {
    seq(|fields|, i requires 0 <= i < |fields| => Field(fields[i].key, FiniteOnly(fields[i].value)))
  }

  lemma FiniteChildren(v: Json)
    ensures var w := FiniteOnly(v);
      && |w.Children()| == |v.Children()| && w.Keys() == v.Keys() && w.Container() == v.Container()
      && forall i | 0 <= i < |v.Children()| :: w.Children()[i] == FiniteOnly(v.Children()[i])
  {
  }

  /** Normalising keeps sizes, nesting and text, and leaves no non-finite number. */
  lemma {:induction false} FiniteOnlyKeeps(v: Json, level: nat, nl: string)
    ensures Size(FiniteOnly(v), true) == Size(v, true)
    ensures Depth(FiniteOnly(v), true) == Depth(v, true)
    ensures Print(FiniteOnly(v), level, nl) == Print(v, level, nl)
    decreases v, |v.Children()| + 1
  {
    FiniteChildren(v);
    FiniteOnlyKeepsFirst(v, |v.Children()|, level + 1, nl);
    if v.Container() {
      var open, close := if v.Array? then '[' else '{', if v.Array? then ']' else '}';
      PrintContainer(v, level, nl, open, close);
      PrintContainer(FiniteOnly(v), level, nl, open, close);
    }
  }

  lemma {:induction false} FiniteOnlyKeepsFirst(v: Json, n: nat, level: nat, nl: string)
    requires n <= |v.Children()| && |FiniteOnly(v).Children()| == |v.Children()|
    ensures SizeOfFirst(FiniteOnly(v), n, true) == SizeOfFirst(v, n, true)
    ensures DepthOfFirst(FiniteOnly(v), n, true) == DepthOfFirst(v, n, true)
    ensures PrintFirst(FiniteOnly(v), n, level, nl) == PrintFirst(v, n, level, nl)
    decreases v, n
  {
    FiniteChildren(v);
    if n > 0 {
      FiniteOnlyKeepsFirst(v, n - 1, level, nl);
      FiniteOnlyKeeps(v.Children()[n - 1], level, nl);
      assert Lead(FiniteOnly(v), n - 1, level, nl) == Lead(v, n - 1, level, nl);
    }
  }

  lemma {:induction false} FiniteOnlyIsFinite(v: Json)
    ensures Finite(FiniteOnly(v))
    ensures Finite(v) ==> FiniteOnly(v) == v
  {
    FiniteChildren(v);
    forall i | 0 <= i < |v.Children()|
      ensures Finite(FiniteOnly(v.Children()[i]))
      ensures Finite(v) ==> FiniteOnly(v.Children()[i]) == v.Children()[i]
    {
      FiniteOnlyIsFinite(v.Children()[i]);
    }
    if Finite(v) && v.Object? {
      assert forall i | 0 <= i < |v.fields| :: v.Children()[i] == v.fields[i].value;
      assert FiniteFields(v.fields) == v.fields;
    }
  }

  // ----- Bytes -----

  /** The encoder's output: pieces of text, or None where it raises. */
  type Parts = seq<Option<string>>

  predicate Written(parts: Parts) {
    forall i | 0 <= i < |parts| :: parts[i].Some?
  }

  function Join(parts: Parts): string
    requires Written(parts)
  {
    if parts == [] then "" else Join(parts[..|parts| - 1]) + parts[|parts| - 1].value
  }

  predicate StopsAt(parts: Parts, n: nat, text: string) {
    n < |parts| && parts[n].None? && Written(parts[..n]) && Join(parts[..n]) <= text
  }

  /** The pieces join to the printed text, or stop on the way at a non-finite number. */
  predicate Encodes(parts: Parts, v: Json) {
    if Finite(v) then Written(parts) && Join(parts) == Print(v, 0, "\n")
    else exists n | 0 <= n < |parts| :: StopsAt(parts, n, Print(v, 0, "\n"))
  }

  /** Where the encoder cuts its output into pieces is its own affair. */
  method Encode(v: Json) returns (parts: Parts)
    ensures Encodes(parts, v)
  {
    ghost var text := Print(v, 0, "\n");
    ghost var example: Parts := if Finite(v) then [Some(text)] else [None];
    assert Encodes(example, v) by {
      assert example[..0] == [];
      if !Finite(v) {
        assert StopsAt(example, 0, text);
      }
    }
    parts :| Encodes(parts, v);
  }

  /** The size of the file that holds a text of ASCII characters. */
  function FileSize(text: string, windows: bool): nat {
    |text| + if windows then Newlines(text) else 0
  }

  datatype Outcome = Within | Over | Raised

  method WithinContractBytes(v: Json, windows: bool) returns (outcome: Outcome)
    ensures outcome.Within? ==> Finite(v) && FileSize(Print(v, 0, "\n"), windows) <= MAX_REPORT_BYTES
    ensures outcome.Over? ==> FileSize(Print(v, 0, "\n"), windows) > MAX_REPORT_BYTES
    ensures outcome.Raised? ==> !Finite(v)
  {
    hide Print, Encodes, Written, Join, Finite, FileSize;
    var parts := Encode(v);
    JoinNone(windows);
    assert parts[..0] == [];
    ghost var text := Print(v, 0, "\n");
    var size := 0;
    var i := 0;
    while i < |parts|
      invariant i <= |parts| && Written(parts[..i]) && Join(parts[..i]) <= text
      invariant size == FileSize(Join(parts[..i]), windows) <= MAX_REPORT_BYTES
    {
      StillPrefix(parts, i, v);
      if parts[i].None? {
        return Raised;
      }
      var part := parts[i].value;
      size := size + |part| + if windows then Newlines(part) else 0;
      JoinNext(parts, i, windows);
      i := i + 1;
      if size > MAX_REPORT_BYTES {
        PrefixSize(Join(parts[..i]), text, windows);
        return Over;
      }
    }
    assert parts[..i] == parts;
    WholeText(parts, v);
    outcome := Within;
  }

  lemma JoinNone(windows: bool)
    ensures Written([]) && Join([]) == "" && FileSize("", windows) == 0
  {
  }

  /** One more piece adds its own size. */
  lemma JoinNext(parts: Parts, i: nat, windows: bool)
    requires i < |parts| && Written(parts[..i]) && Written(parts[..i + 1]) && parts[i].Some?
    ensures FileSize(Join(parts[..i + 1]), windows)
         == FileSize(Join(parts[..i]), windows) + |parts[i].value| + if windows then Newlines(parts[i].value) else 0
  {
    assert parts[..i + 1][..i] == parts[..i];
    TranslateConcat(Join(parts[..i]), parts[i].value);
  }

  lemma WholeText(parts: Parts, v: Json)
    requires Encodes(parts, v) && Written(parts)
    ensures Finite(v) && Join(parts) == Print(v, 0, "\n")
  {
    hide Print, Join;
  }

  lemma StillPrefix(parts: Parts, i: nat, v: Json)
    requires Encodes(parts, v) && i < |parts| && Written(parts[..i])
    ensures parts[i].None? ==> !Finite(v)
    ensures parts[i].Some? ==> Written(parts[..i + 1]) && Join(parts[..i + 1]) <= Print(v, 0, "\n")
  {
    hide *;
    var n := WrittenUpTo(parts, v);
    WrittenSoFar(parts, i, n);
    if parts[i].Some? {
      JoinPrefix(parts, i + 1, n);
    }
  }

  lemma WrittenSoFar(parts: Parts, i: nat, n: nat)
    requires i < |parts| && n <= |parts| && Written(parts[..i]) && Written(parts[..n])
    requires n < |parts| ==> parts[n].None?
    ensures if parts[i].Some? then i < n else n == i
  {
    assert forall k | 0 <= k < n :: parts[..n][k] == parts[k];
    assert forall k | 0 <= k < i :: parts[..i][k] == parts[k];
  }

  /** How many pieces are written: all of them, or those before a non-finite number. */
  lemma WrittenUpTo(parts: Parts, v: Json) returns (n: nat)
    requires Encodes(parts, v)
    ensures n <= |parts| && Written(parts[..n]) && Join(parts[..n]) <= Print(v, 0, "\n")
    ensures n < |parts| ==> !Finite(v) && parts[n].None?
  {
    hide Join, Print, Finite;
    if Finite(v) {
      n := |parts|;
      assert parts[..n] == parts;
    } else {
      n :| 0 <= n < |parts| && StopsAt(parts, n, Print(v, 0, "\n"));
    }
  }

  lemma {:induction false} JoinPrefix(parts: Parts, i: nat, n: nat)
    requires i <= n <= |parts| && Written(parts[..n])
    ensures Written(parts[..i]) && Join(parts[..i]) <= Join(parts[..n])
  {
    assert Written(parts[..i]) by {
      assert forall k | 0 <= k < i :: parts[..i][k] == parts[..n][k];
    }
    if i < n {
      assert parts[..n][..n - 1] == parts[..n - 1];
      JoinPrefix(parts, i, n - 1);
    }
  }

  lemma PrefixSize(a: string, text: string, windows: bool)
    requires a <= text
    ensures FileSize(a, windows) <= FileSize(text, windows)
  {
    TranslateConcat(a, text[|a|..]);
    assert text == a + text[|a|..];
  }

  // ----- Thinning samples -----

  /** Every second sample, and always the last. */
  function Selected<T>(xs: seq<T>): seq<T> {
    EveryOther(xs) + if xs != [] && |xs| % 2 == 0 then [xs[|xs| - 1]] else []
  }

  function EveryOther<T>(xs: seq<T>): (r: seq<T>)
    ensures |r| == (|xs| + 1) / 2 && forall i | 0 <= i < |r| :: r[i] == xs[2 * i]
  {
    seq((|xs| + 1) / 2, i requires 0 <= i < (|xs| + 1) / 2 => xs[2 * i])
  }

  /** Of n samples, k rounds keep the positions divisible by 2^k below n - 1, then position n - 1. */
  ghost predicate KeptAfter<T(!new)>(kept: seq<T>, xs: seq<T>, k: nat) {
    var p := PowerOfTwo(k);
    && p > 0
    && (xs == [] ==> kept == [])
    && (xs != [] ==>
          && |kept| == CeilDiv(|xs| - 1, p) + 1
          && (forall i | 0 <= i < |kept| - 1 :: 0 <= i * p < |xs| - 1 && kept[i] == xs[i * p])
          && kept[|kept| - 1] == xs[|xs| - 1])
  }

  /** One more round halves what is kept, on the next power of two. */
  lemma SelectKept<T(!new)>(kept: seq<T>, xs: seq<T>, k: nat)
    requires KeptAfter(kept, xs, k)
    ensures KeptAfter(Selected(kept), xs, k + 1)
  {
    if xs != [] {
      var p, next := PowerOfTwo(k), Selected(kept);
      var a := |xs| - 1;
      CeilHalf(a, p);
      assert |next| == |kept| / 2 + 1;
      forall i | 0 <= i < |next| - 1
        ensures 0 <= i * (2 * p) < a && next[i] == xs[i * (2 * p)]
      {
        SelectedAt(kept, xs, k, i);
      }
      if |kept| % 2 == 1 {
        assert next[|next| - 1] == kept[2 * (|next| - 1)];
      }
    }
  }

  lemma SelectedAt<T(!new)>(kept: seq<T>, xs: seq<T>, k: nat, i: nat)
    requires KeptAfter(kept, xs, k) && xs != [] && i < |kept| / 2
    ensures var p := PowerOfTwo(k);
      0 <= i * (2 * p) < |xs| - 1 && Selected(kept)[i] == xs[i * (2 * p)]
  {
    var p := PowerOfTwo(k);
    CeilHalf(|xs| - 1, p);
    BelowLast(|xs| - 1, 2 * p, i);
    assert i * (2 * p) == (2 * i) * p;
    assert Selected(kept)[i] == kept[2 * i];
  }

  // ----- The report dictionary -----

  type Fields = seq<Field>
  type Name = seq<CodePoint>

  function Key(s: string): Name {
    seq(|s|, i requires 0 <= i < |s| => s[i] as int)
  }

  function Get(d: Fields, key: Name): Option<Json> {
    if d == [] then None
    else if d[0].key == key then Some(d[0].value)
    else Get(d[1..], key)
  }

  /** Assignment to a key: in place when present, else at the end. */
  function Put(d: Fields, key: Name, value: Json): Fields {
    if d == [] then [Field(key, value)]
    else if d[0].key == key then [Field(key, value)] + d[1..]
    else [d[0]] + Put(d[1..], key, value)
  }

  lemma {:induction false} GetPut(d: Fields, key: Name, value: Json, other: Name)
    ensures Get(Put(d, key, value), other) == if other == key then Some(value) else Get(d, other)
  {
    if d != [] && d[0].key != key {
      GetPut(d[1..], key, value, other);
    }
  }

  function FiniteOption(v: Option<Json>): Option<Json> {
    if v.Some? then Some(FiniteOnly(v.value)) else None
  }

  lemma {:induction false} GetFinite(d: Fields, key: Name)
    ensures Get(FiniteFields(d), key) == FiniteOption(Get(d, key))
  {
    if d != [] {
      assert FiniteFields(d)[1..] == FiniteFields(d[1..]);
      GetFinite(d[1..], key);
    }
  }

  lemma {:induction false} PutFinite(d: Fields, key: Name, value: Json)
    ensures FiniteFields(Put(d, key, value)) == Put(FiniteFields(d), key, FiniteOnly(value))
  {
    hide FiniteOnly, FiniteFields;
    FiniteCons(Field(key, value), []);
    if d != [] {
      FiniteCons(d[0], d[1..]);
      assert [d[0]] + d[1..] == d;
      var rest := FiniteFields(d[1..]);
      assert FiniteFields(d)[1..] == rest;
      if d[0].key == key {
        FiniteCons(Field(key, value), d[1..]);
      } else {
        FiniteCons(d[0], Put(d[1..], key, value));
        PutFinite(d[1..], key, value);
      }
    } else {
      FiniteFieldsEmpty();
    }
  }

  lemma FiniteFieldsEmpty()
    ensures FiniteFields([]) == []
  {
  }

  lemma FiniteCons(f: Field, d: Fields)
    ensures FiniteFields([f] + d) == [Field(f.key, FiniteOnly(f.value))] + FiniteFields(d)
  {
    hide FiniteOnly;
  }

  // ----- The export loop -----

  function Samples(d: Fields): seq<Json> {
    match Get(d, Key("snapshots"))
    case Some(Array(items)) => items
    case _ => []
  }

  /** int(... or 1): a missing or zero stride is 1. */
  function Stride(d: Fields): (n: int)
    ensures n != 0
  {
    match Get(d, Key("snapshot_stride"))
    case Some(Integer(n)) => if n == 0 then 1 else n
    case _ => 1
  }

  /** The session facts, when they are an object of schema 1. */
  function Facts(d: Fields): Option<Fields> {
    match Get(d, Key("session_facts"))
    case Some(Object(facts)) => if Get(facts, Key("schema")) == Some(Integer(1)) then Some(facts) else None
    case _ => None
  }

  function Chart(facts: Fields): Fields {
    match Get(facts, Key("chart"))
    case Some(Object(chart)) => chart
    case _ => []
  }

  function Charted(facts: Fields, stride: int, stored: nat): Fields {
    Put(facts, Key("chart"),
        Object(Put(Put(Chart(facts), Key("stride"), Integer(stride)), Key("stored"), Integer(stored))))
  }

  /** The report of a round: thinned samples, their stride, and facts that tell of both. */
  function Rewritten(d: Fields, samples: seq<Json>, stride: int, facts: Fields): Fields {
    Put(Put(Put(d, Key("snapshots"), Array(samples)), Key("snapshot_stride"), Integer(stride)),
        Key("session_facts"), Object(Charted(facts, stride, |samples|)))
  }

  predicate MayThin(d: Fields) {
    |Samples(d)| > 2 && Facts(d).Some?
  }

  function Thinned(d: Fields): Fields
    requires MayThin(d)
  {
    Rewritten(d, Selected(Samples(d)), 2 * Stride(d), Facts(d).value)
  }

  predicate Fits(d: Fields, windows: bool) {
    && Tokens(Object(d)) <= MAX_REPORT_VALUES
    && Nesting(Object(d)) <= MAX_REPORT_DEPTH
    && FileSize(Print(Object(d), 0, "\n"), windows) <= MAX_REPORT_BYTES
  }

  lemma NamesDiffer()
    ensures Key("snapshots") != Key("snapshot_stride")
    ensures Key("snapshots") != Key("session_facts")
    ensures Key("snapshot_stride") != Key("session_facts")
    ensures Key("schema") != Key("chart") && Key("stride") != Key("stored")
  {
    assert |Key("snapshots")| == 9 && |Key("snapshot_stride")| == 15 && |Key("session_facts")| == 13;
    assert |Key("schema")| == 6 && |Key("chart")| == 5;
    assert Key("stride")[2] == 'r' as int && Key("stored")[2] == 'o' as int;
  }

  lemma RewrittenReads(d: Fields, samples: seq<Json>, stride: int, facts: Fields, key: Name)
    ensures var r := Rewritten(d, samples, stride, facts);
      Get(r, key)
      == if key == Key("snapshots") then Some(Array(samples))
         else if key == Key("snapshot_stride") then Some(Integer(stride))
         else if key == Key("session_facts") then Some(Object(Charted(facts, stride, |samples|)))
         else Get(d, key)
  {
    NamesDiffer();
    hide Get, Put, Key, Charted;
    var one := Put(d, Key("snapshots"), Array(samples));
    var two := Put(one, Key("snapshot_stride"), Integer(stride));
    GetPut(d, Key("snapshots"), Array(samples), key);
    GetPut(one, Key("snapshot_stride"), Integer(stride), key);
    GetPut(two, Key("session_facts"), Object(Charted(facts, stride, |samples|)), key);
  }

  /** The facts keep their schema, and their chart names the stride and the number stored. */
  lemma ChartedReads(facts: Fields, stride: int, stored: nat)
    ensures var r := Charted(facts, stride, stored);
      && Get(r, Key("schema")) == Get(facts, Key("schema"))
      && Get(Chart(r), Key("stride")) == Some(Integer(stride))
      && Get(Chart(r), Key("stored")) == Some(Integer(stored))
  {
    NamesDiffer();
    hide Get, Put, Key;
    var one := Put(Chart(facts), Key("stride"), Integer(stride));
    var chart := Put(one, Key("stored"), Integer(stored));
    GetPut(facts, Key("chart"), Object(chart), Key("schema"));
    GetPut(facts, Key("chart"), Object(chart), Key("chart"));
    GetPut(Chart(facts), Key("stride"), Integer(stride), Key("stride"));
    GetPut(one, Key("stored"), Integer(stored), Key("stride"));
    GetPut(one, Key("stored"), Integer(stored), Key("stored"));
  }

  lemma ThinnedReads(d: Fields)
    requires MayThin(d)
    ensures var r := Thinned(d);
      && Samples(r) == Selected(Samples(d)) && Stride(r) == 2 * Stride(d)
      && |Samples(r)| < |Samples(d)| && Facts(r).Some?
      && Facts(r).value == Charted(Facts(d).value, Stride(r), |Samples(r)|)
  {
    NamesDiffer();
    hide Get, Put, Key, Charted, Chart;
    var facts := Facts(d).value;
    RewrittenReads(d, Selected(Samples(d)), 2 * Stride(d), facts, Key("snapshots"));
    RewrittenReads(d, Selected(Samples(d)), 2 * Stride(d), facts, Key("snapshot_stride"));
    RewrittenReads(d, Selected(Samples(d)), 2 * Stride(d), facts, Key("session_facts"));
    ChartedReads(facts, 2 * Stride(d), |Selected(Samples(d))|);
  }

  /** What the export makes of a report: thinned only as often as needed, and finite. */
  function Export(d: Fields, windows: bool): Option<Fields>
    decreases |Samples(d)|
  {
    if Fits(d, windows) then Some(FiniteFields(d))
    else if MayThin(d) then
      ThinnedReads(d);
      Export(Thinned(d), windows)
    else None
  }

  // ----- Normalising commutes with a round -----

  lemma FitsFinite(d: Fields, windows: bool)
    ensures Fits(d, windows) <==> Fits(FiniteFields(d), windows)
  {
    FiniteOnlyKeeps(Object(d), 0, "\n");
  }

  lemma FactsFinite(d: Fields)
    ensures Facts(FiniteFields(d)) == if Facts(d).Some? then Some(FiniteFields(Facts(d).value)) else None
  {
    hide Get, FiniteFields;
    GetFinite(d, Key("session_facts"));
    var found := Get(d, Key("session_facts"));
    if found.Some? && found.value.Object? {
      GetFinite(found.value.fields, Key("schema"));
    }
  }

  lemma ChartedFinite(facts: Fields, stride: int, stored: nat)
    ensures FiniteFields(Charted(facts, stride, stored)) == Charted(FiniteFields(facts), stride, stored)
  {
    hide Get, Put, FiniteFields, Key;
    GetFinite(facts, Key("chart"));
    FiniteFieldsEmpty();
    var one := Put(Chart(facts), Key("stride"), Integer(stride));
    var chart := Put(one, Key("stored"), Integer(stored));
    assert Chart(FiniteFields(facts)) == FiniteFields(Chart(facts));
    PutFinite(Chart(facts), Key("stride"), Integer(stride));
    PutFinite(one, Key("stored"), Integer(stored));
    PutFinite(facts, Key("chart"), Object(chart));
  }

  /** Two reports that agree up to normalising still do after a round. */
  lemma RewrittenFinite(d: Fields, e: Fields, samples: seq<Json>, stride: int, f: Fields, g: Fields)
    requires FiniteFields(d) == FiniteFields(e) && FiniteFields(f) == FiniteFields(g)
    ensures FiniteFields(Rewritten(d, samples, stride, f)) == FiniteFields(Rewritten(e, samples, stride, g))
  {
    RewrittenFiniteOf(d, samples, stride, f);
    RewrittenFiniteOf(e, samples, stride, g);
  }

  lemma RewrittenFiniteOf(d: Fields, samples: seq<Json>, stride: int, f: Fields)
    ensures FiniteFields(Rewritten(d, samples, stride, f))
         == Put(Put(Put(FiniteFields(d), Key("snapshots"), FiniteOnly(Array(samples))),
                    Key("snapshot_stride"), Integer(stride)),
                Key("session_facts"), Object(Charted(FiniteFields(f), stride, |samples|)))
  {
    hide Put, FiniteFields, Key, Charted;
    var one := Put(d, Key("snapshots"), Array(samples));
    var two := Put(one, Key("snapshot_stride"), Integer(stride));
    ChartedFinite(f, stride, |samples|);
    PutFinite(d, Key("snapshots"), Array(samples));
    PutFinite(one, Key("snapshot_stride"), Integer(stride));
    PutFinite(two, Key("session_facts"), Object(Charted(f, stride, |samples|)));
  }

  /**
   The export: check, normalise once the encoder raises, thin, and start over. The
   samples and stride kept aside are never normalised; the outcome is the same.
   */
  method PrepareReportExport(report: Fields, windows: bool) returns (r: Option<Fields>)
    ensures r == Export(Begun(report), windows)
    ensures Promised(r, report, windows)
  {
    WhatIsExported(report, windows);
    hide Promised, Get, Put, Key, FiniteFields, Export, Rewritten, Tokens, Nesting, Print, FileSize, Selected, Finite, Facts;
    var samples := Samples(report);
    var result := Put(report, Key("snapshots"), Array(samples));
    var stride := Stride(report);
    StartReads(report);
    ghost var current := result;
    while true
      invariant samples == Samples(current) && stride == Stride(current)
      invariant FiniteFields(result) == FiniteFields(current)
      invariant Export(current, windows) == Export(Begun(report), windows)
      decreases |samples|
    {
      FitsFinite(result, windows);
      FitsFinite(current, windows);
      ExportStep(current, windows);
      FactsFinite(result);
      FactsFinite(current);
      NormalForm(result);
      var fits := false;
      var tokens := WithinContractTokens(Object(result));
      if tokens {
        var outcome := WithinContractBytes(Object(result), windows);
        fits := outcome.Within?;
        if outcome.Raised? {
          result := FiniteFields(result);
          FactsFinite(result);
          FitsFinite(result, windows);
          tokens := WithinContractTokens(Object(result));
          if tokens {
            outcome := WithinContractBytes(Object(result), windows);
            fits := outcome.Within?;
          }
        }
      }
      assert fits <==> Fits(current, windows);
      if fits {
        NormalForm(result);
        return Some(result);
      }
      var facts := Facts(result);
      if |samples| <= 2 || facts.None? {
        return None;
      }
      ThinnedReads(current);
      RewrittenFinite(result, current, Selected(samples), 2 * stride, facts.value, Facts(current).value);
      samples, stride := Selected(samples), 2 * stride;
      result := Rewritten(result, samples, stride, facts.value);
      current := Thinned(current);
    }
  }

  /** The copy the loop starts from. */
  function Begun(report: Fields): Fields {
    Put(report, Key("snapshots"), Array(Samples(report)))
  }

  lemma StartReads(report: Fields)
    ensures var d := Begun(report);
      Samples(d) == Samples(report) && Stride(d) == Stride(report)
  {
    NamesDiffer();
    hide Get, Put, Key;
    GetPut(report, Key("snapshots"), Array(Samples(report)), Key("snapshots"));
    GetPut(report, Key("snapshots"), Array(Samples(report)), Key("snapshot_stride"));
  }

  lemma ExportStep(d: Fields, windows: bool)
    ensures Fits(d, windows) ==> Export(d, windows) == Some(FiniteFields(d))
    ensures !Fits(d, windows) && !MayThin(d) ==> Export(d, windows) == None
    ensures !Fits(d, windows) && MayThin(d) ==> Export(d, windows) == Export(Thinned(d), windows)
  {
    hide Fits, MayThin, Thinned;
  }

  /** Normalising twice is normalising once, and leaves the encoder nothing to raise at. */
  lemma NormalForm(d: Fields)
    ensures FiniteFields(FiniteFields(d)) == FiniteFields(d) && Finite(Object(FiniteFields(d)))
    ensures Finite(Object(d)) ==> FiniteFields(d) == d
  {
    hide FiniteFields, Finite;
    FiniteOnlyIsFinite(Object(d));
    FiniteOnlyIsFinite(Object(FiniteFields(d)));
    assert FiniteOnly(Object(d)) == Object(FiniteFields(d));
  }

  // ----- What an export is -----

  /** A key no round rewrites. */
  predicate Other(key: Name) {
    key != Key("snapshots") && key != Key("snapshot_stride") && key != Key("session_facts")
  }

  /** The report d is first after k rounds: samples and stride in closed form, all else as it was. */
  ghost predicate ReachedAfter(d: Fields, first: Fields, k: nat) {
    && KeptAfter(Samples(d), Samples(first), k)
    && Stride(d) == Stride(first) * PowerOfTwo(k)
    && (forall key: Name | Other(key) :: Get(d, key) == Get(first, key))
    && (k > 0 ==>
          && Facts(d).Some?
          && Get(Chart(Facts(d).value), Key("stride")) == Some(Integer(Stride(d)))
          && Get(Chart(Facts(d).value), Key("stored")) == Some(Integer(|Samples(d)|)))
  }

  lemma ReachedNow(d: Fields)
    ensures ReachedAfter(d, d, 0)
  {
    var xs := Samples(d);
    if xs != [] {
      assert CeilDiv(|xs| - 1, 1) == |xs| - 1;
    }
  }

  lemma ReachedNext(d: Fields, first: Fields, k: nat)
    requires ReachedAfter(d, first, k) && MayThin(d)
    ensures ReachedAfter(Thinned(d), first, k + 1)
  {
    ThinnedReads(d);
    ChartedReads(Facts(d).value, Stride(Thinned(d)), |Samples(Thinned(d))|);
    OthersStay(d);
    hide Get, Key, Thinned, Samples, Stride, Facts, Chart, Charted, KeptAfter, Selected, Other;
    SelectKept(Samples(d), Samples(first), k);
    Doubled(Stride(first), k);
  }

  lemma Doubled(stride: int, k: nat)
    ensures stride * PowerOfTwo(k + 1) == 2 * (stride * PowerOfTwo(k))
  {
  }

  lemma OthersStay(d: Fields)
    requires MayThin(d)
    ensures forall key: Name | Other(key) :: Get(Thinned(d), key) == Get(d, key)
  {
    hide Get, Key, Rewritten, Samples, Stride, Facts;
    forall key: Name | Other(key)
      ensures Get(Thinned(d), key) == Get(d, key)
    {
      RewrittenReads(d, Selected(Samples(d)), 2 * Stride(d), Facts(d).value, key);
    }
  }

  /** An export is the first round's report that fits, normalised; it fails only when nothing may be thinned. */
  ghost predicate ExportedAfter(r: Option<Fields>, last: Fields, first: Fields, k: nat, windows: bool) {
    && ReachedAfter(last, first, k)
    && (r.Some? ==> Fits(last, windows) && r.value == FiniteFields(last))
    && (r.None? ==> !Fits(last, windows) && !MayThin(last))
  }

  lemma {:induction false} ExportRounds(d: Fields, first: Fields, k: nat, windows: bool)
    requires ReachedAfter(d, first, k)
    ensures exists last, n :: ExportedAfter(Export(d, windows), last, first, n, windows)
    decreases |Samples(d)|
  {
    hide ReachedAfter, Fits, Thinned, Samples, Facts;
    ExportStep(d, windows);
    if Fits(d, windows) || !MayThin(d) {
      assert ExportedAfter(Export(d, windows), d, first, k, windows);
    } else {
      ThinnedReads(d);
      ReachedNext(d, first, k);
      ExportRounds(Thinned(d), first, k + 1, windows);
    }
  }

  /** First and last samples always survive, however many rounds are run. */
  lemma EndsSurvive<T(!new)>(kept: seq<T>, xs: seq<T>, k: nat)
    requires KeptAfter(kept, xs, k) && xs != []
    ensures kept != [] && kept[0] == xs[0] && kept[|kept| - 1] == xs[|xs| - 1]
    ensures |kept| <= |xs| && (|xs| > 1 ==> |kept| > 1)
  {
    var p := PowerOfTwo(k);
    CeilBounds(|xs| - 1, p);
    hide CeilDiv, PowerOfTwo;
    if |kept| > 1 {
      assert kept[0] == xs[0 * p];
    }
  }

  lemma BegunReached(report: Fields)
    ensures ReachedAfter(Begun(report), report, 0)
  {
    StartReads(report);
    ReachedNow(report);
    hide Get, Put, Key, Samples, Stride, KeptAfter;
    forall key: Name | Other(key)
      ensures Get(Begun(report), key) == Get(report, key)
    {
      GetPut(report, Key("snapshots"), Array(Samples(report)), key);
    }
  }

  lemma SamplesFinite(d: Fields)
    ensures |Samples(FiniteFields(d))| == |Samples(d)|
    ensures forall i | 0 <= i < |Samples(d)| :: Samples(FiniteFields(d))[i] == FiniteOnly(Samples(d)[i])
  {
    GetFinite(d, Key("snapshots"));
    hide Get, FiniteFields;
  }

  /**
   The result, told of the report that was given: it is that report after some number
   of rounds, with its first and last samples, and the reader accepts its numbers
   exactly when the given integers that reach it convert to floats.
   */
  ghost predicate Promised(r: Option<Fields>, report: Fields, windows: bool) {
    && (exists last, n :: ExportedAfter(r, last, report, n, windows))
    && (r.Some? && Samples(report) != [] ==>
          var kept, given := Samples(r.value), Samples(report);
          && kept != [] && kept[0] == FiniteOnly(given[0]) && kept[|kept| - 1] == FiniteOnly(given[|given| - 1]))
    && (r.Some? ==> (Representable(Object(r.value)) <==> GivenFits(report, Rounds(Begun(report), windows))))
  }

  lemma WhatIsExported(report: Fields, windows: bool)
    ensures Promised(Export(Begun(report), windows), report, windows)
  {
    var r := Export(Begun(report), windows);
    BegunReached(report);
    hide Begun, Samples, Export, Fits, MayThin, FiniteFields, Representable, GivenFits, Rounds, KeptAfter;
    ExportRounds(Begun(report), report, 0, windows);
    if r.Some? {
      var last, n :| ExportedAfter(r, last, report, n, windows);
      SamplesFinite(last);
      if Samples(report) != [] {
        EndsSurvive(Samples(last), Samples(report), n);
      }
      GivenDecides(report, windows);
    }
  }

  // ----- Which reports the reader accepts once exported -----

  /** The dictionary without the first entry of a key. */
  function Dropped(d: Fields, key: Name): Fields {
    if d == [] then []
    else if d[0].key == key then d[1..]
    else [d[0]] + Dropped(d[1..], key)
  }

  predicate AllFit(d: Fields) {
    forall i | 0 <= i < |d| :: IntegersFit(d[i].value)
  }

  predicate MaybeFits(v: Option<Json>) {
    v.Some? ==> IntegersFit(v.value)
  }

  predicate AsFloat(n: int) {
    -FLOAT_OVERFLOW < n < FLOAT_OVERFLOW
  }

  /** All of a report that no round touches. */
  function Untouched(d: Fields): Fields {
    Dropped(Dropped(Dropped(d, Key("snapshots")), Key("snapshot_stride")), Key("session_facts"))
  }

  function UntouchedFacts(facts: Fields): Fields {
    Dropped(facts, Key("chart"))
  }

  function UntouchedChart(facts: Fields): Fields {
    Dropped(Dropped(Chart(facts), Key("stride")), Key("stored"))
  }

  /** How often a report is thinned before it fits, or may be thinned no more. */
  function Rounds(d: Fields, windows: bool): nat
    decreases |Samples(d)|
  {
    if Fits(d, windows) || !MayThin(d) then 0
    else
      ThinnedReads(d);
      1 + Rounds(Thinned(d), windows)
  }

  /**
   The integers of a report that reach the reader after n rounds convert to floats:
   those nothing touches, those of the samples that are kept, and the stride.
   */
  ghost predicate GivenFits(report: Fields, n: nat) {
    && AllFit(Untouched(report))
    && (forall kept | KeptAfter(kept, Samples(report), n) :: forall i | 0 <= i < |kept| :: IntegersFit(kept[i]))
    && if n == 0 then
         MaybeFits(Get(report, Key("snapshot_stride"))) && MaybeFits(Get(report, Key("session_facts")))
       else
         && AsFloat(Stride(report) * PowerOfTwo(n))
         && Facts(report).Some? && AllFit(UntouchedFacts(Facts(report).value))
         && AllFit(UntouchedChart(Facts(report).value))
  }

  lemma {:induction false} AllFitDropped(d: Fields, key: Name)
    ensures AllFit(d) <==> MaybeFits(Get(d, key)) && AllFit(Dropped(d, key))
  {
    hide IntegersFit;
    if d != [] {
      AllFitCons(d[0], d[1..]);
      assert [d[0]] + d[1..] == d;
      if d[0].key != key {
        AllFitDropped(d[1..], key);
        AllFitCons(d[0], Dropped(d[1..], key));
      }
    }
  }

  lemma AllFitCons(f: Field, d: Fields)
    ensures AllFit([f] + d) <==> IntegersFit(f.value) && AllFit(d)
  {
    hide IntegersFit;
    assert ([f] + d)[0] == f;
    assert forall i | 0 <= i < |d| :: ([f] + d)[i + 1] == d[i];
  }

  lemma {:induction false} GetDropped(d: Fields, key: Name, other: Name)
    requires key != other
    ensures Get(Dropped(d, key), other) == Get(d, other)
  {
    if d != [] && d[0].key != key {
      GetDropped(d[1..], key, other);
    }
  }

  lemma {:induction false} DroppedPut(d: Fields, key: Name, value: Json)
    ensures Dropped(Put(d, key, value), key) == Dropped(d, key)
  {
    if d != [] && d[0].key != key {
      DroppedPut(d[1..], key, value);
    }
  }

  lemma {:induction false} DroppedOther(d: Fields, key: Name, value: Json, other: Name)
    requires key != other
    ensures Dropped(Put(d, key, value), other) == Put(Dropped(d, other), key, value)
  {
    if d != [] && d[0].key != key && d[0].key != other {
      DroppedOther(d[1..], key, value, other);
    }
  }

  /** Everything in a report fits exactly when what rounds touch fits, and what they do not. */
  lemma ReportFits(d: Fields)
    ensures AllFit(d) <==>
      && MaybeFits(Get(d, Key("snapshots"))) && MaybeFits(Get(d, Key("snapshot_stride")))
      && MaybeFits(Get(d, Key("session_facts"))) && AllFit(Untouched(d))
  {
    NamesDiffer();
    hide Get, Key, Dropped, AllFit, MaybeFits;
    var one := Dropped(d, Key("snapshots"));
    AllFitDropped(d, Key("snapshots"));
    AllFitDropped(one, Key("snapshot_stride"));
    AllFitDropped(Dropped(one, Key("snapshot_stride")), Key("session_facts"));
    GetDropped(d, Key("snapshots"), Key("snapshot_stride"));
    GetDropped(d, Key("snapshots"), Key("session_facts"));
    GetDropped(one, Key("snapshot_stride"), Key("session_facts"));
  }

  lemma ChartedFits(facts: Fields, stride: int, stored: nat)
    ensures AllFit(Charted(facts, stride, stored)) <==>
      AllFit(UntouchedFacts(facts)) && AllFit(UntouchedChart(facts)) && AsFloat(stride) && AsFloat(stored)
    ensures UntouchedFacts(Charted(facts, stride, stored)) == UntouchedFacts(facts)
    ensures UntouchedChart(Charted(facts, stride, stored)) == UntouchedChart(facts)
  {
    NamesDiffer();
    var one := Put(Chart(facts), Key("stride"), Integer(stride));
    var chart := Put(one, Key("stored"), Integer(stored));
    NumberFits(stride);
    NumberFits(stored);
    ObjectFits(chart);
    hide Get, Put, Key, Dropped, AllFit, IntegersFit, AsFloat;
    GetPut(facts, Key("chart"), Object(chart), Key("chart"));
    assert Chart(Charted(facts, stride, stored)) == chart;
    DroppedPut(facts, Key("chart"), Object(chart));
    AllFitDropped(Charted(facts, stride, stored), Key("chart"));
    ChartFits(Chart(facts), stride, stored);
  }

  lemma ChartFits(chart: Fields, stride: int, stored: nat)
    ensures var one := Put(chart, Key("stride"), Integer(stride));
      var two := Put(one, Key("stored"), Integer(stored));
      var rest := Dropped(Dropped(chart, Key("stride")), Key("stored"));
      && Dropped(Dropped(two, Key("stride")), Key("stored")) == rest
      && (AllFit(two) <==> AllFit(rest) && IntegersFit(Integer(stride)) && IntegersFit(Integer(stored)))
  {
    NamesDiffer();
    hide Get, Put, Key, Dropped, AllFit, IntegersFit;
    var one := Put(chart, Key("stride"), Integer(stride));
    var two := Put(one, Key("stored"), Integer(stored));
    DroppedOther(one, Key("stored"), Integer(stored), Key("stride"));
    DroppedPut(chart, Key("stride"), Integer(stride));
    DroppedPut(Dropped(chart, Key("stride")), Key("stored"), Integer(stored));
    AllFitDropped(two, Key("stride"));
    AllFitDropped(Dropped(two, Key("stride")), Key("stored"));
    GetPut(chart, Key("stride"), Integer(stride), Key("stride"));
    GetPut(one, Key("stored"), Integer(stored), Key("stride"));
    GetPut(one, Key("stored"), Integer(stored), Key("stored"));
    GetDropped(two, Key("stride"), Key("stored"));
  }

  lemma NumberFits(n: int)
    ensures IntegersFit(Integer(n)) <==> AsFloat(n)
  {
  }

  lemma ObjectFits(d: Fields)
    ensures IntegersFit(Object(d)) <==> AllFit(d)
  {
    var v := Object(d);
    assert forall i | 0 <= i < |d| :: v.Children()[i] == d[i].value;
  }

  lemma ArrayFits(items: seq<Json>)
    ensures IntegersFit(Array(items)) <==> forall i | 0 <= i < |items| :: IntegersFit(items[i])
  {
    var v := Array(items);
    assert forall i | 0 <= i < |items| :: v.Children()[i] == items[i];
  }

  lemma RewrittenUntouched(d: Fields, samples: seq<Json>, stride: int, facts: Fields)
    ensures Untouched(Rewritten(d, samples, stride, facts)) == Untouched(d)
  {
    NamesDiffer();
    hide Put, Key, Dropped, Charted;
    var a, b, c := Key("snapshots"), Key("snapshot_stride"), Key("session_facts");
    var x, y, z := Array(samples), Integer(stride), Object(Charted(facts, stride, |samples|));
    var one := Put(d, a, x);
    var two := Put(one, b, y);
    DroppedOther(two, c, z, a);
    DroppedOther(one, b, y, a);
    DroppedPut(d, a, x);
    DroppedOther(Put(Dropped(d, a), b, y), c, z, b);
    DroppedPut(Dropped(d, a), b, y);
    DroppedPut(Dropped(Dropped(d, a), b), c, z);
  }

  lemma KeptUnique<T(!new)>(a: seq<T>, b: seq<T>, xs: seq<T>, k: nat)
    requires KeptAfter(a, xs, k) && KeptAfter(b, xs, k)
    ensures a == b
  {
    if xs != [] {
      forall i | 0 <= i < |a|
        ensures a[i] == b[i]
      {
      }
    }
  }

  lemma {:induction false} SizeOfPart(v: Json, n: nat, i: nat)
    requires i < n <= |v.Children()|
    ensures Size(v.Children()[i], true) <= SizeOfFirst(v, n, true) && n <= SizeOfFirst(v, n, true)
    decreases n
  {
    if i < n - 1 {
      SizeOfPart(v, n - 1, i);
    } else if n > 1 {
      SizeOfPart(v, n - 1, 0);
    }
  }

  lemma {:induction false} GetAt(d: Fields, key: Name) returns (i: nat)
    requires Get(d, key).Some?
    ensures i < |d| && d[i] == Field(key, Get(d, key).value)
  {
    if d[0].key == key {
      i := 0;
    } else {
      i := GetAt(d[1..], key);
      i := i + 1;
    }
  }

  /** A report within the limit on values holds few samples. */
  lemma FewSamples(d: Fields, windows: bool)
    requires Fits(d, windows)
    ensures |Samples(d)| <= MAX_REPORT_VALUES && AsFloat(|Samples(d)|)
  {
    if Samples(d) != [] {
      var i := GetAt(d, Key("snapshots"));
      var v := Object(d);
      assert v.Children()[i] == Array(Samples(d));
      SizeOfPart(v, |d|, i);
      SizeOfPart(Array(Samples(d)), |Samples(d)|, 0);
    }
    LargeFloats();
  }

  lemma LargeFloats()
    ensures MAX_REPORT_VALUES < FLOAT_OVERFLOW
  {
    PowerGrows(20, 970);
    PowerGrows(971, 1024);
    assert PowerOfTwo(971) == 2 * PowerOfTwo(970);
    assert PowerOfTwo(10) == 1024 && PowerOfTwo(20) == 1024 * 1024 by { PowerSmall(); }
  }

  lemma PowerSmall()
    ensures PowerOfTwo(10) == 1024 && PowerOfTwo(20) == 1024 * 1024
  {
    assert PowerOfTwo(5) == 32;
    assert PowerOfTwo(10) == 1024;
    assert PowerOfTwo(15) == 32 * 1024;
  }

  lemma {:induction false} PowerGrows(a: nat, b: nat)
    requires a <= b
    ensures PowerOfTwo(a) <= PowerOfTwo(b)
    decreases b
  {
    if a < b {
      PowerGrows(a, b - 1);
    }
  }

  lemma {:induction false} IntegersFitFinite(v: Json)
    ensures IntegersFit(FiniteOnly(v)) <==> IntegersFit(v)
  {
    FiniteChildren(v);
    forall i | 0 <= i < |v.Children()|
      ensures IntegersFit(FiniteOnly(v.Children()[i])) <==> IntegersFit(v.Children()[i])
    {
      IntegersFitFinite(v.Children()[i]);
    }
  }

  /** A report after some rounds, told of the one they began with. */
  ghost predicate Stems(d: Fields, report: Fields, k: nat) {
    && ReachedAfter(d, report, k) && Untouched(d) == Untouched(report)
    && Get(d, Key("snapshots")) == Some(Array(Samples(d)))
    && Facts(d).Some? == Facts(report).Some?
    && (Facts(d).Some? ==>
          && UntouchedFacts(Facts(d).value) == UntouchedFacts(Facts(report).value)
          && UntouchedChart(Facts(d).value) == UntouchedChart(Facts(report).value))
    && (if k == 0 then
          && Get(d, Key("snapshot_stride")) == Get(report, Key("snapshot_stride"))
          && Get(d, Key("session_facts")) == Get(report, Key("session_facts"))
        else
          && Get(d, Key("snapshot_stride")) == Some(Integer(Stride(d))) && FactsFit(d)
          && Facts(d).Some? && Get(d, Key("session_facts")) == Some(Object(Facts(d).value)))
  }

  /** The facts fit as far as what no round touches does, and the numbers rounds write. */
  ghost predicate FactsFit(d: Fields) {
    Facts(d).Some? ==>
      (AllFit(Facts(d).value) <==>
        && AllFit(UntouchedFacts(Facts(d).value)) && AllFit(UntouchedChart(Facts(d).value))
        && AsFloat(Stride(d)) && AsFloat(|Samples(d)|))
  }

  lemma StemsBegun(report: Fields)
    ensures Stems(Begun(report), report, 0)
  {
    BegunReached(report);
    NamesDiffer();
    hide Get, Put, Key, Dropped, ReachedAfter, Samples, Stride;
    var a := Key("snapshots");
    DroppedPut(report, a, Array(Samples(report)));
    GetPut(report, a, Array(Samples(report)), a);
    GetPut(report, a, Array(Samples(report)), Key("snapshot_stride"));
    GetPut(report, a, Array(Samples(report)), Key("session_facts"));
    StartReads(report);
  }

  lemma StemsThinned(d: Fields, report: Fields, k: nat)
    requires Stems(d, report, k) && MayThin(d)
    ensures Stems(Thinned(d), report, k + 1)
  {
    ReachedNext(d, report, k);
    ThinnedReads(d);
    var samples, stride, facts := Selected(Samples(d)), 2 * Stride(d), Facts(d).value;
    NamesDiffer();
    hide Get, Put, Key, Dropped, ReachedAfter, Samples, Stride, Selected, Charted, Chart, AllFit, AsFloat, Untouched,
      UntouchedFacts, UntouchedChart, Rewritten;
    RewrittenUntouched(d, samples, stride, facts);
    ChartedFits(facts, stride, |samples|);
    RewrittenReads(d, samples, stride, facts, Key("snapshots"));
    RewrittenReads(d, samples, stride, facts, Key("snapshot_stride"));
    RewrittenReads(d, samples, stride, facts, Key("session_facts"));
  }

  /** Whether the reader accepts an export is decided by the report that was given. */
  lemma GivenDecides(report: Fields, windows: bool)
    requires Export(Begun(report), windows).Some?
    ensures Representable(Object(Export(Begun(report), windows).value))
      <==> GivenFits(report, Rounds(Begun(report), windows))
  {
    StemsBegun(report);
    hide Begun, Export, Rounds, Stems, GivenFits, Representable;
    GivenDecidesFrom(Begun(report), report, 0, windows);
  }

  lemma RoundsStep(d: Fields, windows: bool)
    ensures Fits(d, windows) ==> Rounds(d, windows) == 0
    ensures !Fits(d, windows) && MayThin(d) ==> Rounds(d, windows) == 1 + Rounds(Thinned(d), windows)
  {
    hide Fits, MayThin, Thinned;
  }

  lemma {:induction false} GivenDecidesFrom(d: Fields, report: Fields, k: nat, windows: bool)
    requires Stems(d, report, k) && Export(d, windows).Some?
    ensures Representable(Object(Export(d, windows).value)) <==> GivenFits(report, k + Rounds(d, windows))
    decreases |Samples(d)|
  {
    hide *;
    ExportStep(d, windows);
    RoundsStep(d, windows);
    if Fits(d, windows) {
      GivenDecidesNow(d, report, k, windows);
    } else {
      ThinnedReads(d);
      StemsThinned(d, report, k);
      GivenDecidesFrom(Thinned(d), report, k + 1, windows);
    }
  }

  lemma GivenDecidesNow(d: Fields, report: Fields, k: nat, windows: bool)
    requires Stems(d, report, k) && Fits(d, windows)
    ensures Representable(Object(FiniteFields(d))) <==> GivenFits(report, k)
  {
    var v := Object(d);
    assert FiniteOnly(v) == Object(FiniteFields(d));
    FiniteOnlyIsFinite(v);
    FiniteRepresentable(FiniteOnly(v));
    IntegersFitFinite(v);
    FewSamples(d, windows);
    ObjectFits(d);
    ReportFits(d);
    ArrayFits(Samples(d));
    KeptFits(d, report, k);
    if k > 0 {
      NumberFits(Stride(d));
      ObjectFits(Facts(d).value);
    }
    hide Representable, Finite, FiniteOnly, FiniteFields, IntegersFit, Untouched, Samples, Stride, Facts, Get, Key,
      KeptAfter, UntouchedFacts, UntouchedChart, AllFit, AsFloat, Fits;
  }

  lemma KeptFits(d: Fields, report: Fields, k: nat)
    requires ReachedAfter(d, report, k)
    ensures (forall kept | KeptAfter(kept, Samples(report), k) :: forall i | 0 <= i < |kept| :: IntegersFit(kept[i]))
      <==> forall i | 0 <= i < |Samples(d)| :: IntegersFit(Samples(d)[i])
  {
    hide KeptAfter, Samples, IntegersFit;
    forall kept | KeptAfter(kept, Samples(report), k)
      ensures kept == Samples(d)
    {
      KeptUnique(kept, Samples(d), Samples(report), k);
    }
  }

  /**
   What the exporter lets out, the reader lets in: the file is small enough ASCII,
   the scanner accepts its text, and the values are accepted exactly when those
   integers of the given report that reach the reader convert to floats.
   */
  lemma ExportReadable(report: Fields, windows: bool)
    requires Export(Begun(report), windows).Some?
    ensures var v := Object(Export(Begun(report), windows).value);
      var file := Print(v, 0, if windows then "\r\n" else "\n");
      && |file| <= MAX_REPORT_BYTES && Ascii(file)
      && Run(START, file).tokens == Tokens(v) <= MAX_REPORT_VALUES
      && Run(START, file).peak == Nesting(v) <= MAX_REPORT_DEPTH
      && Size(v, false) <= MAX_REPORT_VALUES && Depth(v, false) <= MAX_REPORT_DEPTH
      && Finite(v)
      && (Representable(v) <==> GivenFits(report, Rounds(Begun(report), windows)))
  {
    hide Print, Run, Finite, Representable, Begun, Rounds, GivenFits;
    RoundsReadable(Begun(report), windows);
    GivenDecides(report, windows);
  }

  lemma {:induction false} RoundsReadable(d: Fields, windows: bool)
    requires Export(d, windows).Some?
    ensures var v := Object(Export(d, windows).value);
      var file := Print(v, 0, if windows then "\r\n" else "\n");
      && |file| <= MAX_REPORT_BYTES && Ascii(file)
      && Run(START, file).tokens == Tokens(v) <= MAX_REPORT_VALUES
      && Run(START, file).peak == Nesting(v) <= MAX_REPORT_DEPTH
      && Size(v, false) <= MAX_REPORT_VALUES && Depth(v, false) <= MAX_REPORT_DEPTH
      && Finite(v)
    decreases |Samples(d)|
  {
    ExportStep(d, windows);
    if !Fits(d, windows) {
      ThinnedReads(d);
      hide Thinned, Fits;
      RoundsReadable(Thinned(d), windows);
    } else {
      var v := Object(FiniteFields(d));
      var nl := if windows then "\r\n" else "\n";
      FitsFinite(d, windows);
      hide Print, Run, Finite, FiniteFields;
      FiniteOnlyIsFinite(Object(d));
      FileIsTranslated(v, windows);
      ScanValue(START, v, 0, nl);
      ValuesWithinTokens(v);
    }
  }

  lemma FileIsTranslated(v: Json, windows: bool)
    ensures var file := Print(v, 0, if windows then "\r\n" else "\n");
      |file| == FileSize(Print(v, 0, "\n"), windows) && Ascii(file)
  {
    hide Print, Translate;
    TranslateValue(v, 0);
    TranslatedLength(Print(v, 0, "\n"));
    TranslatedAscii(Print(v, 0, "\n"));
  }

  lemma {:induction false} TranslatedAscii(t: string)
    requires Ascii(t)
    ensures Ascii(Translate(t))
  {
    if t != "" {
      assert t == t[..|t| - 1] + [t[|t| - 1]];
      AsciiConcat(t[..|t| - 1], [t[|t| - 1]]);
      TranslatedAscii(t[..|t| - 1]);
    }
  }

  predicate IntegersFit(v: Json) {
    && (v.Integer? ==> -FLOAT_OVERFLOW < v.n < FLOAT_OVERFLOW)
    && forall i | 0 <= i < |v.Children()| :: IntegersFit(v.Children()[i])
  }

  lemma {:induction false} FiniteRepresentable(v: Json)
    requires Finite(v)
    ensures Representable(v) <==> IntegersFit(v)
  {
    forall i | 0 <= i < |v.Children()|
      ensures Representable(v.Children()[i]) <==> IntegersFit(v.Children()[i])
    {
      FiniteRepresentable(v.Children()[i]);
    }
  }

  lemma {:induction false} DigitsLength(n: nat, k: nat)
    requires n < PowerOfTwo(k) && k > 0
    ensures |Digits(n)| <= k
  {
    if n >= 10 {
      DigitsLength(n / 10, k - 1);
    }
  }

  /** The two sides do disagree: an integer too large for a float is exported and then refused. */
  lemma HugeIntegerIsRefused(windows: bool)
    ensures var report := Begun([Field([], Integer(PowerOfTwo(1024)))]);
      Export(report, windows) == Some(report) && !Representable(Object(report))
  {
    var number := Integer(PowerOfTwo(1024));
    var report := Begun([Field([], number)]);
    var v := Object(report);
    BegunHuge(number);
    HugeIsFinite(number, Key("snapshots"));
    PowerPositive(1024);
    SmallReport(number, Key("snapshots"));
    hide Begun, PowerOfTwo, Finite, FiniteOnly, Representable, Print, Key;
    FiniteOnlyIsFinite(v);
    FileSizeBound(Print(v, 0, "\n"), windows);
  }

  lemma HugeIsFinite(number: Json, name: Name)
    requires number == Integer(PowerOfTwo(1024))
    ensures var v := Object([Field([], number), Field(name, Array([]))]);
      Finite(v) && !Representable(v)
  {
    var none := Array([]);
    var v := Object([Field([], number), Field(name, none)]);
    PowerPositive(970);
    PowerPositive(1024);
    assert v.Children() == [number, none] && number.Children() == none.Children() == [];
    assert !Representable(v.Children()[0]);
    assert Finite(number) && Finite(none);
  }

  lemma BegunHuge(number: Json)
    ensures Begun([Field([], number)]) == [Field([], number), Field(Key("snapshots"), Array([]))]
  {
    var report := [Field([], number)];
    var name, none := Key("snapshots"), Array([]);
    assert |name| > 0 && report[1..] == [];
    assert Get(report, name) == Get([], name) == None;
    assert Put(report, name, none) == [report[0]] + Put([], name, none);
  }

  lemma SmallReport(number: Json, name: Name)
    requires number == Integer(PowerOfTwo(1024)) && number.n > 0 && |name| <= 20
    ensures var v := Object([Field([], number), Field(name, Array([]))]);
      Tokens(v) == 5 && Nesting(v) == 2 && |Print(v, 0, "\n")| <= 2000
  {
    var none := Array([]);
    var v := Object([Field([], number), Field(name, none)]);
    SmallCounts(v, number, none);
    DigitsLength(number.n, 1025);
    hide *;
    SmallText(v, number, name, none);
  }

  lemma SmallCounts(v: Json, number: Json, none: Json)
    requires v.Object? && |v.fields| == 2 && v.Children() == [number, none] && number.Integer? && none == Array([])
    ensures Tokens(v) == 5 && Nesting(v) == 2
  {
    assert SizeOfFirst(number, 0, true) == 0;
    assert SizeOfFirst(v, 2, true) == SizeOfFirst(v, 0, true) + Size(number, true) + Size(none, true);
    assert DepthOfFirst(v, 2, true) == Max(Max(DepthOfFirst(v, 0, true), Depth(number, true)), Depth(none, true));
  }

  lemma SmallText(v: Json, number: Json, name: Name, none: Json)
    requires v == Object([Field([], number), Field(name, none)]) && none == Array([]) && |name| <= 20
    requires number.Integer? && number.n >= 0 && |Digits(number.n)| <= 1025
    ensures |Print(v, 0, "\n")| <= 2000
  {
    hide Digits, Escaped, PowerOfTwo;
    EscapedLength(name);
    EscapedLength([]);
    assert PrintFirst(v, 1, 1, "\n") == PrintFirst(v, 0, 1, "\n") + Lead(v, 0, 1, "\n") + Print(number, 1, "\n");
    assert PrintFirst(v, 2, 1, "\n") == PrintFirst(v, 1, 1, "\n") + Lead(v, 1, 1, "\n") + Print(none, 1, "\n");
    assert |Break(1, "\n")| == 3 && |Quote([])| <= 2 && |Quote(name)| <= 242;
  }

  lemma {:induction false} EscapedLength(s: seq<CodePoint>)
    ensures |Escaped(s)| <= 12 * |s|
  {
    if s != [] {
      EscapedLength(s[..|s| - 1]);
    }
  }

  lemma {:induction false} FileSizeBound(t: string, windows: bool)
    ensures FileSize(t, windows) <= 2 * |t|
  {
    if t != "" {
      FileSizeBound(t[..|t| - 1], windows);
    }
  }
}
