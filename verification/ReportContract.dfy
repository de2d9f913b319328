/**
 The bounded JSON contract. The writer counts values with a worklist before it
 prints; the reader counts tokens in the printed text with a quote-aware scanner
 before it parses (sections 2 and 7 of RFC 8259), and counts values once more
 afterwards. The three counts are tied together here.
 */
module ReportContract {

  import opened Arithmetic

  const MAX_REPORT_BYTES := 64 * 1024 * 1024
  const MAX_REPORT_DEPTH := 64
  const MAX_REPORT_VALUES := 1_000_000

  /** str.isspace of one character. */
  predicate IsSpace(c: char) {
    var n := c as int;
    || 9 <= n <= 13 || 28 <= n <= 32 || n == 0x85 || n == 0xa0 || n == 0x1680 || 0x2000 <= n <= 0x200a
    || n == 0x2028 || n == 0x2029 || n == 0x202f || n == 0x205f || n == 0x3000
  }

  /** A character numbers and literals are written with: nothing the scanner treats specially. */
  predicate IsBare(c: char) {
    '!' <= c <= '~' && c !in "\"[]{},:"
  }

  type Bare = t: string | |t| > 0 && forall c | c in t :: IsBare(c) witness "0"

  /** The smallest magnitude of an integer that no longer converts to a finite float. */
  const FLOAT_OVERFLOW := PowerOfTwo(1024) - PowerOfTwo(970)

  /** Python strings may hold unpaired surrogates, so they are sequences of code points here. */
  type CodePoint = n: nat | n < 0x11_0000

  datatype Field = Field(key: seq<CodePoint>, value: Json)

  /**
   A JSON value; a finite float is known by its text. Whatever is of another
   type counts as the Text that is printed for it.
   */
  datatype Json =
    | Literal(word: Bare)
    | Integer(n: int)
    | Float(text: Bare)
    | NonFinite
    | Text(s: seq<CodePoint>)
    | Array(items: seq<Json>)
    | Object(fields: seq<Field>)
  {
    predicate Container() {
      Array? || Object?
    }

    function Children(): (c: seq<Json>)
      ensures forall i | 0 <= i < |c| :: c[i] < this
    {
      match this
      case Array(items) => items
      case Object(fields) => seq(|fields|, i requires 0 <= i < |fields| => fields[i].value)
      case _ => []
    }

    /** How many keys stand beside the children. */
    function Keys(): nat {
      if Object? then |fields| else 0
    }
  }

  // ----- Sizes and depths -----

  /** The number of values in v, or of values and object keys. */
  function Size(v: Json, keys: bool): nat
    decreases v, |v.Children()| + 1
  {
    1 + (if keys then v.Keys() else 0) + SizeOfFirst(v, |v.Children()|, keys)
  }

  function SizeOfFirst(v: Json, n: nat, keys: bool): nat
    requires n <= |v.Children()|
    decreases v, n
  {
    if n == 0 then 0 else SizeOfFirst(v, n - 1, keys) + Size(v.Children()[n - 1], keys)
  }

  function Tokens(v: Json): nat {
    Size(v, true)
  }

  /** How many containers enclose one another; without `empties`, how deep the deepest value lies. */
  function Depth(v: Json, empties: bool): nat
    decreases v, |v.Children()| + 1
  {
    if v.Children() == [] then
      if empties && v.Container() then 1 else 0
    else
      1 + DepthOfFirst(v, |v.Children()|, empties)
  }

  function DepthOfFirst(v: Json, n: nat, empties: bool): nat
    requires n <= |v.Children()|
    decreases v, n
  {
    if n == 0 then 0 else Max(DepthOfFirst(v, n - 1, empties), Depth(v.Children()[n - 1], empties))
  }

  function Max(a: int, b: int): int {
    if a < b then b else a
  }

  function Nesting(v: Json): nat {
    Depth(v, true)
  }

  /** Every number in v is finite and fits a float. */
  predicate Representable(v: Json) {
    && !v.NonFinite?
    && (v.Integer? ==> -FLOAT_OVERFLOW < v.n < FLOAT_OVERFLOW)
    && forall i | 0 <= i < |v.Children()| :: Representable(v.Children()[i])
  }

  lemma {:induction false} DepthOfFirstBound(v: Json, n: nat, empties: bool, bound: int)
    requires n <= |v.Children()| && bound >= 0
    ensures DepthOfFirst(v, n, empties) <= bound <==> forall i | 0 <= i < n :: Depth(v.Children()[i], empties) <= bound
  {
    if n > 0 {
      hide DepthOfFirst, Depth;
      DepthOfNext(v, n, empties);
      DepthOfFirstBound(v, n - 1, empties, bound);
    } else {
      assert DepthOfFirst(v, 0, empties) == 0;
    }
  }

  lemma DepthOfNext(v: Json, n: nat, empties: bool)
    requires 0 < n <= |v.Children()|
    ensures DepthOfFirst(v, n, empties) == Max(DepthOfFirst(v, n - 1, empties), Depth(v.Children()[n - 1], empties))
  {
  }

  /** Counting keys can only raise the size, and an empty container lies no deeper than it nests. */
  lemma {:induction false} ValuesWithinTokens(v: Json)
    ensures Size(v, false) <= Size(v, true) && Depth(v, false) <= Depth(v, true)
    decreases v, |v.Children()| + 1
  {
    FirstValuesWithinTokens(v, |v.Children()|);
  }

  lemma {:induction false} FirstValuesWithinTokens(v: Json, n: nat)
    requires n <= |v.Children()|
    ensures SizeOfFirst(v, n, false) <= SizeOfFirst(v, n, true)
    ensures DepthOfFirst(v, n, false) <= DepthOfFirst(v, n, true)
    decreases v, n
  {
    if n > 0 {
      FirstValuesWithinTokens(v, n - 1);
      ValuesWithinTokens(v.Children()[n - 1]);
    }
  }

  // ----- The worklists -----

  datatype Entry = Entry(value: Json, depth: nat)

  function Pending(v: Json, n: nat, depth: nat): (r: seq<Entry>)
    requires n <= |v.Children()|
    ensures |r| == n && forall i | 0 <= i < n :: r[i] == Entry(v.Children()[i], depth)
  {
    seq(n, i requires 0 <= i < n => Entry(v.Children()[i], depth))
  }

  function Total(pending: seq<Entry>, keys: bool): (n: nat)
    ensures n >= |pending|
  {
    if pending == [] then 0
    else Total(pending[..|pending| - 1], keys) + Size(pending[|pending| - 1].value, keys)
  }

  lemma {:induction false} TotalOfChildren(rest: seq<Entry>, v: Json, n: nat, depth: nat, keys: bool)
    requires n <= |v.Children()|
    ensures Total(rest + Pending(v, n, depth), keys) == Total(rest, keys) + SizeOfFirst(v, n, keys)
  {
    hide Size;
    if n == 0 {
      assert rest + Pending(v, 0, depth) == rest;
    } else {
      var all := rest + Pending(v, n, depth);
      assert all[..|all| - 1] == rest + Pending(v, n - 1, depth);
      assert all[|all| - 1].value == v.Children()[n - 1];
      TotalOfChildren(rest, v, n - 1, depth, keys);
    }
  }

  ghost predicate WithinDepth(pending: seq<Entry>, empties: bool) {
    forall i | 0 <= i < |pending| :: pending[i].depth + Depth(pending[i].value, empties) <= MAX_REPORT_DEPTH
  }

  ghost predicate AllRepresentable(pending: seq<Entry>) {
    forall i | 0 <= i < |pending| :: Representable(pending[i].value)
  }

  /** Replacing a container by its children, one level down, keeps the verdict on depth. */
  lemma DepthOfChildren(pending: seq<Entry>, empties: bool)
    requires pending != []
    requires var last := pending[|pending| - 1]; last.depth + (if empties then 1 else 0) <= MAX_REPORT_DEPTH
    ensures var last := pending[|pending| - 1];
      WithinDepth(pending, empties)
      <==> WithinDepth(pending[..|pending| - 1] + Pending(last.value, |last.value.Children()|, last.depth + 1), empties)
  {
    var rest, last := pending[..|pending| - 1], pending[|pending| - 1];
    var v := last.value;
    var n := |v.Children()|;
    var children := Pending(v, n, last.depth + 1);
    if last.depth < MAX_REPORT_DEPTH {
      DepthOfFirstBound(v, n, empties, MAX_REPORT_DEPTH - last.depth - 1);
    }
    assert WithinDepth([last], empties) <==> WithinDepth(children, empties) by {
      assert WithinDepth([last], empties) <==> [last][0].depth + Depth(v, empties) <= MAX_REPORT_DEPTH;
      hide DepthOfFirst;
    }
    hide Depth;
    assert pending == rest + [last];
    WithinDepthConcat(rest, [last], empties);
    WithinDepthConcat(rest, children, empties);
  }

  lemma WithinDepthConcat(a: seq<Entry>, b: seq<Entry>, empties: bool)
    ensures WithinDepth(a + b, empties) <==> WithinDepth(a, empties) && WithinDepth(b, empties)
  {
    hide Depth;
    if WithinDepth(a + b, empties) {
      assert forall i | 0 <= i < |a| :: (a + b)[i] == a[i];
      assert forall i | 0 <= i < |b| :: (a + b)[|a| + i] == b[i];
    }
  }

  lemma RepresentableChildren(pending: seq<Entry>)
    requires pending != []
    requires var v := pending[|pending| - 1].value; !v.NonFinite? && (v.Integer? ==> -FLOAT_OVERFLOW < v.n < FLOAT_OVERFLOW)
    ensures var last := pending[|pending| - 1];
      var after := pending[..|pending| - 1] + Pending(last.value, |last.value.Children()|, last.depth + 1);
      AllRepresentable(pending) <==> AllRepresentable(after)
  {
    var rest, last := pending[..|pending| - 1], pending[|pending| - 1];
    var v := last.value;
    var after := rest + Pending(v, |v.Children()|, last.depth + 1);
    if AllRepresentable(after) {
      forall i | 0 <= i < |pending|
        ensures Representable(pending[i].value)
      {
        if i < |rest| {
          assert after[i] == pending[i];
        } else {
          forall j | 0 <= j < |v.Children()|
            ensures Representable(v.Children()[j])
          {
            assert after[|rest| + j].value == v.Children()[j];
          }
        }
      }
    }
  }

  /** The worklist after its last entry was replaced by that entry's children. */
  function Expanded(pending: seq<Entry>): seq<Entry>
    requires pending != []
  {
    var last := pending[|pending| - 1];
    pending[..|pending| - 1] + Pending(last.value, |last.value.Children()|, last.depth + 1)
  }

  lemma ExpandingCounts(pending: seq<Entry>, keys: bool)
    requires pending != []
    ensures var v := pending[|pending| - 1].value;
      var counted := 1 + if keys then v.Keys() else 0;
      && Total(pending, keys) == counted + Total(Expanded(pending), keys)
      && Total(Expanded(pending), keys) >= |pending| - 1 + |v.Children()|
  {
    var last := pending[|pending| - 1];
    TotalOfChildren(pending[..|pending| - 1], last.value, |last.value.Children()|, last.depth + 1, keys);
  }

  lemma Started(root: Json, keys: bool, empties: bool)
    ensures Total([Entry(root, 0)], keys) == Size(root, keys)
    ensures WithinDepth([Entry(root, 0)], empties) <==> Depth(root, empties) <= MAX_REPORT_DEPTH
    ensures AllRepresentable([Entry(root, 0)]) <==> Representable(root)
  {
    var pending := [Entry(root, 0)];
    assert pending[..0] == [];
    assert pending[0].value == root;
  }

  lemma Finished(keys: bool, empties: bool)
    ensures Total([], keys) == 0 && WithinDepth([], empties) && AllRepresentable([])
  {
  }

  /** A worklist whose last entry already breaks a limit cannot be within it. */
  lemma LastTooDeep(pending: seq<Entry>, empties: bool)
    requires pending != [] && WithinDepth(pending, empties)
    ensures var last := pending[|pending| - 1];
      last.depth + (if empties && last.value.Container() then 1 else 0) <= MAX_REPORT_DEPTH
  {
    var last := pending[|pending| - 1];
    assert last.depth + Depth(last.value, empties) <= MAX_REPORT_DEPTH;
  }

  /** The writer's check, with its early exits, before anything is printed. */
  method WithinContractTokens(value: Json) returns (ok: bool)
    ensures ok <==> Tokens(value) <= MAX_REPORT_VALUES && Nesting(value) <= MAX_REPORT_DEPTH
  {
    hide Size, Depth, Total, WithinDepth;
    Started(value, true, true);
    Finished(true, true);
    var pending := [Entry(value, 0)];
    var count := 0;
    while pending != []
      invariant count <= MAX_REPORT_VALUES
      invariant count + Total(pending, true) == Tokens(value)
      invariant Nesting(value) <= MAX_REPORT_DEPTH <==> WithinDepth(pending, true)
      decreases Total(pending, true)
    {
      ghost var before := pending;
      ExpandingCounts(before, true);
      var entry := pending[|pending| - 1];
      pending := pending[..|pending| - 1];
      var v := entry.value;
      count := count + 1;
      if count > MAX_REPORT_VALUES || entry.depth > MAX_REPORT_DEPTH
         || (v.Container() && entry.depth >= MAX_REPORT_DEPTH)
      {
        if WithinDepth(before, true) {
          LastTooDeep(before, true);
        }
        return false;
      }
      if v.Container() {
        count := count + v.Keys();
        if count + |pending| + |v.Children()| > MAX_REPORT_VALUES {
          return false;
        }
        DepthOfChildren(before, true);
        pending := pending + Pending(v, |v.Children()|, entry.depth + 1);
      } else {
        ScalarPopped(before, true);
      }
    }
    ok := true;
  }

  lemma ScalarPopped(pending: seq<Entry>, empties: bool)
    requires pending != []
    requires var last := pending[|pending| - 1]; !last.value.Container() && last.depth <= MAX_REPORT_DEPTH
    ensures Expanded(pending) == pending[..|pending| - 1]
    ensures WithinDepth(pending, empties) <==> WithinDepth(pending[..|pending| - 1], empties)
  {
    assert pending == pending[..|pending| - 1] + [pending[|pending| - 1]];
  }

  /** The reader's check of the decoded value, again with early exits. */
  method BoundedValues(data: Json) returns (ok: bool)
    ensures ok
      <==> Size(data, false) <= MAX_REPORT_VALUES && Depth(data, false) <= MAX_REPORT_DEPTH && Representable(data)
  {
    hide Size, Depth, Total, WithinDepth, Representable, AllRepresentable;
    Started(data, false, false);
    Finished(false, false);
    var pending := [Entry(data, 0)];
    var count := 0;
    while pending != []
      invariant count <= MAX_REPORT_VALUES
      invariant count + Total(pending, false) == Size(data, false)
      invariant Depth(data, false) <= MAX_REPORT_DEPTH <==> WithinDepth(pending, false)
      invariant Representable(data) <==> AllRepresentable(pending)
      decreases Total(pending, false)
    {
      ghost var before := pending;
      ExpandingCounts(before, false);
      var entry := pending[|pending| - 1];
      pending := pending[..|pending| - 1];
      var v := entry.value;
      count := count + 1;
      if count > MAX_REPORT_VALUES || entry.depth > MAX_REPORT_DEPTH {
        if WithinDepth(before, false) {
          LastTooDeep(before, false);
        }
        return false;
      }
      if v.Container() && count + |pending| + |v.Children()| > MAX_REPORT_VALUES {
        return false;
      }
      if v.Container() {
        DepthOfChildren(before, false);
        RepresentableChildren(before);
        pending := pending + Pending(v, |v.Children()|, entry.depth + 1);
      } else {
        if v.NonFinite? || (v.Integer? && !(-FLOAT_OVERFLOW < v.n < FLOAT_OVERFLOW)) {
          LastUnrepresentable(before);
          return false;
        }
        ScalarPopped(before, false);
        RepresentableChildren(before);
      }
    }
    ok := true;
  }

  lemma LastUnrepresentable(pending: seq<Entry>)
    requires pending != []
    requires var v := pending[|pending| - 1].value; v.NonFinite? || (v.Integer? && !(-FLOAT_OVERFLOW < v.n < FLOAT_OVERFLOW))
    ensures !AllRepresentable(pending)
  {
    assert !Representable(pending[|pending| - 1].value);
  }
}
