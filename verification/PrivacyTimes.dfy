/**
 Time in a redacted report: every place where the schema permits a time shows its
 moment moved by the same amount, in the same order of the walk.
 */
module PrivacyTimes {

  import opened Wrappers
  import opened Privacy

  /** A place for a time, written as a date or as a number, and the moment it shows, if any. */
  datatype Moment = Moment(iso: bool, at: Option<real>)

  function LeafMoments(v: Json, leaf: Leaf): seq<Moment> {
    if leaf == TimeLeaf then [Moment(false, if v.Numeric() then Some(v.Number()) else None)]
    else if leaf == IsoLeaf then [Moment(true, if v.IsoText? then Some(v.at) else None)]
    else []
  }

  /** Every place for a time that the schema permits in a value, in the order of the walk. */
  function Moments(v: Json, spec: Spec): seq<Moment>
    decreases v, |v.Children()| + 1
  {
    if spec.Plain? then LeafMoments(v, spec.leaf)
    else if Fits(v, spec) then MomentsOfFirst(v, spec, |v.Children()|)
    else []
  }

  function MomentsOfFirst(v: Json, spec: Spec, n: nat): seq<Moment>
    decreases v, n
  {
    if n == 0 || n > |v.Children()| then []
    else
      MomentsOfFirst(v, spec, n - 1)
      + match ChildSpec(v, spec, n - 1)
        case None => []
        case Some(child) => Moments(v.Children()[n - 1], child)
  }

  /** A moment after the shift; one that no date can be written for is lost where a date stood. */
  function Moved(m: Moment, t: Tables): Moment {
    if m.at.Some? && (m.iso ==> Writable(Shifted(t, m.at.value))) then m.(at := Some(Shifted(t, m.at.value)))
    else m.(at := None)
  }

  function AllMoved(ms: seq<Moment>, t: Tables): (r: seq<Moment>)
    ensures |r| == |ms| && forall i | 0 <= i < |r| :: r[i] == Moved(ms[i], t)
  {
    seq(|ms|, i requires 0 <= i < |ms| => Moved(ms[i], t))
  }

  lemma MovedConcat(a: seq<Moment>, b: seq<Moment>, t: Tables)
    ensures AllMoved(a + b, t) == AllMoved(a, t) + AllMoved(b, t)
  {
  }

  /** What is left of a value shows the moments of the value, moved; what is dropped had no place for any. */
  ghost predicate MovesTo(v: Json, o: Option<Json>, spec: Spec, t: Tables) {
    match o
    case None => Moments(v, spec) == []
    case Some(w) => Moments(w, spec) == AllMoved(Moments(v, spec), t)
  }

  lemma {:induction false} PureMoves(v: Json, spec: Spec, parent: Option<Fields>, t: Tables)
    ensures MovesTo(v, Pure(v, spec, parent, t), spec, t)
    decreases v, |v.Children()| + 1
  {
    if spec.Plain? {
      LeafMoves(v, spec.leaf, parent, t);
    } else if Fits(v, spec) {
      var n := |v.Children()|;
      var kept := PureOfFirst(v, spec, n, t);
      KeptKeys(v, spec, n, t);
      RebuiltChildren(v, kept);
      FirstMoves(v, spec, n, Rebuilt(v, kept), t);
    } else {
      assert AllMoved([], t) == [];
    }
  }

  lemma LeafMoves(v: Json, leaf: Leaf, parent: Option<Fields>, t: Tables)
    ensures MovesTo(v, LeafPure(v, leaf, parent, t), Plain(leaf), t)
  {
    hide NumberIn, PidOf, PidNumber, IdNumber, ParentPid;
    var o := LeafPure(v, leaf, parent, t);
    if leaf != TimeLeaf && leaf != IsoLeaf {
      assert AllMoved([], t) == [];
    } else {
      assert o.Some?;
      assert LeafMoments(o.value, leaf)[0] == Moved(LeafMoments(v, leaf)[0], t);
    }
  }

  lemma {:induction false} FirstMoves(v: Json, spec: Spec, n: nat, o: Json, t: Tables)
    requires Fits(v, spec) && n <= |v.Children()| && o == Rebuilt(v, PureOfFirst(v, spec, |v.Children()|, t))
    ensures Fits(o, spec) && |PureOfFirst(v, spec, n, t)| <= |o.Children()|
    ensures MomentsOfFirst(o, spec, |PureOfFirst(v, spec, n, t)|) == AllMoved(MomentsOfFirst(v, spec, n), t)
    decreases v, n
  {
    hide *;
    RebuiltHolds(v, spec, n, t);
    if n == 0 {
      NothingMoves(v, spec, o, t);
    } else {
      FirstMoves(v, spec, n - 1, o, t);
      var child := ChildSpec(v, spec, n - 1);
      if child.Some? {
        PureMoves(v.Children()[n - 1], child.value, v.AsParent(), t);
      }
      NextMoves(v, spec, n, o, t);
    }
  }

  lemma NothingMoves(v: Json, spec: Spec, o: Json, t: Tables)
    ensures MomentsOfFirst(o, spec, |PureOfFirst(v, spec, 0, t)|) == AllMoved(MomentsOfFirst(v, spec, 0), t)
  {
    assert AllMoved([], t) == [];
  }

  lemma NextMoves(v: Json, spec: Spec, n: nat, o: Json, t: Tables)
    requires Fits(v, spec) && Fits(o, spec) && 0 < n <= |v.Children()|
    requires PureOfFirst(v, spec, n, t) <= PureOfFirst(v, spec, |v.Children()|, t)
    requires Holds(o, PureOfFirst(v, spec, |v.Children()|, t))
    requires |PureOfFirst(v, spec, n - 1, t)| <= |o.Children()|
    requires MomentsOfFirst(o, spec, |PureOfFirst(v, spec, n - 1, t)|) == AllMoved(MomentsOfFirst(v, spec, n - 1), t)
    requires ChildSpec(v, spec, n - 1).Some? ==>
      var child := ChildSpec(v, spec, n - 1).value;
      MovesTo(v.Children()[n - 1], Pure(v.Children()[n - 1], child, v.AsParent(), t), child, t)
    ensures MomentsOfFirst(o, spec, |PureOfFirst(v, spec, n, t)|) == AllMoved(MomentsOfFirst(v, spec, n), t)
  {
    hide *;
    ChildAdds(v, spec, n, t);
    ChildShows(v, spec, n);
    var child := ChildSpec(v, spec, n - 1);
    if child.Some? {
      var x := Pure(v.Children()[n - 1], child.value, v.AsParent(), t);
      var m := |PureOfFirst(v, spec, n - 1, t)|;
      KeptMeans(v.KeyAt(n - 1), x);
      MovesToMeans(v.Children()[n - 1], x, child.value, t);
      if x.None? {
        assert MomentsOfFirst(v, spec, n - 1) + [] == MomentsOfFirst(v, spec, n - 1);
        assert PureOfFirst(v, spec, n - 1, t) + [] == PureOfFirst(v, spec, n - 1, t);
      } else {
        LastHeld(o, PureOfFirst(v, spec, |v.Children()|, t), PureOfFirst(v, spec, n, t), m, v.KeyAt(n - 1), x.value);
        SameChild(v, spec, n - 1, o, m);
        ChildShows(o, spec, m + 1);
        MovedConcat(MomentsOfFirst(v, spec, n - 1), Moments(v.Children()[n - 1], child.value), t);
      }
    }
  }

  lemma KeptMeans(key: string, x: Option<Json>)
    ensures Kept(key, x) == if x.Some? then [Field(key, x.value)] else []
  {
  }

  lemma MovesToMeans(v: Json, o: Option<Json>, spec: Spec, t: Tables)
    requires MovesTo(v, o, spec, t)
    ensures if o.None? then Moments(v, spec) == [] else Moments(o.value, spec) == AllMoved(Moments(v, spec), t)
  {
  }

  lemma LastHeld(o: Json, all: Fields, kept: Fields, m: nat, key: string, value: Json)
    requires Holds(o, all) && kept <= all && |kept| == m + 1 && kept[m] == Field(key, value)
    ensures m < |o.Children()| && o.Children()[m] == value && o.KeyAt(m) == key
  {
    assert all[m] == kept[m];
  }

  lemma ChildShows(v: Json, spec: Spec, n: nat)
    requires 0 < n <= |v.Children()|
    ensures var child := ChildSpec(v, spec, n - 1);
      MomentsOfFirst(v, spec, n) == if child.None? then MomentsOfFirst(v, spec, n - 1)
                                    else MomentsOfFirst(v, spec, n - 1) + Moments(v.Children()[n - 1], child.value)
  {
    hide Moments, ChildSpec;
    assert MomentsOfFirst(v, spec, n - 1) + [] == MomentsOfFirst(v, spec, n - 1);
  }

  // ----- What redaction adds has no place for a time -----

  /** w's first n children stand where v's do, and show the same moments. */
  lemma {:induction false} FirstAlike(v: Json, w: Json, spec: Spec, n: nat)
    requires Fits(v, spec) && Fits(w, spec) && n <= |v.Children()| && n <= |w.Children()|
    requires forall i | 0 <= i < n :: w.KeyAt(i) == v.KeyAt(i)
    requires forall i | 0 <= i < n && ChildSpec(v, spec, i).Some? ::
      Moments(w.Children()[i], ChildSpec(v, spec, i).value) == Moments(v.Children()[i], ChildSpec(v, spec, i).value)
    ensures MomentsOfFirst(w, spec, n) == MomentsOfFirst(v, spec, n)
  {
    hide Moments, ChildSpec, Fits;
    if n > 0 {
      FirstAlike(v, w, spec, n - 1);
      ChildShows(v, spec, n);
      ChildShows(w, spec, n);
      assert ChildSpec(w, spec, n - 1) == ChildSpec(v, spec, n - 1) by { SameSpec(v, w, spec, n - 1); }
    }
  }

  lemma SameSpec(v: Json, w: Json, spec: Spec, i: nat)
    requires Fits(v, spec) && Fits(w, spec) && w.KeyAt(i) == v.KeyAt(i)
    ensures ChildSpec(w, spec, i) == ChildSpec(v, spec, i)
  {
  }

  lemma {:induction false} NoMore(w: Json, spec: Spec, n: nat, m: nat)
    requires n <= m <= |w.Children()|
    requires forall i | n <= i < m && ChildSpec(w, spec, i).Some? ::
      Moments(w.Children()[i], ChildSpec(w, spec, i).value) == []
    ensures MomentsOfFirst(w, spec, m) == MomentsOfFirst(w, spec, n)
    decreases m - n
  {
    hide Moments, ChildSpec;
    if n < m {
      NoMore(w, spec, n, m - 1);
      ChildShows(w, spec, m);
      assert MomentsOfFirst(w, spec, m - 1) + [] == MomentsOfFirst(w, spec, m - 1);
    }
  }

  lemma MarkerShows(v: Json, spec: Spec, k: nat)
    requires v.Dict? && spec.Record? && "index" in spec.entries && spec.entries["index"] == Plain(CountLeaf)
    ensures Moments(Dict(Put(v.fields, "index", Int(k))), spec) == Moments(v, spec)
  {
    hide Moments, Put, Get, Lacks;
    var w := Dict(Put(v.fields, "index", Int(k)));
    var n := |v.fields|;
    PutShape(v.fields, "index", Int(k));
    forall i | 0 <= i < n && ChildSpec(v, spec, i).Some?
      ensures Moments(w.Children()[i], ChildSpec(v, spec, i).value) == Moments(v.Children()[i], ChildSpec(v, spec, i).value)
    {
      FieldShows(v.fields[i], w.fields[i], spec);
    }
    FirstAlike(v, w, spec, n);
    if |w.fields| > n {
      CountShowsNothing(w.Children()[n]);
    }
    NoMore(w, spec, n, |w.fields|);
    Contains(v, spec);
    Contains(w, spec);
  }

  lemma Contains(v: Json, spec: Spec)
    requires Fits(v, spec)
    ensures Moments(v, spec) == MomentsOfFirst(v, spec, |v.Children()|)
  {
  }

  lemma FieldShows(a: Field, b: Field, spec: Spec)
    requires spec.Record? && a.key in spec.entries && (b == a || spec.entries[a.key] == Plain(CountLeaf))
    ensures Moments(b.value, spec.entries[a.key]) == Moments(a.value, spec.entries[a.key])
  {
    CountShowsNothing(a.value);
    CountShowsNothing(b.value);
  }

  lemma CountShowsNothing(v: Json)
    ensures Moments(v, Plain(CountLeaf)) == []
  {
  }

  lemma MarkersShow(items: seq<Json>, spec: Spec)
    requires spec.ListOf? && spec.item.Record? && "index" in spec.item.entries
    requires spec.item.entries["index"] == Plain(CountLeaf) && AllDicts(items)
    ensures Moments(List(Numbering(items)), spec) == Moments(List(items), spec)
  {
    var v, w := List(items), List(Numbering(items));
    forall i | 0 <= i < |items|
      ensures Moments(w.Children()[i], spec.item) == Moments(v.Children()[i], spec.item)
    {
      MarkerShows(items[i], spec.item, i + 1);
    }
    hide Put;
    FirstAlike(v, w, spec, |items|);
  }

  lemma NumberedShows(d: Fields, schema: Spec)
    requires ReportSchema(schema) && WithMarkers(d).Some?
    ensures Moments(Dict(WithMarkers(d).value), schema) == Moments(Dict(d), schema)
  {
    match Get(d, "markers")
    case Some(List(items)) =>
      if AllDicts(items) {
        var value := List(Numbering(items));
        PutShape(d, "markers", value);
        GetConcat(d, [], "markers");
        assert d + [] == d;
        var v, w := Dict(d), Dict(Put(d, "markers", value));
        hide Put, Get;
        forall i | 0 <= i < |d| && ChildSpec(v, schema, i).Some?
          ensures Moments(w.Children()[i], ChildSpec(v, schema, i).value)
               == Moments(v.Children()[i], ChildSpec(v, schema, i).value)
        {
          if w.fields[i] != v.fields[i] {
            MarkersShow(items, schema.entries["markers"]);
          }
        }
        FirstAlike(v, w, schema, |d|);
      }
    case _ =>
  }

  lemma OwnShows(d: Fields, own: Fields, schema: Spec)
    requires ReportSchema(schema)
    requires |own| == |OWN_KEYS| && forall i | 0 <= i < |own| :: own[i].key == OWN_KEYS[i]
    ensures Moments(Dict(d + own), schema) == Moments(Dict(d), schema)
  {
    var v, w := Dict(d), Dict(d + own);
    FirstAlike(v, w, schema, |d|);
    forall i | |d| <= i < |d + own|
      ensures ChildSpec(w, schema, i).None?
    {
      assert w.KeyAt(i) == OWN_KEYS[i - |d|];
    }
    NoMore(w, schema, |d|, |d + own|);
  }

  /** Every time a redacted report shows is the time at the same place of the report, moved by the same amount. */
  lemma TimesMove(report: Json, schema: Spec, origin: real, id: string, isVersion: Json -> bool)
    requires ReportSchema(schema) && report.Dict? && Redacted(report, schema, origin, id, isVersion).Some?
    ensures var t := After(Tables([], [], origin), Calls(report, schema, None));
      t.origin == origin &&
      Moments(Dict(Redacted(report, schema, origin, id, isVersion).value), schema) == AllMoved(Moments(report, schema), t)
  {
    var calls := Calls(report, schema, None);
    var t := After(Tables([], [], origin), calls);
    AfterOrigin(calls, origin, origin);
    var n := |report.fields|;
    var d := PureOfFirst(report, schema, n, t);
    var own := Own(id, VersionOf(report.fields, isVersion));
    PureMoves(report, schema, None, t);
    PureFields(report, schema, t);
    KeptKeysPermitted(report, schema, n, t);
    OwnAppended(d, schema, id, VersionOf(report.fields, isVersion));
    OwnShape(id, VersionOf(report.fields, isVersion));
    hide Moments, Pure, PureOfFirst, PutAll, Own, Get, VersionOf, After, Calls, ReportSchema, AllMoved;
    MarkersOf(d, own);
    NumberedShows(d, schema);
    OwnShows(WithMarkers(d).value, own, schema);
  }

  /**
   Differences between times survive redaction: for two places of a report that still
   show a time, it is as long from one to the other as it was; and none is before the
   fixed date.
   */
  lemma DifferencesSurvive(report: Json, schema: Spec, origin: real, id: string, isVersion: Json -> bool, i: nat, j: nat)
    requires ReportSchema(schema) && report.Dict? && Redacted(report, schema, origin, id, isVersion).Some?
    requires i < |Moments(report, schema)| && j < |Moments(report, schema)|
    ensures var before, after := Moments(report, schema),
          Moments(Dict(Redacted(report, schema, origin, id, isVersion).value), schema);
      && |after| == |before|
      && (after[i].at.Some? ==> before[i].at.Some?) && (after[j].at.Some? ==> before[j].at.Some?)
      && (before[i].at.Some? && !before[i].iso ==> after[i].at.Some?)
      && (after[i].at.Some? && after[j].at.Some? ==>
            after[i].at.value - after[j].at.value == before[i].at.value - before[j].at.value)
      && (IsOrigin(origin, Stamps(report, schema)) && after[i].at.Some? ==> after[i].at.value >= EPOCH)
  {
    TimesMove(report, schema, origin, id, isVersion);
    if IsOrigin(origin, Stamps(report, schema)) {
      MomentsAreStamps(report, schema, i);
    }
    hide Moments, Redacted, ReportSchema, After, Calls;
  }

  lemma {:induction false} MomentsAreStamps(v: Json, spec: Spec, i: nat)
    requires i < |Moments(v, spec)|
    ensures Moments(v, spec)[i].at.Some? ==> Moments(v, spec)[i].at.value in Stamps(v, spec)
    decreases v, |v.Children()| + 1
  {
    if !spec.Plain? {
      FirstAreStamps(v, spec, |v.Children()|, i);
    }
  }

  lemma {:induction false} FirstAreStamps(v: Json, spec: Spec, n: nat, i: nat)
    requires i < |MomentsOfFirst(v, spec, n)| && n <= |v.Children()|
    ensures MomentsOfFirst(v, spec, n)[i].at.Some? ==> MomentsOfFirst(v, spec, n)[i].at.value in StampsOfFirst(v, spec, n)
    decreases v, n
  {
    var child := ChildSpec(v, spec, n - 1);
    ChildShows(v, spec, n);
    hide Moments, Stamps;
    if i < |MomentsOfFirst(v, spec, n - 1)| {
      FirstAreStamps(v, spec, n - 1, i);
    } else {
      MomentsAreStamps(v.Children()[n - 1], child.value, i - |MomentsOfFirst(v, spec, n - 1)|);
    }
  }
}
