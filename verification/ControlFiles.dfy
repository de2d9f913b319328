/**
 Start-up and removal of the local agent over its control files: a permanent
 fence the system releases when its holder dies, a journal lock, and a durable
 removal intent. Any number of servers and removers interleave, one file
 operation a step, and any of them may die between two operations.
 */
module ControlFiles {
  import opened Wrappers

  datatype Journal = Journal(stateId: int, content: int)

  /** SHA-256 of a journal file: different files have different digests. */
  datatype Digest = Sha256(of: Journal)

  datatype Intent = Intent(stateId: int, journal: Digest)

  datatype Files = Files(credential: bool, journal: Option<Journal>, lock: bool, intent: Option<Intent>)
  {
    predicate Gone() {
      !credential && journal.None? && !lock && intent.None?
    }
  }

  /** Where a process stands; what it holds in memory goes with it. */
  datatype Stage =
    // a server: past the fence, past the intent check, with a credential, with the journal lock, serving
    | Starting | SFenced | SChecked | SSecret | SLocked | Serving
    // a remover: past the fence, with what it read, matched, locked, cleared of survivors, then unlinking in order
    | Removing(apply: bool) | RFenced(apply: bool) | RRead(apply: bool, found: Option<Intent>)
    | RMatched(apply: bool, found: Option<Intent>) | RLocked(apply: bool, found: Option<Intent>)
    | RCleared(found: Option<Intent>) | RNoted | RUnlock | RUnjournal | RUnintend
    | Ended
  {
    predicate Fenced() {
      !Starting? && !Removing? && !Ended?
    }

    predicate Locked() {
      SLocked? || Serving? || RLocked? || RCleared? || RNoted?
    }

    /** A server that found no removal intent. */
    predicate Admitted() {
      SChecked? || SSecret? || SLocked? || Serving?
    }

    predicate Deleting() {
      RNoted? || RUnlock? || RUnjournal? || RUnintend?
    }
  }

  datatype World = World(files: Files, actors: map<int, Stage>, fence: Option<int>, locker: Option<int>)

  /** What the system and the other files answer: whether the check at this step passes, and what a server writes. */
  datatype Choice = Choice(ok: bool, newId: int, content: int)

  datatype Event = Spawn(stage: Stage) | Advance(choice: Choice) | Die

  function At(w: World, a: int, stage: Stage): World {
    w.(actors := w.actors[a := stage])
  }

  /** A process is over: its locks are the system's again. */
  function Leave(w: World, a: int): World {
    World(w.files, w.actors[a := Ended],
          if w.fence == Some(a) then None else w.fence,
          if w.locker == Some(a) then None else w.locker)
  }

  /** One operation of a server, in the order of its constructor and its serve loop. */
  function ServerStep(w: World, a: int, c: Choice): World
    requires a in w.actors
  {
    match w.actors[a]
    case Starting => if w.fence.None? && c.ok then At(w, a, SFenced).(fence := Some(a)) else Leave(w, a)
    case SFenced => if w.files.intent.Some? then Leave(w, a) else At(w, a, SChecked)
    case SChecked => if c.ok then At(w, a, SSecret).(files := w.files.(credential := true)) else Leave(w, a)
    case SSecret =>
      if w.locker.None? && c.ok then At(w, a, SLocked).(files := w.files.(lock := true), locker := Some(a))
      else Leave(w, a)
    case SLocked =>
      // The registry writes its interruption state: an existing journal keeps its identity.
      if c.ok then At(w, a, Serving).(files := w.files.(journal := Some(Written(w.files, c)))) else Leave(w, a)
    case Serving =>
      if c.ok then w.(files := w.files.(journal := Some(Written(w.files, c)))) else Leave(w, a)
    case _ => w
  }

  function Written(f: Files, c: Choice): Journal {
    Journal(if f.journal.Some? then f.journal.value.stateId else c.newId, c.content)
  }

  function IntentFor(j: Journal): Intent {
    Intent(j.stateId, Sha256(j))
  }

  /** One operation of a remover. */
  function RemoverStep(w: World, a: int, c: Choice): World
    requires a in w.actors
  {
    var f := w.files;
    match w.actors[a]
    case Removing(apply) =>
      if f.Gone() then Leave(w, a)
      else if w.fence.None? && c.ok then At(w, a, RFenced(apply)).(fence := Some(a))
      else Leave(w, a)
    case RFenced(apply) => if c.ok then At(w, a, RRead(apply, f.intent)) else Leave(w, a)
    case RRead(apply, found) =>
      if f.journal.Some? then
        if found.Some? && found.value != IntentFor(f.journal.value) then Leave(w, a)
        else At(w, a, RMatched(apply, found))
      else if found.None? then Leave(w, a)
      else if apply then At(w, a, RUnlock) else Leave(w, a)
    case RMatched(apply, found) =>
      if w.locker.Some? || !c.ok || (!f.lock && !apply) then Leave(w, a)
      else At(w, a, RLocked(apply, found)).(files := f.(lock := true), locker := Some(a))
    case RLocked(apply, found) =>
      if c.ok && apply then At(w, a, RCleared(found)) else Leave(w, a)
    case RCleared(found) =>
      if found.Some? then At(w, a, RNoted)
      else if c.ok && f.journal.Some? then At(w, a, RNoted).(files := f.(intent := Some(IntentFor(f.journal.value))))
      else Leave(w, a)
    case RNoted => At(w, a, RUnlock).(files := f.(credential := false), locker := None)
    case RUnlock => At(w, a, RUnjournal).(files := f.(lock := false))
    case RUnjournal => At(w, a, RUnintend).(files := f.(journal := None))
    case RUnintend => Leave(w.(files := f.(intent := None)), a)
    case _ => w
  }

  function Step(w: World, a: int, e: Event): World {
    match e
    case Spawn(stage) =>
      if a !in w.actors && (stage.Starting? || stage.Removing?) then At(w, a, stage) else w
    case Die => if a in w.actors then Leave(w, a) else w
    case Advance(c) => if a in w.actors then RemoverStep(ServerStep(w, a, c), a, c) else w
  }

  /** What a process past the fence may count on, given where it stands. */
  ghost predicate Stands(stage: Stage, f: Files) {
    && (stage.Admitted() ==> f.intent.None?)
    && (stage.RRead? || stage.RMatched? || stage.RLocked? || stage.RCleared? ==> stage.found == f.intent)
    && (stage.RMatched? || stage.RLocked? || stage.RCleared? || stage.RNoted? ==> f.journal.Some?)
    && (stage.Deleting() ==> f.intent.Some?)
    && (stage.RUnlock? || stage.RUnjournal? || stage.RUnintend? ==> !f.credential)
    && (stage.RUnjournal? || stage.RUnintend? ==> !f.lock)
    && (stage.RUnintend? ==> f.journal.None?)
  }

  /** A durable intent matches the journal it was written for; without that journal only the intent is left. */
  ghost predicate IntentHonest(f: Files) {
    f.intent.Some? ==>
      if f.journal.Some? then f.intent.value == IntentFor(f.journal.value) else !f.credential && !f.lock
  }

  ghost predicate Inv(w: World) {
    && (forall a | a in w.actors :: w.actors[a].Fenced() <==> w.fence == Some(a))
    && (forall a | a in w.actors :: w.actors[a].Locked() <==> w.locker == Some(a))
    && (w.fence.Some? ==> w.fence.value in w.actors) && (w.locker.Some? ==> w.locker.value in w.actors)
    && (forall a | a in w.actors && w.actors[a].Fenced() :: Stands(w.actors[a], w.files))
    && IntentHonest(w.files)
  }

  /** Start-up and removal never overlap: at most one process is past the fence. */
  lemma Exclusive(w: World, a: int, b: int)
    requires Inv(w) && a in w.actors && b in w.actors && w.actors[a].Fenced() && w.actors[b].Fenced()
    ensures a == b
  {
  }

  /** The process past the fence may change files and stages as long as it keeps to where it stands. */
  lemma MoveKeeps(w: World, a: int, next: World)
    requires Inv(w) && a in w.actors && a in next.actors && next.actors == w.actors[a := next.actors[a]]
    requires next.fence == if next.actors[a].Fenced() then Some(a) else if w.fence == Some(a) then None else w.fence
    requires next.locker == if next.actors[a].Locked() then Some(a) else if w.locker == Some(a) then None else w.locker
    requires next.actors[a].Fenced() ==> w.fence.None? || w.fence == Some(a)
    requires next.actors[a].Locked() ==> w.locker.None? || w.locker == Some(a)
    requires next.files != w.files ==> w.fence == Some(a)
    requires IntentHonest(next.files) && (next.actors[a].Fenced() ==> Stands(next.actors[a], next.files))
    ensures Inv(next)
  {
    forall b | b in next.actors && b != a
      ensures next.actors[b].Fenced() <==> next.fence == Some(b)
      ensures next.actors[b].Locked() <==> next.locker == Some(b)
      ensures next.actors[b].Fenced() ==> Stands(next.actors[b], next.files)
    {
      assert b in w.actors && w.actors[b] == next.actors[b];
    }
  }

  lemma ServerStepKeeps(w: World, a: int, c: Choice)
    requires Inv(w) && a in w.actors
    ensures Inv(ServerStep(w, a, c))
  {
    if ServerStep(w, a, c) != w {
      assert w.actors[a].Fenced() ==> Stands(w.actors[a], w.files);
      MoveKeeps(w, a, ServerStep(w, a, c));
    }
  }

  lemma RemoverChecksKeep(w: World, a: int, c: Choice)
    requires Inv(w) && a in w.actors && !w.actors[a].Deleting()
    ensures Inv(RemoverStep(w, a, c))
  {
    if RemoverStep(w, a, c) != w {
      assert w.actors[a].Fenced() ==> Stands(w.actors[a], w.files);
      MoveKeeps(w, a, RemoverStep(w, a, c));
    }
  }

  lemma RemoverDeletionsKeep(w: World, a: int, c: Choice)
    requires Inv(w) && a in w.actors && w.actors[a].Deleting()
    ensures Inv(RemoverStep(w, a, c))
  {
    assert Stands(w.actors[a], w.files);
    MoveKeeps(w, a, RemoverStep(w, a, c));
  }

  lemma StepKeeps(w: World, a: int, e: Event)
    requires Inv(w)
    ensures Inv(Step(w, a, e))
  {
    if e.Advance? && a in w.actors {
      ServerStepKeeps(w, a, e.choice);
      var served := ServerStep(w, a, e.choice);
      if served.actors[a].Deleting() {
        RemoverDeletionsKeep(served, a, e.choice);
      } else {
        RemoverChecksKeep(served, a, e.choice);
      }
    } else if Step(w, a, e) != w {
      var next := Step(w, a, e);
      if e.Die? {
        MoveKeeps(w, a, next);
      } else {
        assert forall b | b in w.actors :: next.actors[b] == w.actors[b];
      }
    }
  }

  /** The intent disappears in one step only: a remover's last, with credential, lock and journal already gone. */
  lemma IntentVanishesLast(w: World, a: int, e: Event)
    requires Inv(w) && w.files.intent.Some? && Step(w, a, e).files.intent.None?
    ensures a in w.actors && w.actors[a].RUnintend? && Step(w, a, e).files.Gone()
  {
    assert e.Advance? && a in w.actors;
    assert w.actors[a].Fenced() ==> Stands(w.actors[a], w.files);
  }

  /** While an intent is durable no server is admitted. */
  lemma IntentBars(w: World, a: int)
    requires Inv(w) && w.files.intent.Some? && a in w.actors
    ensures !w.actors[a].Admitted()
  {
    assert w.actors[a].Fenced() ==> Stands(w.actors[a], w.files);
  }

  /** A run: each world follows from the one before by one event of one process. */
  datatype Turn = Turn(actor: int, event: Event)

  function Run(w: World, turns: seq<Turn>): World {
    if turns == [] then w
    else Step(Run(w, turns[..|turns| - 1]), turns[|turns| - 1].actor, turns[|turns| - 1].event)
  }

  lemma {:induction false} RunKeeps(w: World, turns: seq<Turn>)
    requires Inv(w)
    ensures Inv(Run(w, turns))
  {
    if turns != [] {
      RunKeeps(w, turns[..|turns| - 1]);
      StepKeeps(Run(w, turns[..|turns| - 1]), turns[|turns| - 1].actor, turns[|turns| - 1].event);
    }
  }

  /**
   In every run from a sound world: if the intent is there at n and a server has
   got past the fence check at m, then a removal finished in between, and at
   that moment all four files were gone.
   */
  lemma {:induction false} AdmittedOnlyAfterRemoval(w: World, turns: seq<Turn>, n: nat, m: nat, server: int)
    returns (k: nat)
    requires Inv(w) && n <= m <= |turns|
    requires Run(w, turns[..n]).files.intent.Some?
    requires server in Run(w, turns[..m]).actors && Run(w, turns[..m]).actors[server].Admitted()
    ensures n < k <= m && Run(w, turns[..k]).files.Gone()
  {
    RunKeeps(w, turns[..m]);
    if Run(w, turns[..m]).files.intent.Some? {
      IntentBars(Run(w, turns[..m]), server);
    }
    k := m;
    while true
      invariant n < k <= m && Run(w, turns[..k]).files.intent.None?
      decreases k
    {
      var before := Run(w, turns[..k - 1]);
      assert turns[..k][..k - 1] == turns[..k - 1];
      if before.files.intent.Some? {
        RunKeeps(w, turns[..k - 1]);
        IntentVanishesLast(before, turns[k - 1].actor, turns[k - 1].event);
        return;
      }
      k := k - 1;
    }
  }

  /** A remover left alone, with every check passing: no survivors, nothing refused. */
  function Alone(w: World, a: int, steps: nat): (r: World)
    ensures a in w.actors ==> a in r.actors
    decreases steps
  {
    if steps == 0 then w else Alone(Step(w, a, Advance(Choice(true, 0, 0))), a, steps - 1)
  }

  /** How many operations an explicit removal has left at most. */
  function Left(stage: Stage): nat {
    match stage
    case Removing(_) => 10 case RFenced(_) => 9 case RRead(_, _) => 8 case RMatched(_, _) => 7
    case RLocked(_, _) => 6 case RCleared(_) => 5 case RNoted => 4 case RUnlock => 3 case RUnjournal => 2
    case RUnintend => 1 case _ => 0
  }

  /** The remover can finish: it has authority and whatever lock it still needs. */
  ghost predicate CanFinish(w: World, a: int) {
    && Inv(w) && a in w.actors
    && (w.fence.None? || w.fence == Some(a)) && (w.locker.None? || w.locker == Some(a))
    && var stage := w.actors[a];
       if stage.Ended? then w.files.Gone()
       else
         && Left(stage) > 0
         && (stage.Removing? || stage.RFenced? || stage.RRead? || stage.RMatched? || stage.RLocked? ==> stage.apply)
         && (w.files.intent.Some? || w.files.journal.Some? || (stage.Removing? && w.files.Gone()))
  }

  lemma {:induction false} Finishes(w: World, a: int, steps: nat)
    requires CanFinish(w, a) && Left(w.actors[a]) <= steps
    ensures Alone(w, a, steps).files.Gone() && Alone(w, a, steps).actors[a].Ended?
    decreases steps
  {
    if steps > 0 {
      var next := Step(w, a, Advance(Choice(true, 0, 0)));
      NearerEnd(w, a);
      hide CanFinish, Step, Left, Files.Gone;
      Finishes(next, a, steps - 1);
    }
  }

  lemma NearerEnd(w: World, a: int)
    requires CanFinish(w, a)
    ensures var next := Step(w, a, Advance(Choice(true, 0, 0)));
      CanFinish(next, a) && (Left(w.actors[a]) > 0 ==> Left(next.actors[a]) < Left(w.actors[a]))
        && (Left(w.actors[a]) == 0 ==> Left(next.actors[a]) == 0)
  {
    StepKeeps(w, a, Advance(Choice(true, 0, 0)));
    assert w.actors[a].Fenced() ==> Stands(w.actors[a], w.files);
  }

  /**
   From every crash point of a removal that wrote its intent, and from every
   stopped agent's files, a retry passes its digest check and removes everything.
   */
  lemma RetryCompletes(w: World, a: int)
    requires Inv(w) && w.fence.None? && w.locker.None?
    requires a in w.actors && w.actors[a] == Removing(true)
    requires w.files.intent.Some? || w.files.journal.Some?
    ensures Alone(w, a, 10).files.Gone() && Alone(w, a, 10).actors[a].Ended?
  {
    Finishes(w, a, 10);
  }

  /** A remover that finds neither intent nor journal has no authority: whatever is answered, it changes nothing. */
  lemma NoAuthorityNoChange(w: World, a: int, c: Choice)
    requires Inv(w) && a in w.actors && w.files.intent.None? && w.files.journal.None?
    requires w.actors[a].Removing? || w.actors[a].RFenced? || w.actors[a].RRead?
    ensures var next := Step(w, a, Advance(c));
      next.files == w.files && (next.actors[a].RFenced? || next.actors[a].RRead? || next.actors[a].Ended?)
  {
    assert w.actors[a].Fenced() ==> Stands(w.actors[a], w.files);
  }
}
