/** Moving old objects between buckets with workers that share one list
    (src/lambda_funcs/tiering_between_buckets.js). Code between two awaits is one step. */
module MoveWorkers {
  import opened Bytes

  /** An object of a listing: its key and when it was last modified, in milliseconds. */
  datatype Obj = Obj(key: string, modified: int)

  // ---------------------------------------------------------- selecting

  predicate Old(o: Obj, now: int, seconds: int) { now - o.modified >= seconds * 1000 }

  predicate Sorted(objects: seq<Obj>) {
    forall i, j :: 0 <= i < j < |objects| ==> objects[i].modified <= objects[j].modified
  }

  function OldOnes(objects: seq<Obj>, now: int, seconds: int): seq<Obj> {
    if objects == [] then []
    else
      var front := OldOnes(objects[..|objects| - 1], now, seconds);
      if Old(objects[|objects| - 1], now, seconds) then front + [objects[|objects| - 1]] else front
  }

  lemma {:induction false} OldOnesMembers(objects: seq<Obj>, now: int, seconds: int, o: Obj)
    ensures multiset(OldOnes(objects, now, seconds))[o] == if Old(o, now, seconds) then multiset(objects)[o] else 0
  {
    if objects == [] {
    } else {
      var front, last := objects[..|objects| - 1], objects[|objects| - 1];
      OldOnesMembers(front, now, seconds, o);
      assert objects == front + [last];
    }
  }

  lemma {:induction false} NoOldAfter(objects: seq<Obj>, now: int, seconds: int, n: nat)
    requires Sorted(objects) && n < |objects| && !Old(objects[n], now, seconds)
    ensures OldOnes(objects, now, seconds) == OldOnes(objects[..n], now, seconds)
    decreases |objects|
  {
    var front := objects[..|objects| - 1];
    assert !Old(objects[|objects| - 1], now, seconds);
    if n < |front| {
      assert front[..n] == objects[..n];
      NoOldAfter(front, now, seconds, n);
    }
  }

  /** Stopping at the first young object of the sorted list selects exactly the old ones of the whole list. */
  method FindObjectsToMove(all: seq<Obj>, sorted: seq<Obj>, now: int, seconds: int) returns (moveList: seq<Obj>)
    requires Sorted(sorted) && multiset(sorted) == multiset(all)
    ensures moveList == OldOnes(sorted, now, seconds)
    ensures forall o :: multiset(moveList)[o] == if now - o.modified >= seconds * 1000 then multiset(all)[o] else 0
  {
    moveList := [];
    var i := 0;
    while i < |sorted|
      invariant 0 <= i <= |sorted| && moveList == OldOnes(sorted[..i], now, seconds)
    {
      if now - sorted[i].modified < seconds * 1000 {
        NoOldAfter(sorted, now, seconds, i);
        break;
      }
      assert sorted[..i + 1][..i] == sorted[..i];
      moveList := moveList + [sorted[i]];
      i := i + 1;
    }
    assert sorted[..|sorted|] == sorted;
    forall o ensures multiset(moveList)[o] == if Old(o, now, seconds) then multiset(all)[o] else 0 {
      OldOnesMembers(sorted, now, seconds, o);
    }
  }

  // ------------------------------------------------------------- moving

  datatype Worker = AtLoop | Uploading(obj: Obj) | Deleting(obj: Obj) | Finished

  type Bucket = string

  /** `store` holds the contents of all buckets, by bucket and key. */
  datatype Job = Job(
    source: Bucket, target: Bucket, store: map<(Bucket, string), Data>,
    list: seq<Obj>, done: seq<Obj>, failed: seq<Obj>, workers: seq<Worker>)

  function Start(source: Bucket, target: Bucket, store: map<(Bucket, string), Data>,
                 selection: seq<Obj>, concur: nat): Job {
    Job(source, target, store, selection, [], [], seq(concur, _ => AtLoop))
  }

  /** Calls to the store may fail, and a failed call may still have taken effect. */
  datatype Event = Takes(w: nat) | UploadEnds(w: nat, ok: bool, tookEffect: bool)
    | DeleteEnds(w: nat, ok: bool, tookEffect: bool)

  predicate Enabled(j: Job, e: Event) {
    && e.w < |j.workers|
    && match e
       case Takes(w) => j.workers[w] == AtLoop
       case UploadEnds(w, ok, tookEffect) =>
         j.workers[w].Uploading? && (ok ==> tookEffect) && (tookEffect ==> (j.source, j.workers[w].obj.key) in j.store)
       case DeleteEnds(w, ok, tookEffect) => j.workers[w].Deleting? && (ok ==> tookEffect)
  }

  function WithWorker(j: Job, w: nat, s: Worker): Job
    requires w < |j.workers|
  {
    j.(workers := j.workers[w := s])
  }

  function Take(j: Job, w: nat): Job
    requires w < |j.workers|
  {
    if j.list == [] then WithWorker(j, w, Finished)
    else WithWorker(j, w, Uploading(j.list[0])).(list := j.list[1..])
  }

  function EndUpload(j: Job, w: nat, ok: bool, tookEffect: bool): Job
    requires Enabled(j, UploadEnds(w, ok, tookEffect))
  {
    var o := j.workers[w].obj;
    var i := if tookEffect then j.(store := j.store[(j.target, o.key) := j.store[(j.source, o.key)]]) else j;
    if ok then WithWorker(i, w, Deleting(o)) else WithWorker(i, w, AtLoop).(failed := j.failed + [o])
  }

  function EndDelete(j: Job, w: nat, ok: bool, tookEffect: bool): Job
    requires Enabled(j, DeleteEnds(w, ok, tookEffect))
  {
    var o := j.workers[w].obj;
    var i := if tookEffect then j.(store := j.store - {(j.source, o.key)}) else j;
    if ok then WithWorker(i, w, AtLoop).(done := j.done + [o]) else WithWorker(i, w, AtLoop).(failed := j.failed + [o])
  }

  function React(j: Job, e: Event): Job
    requires Enabled(j, e)
  {
    match e
    case Takes(w) => Take(j, w)
    case UploadEnds(w, ok, tookEffect) => EndUpload(j, w, ok, tookEffect)
    case DeleteEnds(w, ok, tookEffect) => EndDelete(j, w, ok, tookEffect)
  }

  // ------------------------------------------------------ conservation

  function Held(s: Worker): multiset<Obj> {
    if s.Uploading? || s.Deleting? then multiset{s.obj} else multiset{}
  }

  function InFlight(workers: seq<Worker>): multiset<Obj> {
    if workers == [] then multiset{} else InFlight(workers[..|workers| - 1]) + Held(workers[|workers| - 1])
  }

  lemma {:induction false} InFlightChange(workers: seq<Worker>, w: nat, s: Worker, o: Obj)
    requires w < |workers|
    ensures InFlight(workers[w := s])[o] + Held(workers[w])[o] == InFlight(workers)[o] + Held(s)[o]
  {
    var n := |workers| - 1;
    if w < n {
      InFlightChange(workers[..n], w, s, o);
      assert workers[w := s][..n] == workers[..n][w := s];
    } else {
      assert workers[w := s][..n] == workers[..n];
    }
  }

  /** How often an object occurs in the list, with a worker, and among the done and failed ones. */
  function Accounted(j: Job, o: Obj): nat {
    multiset(j.list)[o] + InFlight(j.workers)[o] + multiset(j.done)[o] + multiset(j.failed)[o]
  }

  lemma CountAppended(s: seq<Obj>, x: Obj, o: Obj)
    ensures multiset(s + [x])[o] == multiset(s)[o] + multiset{x}[o]
  {
  }

  lemma CountHead(s: seq<Obj>, o: Obj)
    requires s != []
    ensures multiset(s)[o] == multiset{s[0]}[o] + multiset(s[1..])[o]
  {
    assert s == [s[0]] + s[1..];
  }

  lemma TakeConserves(j: Job, w: nat, o: Obj)
    requires w < |j.workers| && j.workers[w] == AtLoop
    ensures Accounted(Take(j, w), o) == Accounted(j, o)
  {
    if j.list == [] {
      InFlightChange(j.workers, w, Finished, o);
    } else {
      InFlightChange(j.workers, w, Uploading(j.list[0]), o);
      CountHead(j.list, o);
    }
  }

  lemma UploadConserves(j: Job, w: nat, ok: bool, tookEffect: bool, o: Obj)
    requires Enabled(j, UploadEnds(w, ok, tookEffect))
    ensures Accounted(EndUpload(j, w, ok, tookEffect), o) == Accounted(j, o)
  {
    InFlightChange(j.workers, w, if ok then Deleting(j.workers[w].obj) else AtLoop, o);
    CountAppended(j.failed, j.workers[w].obj, o);
  }

  lemma DeleteConserves(j: Job, w: nat, ok: bool, tookEffect: bool, o: Obj)
    requires Enabled(j, DeleteEnds(w, ok, tookEffect))
    ensures Accounted(EndDelete(j, w, ok, tookEffect), o) == Accounted(j, o)
  {
    InFlightChange(j.workers, w, AtLoop, o);
    CountAppended(if ok then j.done else j.failed, j.workers[w].obj, o);
  }

  /** Each step moves at most one object, from one place to another. */
  lemma StepConserves(j: Job, e: Event, o: Obj)
    requires Enabled(j, e)
    ensures Accounted(React(j, e), o) == Accounted(j, o) && |React(j, e).workers| == |j.workers|
  {
    match e
    case Takes(w) => TakeConserves(j, w, o);
    case UploadEnds(w, ok, tookEffect) => UploadConserves(j, w, ok, tookEffect, o);
    case DeleteEnds(w, ok, tookEffect) => DeleteConserves(j, w, ok, tookEffect, o);
  }

  // ------------------------------------------------------- nothing lost

  /** The object is in the source as it was, or in the target with the data it had. */
  predicate Kept(j: Job, before: map<(Bucket, string), Data>, k: string)
    requires (j.source, k) in before
  {
    || ((j.source, k) in j.store && j.store[(j.source, k)] == before[(j.source, k)])
    || ((j.target, k) in j.store && j.store[(j.target, k)] == before[(j.source, k)])
  }

  predicate Copied(j: Job, before: map<(Bucket, string), Data>, k: string) {
    && (j.source, k) in before
    && (j.target, k) in j.store && j.store[(j.target, k)] == before[(j.source, k)]
  }

  ghost predicate WorkerOk(j: Job, before: map<(Bucket, string), Data>, w: nat)
    requires w < |j.workers|
  {
    j.workers[w].Deleting? ==> Copied(j, before, j.workers[w].obj.key)
  }

  /** What the source still has is as it was; objects being deleted or done are in the target, and done ones
      have left the source. */
  ghost predicate Safe(j: Job, before: map<(Bucket, string), Data>) {
    && j.source != j.target
    && (forall k :: (j.source, k) in j.store ==>
         (j.source, k) in before && j.store[(j.source, k)] == before[(j.source, k)])
    && (forall k :: (j.source, k) in before ==> Kept(j, before, k))
    && (forall w :: 0 <= w < |j.workers| ==> WorkerOk(j, before, w))
    && (forall n :: 0 <= n < |j.done| ==> Copied(j, before, j.done[n].key) && Left(j, j.done[n].key))
  }

  predicate Left(j: Job, k: string) { (j.source, k) !in j.store }

  lemma StepSafe(j: Job, before: map<(Bucket, string), Data>, e: Event)
    requires Safe(j, before) && Enabled(j, e)
    ensures Safe(React(j, e), before)
  {
    var i := React(j, e);
    assert WorkerOk(j, before, e.w);
    forall k: string | (j.source, k) in before ensures Kept(i, before, k) {
      assert Kept(j, before, k);
    }
    forall w | 0 <= w < |i.workers| ensures WorkerOk(i, before, w) {
      assert WorkerOk(j, before, w);
    }
    forall n | 0 <= n < |i.done| ensures Copied(i, before, i.done[n].key) && Left(i, i.done[n].key) {
      assert n < |j.done| ==> Copied(j, before, j.done[n].key) && Left(j, j.done[n].key);
    }
  }

  /** Nothing outside the selection is touched. */
  lemma StepTouchesOnlyHeld(j: Job, e: Event, b: Bucket, k: string)
    requires Enabled(j, e) && (j.workers[e.w].Uploading? || j.workers[e.w].Deleting? ==> j.workers[e.w].obj.key != k)
    ensures (b, k) in React(j, e).store <==> (b, k) in j.store
    ensures (b, k) in j.store ==> React(j, e).store[(b, k)] == j.store[(b, k)]
  {
  }

  // --------------------------------------------------------------- runs

  ghost predicate StepAt(run: seq<Job>, n: nat) {
    n + 1 < |run| ==> exists e :: Enabled(run[n], e) && run[n + 1] == React(run[n], e)
  }

  ghost predicate IsRun(run: seq<Job>, start: Job) {
    run != [] && run[0] == start && forall n :: 0 <= n < |run| ==> StepAt(run, n)
  }

  lemma {:induction false} StartInFlight(concur: nat)
    ensures InFlight(seq(concur, _ => AtLoop)) == multiset{}
  {
    if concur == 0 {
    } else {
      StartInFlight(concur - 1);
      assert seq(concur, _ => AtLoop)[..concur - 1] == seq(concur - 1, _ => AtLoop);
    }
  }

  ghost predicate SameAccount(i: Job, j: Job, o: Obj) {
    Accounted(i, o) == Accounted(j, o) && |i.workers| == |j.workers|
  }

  ghost predicate SameNext(run: seq<Job>, n: nat, o: Obj) {
    n + 1 < |run| ==> SameAccount(run[n], run[n + 1], o) && run[n].workers != []
  }

  lemma StepAtConserves(run: seq<Job>, n: nat, o: Obj)
    requires StepAt(run, n)
    ensures SameNext(run, n, o)
  {
    if n + 1 < |run| {
      var e :| Enabled(run[n], e) && run[n + 1] == React(run[n], e);
      StepConserves(run[n], e, o);
    }
  }

  lemma {:induction false} SameAlong(run: seq<Job>, n: nat, o: Obj)
    requires n < |run| && forall m :: 0 <= m < |run| ==> SameNext(run, m, o)
    ensures SameAccount(run[0], run[n], o) && (n > 0 ==> run[0].workers != [])
  {
    if n == 0 {
    } else {
      SameAlong(run, n - 1, o);
      assert SameNext(run, n - 1, o);
    }
  }

  lemma RunConserves(run: seq<Job>, start: Job, n: nat, o: Obj)
    requires IsRun(run, start) && n < |run|
    ensures SameAccount(start, run[n], o) && (n > 0 ==> start.workers != [])
  {
    forall m | 0 <= m < |run| ensures SameNext(run, m, o) {
      StepAtConserves(run, m, o);
    }
    SameAlong(run, n, o);
  }

  /** In every run, with any number of workers and any failures, an object is at all times as often in
      the list, with a worker, done or failed as it was selected: exactly one place for each, with
      distinct keys. */
  lemma SelectionIsAccounted(run: seq<Job>, source: Bucket, target: Bucket, store: map<(Bucket, string), Data>,
                             selection: seq<Obj>, concur: nat, n: nat, o: Obj)
    requires IsRun(run, Start(source, target, store, selection, concur)) && n < |run|
    ensures Accounted(run[n], o) == multiset(selection)[o]
  {
    RunConserves(run, Start(source, target, store, selection, concur), n, o);
    StartInFlight(concur);
  }

  /** In every run between different buckets each object of the source stays in the source or has
      arrived in the target, and the done ones have arrived and left the source. */
  lemma {:induction false} RunSafe(run: seq<Job>, source: Bucket, target: Bucket,
                                   store: map<(Bucket, string), Data>, selection: seq<Obj>, concur: nat, n: nat)
    requires IsRun(run, Start(source, target, store, selection, concur)) && n < |run| && source != target
    ensures Safe(run[n], store)
  {
    if n == 0 {
    } else {
      RunSafe(run, source, target, store, selection, concur, n - 1);
      assert StepAt(run, n - 1);
      var e :| Enabled(run[n - 1], e) && run[n] == React(run[n - 1], e);
      StepSafe(run[n - 1], store, e);
    }
  }

  // ------------------------------------------------- runs with events

  ghost predicate Stepped(run: seq<Job>, events: seq<Event>, n: nat) {
    n < |events| && n + 1 < |run| ==> Enabled(run[n], events[n]) && run[n + 1] == React(run[n], events[n])
  }

  /** A run together with its events. */
  ghost predicate IsTrace(run: seq<Job>, events: seq<Event>, start: Job) {
    |run| == |events| + 1 && run[0] == start && forall n :: 0 <= n < |events| ==> Stepped(run, events, n)
  }

  /** The objects whose upload and delete succeeded in the first n steps, in that order, or those for which
      either failed. */
  ghost function Results(run: seq<Job>, events: seq<Event>, n: nat, moved: bool): seq<Obj>
    requires n <= |events| <= |run|
  {
    if n == 0 then []
    else
      var e, j, before := events[n - 1], run[n - 1], Results(run, events, n - 1, moved);
      if Enabled(j, e) && !e.Takes? && (if moved then e.DeleteEnds? && e.ok else !e.ok)
      then before + [j.workers[e.w].obj]
      else before
  }

  /** In every run the done list holds exactly the objects whose delete succeeded, the failed list those of which an
      upload or a delete failed, both in order, and what is left to move is the end of the selection. */
  lemma {:induction false} ListsTellResults(
      run: seq<Job>, events: seq<Event>, source: Bucket, target: Bucket, store: map<(Bucket, string), Data>,
      selection: seq<Obj>, concur: nat, n: nat)
    requires IsTrace(run, events, Start(source, target, store, selection, concur)) && n < |run|
    ensures run[n].done == Results(run, events, n, true) && run[n].failed == Results(run, events, n, false)
    ensures |run[n].list| <= |selection| && run[n].list == selection[|selection| - |run[n].list|..]
  {
    if n == 0 {
    } else {
      ListsTellResults(run, events, source, target, store, selection, concur, n - 1);
      assert Stepped(run, events, n - 1);
    }
  }

  /** A worker that takes the object of a round uploads it, then deletes it, and then is back at the loop; a failure
      brings it back at once. */
  lemma WorkersGoRound(j: Job, e: Event)
    requires Enabled(j, e)
    ensures
      var i, w := React(j, e), e.w;
      && |i.workers| == |j.workers| && (forall v :: 0 <= v < |j.workers| && v != w ==> i.workers[v] == j.workers[v])
      && (e.Takes? ==> i.workers[w] == if j.list == [] then Finished else Uploading(j.list[0]))
      && (e.UploadEnds? ==> i.workers[w] == if e.ok then Deleting(j.workers[w].obj) else AtLoop)
      && (e.DeleteEnds? ==> i.workers[w] == AtLoop)
  {
  }

  predicate AllFinished(j: Job) { forall w :: 0 <= w < |j.workers| ==> j.workers[w] == Finished }

  /** A worker finishes only when the list is empty, and the list never grows again. */
  lemma {:induction false} FinishedMeansEmpty(run: seq<Job>, start: Job, n: nat)
    requires IsRun(run, start) && n < |run| && forall w :: 0 <= w < |start.workers| ==> start.workers[w] != Finished
    ensures (exists w :: 0 <= w < |run[n].workers| && run[n].workers[w] == Finished) ==> run[n].list == []
  {
    if n == 0 {
    } else {
      FinishedMeansEmpty(run, start, n - 1);
      assert StepAt(run, n - 1);
      var e :| Enabled(run[n - 1], e) && run[n] == React(run[n - 1], e);
      if run[n - 1].list != [] {
        forall w | 0 <= w < |run[n].workers| ensures run[n].workers[w] != Finished {
          assert run[n - 1].workers[w] != Finished;
        }
      }
    }
  }

  lemma {:induction false} FinishedHoldNothing(workers: seq<Worker>)
    requires forall w :: 0 <= w < |workers| ==> workers[w] == Finished
    ensures InFlight(workers) == multiset{}
  {
    if workers == [] {
    } else {
      FinishedHoldNothing(workers[..|workers| - 1]);
    }
  }

  /** When all workers have finished, the done and the failed objects are the selection, each as often as
      it was selected, exactly if there was a worker at all or nothing to move. */
  lemma EndIsPermutation(run: seq<Job>, source: Bucket, target: Bucket,
                         store: map<(Bucket, string), Data>, selection: seq<Obj>, concur: nat, n: nat)
    requires IsRun(run, Start(source, target, store, selection, concur)) && n < |run| && AllFinished(run[n])
    ensures multiset(run[n].done + run[n].failed) == multiset(selection) <==> concur > 0 || selection == []
  {
    var j := run[n];
    forall o ensures Accounted(j, o) == multiset(selection)[o] {
      SelectionIsAccounted(run, source, target, store, selection, concur, n, o);
    }
    RunConserves(run, Start(source, target, store, selection, concur), n, Obj("", 0));
    FinishedHoldNothing(j.workers);
    if concur > 0 {
      assert j.workers[0] == Finished;
      FinishedMeansEmpty(run, Start(source, target, store, selection, concur), n);
      assert multiset(j.done + j.failed) == multiset(selection) by {
        forall o ensures multiset(j.done + j.failed)[o] == multiset(selection)[o] {
          assert Accounted(j, o) == multiset(selection)[o];
        }
      }
    } else {
      assert n == 0;
      assert selection != [] ==> selection[0] in multiset(selection);
    }
  }

  /** A move that completes keeps its object exactly if the buckets are different: moving within a bucket
      deletes what it just wrote. */
  lemma MoveKeepsIffDifferent(j: Job, w: nat)
    requires Enabled(j, UploadEnds(w, true, true))
    ensures
      var uploaded := EndUpload(j, w, true, true);
      && Enabled(uploaded, DeleteEnds(w, true, true))
      && var moved, k := EndDelete(uploaded, w, true, true), j.workers[w].obj.key;
         (j.source, k) in moved.store || (j.target, k) in moved.store <==> j.source != j.target
  {
  }

  // -------------------------------------------------------- the object

  class MoveJob {
    const source: Bucket
    const target: Bucket
    var store: map<(Bucket, string), Data>
    var moveList: seq<Obj>
    var doneList: seq<Obj>
    var failList: seq<Obj>
    var workers: seq<Worker>

    ghost function View(): Job
      reads this
    {
      Job(source, target, store, moveList, doneList, failList, workers)
    }

    constructor (source: Bucket, target: Bucket, store: map<(Bucket, string), Data>, selection: seq<Obj>, concur: nat)
      ensures View() == Start(source, target, store, selection, concur)
    {
      this.source, this.target, this.store := source, target, store;
      moveList, doneList, failList, workers := selection, [], [], seq(concur, _ => AtLoop);
    }

    /** The head of a worker's loop. */
    method TakeNext(w: nat)
      requires w < |workers|
      modifies this
      ensures View() == Take(old(View()), w)
    {
      if moveList == [] {
        workers := workers[w := Finished];
        return;
      }
      var obj := moveList[0];
      moveList := moveList[1..];
      workers := workers[w := Uploading(obj)];
    }

    method OnUpload(w: nat, ok: bool, tookEffect: bool)
      requires Enabled(View(), UploadEnds(w, ok, tookEffect))
      modifies this
      ensures View() == EndUpload(old(View()), w, ok, tookEffect)
    {
      var obj := workers[w].obj;
      if tookEffect {
        store := store[(target, obj.key) := store[(source, obj.key)]];
      }
      if ok {
        workers := workers[w := Deleting(obj)];
      } else {
        failList := failList + [obj];
        workers := workers[w := AtLoop];
      }
    }

    method OnDelete(w: nat, ok: bool, tookEffect: bool)
      requires Enabled(View(), DeleteEnds(w, ok, tookEffect))
      modifies this
      ensures View() == EndDelete(old(View()), w, ok, tookEffect)
    {
      var obj := workers[w].obj;
      if tookEffect {
        store := store - {(source, obj.key)};
      }
      if ok {
        doneList := doneList + [obj];
      } else {
        failList := failList + [obj];
      }
      workers := workers[w := AtLoop];
    }
  }
}
