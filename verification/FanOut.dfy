/** pkg/workflow/tools.go: the fan-out of list_workflows. One goroutine per target lists its
    app and writes its own slot of a shared slice; the caller merges once all are done. */
module FanOut {
  import opened Text
  import opened AppRegistry
  import opened Listing

  datatype Problem = Problem(targets: seq<Target>, w: Answers, size: nat, token: string) {
    /** What a plain loop over the targets would put in slot i. */
    ghost function Expected(i: nat): AppListing
      requires i < |targets|
    {
      ListingOf(w, targets[i], size, token)
    }
  }

  datatype Worker =
    | NotStarted
    | Started
    | Fetching(page: Page, k: nat, listing: AppListing)
    | Computed(listing: AppListing)
    | Written
    | Done

  datatype Main = Spawning(next: nat) | Merging

  /** pending is the counter of the wait group. */
  datatype State = State(main: Main, workers: seq<Worker>, slots: seq<AppListing>, pending: nat)

  function Repeat<T>(x: T, n: nat): (r: seq<T>)
    ensures |r| == n && forall i | 0 <= i < n :: r[i] == x
  {
    if n == 0 then [] else Repeat(x, n - 1) + [x]
  }

  function Init(p: Problem): State {
    var n := |p.targets|;
    State(Spawning(0), Repeat(NotStarted, n), Repeat(NO_LISTING, n), 0)
  }

  // ----- one step of one actor: worker 0..n-1, or the caller as actor n -----

  predicate Fits(p: Problem, s: State) {
    |s.workers| == |s.slots| == |p.targets| && (s.main.Spawning? ==> s.main.next <= |p.targets|)
  }

  predicate Enabled(p: Problem, s: State, actor: nat)
    requires Fits(p, s)
  {
    var n := |p.targets|;
    if actor < n then !s.workers[actor].NotStarted? && !s.workers[actor].Done?
    else actor == n && s.main.Spawning? && (s.main.next < n || s.pending == 0)
  }

  function WorkerStep(p: Problem, i: nat, worker: Worker): Worker
    requires i < |p.targets|
  {
    match worker
    case Started =>
      (match p.w.list(p.targets[i], p.size, p.token)
       case Failure(e) => Computed(AppListing(p.targets[i].appID, [], "", 0, Some(e)))
       case Success(page) => Fetching(page, 0, AppListing(p.targets[i].appID, [], page.token, 0, None)))
    case Fetching(page, k, l) =>
      if k < |page.ids| then
        Fetching(page, k + 1, Absorb(l, page.ids[k], p.w.meta(p.targets[i], k, page.ids[k])))
      else Computed(l)
    case Computed(_) => Written
    case Written => Done
    case _ => worker
  }

  function Apply(p: Problem, s: State, actor: nat): State
    requires Fits(p, s) && Enabled(p, s, actor)
  {
    if actor < |p.targets| then
      var worker := s.workers[actor];
      s.(workers := s.workers[actor := WorkerStep(p, actor, worker)],
         slots := if worker.Computed? then s.slots[actor := worker.listing] else s.slots,
         pending := if worker.Written? && s.pending > 0 then s.pending - 1 else s.pending)
    else if s.main.next < |p.targets| then
      s.(main := Spawning(s.main.next + 1), workers := s.workers[s.main.next := Started], pending := s.pending + 1)
    else
      s.(main := Merging)
  }

  // ----- the invariant -----

  ghost predicate Running(worker: Worker) {
    !worker.NotStarted? && !worker.Done?
  }

  ghost function CountRunning(workers: seq<Worker>, n: nat): nat
    requires n <= |workers|
  {
    if n == 0 then 0 else CountRunning(workers, n - 1) + if Running(workers[n - 1]) then 1 else 0
  }

  ghost predicate WorkerInv(p: Problem, i: nat, worker: Worker, slot: AppListing)
    requires i < |p.targets|
  {
    match worker
    case NotStarted | Started => true
    case Fetching(page, k, l) =>
      && p.w.list(p.targets[i], p.size, p.token) == Success(page)
      && k <= |page.ids| && l == Partial(p.w, p.targets[i], page, k)
    case Computed(l) => l == p.Expected(i)
    case Written | Done => slot == p.Expected(i)
  }

  ghost predicate Inv(p: Problem, s: State) {
    && Fits(p, s)
    && (forall i | 0 <= i < |p.targets| :: WorkerInv(p, i, s.workers[i], s.slots[i]))
    && s.pending == CountRunning(s.workers, |s.workers|)
    && (s.main.Spawning? ==> forall i | 0 <= i < |p.targets| :: s.workers[i].NotStarted? <==> i >= s.main.next)
    && (s.main.Merging? ==> forall i | 0 <= i < |p.targets| :: s.workers[i].Done?)
  }

  lemma {:induction false} CountUpdate(workers: seq<Worker>, i: nat, worker: Worker, n: nat)
    requires i < |workers| && n <= |workers|
    ensures CountRunning(workers[i := worker], n)
         == CountRunning(workers, n)
          + if i < n then (if Running(worker) then 1 else 0) - (if Running(workers[i]) then 1 else 0) else 0
  {
    if n == 0 {
    } else {
      CountUpdate(workers, i, worker, n - 1);
    }
  }

  lemma {:induction false} CountPositive(workers: seq<Worker>, n: nat)
    requires n <= |workers|
    ensures CountRunning(workers, n) > 0 <==> exists i | 0 <= i < n :: Running(workers[i])
  {
    if n == 0 {
    } else {
      CountPositive(workers, n - 1);
    }
  }

  lemma InitInv(p: Problem)
    ensures Inv(p, Init(p))
  {
    CountPositive(Init(p).workers, |p.targets|);
  }

  lemma WorkerStepInv(p: Problem, i: nat, worker: Worker, slot: AppListing)
    requires i < |p.targets| && WorkerInv(p, i, worker, slot) && Running(worker)
    ensures WorkerInv(p, i, WorkerStep(p, i, worker), if worker.Computed? then worker.listing else slot)
    ensures Running(WorkerStep(p, i, worker)) <==> !worker.Written?
    ensures !WorkerStep(p, i, worker).NotStarted?
  {
    if worker.Fetching? && worker.k < |worker.page.ids| {
      AbsorbNext(p.w, p.targets[i], worker.page, worker.k);
    }
  }

  lemma ApplyInv(p: Problem, s: State, actor: nat)
    requires Inv(p, s) && Enabled(p, s, actor)
    ensures Inv(p, Apply(p, s, actor))
  {
    var n := |p.targets|;
    CountPositive(s.workers, n);
    if actor < n {
      WorkerStepInv(p, actor, s.workers[actor], s.slots[actor]);
      CountUpdate(s.workers, actor, WorkerStep(p, actor, s.workers[actor]), n);
      assert Running(s.workers[actor]);
    } else if s.main.next < n {
      CountUpdate(s.workers, s.main.next, Started, n);
    }
  }

  // ----- progress -----

  /** How many steps a worker has left, counting from its start. */
  ghost function WorkerLeft(p: Problem, i: nat, worker: Worker): nat
    requires i < |p.targets|
  {
    match worker
    case NotStarted | Started =>
      (match p.w.list(p.targets[i], p.size, p.token)
       case Failure(_) => 3
       case Success(page) => 4 + |page.ids|)
    case Fetching(page, k, _) => if k <= |page.ids| then 3 + |page.ids| - k else 0
    case Computed(_) => 2
    case Written => 1
    case Done => 0
  }

  ghost function WorkersLeft(p: Problem, workers: seq<Worker>, n: nat): nat
    requires n <= |workers| == |p.targets|
  {
    if n == 0 then 0 else WorkersLeft(p, workers, n - 1) + WorkerLeft(p, n - 1, workers[n - 1])
  }

  ghost function StepsLeft(p: Problem, s: State): nat
    requires Fits(p, s)
  {
    var n := |p.targets|;
    WorkersLeft(p, s.workers, n) + if s.main.Spawning? then n - s.main.next + 1 else 0
  }

  lemma {:induction false} LeftUpdate(p: Problem, workers: seq<Worker>, i: nat, worker: Worker, n: nat)
    requires i < |workers| == |p.targets| && n <= |workers|
    ensures WorkersLeft(p, workers[i := worker], n)
         == WorkersLeft(p, workers, n) + if i < n then WorkerLeft(p, i, worker) - WorkerLeft(p, i, workers[i]) else 0
  {
    if n == 0 {
    } else {
      LeftUpdate(p, workers, i, worker, n - 1);
    }
  }

  lemma {:induction false} NoneLeft(p: Problem, workers: seq<Worker>, n: nat)
    requires n <= |workers| == |p.targets|
    requires forall i | 0 <= i < n :: workers[i].Done?
    ensures WorkersLeft(p, workers, n) == 0
  {
    if n == 0 {
    } else {
      NoneLeft(p, workers, n - 1);
    }
  }

  /** Every step uses up exactly one of the steps that are left. */
  lemma ApplyProgress(p: Problem, s: State, actor: nat)
    requires Inv(p, s) && Enabled(p, s, actor)
    ensures Fits(p, Apply(p, s, actor))
    ensures StepsLeft(p, Apply(p, s, actor)) == StepsLeft(p, s) - 1
  {
    var n := |p.targets|;
    if actor < n {
      assert WorkerInv(p, actor, s.workers[actor], s.slots[actor]);
      LeftUpdate(p, s.workers, actor, WorkerStep(p, actor, s.workers[actor]), n);
    } else if s.main.next < n {
      LeftUpdate(p, s.workers, s.main.next, Started, n);
    }
  }

  /** Until the merge starts some actor can move. */
  lemma NeverStuck(p: Problem, s: State)
    requires Inv(p, s) && !s.main.Merging?
    ensures exists actor: nat | actor <= |p.targets| :: Enabled(p, s, actor)
  {
    var n := |p.targets|;
    CountPositive(s.workers, n);
    if s.main.next == n && s.pending > 0 {
      var i :| 0 <= i < n && Running(s.workers[i]);
      assert Enabled(p, s, i);
    } else {
      assert Enabled(p, s, n);
    }
  }

  // ----- whole schedules -----

  ghost predicate Legal(p: Problem, s: State, schedule: seq<nat>)
    decreases |schedule|
  {
    Fits(p, s) &&
    (schedule != [] ==>
       && Enabled(p, s, schedule[0])
       && Legal(p, Apply(p, s, schedule[0]), schedule[1..]))
  }

  ghost function Run(p: Problem, s: State, schedule: seq<nat>): State
    requires Legal(p, s, schedule)
    decreases |schedule|
  {
    if schedule == [] then s else Run(p, Apply(p, s, schedule[0]), schedule[1..])
  }

  lemma {:induction false} RunInv(p: Problem, s: State, schedule: seq<nat>)
    requires Inv(p, s) && Legal(p, s, schedule)
    ensures Inv(p, Run(p, s, schedule))
    ensures StepsLeft(p, Run(p, s, schedule)) + |schedule| == StepsLeft(p, s)
    decreases |schedule|
  {
    if schedule == [] {
    } else {
      ApplyInv(p, s, schedule[0]);
      ApplyProgress(p, s, schedule[0]);
      RunInv(p, Apply(p, s, schedule[0]), schedule[1..]);
    }
  }

  ghost predicate Agrees(p: Problem, slots: seq<AppListing>) {
    |slots| == |p.targets| && forall i | 0 <= i < |slots| :: slots[i] == p.Expected(i)
  }

  lemma MergingAgrees(p: Problem, s: State)
    requires Inv(p, s) && s.main.Merging?
    ensures Agrees(p, s.slots)
  {
    forall i | 0 <= i < |p.targets| ensures s.slots[i] == p.Expected(i) {
      assert WorkerInv(p, i, s.workers[i], s.slots[i]);
    }
  }

  /** Schedule independence: whatever the interleaving, the wait group's counter covers every worker
      that still has to be done; the merge starts only when every worker has written its slot and
      finished, nobody can move any more, the slots are those of the plain loop, and the number
      of steps taken was the same. */
  lemma EveryScheduleAgrees(p: Problem, schedule: seq<nat>)
    requires Legal(p, Init(p), schedule)
    ensures forall worker | worker in Run(p, Init(p), schedule).workers :: worker.Written? ==> Run(p, Init(p), schedule).pending > 0
    ensures var s := Run(p, Init(p), schedule);
            s.main.Merging? ==>
              && Agrees(p, s.slots)
              && Fits(p, s)
              && (forall i | 0 <= i < |p.targets| :: s.workers[i].Done?)
              && (forall actor: nat :: !Enabled(p, s, actor))
              && |schedule| == StepsLeft(p, Init(p))
  {
    InitInv(p);
    RunInv(p, Init(p), schedule);
    var s := Run(p, Init(p), schedule);
    CountPositive(s.workers, |s.workers|);
    if s.main.Merging? {
      NoneLeft(p, s.workers, |p.targets|);
      MergingAgrees(p, s);
    }
  }

  /** No deadlock, and no infinite schedule: a legal schedule that has not reached the merge
      can be extended, and it is shorter than the total number of steps. */
  lemma EveryScheduleCanFinish(p: Problem, schedule: seq<nat>)
    requires Legal(p, Init(p), schedule)
    requires !Run(p, Init(p), schedule).main.Merging?
    ensures var s := Run(p, Init(p), schedule);
            Fits(p, s) && exists actor: nat | actor <= |p.targets| :: Enabled(p, s, actor)
    ensures |schedule| < StepsLeft(p, Init(p))
  {
    InitInv(p);
    RunInv(p, Init(p), schedule);
    NeverStuck(p, Run(p, Init(p), schedule));
  }

  /** One step of one actor, on the shared slices. */
  method Act(p: Problem, workers: array<Worker>, slots: array<AppListing>, main: Main, pending: nat, actor: nat)
    returns (main': Main, pending': nat)
    requires Fits(p, State(main, workers[..], slots[..], pending))
    requires Enabled(p, State(main, workers[..], slots[..], pending), actor)
    modifies workers, slots
    ensures State(main', workers[..], slots[..], pending') == Apply(p, State(main, old(workers[..]), old(slots[..]), pending), actor)
  {
    main', pending' := main, pending;
    if actor < |p.targets| {
      var worker := workers[actor];
      if worker.Computed? {
        slots[actor] := worker.listing;
      }
      if worker.Written? && pending > 0 {
        pending' := pending - 1;
      }
      workers[actor] := WorkerStep(p, actor, worker);
    } else if main.next < |p.targets| {
      pending' := pending + 1;
      workers[main.next] := Started;
      main' := Spawning(main.next + 1);
    } else {
      main' := Merging;
    }
  }

  /** The fan-out itself: the scheduler picks any actor that can move, and the workers write
      the shared slice in place. */
  method ListAll(p: Problem) returns (listings: seq<AppListing>)
    ensures Agrees(p, listings)
  {
    var n := |p.targets|;
    var workers, slots := new Worker[n], new AppListing[n];
    forall i | 0 <= i < n {
      workers[i] := NotStarted;
    }
    forall i | 0 <= i < n {
      slots[i] := NO_LISTING;
    }
    var main, pending := Spawning(0), 0;
    InitInv(p);
    assert State(main, workers[..], slots[..], pending) == Init(p);
    while !main.Merging?
      invariant Inv(p, State(main, workers[..], slots[..], pending))
      decreases StepsLeft(p, State(main, workers[..], slots[..], pending))
    {
      ghost var s := State(main, workers[..], slots[..], pending);
      NeverStuck(p, s);
      var actor: nat :| actor <= n && Enabled(p, State(main, workers[..], slots[..], pending), actor);
      ApplyInv(p, s, actor);
      ApplyProgress(p, s, actor);
      main, pending := Act(p, workers, slots, main, pending, actor);
    }
    MergingAgrees(p, State(main, workers[..], slots[..], pending));
    listings := slots[..];
  }
}
