/** The thread pool as a step system: workers, clients that add work and the one that destroys the pool
    take their steps in any order. */
module ThreadPool {
  import opened Common
  import opened JobQueue

  /** Where a worker stands in thpool_thread_do. */
  datatype Worker =
    | Check
    | Ready
    | Waiting
    | Unready
    | Recheck
    | Locking
    | Peeking
    | Removing(job: nat)
    | Unlocking(job: nat)
    | Running(job: nat)
    | Freeing(job: nat)
    | Exited

  /** Where a client stands in thpool_add_work; Idle is outside of it. */
  datatype Client =
    | Idle
    | Spawning(job: nat)
    | AwaitingLock(job: nat)
    | Linking(job: nat)
    | Posting
    | LeavingLock

  /** Where thpool_destroy stands. */
  datatype Destroyer = NotBegun | Waking(t: nat) | Joining(t: nat) | Emptying | Done

  datatype Holder = WorkerHolds(i: nat) | ClientHolds(i: nat)

  /** The shared state, and what has happened to the jobs so far.  Jobs are numbered as they are
      allocated; the queue holds the oldest first and jobsN is its length. */
  datatype Pool = Pool(
    workers: seq<Worker>, clients: seq<Client>, destroyer: Destroyer, keepalive: bool,
    lock: Option<Holder>, sem: nat, readyN: int, queue: seq<nat>,
    made: nat, added: seq<nat>, removed: seq<nat>, ran: seq<nat>, emptied: seq<nat>, freed: seq<nat>)

  datatype Action = Work(i: nat) | Call(i: nat) | BeginDestroy | Destroy

  function Repeated<T>(x: T, n: nat): (s: seq<T>)
    ensures |s| == n && forall i :: 0 <= i < n ==> s[i] == x
  {
    seq(n, _ => x)
  }

  /** thpool_init: at least one worker. */
  function Init(threadsN: int, clients: nat): Pool {
    Pool(Repeated(Check, if threadsN < 1 then 1 else threadsN), Repeated(Idle, clients), NotBegun, true,
         None, 0, 0, [], 0, [], [], [], [], [])
  }

  /** Worker i goes on to w. */
  function Move(s: Pool, i: nat, w: Worker): Pool
    requires i < |s.workers|
  {
    s.(workers := s.workers[i := w])
  }

  /** Looking whether to go on, and waiting for work. */
  predicate Looping(w: Worker) { w.Check? || w.Ready? || w.Waiting? || w.Unready? || w.Recheck? || w.Exited? }

  function LoopStep(s: Pool, i: nat): Option<Pool>
    requires i < |s.workers|
  {
    match s.workers[i]
    case Check => Some(Move(s, i, if s.keepalive then Ready else Exited))
    case Ready => Some(Move(s, i, Waiting).(readyN := s.readyN + 1))
    case Waiting => if s.sem == 0 then None else Some(Move(s, i, Unready).(sem := s.sem - 1))
    case Unready => Some(Move(s, i, Recheck).(readyN := s.readyN - 1))
    case Recheck => Some(Move(s, i, if s.keepalive then Locking else Exited))
    case _ => None
  }

  /** Taking the oldest job out of the queue, under the lock. */
  predicate Taking(w: Worker) { w.Locking? || w.Peeking? || w.Removing? || w.Unlocking? }

  function TakeStep(s: Pool, i: nat): Option<Pool>
    requires i < |s.workers|
  {
    match s.workers[i]
    case Locking => if s.lock.Some? then None else Some(Move(s, i, Peeking).(lock := Some(WorkerHolds(i))))
    case Peeking => if s.queue == [] then None else Some(Move(s, i, Removing(s.queue[0])))
    case Removing(job) =>
      Some(Move(s, i, Unlocking(job)).(
        queue := Removed(s.queue), removed := s.removed + s.queue[..if s.queue == [] then 0 else 1]))
    case Unlocking(job) => Some(Move(s, i, Running(job)).(lock := None))
    case _ => None
  }

  /** Running the job, and freeing it. */
  function ServeStep(s: Pool, i: nat): Option<Pool>
    requires i < |s.workers|
  {
    match s.workers[i]
    case Running(job) => Some(Move(s, i, Freeing(job)).(ran := s.ran + [job]))
    case Freeing(job) => Some(Move(s, i, Check).(freed := s.freed + [job]))
    case _ => None
  }

  /** One step of worker i, if it can take one.  A step that would look into an empty queue cannot be taken. */
  function WorkerStep(s: Pool, i: nat): Option<Pool>
    requires i < |s.workers|
  {
    if Looping(s.workers[i]) then LoopStep(s, i)
    else if Taking(s.workers[i]) then TakeStep(s, i)
    else ServeStep(s, i)
  }

  /** Client i goes on to c. */
  function MoveClient(s: Pool, i: nat, c: Client): Pool
    requires i < |s.clients|
  {
    s.(clients := s.clients[i := c])
  }

  /** One step of client i.  No work is added once the pool is being destroyed. */
  function ClientStep(s: Pool, i: nat): Option<Pool>
    requires i < |s.clients|
  {
    match s.clients[i]
    case Idle =>
      if s.destroyer.NotBegun? then Some(MoveClient(s, i, Spawning(s.made)).(made := s.made + 1)) else None
    case Spawning(job) =>
      Some(MoveClient(s, i, AwaitingLock(job)).(workers := if s.readyN == 0 then s.workers + [Check] else s.workers))
    case AwaitingLock(job) =>
      if s.lock.Some? then None else Some(MoveClient(s, i, Linking(job)).(lock := Some(ClientHolds(i))))
    case Linking(job) =>
      Some(MoveClient(s, i, Posting).(queue := Added(s.queue, job), added := s.added + [job]))
    case Posting => Some(MoveClient(s, i, LeavingLock).(sem := s.sem + 1))
    case LeavingLock => Some(MoveClient(s, i, Idle).(lock := None))
  }

  function DestroyStep(s: Pool): Option<Pool> {
    match s.destroyer
    case NotBegun => None
    case Waking(t) =>
      if t < |s.workers| then Some(s.(sem := s.sem + 1, destroyer := Waking(t + 1)))
        else Some(s.(destroyer := Joining(0)))
    case Joining(t) =>
      if t >= |s.workers| then Some(s.(destroyer := Emptying))
      else if s.workers[t].Exited? then Some(s.(destroyer := Joining(t + 1)))
      else None
    case Emptying =>
      if s.queue == [] then Some(s.(destroyer := Done))
      else Some(s.(queue := Removed(s.queue), emptied := s.emptied + [s.queue[0]], freed := s.freed + [s.queue[0]]))
    case Done => None
  }

  predicate AllIdle(clients: seq<Client>) { forall i :: 0 <= i < |clients| ==> clients[i].Idle? }

  function Apply(s: Pool, a: Action): Option<Pool> {
    match a
    case Work(i) => if i < |s.workers| then WorkerStep(s, i) else None
    case Call(i) => if i < |s.clients| then ClientStep(s, i) else None
    case BeginDestroy =>
      if s.destroyer.NotBegun? && AllIdle(s.clients) then Some(s.(keepalive := false, destroyer := Waking(0))) else None
    case Destroy => DestroyStep(s)
  }

  /** The state a run leads to, if every step of it can be taken. */
  function After(s: Pool, run: seq<Action>): Option<Pool> {
    if run == [] then Some(s)
    else
      match After(s, run[..|run| - 1])
      case None => None
      case Some(s') => Apply(s', run[|run| - 1])
  }

  // Counting.

  function Count<T>(ws: seq<T>, p: T -> bool): nat {
    if ws == [] then 0 else Count(ws[..|ws| - 1], p) + if p(ws[|ws| - 1]) then 1 else 0
  }

  lemma {:induction false} CountUpdate<T>(ws: seq<T>, i: nat, w: T, p: T -> bool)
    requires i < |ws|
    ensures Count(ws[i := w], p) + (if p(ws[i]) then 1 else 0) == Count(ws, p) + if p(w) then 1 else 0
    decreases |ws|
  {
    var n := |ws| - 1;
    if i < n {
      CountUpdate(ws[..n], i, w, p);
      assert ws[i := w][..n] == ws[..n][i := w];
    } else {
      assert ws[i := w][..n] == ws[..n];
    }
  }

  lemma {:induction false} CountSnoc<T>(ws: seq<T>, w: T, p: T -> bool)
    ensures Count(ws + [w], p) == Count(ws, p) + if p(w) then 1 else 0
  {
    assert (ws + [w])[..|ws|] == ws;
  }

  lemma {:induction false} CountNone<T>(ws: seq<T>, p: T -> bool)
    requires forall i :: 0 <= i < |ws| ==> !p(ws[i])
    ensures Count(ws, p) == 0
    decreases |ws|
  {
    if ws != [] {
      CountNone(ws[..|ws| - 1], p);
    }
  }

  lemma {:induction false} CountSome<T>(ws: seq<T>, p: T -> bool, i: nat)
    requires i < |ws| && p(ws[i])
    ensures Count(ws, p) >= 1
    decreases |ws|
  {
    if i < |ws| - 1 {
      CountSome(ws[..|ws| - 1], p, i);
    }
  }

  lemma {:induction false} CountAtMost<T>(ws: seq<T>, p: T -> bool)
    ensures Count(ws, p) <= |ws|
    decreases |ws|
  {
    if ws != [] {
      CountAtMost(ws[..|ws| - 1], p);
    }
  }

  function Sum<T>(ws: seq<T>, f: T -> nat): nat { if ws == [] then 0 else Sum(ws[..|ws| - 1], f) + f(ws[|ws| - 1]) }

  lemma {:induction false} SumUpdate<T>(ws: seq<T>, i: nat, w: T, f: T -> nat)
    requires i < |ws|
    ensures Sum(ws[i := w], f) + f(ws[i]) == Sum(ws, f) + f(w)
    decreases |ws|
  {
    var n := |ws| - 1;
    if i < n {
      SumUpdate(ws[..n], i, w, f);
      assert ws[i := w][..n] == ws[..n][i := w];
    } else {
      assert ws[i := w][..n] == ws[..n];
    }
  }

  lemma {:induction false} SumSnoc<T>(ws: seq<T>, w: T, f: T -> nat)
    ensures Sum(ws + [w], f) == Sum(ws, f) + f(w)
  {
    assert (ws + [w])[..|ws|] == ws;
  }

  /** How often a job occurs in a list. */
  function Times(q: seq<nat>, job: nat): nat { multiset(q)[job] }

  lemma TimesSnoc(q: seq<nat>, x: nat, job: nat)
    ensures Times(q + [x], job) == Times(q, job) + if x == job then 1 else 0
  {
  }

  // What holds in every state a run can reach.

  predicate IsReady(w: Worker) { w.Waiting? || w.Unready? }

  /** Has taken the semaphore but not yet looked whether to go on. */
  predicate HasTicket(w: Worker) { w.Unready? || w.Recheck? }

  /** Is going to remove a job. */
  predicate Committed(w: Worker) { w.Locking? || w.Peeking? || w.Removing? }

  predicate MayWait(w: Worker) { w.Ready? || w.Waiting? }

  predicate IsPosting(c: Client) { c.Posting? }

  predicate HoldsLock(w: Worker) { w.Peeking? || w.Removing? || w.Unlocking? }

  predicate ClientHoldsLock(c: Client) { c.Linking? || c.Posting? || c.LeavingLock? }

  function Carrying(job: nat): Client -> bool {
    (c: Client) => (c.Spawning? || c.AwaitingLock? || c.Linking?) && c.job == job
  }

  /** Has removed the job from the queue and not yet run it. */
  function AboutToRun(job: nat): Worker -> bool { (w: Worker) => (w.Unlocking? || w.Running?) && w.job == job }

  function AboutToFree(job: nat): Worker -> bool { (w: Worker) => w.Freeing? && w.job == job }

  /** Wake-up calls the destroyer has made. */
  function Woken(s: Pool): nat { if s.destroyer.Waking? then s.destroyer.t else |s.workers| }

  /** The semaphore and the counter. */
  predicate Accounts(s: Pool) {
    && s.readyN == Count(s.workers, IsReady)
    && (s.keepalive ==>
          |s.queue| == s.sem + Count(s.workers, HasTicket) + Count(s.workers, Committed) + Count(s.clients, IsPosting))
    && Count(s.workers, Committed) <= |s.queue|
    && (!s.keepalive ==> s.sem + |s.workers| >= Count(s.workers, MayWait) + Woken(s))
  }

  /** The mutex is held by exactly the one that is in its section. */
  predicate Exclusive(s: Pool) {
    && (forall i :: 0 <= i < |s.workers| ==> (HoldsLock(s.workers[i]) <==> s.lock == Some(WorkerHolds(i))))
    && (forall i :: 0 <= i < |s.clients| ==> (ClientHoldsLock(s.clients[i]) <==> s.lock == Some(ClientHolds(i))))
    && (s.lock.Some? && s.lock.value.WorkerHolds? ==> s.lock.value.i < |s.workers|)
    && (s.lock.Some? && s.lock.value.ClientHolds? ==> s.lock.value.i < |s.clients|)
  }

  /** A job that has been looked at is still the oldest when it is removed. */
  predicate Peeked(s: Pool) {
    forall i :: 0 <= i < |s.workers| && s.workers[i].Removing? ==> s.queue != [] && s.queue[0] == s.workers[i].job
  }

  /** Where a job is: with the client that made it, added, run, freed. */
  predicate Booked(s: Pool, job: nat) {
    && Times(s.added, job) + Count(s.clients, Carrying(job)) == (if job < s.made then 1 else 0)
    && Times(s.removed, job) == Times(s.ran, job) + Count(s.workers, AboutToRun(job))
    && Times(s.freed, job) + Count(s.workers, AboutToFree(job)) == Times(s.ran, job) + Times(s.emptied, job)
  }

  /** Jobs leave the queue in the order in which they were added, and every job is in exactly one place. */
  ghost predicate Books(s: Pool) {
    s.added == s.removed + s.emptied + s.queue && forall job: nat :: Booked(s, job)
  }

  predicate AllExited(ws: seq<Worker>, n: nat) { n <= |ws| && forall i :: 0 <= i < n ==> ws[i].Exited? }

  /** How far the destruction has got. */
  predicate Ending(s: Pool) {
    && (s.keepalive <==> s.destroyer.NotBegun?)
    && s.workers != []
    && (!s.keepalive ==> AllIdle(s.clients))
    && (s.keepalive ==> forall i :: 0 <= i < |s.workers| ==> !s.workers[i].Exited?)
    && (s.destroyer.Waking? ==> s.destroyer.t <= |s.workers|)
    && (s.destroyer.Joining? ==> AllExited(s.workers, s.destroyer.t))
    && (s.destroyer.Emptying? || s.destroyer.Done? ==> AllExited(s.workers, |s.workers|))
    && (s.destroyer.Done? ==> s.queue == [])
    && (!s.destroyer.Emptying? && !s.destroyer.Done? ==> s.emptied == [])
  }

  ghost predicate Inv(s: Pool) { Accounts(s) && Exclusive(s) && Peeked(s) && Books(s) && Ending(s) }

  lemma {:induction false} InitInv(threadsN: int, clients: nat)
    ensures Inv(Init(threadsN, clients))
  {
    hide Books, Accounts;
    InitBooks(threadsN, clients);
  }

  lemma {:induction false} InitBooks(threadsN: int, clients: nat)
    ensures Books(Init(threadsN, clients)) && Accounts(Init(threadsN, clients))
  {
    hide Count;
    var s := Init(threadsN, clients);
    CountNone(s.workers, IsReady);
    CountNone(s.workers, HasTicket);
    CountNone(s.workers, Committed);
    CountNone(s.clients, IsPosting);
    forall job: nat ensures Booked(s, job) {
      CountNone(s.clients, Carrying(job));
      CountNone(s.workers, AboutToRun(job));
      CountNone(s.workers, AboutToFree(job));
    }
  }

  lemma {:induction false} WorkerCounts(ws: seq<Worker>, i: nat, w: Worker)
    requires i < |ws|
    ensures Count(ws[i := w], IsReady) + (if IsReady(ws[i]) then 1 else 0) == Count(ws, IsReady) + if IsReady(w) then 1
            else 0
    ensures Count(ws[i := w], HasTicket) + (if HasTicket(ws[i]) then 1 else 0) ==
            Count(ws, HasTicket) + if HasTicket(w) then 1 else 0
    ensures Count(ws[i := w], Committed) + (if Committed(ws[i]) then 1 else 0) ==
            Count(ws, Committed) + if Committed(w) then 1 else 0
    ensures Count(ws[i := w], MayWait) + (if MayWait(ws[i]) then 1 else 0) == Count(ws, MayWait) + if MayWait(w) then 1
            else 0
  {
    hide Count;
    CountUpdate(ws, i, w, IsReady);
    CountUpdate(ws, i, w, HasTicket);
    CountUpdate(ws, i, w, Committed);
    CountUpdate(ws, i, w, MayWait);
  }

  lemma {:induction false} LoopAccounts(s: Pool, i: nat)
    requires Accounts(s) && Peeked(s) && i < |s.workers| && LoopStep(s, i).Some?
    ensures Accounts(LoopStep(s, i).value)
  {
    hide Count;
    WorkerCounts(s.workers, i, LoopStep(s, i).value.workers[i]);
  }

  lemma {:induction false} TakeAccounts(s: Pool, i: nat)
    requires Accounts(s) && Peeked(s) && i < |s.workers| && TakeStep(s, i).Some?
    ensures Accounts(TakeStep(s, i).value)
  {
    hide Count;
    WorkerCounts(s.workers, i, TakeStep(s, i).value.workers[i]);
  }

  lemma {:induction false} ServeAccounts(s: Pool, i: nat)
    requires Accounts(s) && Peeked(s) && i < |s.workers| && ServeStep(s, i).Some?
    ensures Accounts(ServeStep(s, i).value)
  {
    hide Count;
    WorkerCounts(s.workers, i, ServeStep(s, i).value.workers[i]);
  }

  lemma {:induction false} WorkerAccounts(s: Pool, i: nat)
    requires Accounts(s) && Peeked(s) && i < |s.workers| && WorkerStep(s, i).Some?
    ensures Accounts(WorkerStep(s, i).value)
  {
    hide Accounts, Peeked, Looping, Taking, LoopStep, TakeStep, ServeStep;
    if Looping(s.workers[i]) {
      LoopAccounts(s, i);
    } else if Taking(s.workers[i]) {
      TakeAccounts(s, i);
    } else {
      ServeAccounts(s, i);
    }
  }

  lemma {:induction false} SpawnCounts(ws: seq<Worker>)
    ensures Count(ws + [Check], IsReady) == Count(ws, IsReady)
    ensures Count(ws + [Check], HasTicket) == Count(ws, HasTicket)
    ensures Count(ws + [Check], Committed) == Count(ws, Committed)
    ensures Count(ws + [Check], MayWait) == Count(ws, MayWait)
  {
    hide Count;
    CountSnoc(ws, Check, IsReady);
    CountSnoc(ws, Check, HasTicket);
    CountSnoc(ws, Check, Committed);
    CountSnoc(ws, Check, MayWait);
  }

  lemma {:induction false} ClientAccounts(s: Pool, i: nat)
    requires Accounts(s) && Ending(s) && i < |s.clients| && ClientStep(s, i).Some?
    ensures Accounts(ClientStep(s, i).value)
  {
    hide Count;
    var s' := ClientStep(s, i).value;
    CountUpdate(s.clients, i, s'.clients[i], IsPosting);
    SpawnCounts(s.workers);
    assert s'.clients == s.clients[i := s'.clients[i]];
    assert AllIdle(s.clients) ==> s.clients[i].Idle?;
  }

  lemma {:induction false} BeginAccounts(s: Pool)
    requires Accounts(s) && s.destroyer.NotBegun?
    ensures Accounts(s.(keepalive := false, destroyer := Waking(0)))
  {
    hide Count;
    CountAtMost(s.workers, MayWait);
  }

  lemma {:induction false} ExitedCounts(ws: seq<Worker>)
    requires AllExited(ws, |ws|)
    ensures Count(ws, Committed) == 0 && Count(ws, MayWait) == 0
  {
    hide Count;
    CountNone(ws, Committed);
    CountNone(ws, MayWait);
  }

  lemma {:induction false} DestroyAccounts(s: Pool)
    requires Accounts(s) && Ending(s) && DestroyStep(s).Some?
    ensures Accounts(DestroyStep(s).value)
  {
    hide Count;
    if s.destroyer.Emptying? {
      ExitedCounts(s.workers);
    }
  }

  lemma {:induction false} WorkerExclusive(s: Pool, i: nat)
    requires Exclusive(s) && i < |s.workers| && WorkerStep(s, i).Some?
    ensures Exclusive(WorkerStep(s, i).value)
  {
    hide ClientHoldsLock;
    var s' := WorkerStep(s, i).value;
    LockStep(s, i);
    hide WorkerStep, HoldsLock;
    assert forall k :: 0 <= k < |s.workers| && k != i ==> s'.workers[k] == s.workers[k];
  }

  /** A worker takes and leaves the lock as it enters and leaves its section. */
  lemma {:induction false} LockStep(s: Pool, i: nat)
    requires i < |s.workers| && WorkerStep(s, i).Some?
    requires HoldsLock(s.workers[i]) <==> s.lock == Some(WorkerHolds(i))
    ensures var s' := WorkerStep(s, i).value;
            && s'.workers == s.workers[i := s'.workers[i]] && s'.clients == s.clients
            && (HoldsLock(s'.workers[i]) <==> s'.lock == Some(WorkerHolds(i)))
            && (s'.lock == s.lock || (s.lock == None && s'.lock == Some(WorkerHolds(i)))
               || (s'.lock == None && s.lock == Some(WorkerHolds(i))))
  {
  }

  lemma {:induction false} ClientExclusive(s: Pool, i: nat)
    requires Exclusive(s) && i < |s.clients| && ClientStep(s, i).Some?
    ensures Exclusive(ClientStep(s, i).value)
  {
    var s' := ClientStep(s, i).value;
    ClientLockStep(s, i);
    hide ClientStep, HoldsLock, ClientHoldsLock;
    assert forall k :: 0 <= k < |s.clients| && k != i ==> s'.clients[k] == s.clients[k];
  }

  /** A client takes and leaves the lock as it enters and leaves its section; a worker it starts holds nothing. */
  lemma {:induction false} ClientLockStep(s: Pool, i: nat)
    requires i < |s.clients| && ClientStep(s, i).Some?
    requires ClientHoldsLock(s.clients[i]) <==> s.lock == Some(ClientHolds(i))
    ensures var s' := ClientStep(s, i).value;
            && |s'.clients| == |s.clients| && s'.clients == s.clients[i := s'.clients[i]]
            && |s.workers| <= |s'.workers| && s'.workers[..|s.workers|] == s.workers
            && (forall k :: |s.workers| <= k < |s'.workers| ==> !HoldsLock(s'.workers[k]))
            && (ClientHoldsLock(s'.clients[i]) <==> s'.lock == Some(ClientHolds(i)))
            && (s'.lock == s.lock || (s.lock == None && s'.lock == Some(ClientHolds(i)))
               || (s'.lock == None && s.lock == Some(ClientHolds(i))))
  {
  }

  lemma {:induction false} WorkerPeeked(s: Pool, i: nat)
    requires Exclusive(s) && Peeked(s) && i < |s.workers| && WorkerStep(s, i).Some?
    ensures Peeked(WorkerStep(s, i).value)
  {
    var s' := WorkerStep(s, i).value;
    forall k | 0 <= k < |s'.workers| && s'.workers[k].Removing?
      ensures s'.queue != [] && s'.queue[0] == s'.workers[k].job
    {
      if k != i {
        assert HoldsLock(s.workers[k]);
      }
    }
  }

  lemma {:induction false} ClientPeeked(s: Pool, i: nat)
    requires Exclusive(s) && Peeked(s) && i < |s.clients| && ClientStep(s, i).Some?
    ensures Peeked(ClientStep(s, i).value)
  {
    var s' := ClientStep(s, i).value;
    forall k | 0 <= k < |s'.workers| && s'.workers[k].Removing?
      ensures s'.queue != [] && s'.queue[0] == s'.workers[k].job
    {
      assert k < |s.workers| && s.workers[k] == s'.workers[k];
    }
  }

  lemma DestroyPeeked(s: Pool)
    requires Peeked(s) && Ending(s) && DestroyStep(s).Some?
    ensures Peeked(DestroyStep(s).value)
  {
  }

  lemma {:induction false} QueueShift(a: seq<nat>, q: seq<nat>)
    requires q != []
    ensures a + q == a + [q[0]] + q[1..] && Removed(q) == q[1..] && q[..1] == [q[0]]
  {
    assert q == [q[0]] + q[1..];
  }

  /** A worker that is not handling a job touches nothing that has to do with jobs. */
  lemma {:induction false} LoopJobless(s: Pool, i: nat)
    requires i < |s.workers| && LoopStep(s, i).Some?
    ensures var s' := LoopStep(s, i).value;
            && |s'.workers| == |s.workers| && s'.workers == s.workers[i := s'.workers[i]]
            && !Taking(s.workers[i]) && !s.workers[i].Running? && !s.workers[i].Freeing?
            && !s'.workers[i].Unlocking? && !s'.workers[i].Running? && !s'.workers[i].Freeing?
            && s' == s.(workers := s'.workers, readyN := s'.readyN, sem := s'.sem)
  {
  }

  lemma {:induction false} LoopBooked(s: Pool, i: nat, job: nat)
    requires Booked(s, job) && i < |s.workers| && LoopStep(s, i).Some?
    ensures Booked(LoopStep(s, i).value, job)
  {
    LoopJobless(s, i);
    hide Count, Times, LoopStep;
    var w := LoopStep(s, i).value.workers[i];
    CountUpdate(s.workers, i, w, AboutToRun(job));
    CountUpdate(s.workers, i, w, AboutToFree(job));
  }

  lemma {:induction false} TakeBooked(s: Pool, i: nat, job: nat)
    requires Booked(s, job) && Peeked(s) && i < |s.workers| && TakeStep(s, i).Some?
    ensures Booked(TakeStep(s, i).value, job)
  {
    hide Count, Times;
    var w := TakeStep(s, i).value.workers[i];
    CountUpdate(s.workers, i, w, AboutToRun(job));
    CountUpdate(s.workers, i, w, AboutToFree(job));
    if s.workers[i].Removing? {
      QueueShift([], s.queue);
      TimesSnoc(s.removed, s.queue[0], job);
    }
  }

  lemma {:induction false} ServeBooked(s: Pool, i: nat, job: nat)
    requires Booked(s, job) && Peeked(s) && i < |s.workers| && ServeStep(s, i).Some?
    ensures Booked(ServeStep(s, i).value, job)
  {
    hide Count, Times;
    var w := ServeStep(s, i).value.workers[i];
    CountUpdate(s.workers, i, w, AboutToRun(job));
    CountUpdate(s.workers, i, w, AboutToFree(job));
    TimesSnoc(s.ran, s.workers[i].job, job);
    TimesSnoc(s.freed, s.workers[i].job, job);
  }

  lemma {:induction false} WorkerBooked(s: Pool, i: nat, job: nat)
    requires Booked(s, job) && Peeked(s) && i < |s.workers| && WorkerStep(s, i).Some?
    ensures Booked(WorkerStep(s, i).value, job)
  {
    hide Booked, Peeked, Looping, Taking, LoopStep, TakeStep, ServeStep;
    if Looping(s.workers[i]) {
      LoopBooked(s, i, job);
    } else if Taking(s.workers[i]) {
      TakeBooked(s, i, job);
    } else {
      ServeBooked(s, i, job);
    }
  }

  lemma {:induction false} WorkerBooks(s: Pool, i: nat)
    requires Books(s) && Peeked(s) && Ending(s) && i < |s.workers| && WorkerStep(s, i).Some?
    ensures Books(WorkerStep(s, i).value)
  {
    hide Booked;
    forall job: nat ensures Booked(WorkerStep(s, i).value, job) { WorkerBooked(s, i, job); }
    if s.workers[i].Removing? {
      assert s.emptied == [];
      QueueShift(s.removed, s.queue);
    }
  }

  lemma {:induction false} ClientBooked(s: Pool, i: nat, job: nat)
    requires Booked(s, job) && i < |s.clients| && ClientStep(s, i).Some?
    ensures Booked(ClientStep(s, i).value, job)
  {
    hide Count, Times;
    var s' := ClientStep(s, i).value;
    var c := s'.clients[i];
    CountUpdate(s.clients, i, c, Carrying(job));
    assert s'.clients == s.clients[i := c];
    if s.clients[i].Linking? {
      TimesSnoc(s.added, s.clients[i].job, job);
    } else if s.clients[i].Spawning? {
      CountSnoc(s.workers, Check, AboutToRun(job));
      CountSnoc(s.workers, Check, AboutToFree(job));
    }
  }

  lemma {:induction false} ClientBooks(s: Pool, i: nat)
    requires Books(s) && i < |s.clients| && ClientStep(s, i).Some?
    ensures Books(ClientStep(s, i).value)
  {
    hide Booked;
    forall job: nat ensures Booked(ClientStep(s, i).value, job) { ClientBooked(s, i, job); }
    if s.clients[i].Linking? {
      var job := s.clients[i].job;
      assert s.removed + s.emptied + s.queue + [job] == s.removed + s.emptied + (s.queue + [job]);
    }
  }

  lemma {:induction false} DestroyBooked(s: Pool, job: nat)
    requires Booked(s, job) && DestroyStep(s).Some?
    ensures Booked(DestroyStep(s).value, job)
  {
    hide Count, Times;
    if s.destroyer.Emptying? && s.queue != [] {
      TimesSnoc(s.freed, s.queue[0], job);
      TimesSnoc(s.emptied, s.queue[0], job);
    }
  }

  lemma {:induction false} DestroyBooks(s: Pool)
    requires Books(s) && DestroyStep(s).Some?
    ensures Books(DestroyStep(s).value)
  {
    hide Booked;
    forall job: nat ensures Booked(DestroyStep(s).value, job) { DestroyBooked(s, job); }
    if s.destroyer.Emptying? && s.queue != [] {
      QueueShift(s.removed + s.emptied, s.queue);
      assert s.removed + s.emptied + [s.queue[0]] == s.removed + (s.emptied + [s.queue[0]]);
    }
  }

  /** What the destruction of the pool sees of a worker's step: the worker was not ended, ends only once the
      pool is no longer kept alive, and leaves everything else it looks at as it was. */
  predicate Discreet(s: Pool, s': Pool, i: nat)
    requires i < |s.workers|
  {
    && |s'.workers| == |s.workers| && s'.workers == s.workers[i := s'.workers[i]]
    && !s.workers[i].Exited? && (s'.workers[i].Exited? ==> !s.keepalive)
    && s'.destroyer == s.destroyer && s'.keepalive == s.keepalive && s'.clients == s.clients
    && s'.emptied == s.emptied && (s.queue == [] ==> s'.queue == [])
  }

  lemma {:induction false} StepDiscreet(s: Pool, i: nat)
    requires i < |s.workers| && WorkerStep(s, i).Some?
    ensures Discreet(s, WorkerStep(s, i).value, i)
  {
  }

  lemma {:induction false} WorkerEnding(s: Pool, i: nat)
    requires Ending(s) && i < |s.workers| && WorkerStep(s, i).Some?
    ensures Ending(WorkerStep(s, i).value)
  {
    StepDiscreet(s, i);
    hide WorkerStep;
  }

  lemma {:induction false} ClientEnding(s: Pool, i: nat)
    requires Ending(s) && i < |s.clients| && ClientStep(s, i).Some?
    ensures Ending(ClientStep(s, i).value)
  {
    assert AllIdle(s.clients) ==> s.clients[i].Idle?;
  }

  lemma DestroyEnding(s: Pool)
    requires Ending(s) && DestroyStep(s).Some?
    ensures Ending(DestroyStep(s).value)
  {
  }

  lemma {:induction false} BeginKept(s: Pool)
    requires Inv(s) && s.destroyer.NotBegun? && AllIdle(s.clients)
    ensures Inv(s.(keepalive := false, destroyer := Waking(0)))
  {
    hide Accounts, Booked;
    BeginAccounts(s);
    var s' := s.(keepalive := false, destroyer := Waking(0));
    forall job: nat ensures Booked(s', job) { BeginBooked(s, job); }
  }

  lemma {:induction false} BeginBooked(s: Pool, job: nat)
    requires Booked(s, job)
    ensures Booked(s.(keepalive := false, destroyer := Waking(0)), job)
  {
    hide Count, Times;
  }

  lemma {:induction false} DestroyExclusive(s: Pool)
    requires Exclusive(s) && DestroyStep(s).Some?
    ensures Exclusive(DestroyStep(s).value)
  {
  }

  /** Every step of every participant keeps the invariant. */
  lemma {:induction false} StepKept(s: Pool, a: Action)
    requires Inv(s) && Apply(s, a).Some?
    ensures Inv(Apply(s, a).value)
  {
    hide Accounts, Exclusive, Peeked, Books, Ending, WorkerStep, ClientStep, DestroyStep;
    match a
    case Work(i) =>
      WorkerAccounts(s, i);
      WorkerExclusive(s, i);
      WorkerPeeked(s, i);
      WorkerBooks(s, i);
      WorkerEnding(s, i);
    case Call(i) =>
      ClientAccounts(s, i);
      ClientExclusive(s, i);
      ClientPeeked(s, i);
      ClientBooks(s, i);
      ClientEnding(s, i);
    case BeginDestroy => BeginKept(s);
    case Destroy =>
      DestroyAccounts(s);
      DestroyExclusive(s);
      DestroyPeeked(s);
      DestroyBooks(s);
      DestroyEnding(s);
  }

  lemma {:induction false} RunKept(s: Pool, run: seq<Action>)
    requires Inv(s) && After(s, run).Some?
    ensures Inv(After(s, run).value)
    decreases |run|
  {
    hide Inv, Apply;
    if run != [] {
      RunKept(s, run[..|run| - 1]);
      StepKept(After(s, run[..|run| - 1]).value, run[|run| - 1]);
    }
  }

  lemma TimesConcat(a: seq<nat>, b: seq<nat>, job: nat)
    ensures Times(a + b, job) == Times(a, job) + Times(b, job)
  {
  }

  /** A job is in the queue, removed or thrown away, and in one of them at most once. */
  lemma {:induction false} JobOnce(s: Pool, job: nat)
    requires Books(s)
    ensures Times(s.removed, job) + Times(s.emptied, job) + Times(s.queue, job) == Times(s.added, job)
    ensures Times(s.added, job) <= 1 && (Times(s.added, job) == 1 ==> job < s.made)
    ensures Booked(s, job)
  {
    hide Count, Times;
    assert Booked(s, job);
    TimesConcat(s.removed + s.emptied, s.queue, job);
    TimesConcat(s.removed, s.emptied, job);
  }

  /** Safety, in every state of every run. */
  lemma {:induction false} PoolSafe(threadsN: int, clients: nat, run: seq<Action>)
    requires After(Init(threadsN, clients), run).Some?
    ensures var s := After(Init(threadsN, clients), run).value;
            && (s.keepalive ==>
                  |s.queue| == s.sem + Count(s.workers, HasTicket) + Count(s.workers, Committed)
                    + Count(s.clients, IsPosting))
            && (forall i :: 0 <= i < |s.workers| && s.workers[i].Peeking? ==> s.queue != [])
            && (forall i :: 0 <= i < |s.workers| && s.workers[i].Removing? ==>
               s.queue != [] && s.queue[0] == s.workers[i].job)
            && s.removed <= s.added
            && (forall job: nat :: Times(s.ran, job) <= Times(s.removed, job) <= 1 && Times(s.freed, job) <= 1)
            && s.readyN == Count(s.workers, IsReady)
  {
    hide After, Init, Count, Times, Exclusive;
    InitInv(threadsN, clients);
    RunKept(Init(threadsN, clients), run);
    var s := After(Init(threadsN, clients), run).value;
    forall i | 0 <= i < |s.workers| && s.workers[i].Peeking?
      ensures s.queue != []
    {
      CountSome(s.workers, Committed, i);
    }
    forall job: nat
      ensures Times(s.ran, job) <= Times(s.removed, job) <= 1 && Times(s.freed, job) <= 1
    {
      JobOnce(s, job);
    }
    assert s.removed + s.emptied + s.queue == s.removed + (s.emptied + s.queue);
  }

  predicate Holding(w: Worker) { w.Removing? || w.Unlocking? || w.Running? || w.Freeing? }

  /** A job that a worker has got hold of, from the moment it is looked at, has not been freed and has not been run
      before it runs; it is in the queue only until it is removed. */
  lemma {:induction false} NoUseAfterFree(threadsN: int, clients: nat, run: seq<Action>, i: nat)
    requires After(Init(threadsN, clients), run).Some?
    requires var s := After(Init(threadsN, clients), run).value;
             i < |s.workers| && Holding(s.workers[i])
    ensures var s := After(Init(threadsN, clients), run).value;
            var job := s.workers[i].job;
            && job !in s.freed && (job in s.queue <==> s.workers[i].Removing?)
            && (job in s.ran <==> s.workers[i].Freeing?)
  {
    hide After, Init, Count, Exclusive, Accounts;
    InitInv(threadsN, clients);
    RunKept(Init(threadsN, clients), run);
    var s := After(Init(threadsN, clients), run).value;
    var job := s.workers[i].job;
    JobOnce(s, job);
    if s.workers[i].Removing? {
      assert job in s.queue;
    } else if s.workers[i].Freeing? {
      CountSome(s.workers, AboutToFree(job), i);
    } else {
      CountSome(s.workers, AboutToRun(job), i);
    }
  }

  /** When the pool has been destroyed all workers have ended, every job ever made has been freed
      exactly once, and the jobs that were run are exactly those that workers had removed. */
  lemma {:induction false} PoolDestroyed(threadsN: int, clients: nat, run: seq<Action>)
    requires After(Init(threadsN, clients), run).Some?
    requires After(Init(threadsN, clients), run).value.destroyer.Done?
    ensures var s := After(Init(threadsN, clients), run).value;
            && (forall i :: 0 <= i < |s.workers| ==> s.workers[i].Exited?)
            && s.added == s.removed + s.emptied
            && (forall job: nat :: Times(s.freed, job) == (if job < s.made then 1 else 0))
            && (forall job: nat :: Times(s.ran, job) == Times(s.removed, job))
  {
    hide After, Init, Count, Times, Exclusive, Accounts;
    InitInv(threadsN, clients);
    RunKept(Init(threadsN, clients), run);
    var s := After(Init(threadsN, clients), run).value;
    assert s.removed + s.emptied + [] == s.removed + s.emptied;
    forall job: nat
      ensures Times(s.freed, job) == (if job < s.made then 1 else 0) && Times(s.ran, job) == Times(s.removed, job)
    {
      JobOnce(s, job);
      NoneLeft(s.queue, job);
      CountNone(s.clients, Carrying(job));
      CountNone(s.workers, AboutToRun(job));
      CountNone(s.workers, AboutToFree(job));
    }
  }

  lemma NoneLeft(q: seq<nat>, job: nat)
    requires q == []
    ensures Times(q, job) == 0
  {
  }

  /** Only one participant at a time is in a section that looks at or changes the queue. */
  lemma {:induction false} OneInSection(threadsN: int, clients: nat, run: seq<Action>)
    requires After(Init(threadsN, clients), run).Some?
    ensures var s := After(Init(threadsN, clients), run).value;
            && (forall i, k | 0 <= i < |s.workers| && 0 <= k < |s.workers| ::
                  HoldsLock(s.workers[i]) && HoldsLock(s.workers[k]) ==> i == k)
            && (forall i, k :: 0 <= i < |s.workers| && 0 <= k < |s.clients| ==>
                  !(HoldsLock(s.workers[i]) && ClientHoldsLock(s.clients[k])))
            && (forall i, k | 0 <= i < |s.clients| && 0 <= k < |s.clients| ::
                  ClientHoldsLock(s.clients[i]) && ClientHoldsLock(s.clients[k]) ==> i == k)
  {
    hide After, Init, Accounts, Books, Peeked, Ending, HoldsLock, ClientHoldsLock;
    InitInv(threadsN, clients);
    RunKept(Init(threadsN, clients), run);
  }

  // Progress.

  /** The holder of the lock can go on. */
  lemma {:induction false} HolderGoes(s: Pool) returns (i: nat)
    requires Inv(s) && AllIdle(s.clients) && s.lock.Some?
    ensures i < |s.workers| && WorkerStep(s, i).Some?
  {
    hide Count, Books;
    assert forall k :: 0 <= k < |s.clients| ==> s.clients[k].Idle? && !ClientHoldsLock(s.clients[k]);
    i := s.lock.value.i;
    assert HoldsLock(s.workers[i]);
    if s.workers[i].Peeking? {
      CountSome(s.workers, Committed, i);
    }
  }

  /** A worker can take its step, or it has ended, or waits for the semaphore or for the lock. */
  lemma {:induction false} WorkerGoes(s: Pool, i: nat) returns (k: nat)
    requires Inv(s) && AllIdle(s.clients) && i < |s.workers|
    requires !s.workers[i].Exited? && !(s.workers[i].Waiting? && s.sem == 0)
    ensures k < |s.workers| && WorkerStep(s, k).Some?
  {
    hide Count, Books, Exclusive;
    k := i;
    if s.workers[i].Locking? && s.lock.Some? {
      k := HolderGoes(s);
    } else if s.workers[i].Peeking? {
      CountSome(s.workers, Committed, i);
    }
  }

  /** A client outside of thpool_add_work does not begin another call, and the destruction does not begin. */
  predicate Continues(s: Pool, a: Action) {
    match a
    case Work(i) => true
    case Call(i) => i < |s.clients| && !s.clients[i].Idle?
    case BeginDestroy => false
    case Destroy => false
  }

  /** Every worker waits for work, nobody is adding any, and there is none. */
  predicate Settled(s: Pool) {
    AllIdle(s.clients) && s.sem == 0 && forall i :: 0 <= i < |s.workers| ==> s.workers[i].Waiting?
  }

  /** The holder of the lock can go on, be it a worker or a client. */
  lemma {:induction false} LockedGoes(s: Pool) returns (a: Action)
    requires Inv(s) && s.lock.Some?
    ensures Continues(s, a) && Apply(s, a).Some?
  {
    hide Count, Books, Peeked;
    var i := s.lock.value.i;
    if s.lock.value.WorkerHolds? {
      a := Work(i);
      assert HoldsLock(s.workers[i]);
      if s.workers[i].Peeking? {
        CountSome(s.workers, Committed, i);
      }
    } else {
      a := Call(i);
      assert ClientHoldsLock(s.clients[i]);
    }
  }

  /** With the lock free, everybody goes on who is not idle or waiting for the semaphore. */
  lemma {:induction false} UnlockedGoes(s: Pool, i: nat)
    requires Inv(s) && s.keepalive && s.lock.None?
    ensures i < |s.workers| && !(s.workers[i].Waiting? && s.sem == 0) ==> Apply(s, Work(i)).Some?
    ensures i < |s.clients| && !s.clients[i].Idle? ==> Apply(s, Call(i)).Some?
  {
    hide Count, Books, Peeked, Accounts;
    if i < |s.workers| {
      assert HoldsLock(s.workers[i]) <==> s.lock == Some(WorkerHolds(i));
      assert !s.workers[i].Exited?;
    }
  }

  /** As long as the pool is kept alive and there is anything to do, somebody already at work can take
      a step: nobody needs to add more work or to begin the destruction first. */
  lemma {:induction false} WorkGoesOn(s: Pool) returns (a: Action)
    requires Inv(s) && s.keepalive && !Settled(s)
    ensures Continues(s, a) && Apply(s, a).Some?
  {
    hide Inv, Apply;
    if s.lock.Some? {
      a := LockedGoes(s);
    } else if !AllIdle(s.clients) {
      var i :| 0 <= i < |s.clients| && !s.clients[i].Idle?;
      UnlockedGoes(s, i);
      a := Call(i);
    } else {
      var i: nat := 0;
      if s.sem == 0 {
        var k :| 0 <= k < |s.workers| && !s.workers[k].Waiting?;
        i := k;
      }
      HasWorkers(s);
      UnlockedGoes(s, i);
      a := Work(i);
    }
  }

  lemma {:induction false} HasWorkers(s: Pool)
    requires Inv(s)
    ensures s.workers != []
  {
    hide Count, Books, Peeked, Accounts, Exclusive;
  }

  /** When everybody has settled, every job ever made has been run exactly once and freed exactly once. */
  lemma {:induction false} SettledMeans(s: Pool)
    requires Inv(s) && s.keepalive && Settled(s)
    ensures s.queue == [] && forall job: nat ::
              Times(s.ran, job) == Times(s.freed, job) == Times(s.added, job) == if job < s.made then 1 else 0
  {
    hide Count, Times, Exclusive, Peeked;
    CountNone(s.workers, HasTicket);
    CountNone(s.workers, Committed);
    CountNone(s.clients, IsPosting);
    forall job: nat
      ensures Times(s.ran, job) == Times(s.freed, job) == Times(s.added, job) == if job < s.made then 1 else 0
    {
      JobOnce(s, job);
      NoneLeft(s.queue, job);
      NoneLeft(s.emptied, job);
      CountNone(s.clients, Carrying(job));
      CountNone(s.workers, AboutToRun(job));
      CountNone(s.workers, AboutToFree(job));
    }
  }

  /** As long as the pool is kept alive, a job in the queue never waits for nothing, whatever the clients
      are doing: somebody already at work can take a step. */
  lemma {:induction false} JobsGetTaken(s: Pool) returns (a: Action)
    requires Inv(s) && s.keepalive && s.queue != []
    ensures Continues(s, a) && Apply(s, a).Some?
  {
    hide Inv, Apply, Settled;
    if !Settled(s) {
      a := WorkGoesOn(s);
    } else {
      SettledMeans(s);
      assert false;
    }
  }

  /** Steps a worker can take without new work, until it waits. */
  function Busy(w: Worker): nat {
    match w
    case Waiting => 0
    case Ready => 1
    case Check => 2
    case Freeing(_) => 3
    case Running(_) => 4
    case Unlocking(_) => 5
    case Removing(_) => 6
    case Peeking => 7
    case Locking => 8
    case Recheck => 9
    case Unready => 10
    case Exited => 0
  }

  /** Steps that a client still gives rise to: its own, a new worker's, and those of the worker that its post wakes. */
  function Owed(c: Client): nat {
    match c
    case Idle => 0
    case LeavingLock => 1
    case Posting => 13
    case Linking(_) => 14
    case AwaitingLock(_) => 15
    case Spawning(_) => 18
  }

  function Effort(s: Pool): nat { Sum(s.workers, Busy) + Sum(s.clients, Owed) + 11 * s.sem }

  lemma {:induction false} WorkerEffort(s: Pool, i: nat)
    requires i < |s.workers| && s.keepalive && WorkerStep(s, i).Some?
    ensures Effort(WorkerStep(s, i).value) < Effort(s)
  {
    hide Sum;
    BusyStep(s, i);
    hide Busy, WorkerStep;
    SumUpdate(s.workers, i, WorkerStep(s, i).value.workers[i], Busy);
  }

  lemma {:induction false} BusyStep(s: Pool, i: nat)
    requires i < |s.workers| && s.keepalive && WorkerStep(s, i).Some?
    ensures var s' := WorkerStep(s, i).value;
            && |s'.workers| == |s.workers| && s'.workers == s.workers[i := s'.workers[i]] && s'.clients == s.clients
            && Busy(s'.workers[i]) + 11 * s'.sem < Busy(s.workers[i]) + 11 * s.sem
            && s'.keepalive == s.keepalive
  {
  }

  lemma {:induction false} ClientEffort(s: Pool, i: nat)
    requires i < |s.clients| && !s.clients[i].Idle? && ClientStep(s, i).Some?
    ensures Effort(ClientStep(s, i).value) < Effort(s) && ClientStep(s, i).value.keepalive == s.keepalive
  {
    hide Sum;
    SumUpdate(s.clients, i, ClientStep(s, i).value.clients[i], Owed);
    SumSnoc(s.workers, Check, Busy);
  }

  lemma {:induction false} EffortStep(s: Pool, a: Action)
    requires s.keepalive && Continues(s, a) && Apply(s, a).Some?
    ensures Apply(s, a).value.keepalive && Effort(Apply(s, a).value) < Effort(s)
  {
    hide Effort, WorkerStep, ClientStep;
    match a
    case Work(i) =>
      WorkerEffort(s, i);
      BusyStep(s, i);
    case Call(i) => ClientEffort(s, i);
  }

  /** A run in which no call begins, and not the destruction either. */
  predicate Continuing(s: Pool, run: seq<Action>) {
    run == []
    || (Continuing(s, run[..|run| - 1]) && After(s, run[..|run| - 1]).Some?
        && Continues(After(s, run[..|run| - 1]).value, run[|run| - 1]))
  }

  lemma {:induction false} EffortRun(s: Pool, run: seq<Action>)
    requires Inv(s) && s.keepalive && Continuing(s, run) && After(s, run).Some?
    ensures var s' := After(s, run).value; Inv(s') && s'.keepalive && |run| + Effort(s') <= Effort(s)
    decreases |run|
  {
    hide Inv, Apply, Effort, Continues;
    if run != [] {
      var u, a := run[..|run| - 1], run[|run| - 1];
      EffortRun(s, u);
      StepKept(After(s, u).value, a);
      EffortStep(After(s, u).value, a);
    }
  }

  /** The work gets done: without new calls and before the destruction, a run has at most Effort steps,
      and one that cannot be continued is one after which every job ever made has been run and freed. */
  lemma {:induction false} WorkFinishes(threadsN: int, clients: nat, begun: seq<Action>, run: seq<Action>)
    requires After(Init(threadsN, clients), begun).Some? && After(Init(threadsN, clients), begun).value.keepalive
    requires Continuing(After(Init(threadsN, clients), begun).value, run)
    requires After(After(Init(threadsN, clients), begun).value, run).Some?
    ensures var s := After(Init(threadsN, clients), begun).value;
            var s' := After(s, run).value;
            && |run| + Effort(s') <= Effort(s)
            && ((exists a :: Continues(s', a) && Apply(s', a).Some?)
                || (s'.queue == [] && forall job: nat ::
                      Times(s'.ran, job) == Times(s'.freed, job) == if job < s'.made then 1 else 0))
  {
    hide After, Init, Inv, Apply, Effort, Continues, Settled;
    InitInv(threadsN, clients);
    RunKept(Init(threadsN, clients), begun);
    var s := After(Init(threadsN, clients), begun).value;
    EffortRun(s, run);
    var s' := After(s, run).value;
    if Settled(s') {
      SettledMeans(s');
    } else {
      var a := WorkGoesOn(s');
    }
  }

  /** Steps a worker has left once the pool is no longer kept alive. */
  function Left(w: Worker): nat {
    match w
    case Exited => 0
    case Check => 1
    case Freeing(_) => 2
    case Running(_) => 3
    case Unlocking(_) => 4
    case Removing(_) => 5
    case Peeking => 6
    case Locking => 7
    case Recheck => 8
    case Unready => 9
    case Waiting => 10
    case Ready => 11
  }

  /** A bound on the steps of a run of a pool that is being destroyed. */
  function Measure(s: Pool): nat {
    var n := |s.workers|;
    Sum(s.workers, Left) + |s.queue|
    + match s.destroyer
      case NotBegun => 2 * n + 4
      case Waking(t) => 2 * n + 3 - if t <= n then t else n
      case Joining(t) => n + 2 - if t <= n then t else n
      case Emptying => 1
      case Done => 0
  }

  /** A step brings a worker closer to its end, if the pool is not kept alive. */
  lemma StepShortens(s: Pool, i: nat)
    requires i < |s.workers| && !s.keepalive && WorkerStep(s, i).Some?
    ensures var s' := WorkerStep(s, i).value;
            Left(s'.workers[i]) < Left(s.workers[i]) && |s'.queue| <= |s.queue|
  {
  }

  lemma {:induction false} WorkerShortens(s: Pool, i: nat)
    requires i < |s.workers| && !s.keepalive && WorkerStep(s, i).Some?
    ensures Measure(WorkerStep(s, i).value) < Measure(s)
  {
    StepDiscreet(s, i);
    StepShortens(s, i);
    hide WorkerStep, Left, Sum;
    SumUpdate(s.workers, i, WorkerStep(s, i).value.workers[i], Left);
  }

  lemma {:induction false} EndStep(s: Pool, a: Action)
    requires Inv(s) && !s.keepalive && Apply(s, a).Some?
    ensures !Apply(s, a).value.keepalive && Measure(Apply(s, a).value) < Measure(s)
  {
    hide Count, Books, Exclusive, Peeked, Accounts, Sum;
    match a
    case Work(i) =>
      WorkerShortens(s, i);
      StepDiscreet(s, i);
      hide WorkerStep, Measure;
    case Call(i) =>
    case BeginDestroy =>
    case Destroy =>
  }

  /** A pool that is being destroyed and is not done is never stuck. */
  lemma {:induction false} NeverStuck(s: Pool) returns (a: Action)
    requires Inv(s) && !s.keepalive && !s.destroyer.Done?
    ensures Apply(s, a).Some?
  {
    hide Count, Books, Exclusive, Peeked, WorkerStep;
    a := Destroy;
    if s.destroyer.Joining? && s.destroyer.t < |s.workers| && !s.workers[s.destroyer.t].Exited? {
      var t := s.destroyer.t;
      if s.workers[t].Waiting? {
        CountSome(s.workers, MayWait, t);
      }
      var k := WorkerGoes(s, t);
      a := Work(k);
    }
  }

  /** thpool_destroy returns: once it has begun, a run has at most Measure steps, and a run that cannot
      be continued is one in which it is done. */
  lemma {:induction false} DestroyReturns(threadsN: int, clients: nat, begun: seq<Action>, run: seq<Action>)
    requires After(Init(threadsN, clients), begun).Some? && !After(Init(threadsN, clients), begun).value.keepalive
    requires After(After(Init(threadsN, clients), begun).value, run).Some?
    ensures var s := After(Init(threadsN, clients), begun).value;
            var s' := After(s, run).value;
            && |run| + Measure(s') <= Measure(s)
            && (s'.destroyer.Done? || exists a :: Apply(s', a).Some?)
  {
    hide After, Init, Inv, Apply, Measure;
    InitInv(threadsN, clients);
    RunKept(Init(threadsN, clients), begun);
    var s := After(Init(threadsN, clients), begun).value;
    EndRun(s, run);
    var s' := After(s, run).value;
    if !s'.destroyer.Done? {
      var a := NeverStuck(s');
    }
  }

  lemma {:induction false} EndRun(s: Pool, run: seq<Action>)
    requires Inv(s) && !s.keepalive && After(s, run).Some?
    ensures var s' := After(s, run).value; Inv(s') && !s'.keepalive && |run| + Measure(s') <= Measure(s)
    decreases |run|
  {
    hide Inv, Apply, Measure;
    if run != [] {
      var u, a := run[..|run| - 1], run[|run| - 1];
      EndRun(s, u);
      StepKept(After(s, u).value, a);
      EndStep(After(s, u).value, a);
    }
  }
}
