/**
 The worker pool as a step system: worker threads, client threads that enqueue, the mutex, the
 condition variable and the destructor.  One action is one step of one thread.
 */
module ThreadPool {

  type Task = nat

  datatype Worker = AtLock | Checking | Waiting | Taking | Running(task: Task) | Exited

  datatype Client = Idle | AtQueue(task: Task) | Pushing(task: Task) | Pushed | Notifying

  datatype Destructor = NotBegun | Begun | Stopping | Stopped | NotifyingAll | Joining(next: nat) | Finished

  datatype Owner = Nobody | ByWorker(w: nat) | ByClient(c: nat) | ByDestructor

  datatype State = State(
    workers: seq<Worker>,
    clients: seq<Client>,
    destructor: Destructor,
    owner: Owner,
    queue: seq<Task>,
    stop: bool,
    enqueued: seq<Task>,  // every task ever pushed
    dequeued: seq<Task>,  // every task ever popped
    ran: seq<Task>)       // every task that has returned

  datatype Action =
    | Lock(w: nat) | Check(w: nat) | Take(w: nat) | Return(w: nat) | Spurious(w: nat)
    | Enqueue(c: nat, task: Task) | ClientLock(c: nat) | Push(c: nat) | Unlock(c: nat) | NotifyOne(c: nat, woken: nat)
    | Destroy | DestructorLock | Stop | DestructorUnlock | NotifyAll | Join

  predicate Init(s: State) {
    && |s.workers| > 0 && (forall i :: 0 <= i < |s.workers| ==> s.workers[i] == AtLock)
    && (forall i :: 0 <= i < |s.clients| ==> s.clients[i] == Idle)
    && s.destructor == NotBegun && s.owner == Nobody && !s.stop
    && s.queue == [] && s.enqueued == [] && s.dequeued == [] && s.ran == []
  }

  predicate IsWorker(s: State, w: nat, at: Worker) {
    w < |s.workers| && s.workers[w] == at
  }

  predicate Wakes(s: State, w: nat) {
    w < |s.workers| && s.workers[w] == Waiting
  }

  predicate Enabled(s: State, a: Action) {
    match a
    case Lock(w) => IsWorker(s, w, AtLock) && s.owner == Nobody
    case Check(w) => IsWorker(s, w, Checking) && s.owner == ByWorker(w)
    case Take(w) => IsWorker(s, w, Taking) && s.owner == ByWorker(w)
    case Return(w) => w < |s.workers| && s.workers[w].Running?
    case Spurious(w) => IsWorker(s, w, Waiting)
    // nobody enqueues once the destructor has begun
    case Enqueue(c, _) => c < |s.clients| && s.clients[c] == Idle && s.destructor == NotBegun
    case ClientLock(c) => c < |s.clients| && s.clients[c].AtQueue? && s.owner == Nobody
    case Push(c) => c < |s.clients| && s.clients[c].Pushing? && s.owner == ByClient(c)
    case Unlock(c) => c < |s.clients| && s.clients[c] == Pushed && s.owner == ByClient(c)
    // some waiting worker is woken, if there is one
    case NotifyOne(c, w) =>
      c < |s.clients| && s.clients[c] == Notifying
        && (Wakes(s, w) || forall i :: 0 <= i < |s.workers| ==> s.workers[i] != Waiting)
    case Destroy => s.destructor == NotBegun && forall i :: 0 <= i < |s.clients| ==> s.clients[i] == Idle
    case DestructorLock => s.destructor == Begun && s.owner == Nobody
    case Stop => s.destructor == Stopping && s.owner == ByDestructor
    case DestructorUnlock => s.destructor == Stopped && s.owner == ByDestructor
    case NotifyAll => s.destructor == NotifyingAll
    case Join => s.destructor.Joining? &&
                 (s.destructor.next < |s.workers| ==> s.workers[s.destructor.next] == Exited)
  }

  function At(s: State, w: nat, status: Worker): State
    requires w < |s.workers|
  {
    s.(workers := s.workers[w := status])
  }

  function ClientAt(s: State, c: nat, status: Client): State
    requires c < |s.clients|
  {
    s.(clients := s.clients[c := status])
  }

  function WakeAll(ws: seq<Worker>): (r: seq<Worker>)
    ensures |r| == |ws| && forall i :: 0 <= i < |ws| ==> r[i] == if ws[i] == Waiting then AtLock else ws[i]
  {
    seq(|ws|, i requires 0 <= i < |ws| => if ws[i] == Waiting then AtLock else ws[i])
  }

  function Next(s: State, a: Action): State
    requires Enabled(s, a)
  {
    match a
    case Lock(w) => At(s, w, Checking).(owner := ByWorker(w))
    case Check(w) =>
      if s.stop || s.queue != [] then At(s, w, Taking) else At(s, w, Waiting).(owner := Nobody)
    case Take(w) =>
      if s.queue == [] then At(s, w, Exited).(owner := Nobody)
      else At(s, w, Running(s.queue[0])).(owner := Nobody, queue := s.queue[1..], dequeued := s.dequeued + [s.queue[0]])
    case Return(w) => At(s, w, AtLock).(ran := s.ran + [s.workers[w].task])
    case Spurious(w) => At(s, w, AtLock)
    case Enqueue(c, task) => ClientAt(s, c, AtQueue(task))
    case ClientLock(c) => ClientAt(s, c, Pushing(s.clients[c].task)).(owner := ByClient(c))
    case Push(c) =>
      ClientAt(s, c, Pushed).(queue := s.queue + [s.clients[c].task], enqueued := s.enqueued + [s.clients[c].task])
    case Unlock(c) => ClientAt(s, c, Notifying).(owner := Nobody)
    case NotifyOne(c, w) => if Wakes(s, w) then ClientAt(At(s, w, AtLock), c, Idle) else ClientAt(s, c, Idle)
    case Destroy => s.(destructor := Begun)
    case DestructorLock => s.(destructor := Stopping, owner := ByDestructor)
    case Stop => s.(destructor := Stopped, stop := true)
    case DestructorUnlock => s.(destructor := NotifyingAll, owner := Nobody)
    case NotifyAll => s.(destructor := Joining(0), workers := WakeAll(s.workers))
    case Join => s.(destructor := if s.destructor.next < |s.workers| then Joining(s.destructor.next + 1) else Finished)
  }

  // -------------------------------------------------------------------------------------------
  // What every step keeps
  // -------------------------------------------------------------------------------------------

  predicate Awake(w: Worker) {
    w != Waiting && w != Exited
  }

  predicate Holds(s: State, o: Owner) {
    match o
    case Nobody => true
    case ByWorker(w) => w < |s.workers| && (s.workers[w] == Checking || s.workers[w] == Taking)
    case ByClient(c) => c < |s.clients| && (s.clients[c].Pushing? || s.clients[c] == Pushed)
    case ByDestructor => s.destructor == Stopping || s.destructor == Stopped
  }

  /** Whoever is inside a critical section owns the mutex. */
  predicate Exclusive(s: State) {
    && Holds(s, s.owner)
    && (forall i :: 0 <= i < |s.workers| && (s.workers[i] == Checking || s.workers[i] == Taking) ==>
        s.owner == ByWorker(i))
    && (forall i :: 0 <= i < |s.clients| && (s.clients[i].Pushing? || s.clients[i] == Pushed) ==>
        s.owner == ByClient(i))
    && (s.destructor == Stopping || s.destructor == Stopped ==> s.owner == ByDestructor)
  }

  predicate PendingNotification(s: State) {
    exists i :: 0 <= i < |s.clients| && (s.clients[i] == Pushed || s.clients[i] == Notifying)
  }

  /** A non-empty queue always has an awake worker or a notification on its way. */
  predicate NoLostWakeUp(s: State) {
    s.queue != [] ==> SomeoneAwake(s) || PendingNotification(s)
  }

  /** After `stop`, a sleeping worker is still going to be woken by `notify_all`. */
  predicate StopReachesAll(s: State) {
    && (s.stop <==> s.destructor != NotBegun && s.destructor != Begun && s.destructor != Stopping)
    && (s.destructor.Joining? || s.destructor == Finished ==> forall i :: 0 <= i < |s.workers| ==>
        s.workers[i] != Waiting)
    && (s.destructor != NotBegun ==> forall i :: 0 <= i < |s.clients| ==> s.clients[i] == Idle)
  }

  /** A worker leaves only when there is and will be nothing to do. */
  predicate ExitsAtEnd(s: State) {
    && (forall i :: 0 <= i < |s.workers| && s.workers[i] == Exited ==> s.stop && s.queue == [])
    && (forall i :: 0 <= i < |s.workers| && s.workers[i] == Taking ==> s.stop || s.queue != [])
    && (s.destructor.Joining? ==>
          forall i :: 0 <= i < s.destructor.next && i < |s.workers| ==> s.workers[i] == Exited)
    && (s.destructor == Finished ==> forall i :: 0 <= i < |s.workers| ==> s.workers[i] == Exited)
    && (s.destructor.Joining? ==> s.destructor.next <= |s.workers|)
  }

  /** How often a task occurs in a list, and in the hands of the workers. */
  function Times(ts: seq<Task>, t: Task): nat {
    if ts == [] then 0 else Times(ts[..|ts| - 1], t) + if ts[|ts| - 1] == t then 1 else 0
  }

  function Busy(w: Worker, t: Task): nat {
    if w == Running(t) then 1 else 0
  }

  function InHand(ws: seq<Worker>, t: Task): nat {
    if ws == [] then 0 else InHand(ws[..|ws| - 1], t) + Busy(ws[|ws| - 1], t)
  }

  /** Tasks leave in the order they came, and each popped task is in one worker's hands or has run. */
  ghost predicate Accounted(s: State) {
    && s.enqueued == s.dequeued + s.queue
    && forall t :: Times(s.ran, t) + InHand(s.workers, t) == Times(s.dequeued, t)
  }

  ghost predicate Inv(s: State) {
    |s.workers| > 0 && Exclusive(s) && NoLostWakeUp(s) && StopReachesAll(s) && ExitsAtEnd(s) && Accounted(s)
  }

  lemma {:induction false} InHandUpdate(ws: seq<Worker>, i: nat, w: Worker, t: Task)
    requires i < |ws|
    ensures InHand(ws[i := w], t) + Busy(ws[i], t) == InHand(ws, t) + Busy(w, t)
  {
    var k := |ws| - 1;
    if i == k {
      assert ws[i := w][..k] == ws[..k];
    } else {
      assert ws[i := w][..k] == ws[..k][i := w];
      InHandUpdate(ws[..k], i, w, t);
    }
  }

  lemma {:induction false} NobodyBusy(ws: seq<Worker>, t: Task)
    requires forall i :: 0 <= i < |ws| ==> !ws[i].Running?
    ensures InHand(ws, t) == 0
  {
    if ws != [] {
      NobodyBusy(ws[..|ws| - 1], t);
    }
  }

  lemma {:induction false} WakeAllHands(ws: seq<Worker>, t: Task)
    ensures InHand(WakeAll(ws), t) == InHand(ws, t)
  {
    if ws != [] {
      WakeAllHands(ws[..|ws| - 1], t);
      assert WakeAll(ws)[..|ws| - 1] == WakeAll(ws[..|ws| - 1]);
    }
  }

  lemma Append(ts: seq<Task>, x: Task, t: Task)
    ensures Times(ts + [x], t) == Times(ts, t) + if x == t then 1 else 0
  {
    assert (ts + [x])[..|ts|] == ts;
  }

  lemma InitInv(s: State)
    requires Init(s)
    ensures Inv(s)
  {
    forall t ensures InHand(s.workers, t) == 0 { NobodyBusy(s.workers, t); }
  }

  lemma TakeCount(s: State, w: nat, x: Task, t: Task)
    requires w < |s.workers| && !s.workers[w].Running?
    ensures InHand(s.workers[w := Running(x)], t) - InHand(s.workers, t)
            == Times(s.dequeued + [x], t) - Times(s.dequeued, t)
  {
    InHandUpdate(s.workers, w, Running(x), t);
    Append(s.dequeued, x, t);
  }

  lemma TakeAccounted(s: State, w: nat)
    requires Accounted(s) && Enabled(s, Take(w)) && s.queue != []
    ensures Accounted(Next(s, Take(w)))
  {
    var s' := Next(s, Take(w));
    assert s.dequeued + s.queue == s'.dequeued + s'.queue;
    forall t ensures Times(s'.ran, t) + InHand(s'.workers, t) == Times(s'.dequeued, t) {
      TakeCount(s, w, s.queue[0], t);
    }
  }

  lemma ReturnCount(s: State, w: nat, t: Task)
    requires w < |s.workers| && s.workers[w].Running?
    ensures Times(s.ran + [s.workers[w].task], t) + InHand(s.workers[w := AtLock], t)
            == Times(s.ran, t) + InHand(s.workers, t)
  {
    InHandUpdate(s.workers, w, AtLock, t);
    Append(s.ran, s.workers[w].task, t);
  }

  lemma ReturnAccounted(s: State, w: nat)
    requires Accounted(s) && Enabled(s, Return(w))
    ensures Accounted(Next(s, Return(w)))
  {
    var ran, workers := s.ran + [s.workers[w].task], s.workers[w := AtLock];
    assert Next(s, Return(w)) == s.(workers := workers, ran := ran);
    forall t ensures Times(ran, t) + InHand(workers, t) == Times(s.dequeued, t) {
      ReturnCount(s, w, t);
    }
  }

  lemma SameHands(ws: seq<Worker>, w: nat, status: Worker)
    requires w < |ws| && !ws[w].Running? && !status.Running?
    ensures forall t :: InHand(ws[w := status], t) == InHand(ws, t)
  {
    forall t ensures InHand(ws[w := status], t) == InHand(ws, t) {
      InHandUpdate(ws, w, status, t);
    }
  }

  lemma StepAccounted(s: State, a: Action)
    requires Inv(s) && Enabled(s, a)
    ensures Accounted(Next(s, a))
  {
    match a {
      case Lock(w) => SameHands(s.workers, w, Checking);
      case Check(w) => SameHands(s.workers, w, if s.stop || s.queue != [] then Taking else Waiting);
      case Take(w) => if s.queue == [] { SameHands(s.workers, w, Exited); } else { TakeAccounted(s, w); }
      case Return(w) => ReturnAccounted(s, w);
      case Spurious(w) => SameHands(s.workers, w, AtLock);
      case NotifyOne(c, w) => if Wakes(s, w) { SameHands(s.workers, w, AtLock); }
      case NotifyAll =>
        forall t ensures InHand(WakeAll(s.workers), t) == InHand(s.workers, t) { WakeAllHands(s.workers, t); }
      case Push(c) => assert s.dequeued + (s.queue + [s.clients[c].task]) == s.dequeued + s.queue + [s.clients[c].task];
      case _ =>
    }
  }

  predicate OfWorker(a: Action) {
    a.Lock? || a.Check? || a.Take? || a.Return? || a.Spurious?
  }

  lemma WorkerExclusive(s: State, a: Action)
    requires Inv(s) && Enabled(s, a) && OfWorker(a)
    ensures Exclusive(Next(s, a))
  {
  }

  lemma OthersExclusive(s: State, a: Action)
    requires Inv(s) && Enabled(s, a) && !OfWorker(a)
    ensures Exclusive(Next(s, a))
  {
  }

  lemma StepStop(s: State, a: Action)
    requires Inv(s) && Enabled(s, a)
    ensures StopReachesAll(Next(s, a))
  {
  }

  lemma WorkerExits(s: State, a: Action)
    requires Inv(s) && Enabled(s, a) && OfWorker(a)
    ensures ExitsAtEnd(Next(s, a))
  {
  }

  lemma OthersExits(s: State, a: Action)
    requires Inv(s) && Enabled(s, a) && !OfWorker(a)
    ensures ExitsAtEnd(Next(s, a))
  {
  }

  lemma StepExits(s: State, a: Action)
    requires Inv(s) && Enabled(s, a)
    ensures ExitsAtEnd(Next(s, a))
  {
    if OfWorker(a) { WorkerExits(s, a); } else { OthersExits(s, a); }
  }

  predicate SomeoneAwake(s: State) {
    exists i :: 0 <= i < |s.workers| && Awake(s.workers[i])
  }

  lemma StepNoLostWakeUp(s: State, a: Action)
    requires Inv(s) && Enabled(s, a)
    ensures NoLostWakeUp(Next(s, a))
  {
    var s' := Next(s, a);
    if s'.queue != [] {
      match a {
        case Lock(w) => assert Awake(s'.workers[w]);
        case Check(w) => assert Awake(s'.workers[w]);
        case Take(w) => assert Awake(s'.workers[w]);
        case Return(w) => assert Awake(s'.workers[w]);
        case Spurious(w) => assert Awake(s'.workers[w]);
        case Push(c) => assert s'.clients[c] == Pushed;
        case Unlock(c) => assert s'.clients[c] == Notifying;
        case NotifyOne(c, w) => assert Awake(s'.workers[if Wakes(s, w) then w else 0]);
        case _ => StillPending(s, a);
      }
    }
  }

  lemma StillPending(s: State, a: Action)
    requires Inv(s) && Enabled(s, a) && s.queue != []
    requires a.Enqueue? || a.ClientLock? || a.Destroy? || a.DestructorLock? || a.Stop? || a.DestructorUnlock?
             || a.NotifyAll? || a.Join?
    ensures NoLostWakeUp(Next(s, a))
  {
    var s' := Next(s, a);
    if i :| 0 <= i < |s.workers| && Awake(s.workers[i]) {
      assert Awake(s'.workers[i]);
    } else {
      var i :| 0 <= i < |s.clients| && (s.clients[i] == Pushed || s.clients[i] == Notifying);
      assert s'.clients[i] == s.clients[i];
    }
  }

  lemma StepInv(s: State, a: Action)
    requires Inv(s) && Enabled(s, a)
    ensures Inv(Next(s, a))
  {
    StepAccounted(s, a);
    if OfWorker(a) { WorkerExclusive(s, a); } else { OthersExclusive(s, a); }
    StepStop(s, a);
    StepExits(s, a);
    StepNoLostWakeUp(s, a);
  }

  // -------------------------------------------------------------------------------------------
  // Runs
  // -------------------------------------------------------------------------------------------

  predicate CanRun(s: State, actions: seq<Action>)
    decreases |actions|
  {
    actions == [] || (Enabled(s, actions[0]) && CanRun(Next(s, actions[0]), actions[1..]))
  }

  function After(s: State, actions: seq<Action>): State
    requires CanRun(s, actions)
    decreases |actions|
  {
    if actions == [] then s else After(Next(s, actions[0]), actions[1..])
  }

  /** Over every interleaving: first in first out, at most once, no lost wake-up. */
  lemma {:induction false} RunInv(s: State, actions: seq<Action>)
    requires Inv(s) && CanRun(s, actions)
    ensures Inv(After(s, actions))
    decreases |actions|
  {
    if actions != [] {
      StepInv(s, actions[0]);
      RunInv(Next(s, actions[0]), actions[1..]);
    }
  }

  // -------------------------------------------------------------------------------------------
  // What the actions alone say
  // -------------------------------------------------------------------------------------------

  /** The tasks handed in: those of the `Enqueue` actions. */
  function Handed(actions: seq<Action>): seq<Task> {
    if actions == [] then [] else
      var last := actions[|actions| - 1];
      Handed(actions[..|actions| - 1]) + if last.Enqueue? then [last.task] else []
  }

  /** What a client has handed in last. */
  function Latest(actions: seq<Action>, c: nat): Task {
    if actions == [] then 0 else
      var last := actions[|actions| - 1];
      if last.Enqueue? && last.c == c then last.task else Latest(actions[..|actions| - 1], c)
  }

  /** The tasks handed in, in the order in which their clients came to push them. */
  function PushOrder(actions: seq<Action>): seq<Task> {
    if actions == [] then [] else
      var before, last := actions[..|actions| - 1], actions[|actions| - 1];
      PushOrder(before) + if last.Push? then [Latest(before, last.c)] else []
  }

  /** How many times a worker has come back from a task. */
  function Returns(actions: seq<Action>): nat {
    if actions == [] then 0 else
      Returns(actions[..|actions| - 1]) + if actions[|actions| - 1].Return? then 1 else 0
  }

  /** The tasks in the hands of clients that have not pushed yet. */
  function Carried(cs: seq<Client>, t: Task): nat {
    if cs == [] then 0 else Carried(cs[..|cs| - 1], t) + Carries(cs[|cs| - 1], t)
  }

  function Carries(c: Client, t: Task): nat {
    if c == AtQueue(t) || c == Pushing(t) then 1 else 0
  }

  /** The state after these actions: nothing handed in is lost, made up, changed or out of order. */
  ghost predicate Ledger(s: State, past: seq<Action>) {
    && s.enqueued == PushOrder(past) && |s.ran| == Returns(past)
    && (forall c :: 0 <= c < |s.clients| && (s.clients[c].AtQueue? || s.clients[c].Pushing?) ==>
          s.clients[c].task == Latest(past, c))
    && (forall t :: Times(s.enqueued, t) + Carried(s.clients, t) == Times(Handed(past), t))
  }

  lemma {:induction false} CarriedUpdate(cs: seq<Client>, i: nat, c: Client, t: Task)
    requires i < |cs|
    ensures Carried(cs[i := c], t) + Carries(cs[i], t) == Carried(cs, t) + Carries(c, t)
  {
    var k := |cs| - 1;
    if i == k {
      assert cs[i := c][..k] == cs[..k];
    } else {
      assert cs[i := c][..k] == cs[..k][i := c];
      CarriedUpdate(cs[..k], i, c, t);
    }
  }

  lemma {:induction false} NobodyCarries(cs: seq<Client>, t: Task)
    requires forall i :: 0 <= i < |cs| ==> cs[i] == Idle
    ensures Carried(cs, t) == 0
  {
    if cs != [] {
      NobodyCarries(cs[..|cs| - 1], t);
    }
  }

  lemma InitLedger(s: State)
    requires Init(s)
    ensures Ledger(s, [])
  {
    forall t ensures Carried(s.clients, t) == 0 { NobodyCarries(s.clients, t); }
  }

  /** A step of a client keeps account of the tasks in clients' hands. */
  lemma ClientLedger(s: State, a: Action, t: Task)
    requires Enabled(s, a)
    ensures var s' := Next(s, a);
            Times(s'.enqueued, t) + Carried(s'.clients, t)
            == Times(s.enqueued, t) + Carried(s.clients, t) + if a.Enqueue? && a.task == t then 1 else 0
  {
    match a {
      case Enqueue(c, task) => CarriedUpdate(s.clients, c, AtQueue(task), t);
      case ClientLock(c) => CarriedUpdate(s.clients, c, Pushing(s.clients[c].task), t);
      case Push(c) =>
        CarriedUpdate(s.clients, c, Pushed, t);
        Append(s.enqueued, s.clients[c].task, t);
      case Unlock(c) => CarriedUpdate(s.clients, c, Notifying, t);
      case NotifyOne(c, _) => CarriedUpdate(s.clients, c, Idle, t);
      case _ =>
    }
  }

  lemma StepLedger(s: State, past: seq<Action>, a: Action)
    requires Ledger(s, past) && Enabled(s, a)
    ensures Ledger(Next(s, a), past + [a])
  {
    var s' := Next(s, a);
    StepLatest(s, past, a);
    forall t ensures Times(s'.enqueued, t) + Carried(s'.clients, t) == Times(Handed(past + [a]), t) {
      StepHanded(s, past, a, t);
    }
    OneMore(past, a);
  }

  lemma StepLatest(s: State, past: seq<Action>, a: Action)
    requires Enabled(s, a)
    requires forall c :: 0 <= c < |s.clients| && (s.clients[c].AtQueue? || s.clients[c].Pushing?) ==>
               s.clients[c].task == Latest(past, c)
    ensures var s' := Next(s, a);
            forall c :: 0 <= c < |s'.clients| && (s'.clients[c].AtQueue? || s'.clients[c].Pushing?) ==>
              s'.clients[c].task == Latest(past + [a], c)
  {
    var s' := Next(s, a);
    forall c | 0 <= c < |s'.clients| && (s'.clients[c].AtQueue? || s'.clients[c].Pushing?)
      ensures s'.clients[c].task == Latest(past + [a], c)
    {
      assert (past + [a])[..|past|] == past;
    }
  }

  lemma StepHanded(s: State, past: seq<Action>, a: Action, t: Task)
    requires Enabled(s, a) && Times(s.enqueued, t) + Carried(s.clients, t) == Times(Handed(past), t)
    ensures var s' := Next(s, a);
            Times(s'.enqueued, t) + Carried(s'.clients, t) == Times(Handed(past + [a]), t)
  {
    OneMore(past, a);
    ClientLedger(s, a, t);
    if a.Enqueue? { Append(Handed(past), a.task, t); }
  }

  lemma OneMore(past: seq<Action>, a: Action)
    ensures Handed(past + [a]) == if a.Enqueue? then Handed(past) + [a.task] else Handed(past)
    ensures PushOrder(past + [a]) == if a.Push? then PushOrder(past) + [Latest(past, a.c)] else PushOrder(past)
    ensures Returns(past + [a]) == Returns(past) + if a.Return? then 1 else 0
    ensures forall c :: Latest(past + [a], c) == if a.Enqueue? && a.c == c then a.task else Latest(past, c)
  {
    assert (past + [a])[..|past|] == past;
  }

  /** Along every run. */
  lemma {:induction false} RunLedger(s: State, past: seq<Action>, actions: seq<Action>)
    requires Ledger(s, past) && CanRun(s, actions)
    ensures Ledger(After(s, actions), past + actions)
    decreases |actions|
  {
    if actions == [] {
      assert past + [] == past;
    } else {
      StepLedger(s, past, actions[0]);
      RunLedger(Next(s, actions[0]), past + [actions[0]], actions[1..]);
      assert past + [actions[0]] + actions[1..] == past + actions;
    }
  }

  /**
   In every reachable state the queue has been filled with exactly the tasks the clients handed in, in the
   order of their pushes, but for those still in clients' hands, and emptied from its front.
   */
  lemma HandedIsKept(s: State, actions: seq<Action>)
    requires Init(s) && CanRun(s, actions)
    ensures var s' := After(s, actions);
            && s'.dequeued + s'.queue == PushOrder(actions)
            && (forall t :: Times(PushOrder(actions), t) + Carried(s'.clients, t) == Times(Handed(actions), t))
            && (forall t :: Times(s'.ran, t) + InHand(s'.workers, t) == Times(s'.dequeued, t))
            && |s'.ran| == Returns(actions)
  {
    InitInv(s);
    InitLedger(s);
    RunInv(s, actions);
    RunLedger(s, [], actions);
    assert [] + actions == actions;
  }

  /** When the destructor returns, exactly the tasks handed in have run, each as often as it was handed in. */
  lemma AllTasksRan(s: State, actions: seq<Action>)
    requires Init(s) && CanRun(s, actions) && After(s, actions).destructor == Finished
    ensures var s' := After(s, actions);
            && s'.queue == [] && |s'.ran| == Returns(actions)
            && forall t :: Times(s'.ran, t) == Times(s'.enqueued, t) == Times(Handed(actions), t)
  {
    InitInv(s);
    RunInv(s, actions);
    HandedIsKept(s, actions);
    var s' := After(s, actions);
    assert s'.workers[0] == Exited;
    forall t ensures InHand(s'.workers, t) == 0 && Carried(s'.clients, t) == 0 {
      NobodyBusy(s'.workers, t);
      NobodyCarries(s'.clients, t);
    }
    assert s'.dequeued + [] == s'.dequeued;
  }

  // -------------------------------------------------------------------------------------------
  // The destructor returns
  // -------------------------------------------------------------------------------------------

  function Steps(w: Worker): nat {
    match w
    case Running(_) => 4
    case AtLock => 3
    case Checking => 2
    case Taking => 1
    case _ => 0
  }

  function TotalSteps(ws: seq<Worker>): nat {
    if ws == [] then 0 else TotalSteps(ws[..|ws| - 1]) + Steps(ws[|ws| - 1])
  }

  lemma {:induction false} TotalUpdate(ws: seq<Worker>, i: nat, w: Worker)
    requires i < |ws|
    ensures TotalSteps(ws[i := w]) + Steps(ws[i]) == TotalSteps(ws) + Steps(w)
  {
    var k := |ws| - 1;
    if i == k {
      assert ws[i := w][..k] == ws[..k];
    } else {
      assert ws[i := w][..k] == ws[..k][i := w];
      TotalUpdate(ws[..k], i, w);
    }
  }

  /** An upper bound on the steps left once everyone has been notified. */
  function StepsLeft(s: State): nat
    requires s.destructor.Joining? ==> s.destructor.next <= |s.workers|
  {
    5 * |s.queue| + TotalSteps(s.workers)
    + if s.destructor.Joining? then |s.workers| - s.destructor.next + 1 else 0
  }

  /** Once everyone has been notified, every step brings the end nearer. */
  lemma Descends(s: State, a: Action)
    requires Inv(s) && (s.destructor.Joining? || s.destructor == Finished) && Enabled(s, a)
    ensures Next(s, a).destructor.Joining? || Next(s, a).destructor == Finished
    ensures ExitsAtEnd(Next(s, a)) && StepsLeft(Next(s, a)) < StepsLeft(s)
  {
    StepExits(s, a);
    match a {
      case Lock(w) => TotalUpdate(s.workers, w, Checking);
      case Check(w) => TotalUpdate(s.workers, w, Taking);
      case Take(w) => TotalUpdate(s.workers, w, if s.queue == [] then Exited else Running(s.queue[0]));
      case Return(w) => TotalUpdate(s.workers, w, AtLock);
      case _ =>
    }
  }

  /** A step of the pool itself: nobody asks for more work or for the end, and no wake-up is spurious. */
  predicate OwnMove(a: Action) {
    !a.Enqueue? && !a.Destroy? && !a.Spurious?
  }

  /** There are tasks in the queue, or the destructor has begun and not returned. */
  predicate Unfinished(s: State) {
    s.queue != [] || (s.destructor != NotBegun && s.destructor != Finished)
  }

  /** Whoever owns the mutex can go on. */
  lemma OwnerMoves(s: State) returns (a: Action)
    requires Inv(s) && s.owner != Nobody
    ensures Enabled(s, a) && OwnMove(a)
  {
    match s.owner {
      case ByWorker(w) => a := if s.workers[w] == Checking then Check(w) else Take(w);
      case ByClient(c) => a := if s.clients[c] == Pushed then Unlock(c) else Push(c);
      case ByDestructor => a := if s.destructor == Stopping then Stop else DestructorUnlock;
    }
  }

  /** A queued task is taken up or announced. */
  lemma QueueMoves(s: State) returns (a: Action)
    requires Inv(s) && s.owner == Nobody && s.queue != []
    ensures Enabled(s, a) && OwnMove(a)
  {
    if i :| 0 <= i < |s.workers| && Awake(s.workers[i]) {
      a := if s.workers[i].Running? then Return(i) else Lock(i);
    } else {
      var c :| 0 <= c < |s.clients| && (s.clients[c] == Pushed || s.clients[c] == Notifying);
      if w :| 0 <= w < |s.workers| && s.workers[w] == Waiting {
        a := NotifyOne(c, w);
      } else {
        a := NotifyOne(c, 0);
      }
    }
  }

  /** As long as there is work or the destructor waits for the workers, some thread can move. */
  lemma NoDeadlock(s: State) returns (a: Action)
    requires Inv(s) && Unfinished(s)
    ensures Enabled(s, a) && OwnMove(a)
  {
    if s.owner != Nobody {
      a := OwnerMoves(s);
    } else if s.queue != [] {
      a := QueueMoves(s);
    } else if s.destructor.Joining? {
      var k := s.destructor.next;
      a := if k == |s.workers| || s.workers[k] == Exited then Join
           else if s.workers[k].Running? then Return(k) else Lock(k);
    } else {
      a := if s.destructor == Begun then DestructorLock else NotifyAll;
    }
  }

  /** However the threads are scheduled, the joins finish after at most `StepsLeft` steps. */
  lemma {:induction false} JoinsFinish(s: State, actions: seq<Action>)
    requires Inv(s) && s.destructor.Joining? && CanRun(s, actions)
    ensures |actions| <= StepsLeft(s)
    ensures After(s, actions).destructor == Finished || exists a :: Enabled(After(s, actions), a)
    decreases |actions|
  {
    if actions == [] {
      var a := NoDeadlock(s);
    } else {
      Descends(s, actions[0]);
      StepInv(s, actions[0]);
      var s' := Next(s, actions[0]);
      if s'.destructor == Finished {
        Over(s', actions[1..]);
      } else {
        JoinsFinish(s', actions[1..]);
      }
    }
  }

  /** After that nothing happens any more. */
  lemma Over(s: State, actions: seq<Action>)
    requires Inv(s) && s.destructor == Finished && CanRun(s, actions)
    ensures actions == [] && After(s, actions) == s
  {
  }
}
