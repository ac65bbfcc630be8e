/** Serializing file mutations: one lock per path, shared by reference count and dropped when idle. */
module FileMutations {

  type Key = string

  type Thread = nat

  type LockId = nat

  /** The lock table once a caller holds a reference under `key`: the lock already there, or a new one. */
  function WithLock<L>(locks: map<Key, L>, key: Key, newLock: L): (r: map<Key, L>)
    ensures key in r
  {
    if key in locks then locks else locks[key := newLock]
  }

  /** The lock table once a caller gave up a reference that leaves `refs` of them. */
  function WithoutLock<L(==)>(locks: map<Key, L>, key: Key, lock: L, refs: int): map<Key, L> {
    if refs == 0 && key in locks && locks[key] == lock then locks - {key} else locks
  }

  class FileLock {
    var refs: int

    constructor ()
      ensures refs == 0
    {
      refs := 0;
    }
  }

  class FileMutationQueue {
    var locks: map<Key, FileLock>

    constructor ()
      ensures locks == map[]
    {
      locks := map[];
    }

    method Acquire(key: Key) returns (lock: FileLock)
      modifies this, locks.Values
      ensures locks == WithLock(old(locks), key, lock) && lock == locks[key]
      ensures key in old(locks) ==> lock.refs == old(locks[key].refs) + 1
      ensures key !in old(locks) ==> fresh(lock) && lock.refs == 1
      ensures forall other :: other in old(locks).Values && other != lock ==> other.refs == old(other.refs)
    {
      if key in locks {
        lock := locks[key];
      } else {
        lock := new FileLock();
        locks := locks[key := lock];
      }
      lock.refs := lock.refs + 1;
    }

    method Release(key: Key, lock: FileLock)
      modifies this, lock
      ensures lock.refs == old(lock.refs) - 1
      ensures locks == WithoutLock(old(locks), key, lock, lock.refs)
    {
      lock.refs := lock.refs - 1;
      if lock.refs == 0 && key in locks && locks[key] == lock {
        locks := locks - {key};
      }
    }
  }

  /**
   Where a caller of DoValue stands: it holds a reference from Acquire to Release, and the lock
   itself while its function runs.
   */
  datatype Phase =
    | Idle
    | Waiting(key: Key, lock: LockId)
    | Running(key: Key, lock: LockId)
    | Leaving(key: Key, lock: LockId)

  /** `holders` names the thread that has each locked mutex. */
  datatype State = State(
    locks: map<Key, LockId>,
    refs: map<LockId, int>,
    holders: map<LockId, Thread>,
    threads: map<Thread, Phase>)

  ghost predicate Init(s: State) {
    s.locks == map[] && s.refs == map[] && s.holders == map[] && forall t :: t in s.threads ==> s.threads[t] == Idle
  }

  datatype Step =
    | Acquire(t: Thread, key: Key, newLock: LockId)
    | Enter(t: Thread)
    | Leave(t: Thread)
    | Release(t: Thread)

  predicate Enabled(s: State, step: Step) {
    step.t in s.threads &&
    var phase := s.threads[step.t];
    match step
    case Acquire(t, key, newLock) => phase.Idle? && newLock !in s.refs
    case Enter(t) => phase.Waiting? && phase.lock !in s.holders
    case Leave(t) => phase.Running?
    case Release(t) => phase.Leaving? && phase.lock in s.refs
  }

  function Next(s: State, step: Step): State
    requires Enabled(s, step)
  {
    var phase := s.threads[step.t];
    match step
    case Acquire(t, key, newLock) =>
      var locks := WithLock(s.locks, key, newLock);
      var lock := locks[key];
      s.(locks := locks,
         refs := s.refs[lock := (if lock in s.refs then s.refs[lock] else 0) + 1],
         threads := s.threads[t := Waiting(key, lock)])
    case Enter(t) =>
      s.(holders := s.holders[phase.lock := t], threads := s.threads[t := Running(phase.key, phase.lock)])
    case Leave(t) =>
      s.(holders := s.holders - {phase.lock}, threads := s.threads[t := Leaving(phase.key, phase.lock)])
    case Release(t) =>
      var refs := s.refs[phase.lock] - 1;
      s.(locks := WithoutLock(s.locks, phase.key, phase.lock, refs),
         refs := s.refs[phase.lock := refs],
         threads := s.threads[t := Idle])
  }

  /** The threads that hold a reference to `lock`. */
  function Users(threads: map<Thread, Phase>, lock: LockId): set<Thread> {
    set t | t in threads && !threads[t].Idle? && threads[t].lock == lock
  }

  /** Every reference is to the one live lock of its key. */
  ghost predicate OneLockPerKey(s: State) {
    forall t :: t in s.threads && !s.threads[t].Idle? ==>
      s.threads[t].key in s.locks && s.locks[s.threads[t].key] == s.threads[t].lock
  }

  ghost predicate RefsCountUsers(s: State) {
    forall l :: l in s.refs ==> s.refs[l] == |Users(s.threads, l)|
  }

  ghost predicate LocksInUse(s: State) {
    (forall k :: k in s.locks ==> s.locks[k] in s.refs && s.refs[s.locks[k]] > 0)
    && (forall k1, k2 :: k1 in s.locks && k2 in s.locks && s.locks[k1] == s.locks[k2] ==> k1 == k2)
  }

  ghost predicate HoldersRun(s: State) {
    (forall l :: l in s.holders ==>
     s.holders[l] in s.threads && s.threads[s.holders[l]].Running? && s.threads[s.holders[l]].lock == l)
    && (forall t :: t in s.threads && s.threads[t].Running? ==>
        s.threads[t].lock in s.holders && s.holders[s.threads[t].lock] == t)
  }

  ghost predicate Inv(s: State) {
    OneLockPerKey(s) && RefsCountUsers(s) && LocksInUse(s) && HoldersRun(s)
  }

  lemma UsersChange(threads: map<Thread, Phase>, t: Thread, phase: Phase, lock: LockId)
    requires t in threads
    ensures var before, after := Users(threads, lock), Users(threads[t := phase], lock);
            && (!phase.Idle? && phase.lock == lock ==> after == before + {t})
            && (phase.Idle? || phase.lock != lock ==> after == before - {t})
  {
  }

  lemma AcquireKeepsCounts(s: State, step: Step)
    requires Inv(s) && Enabled(s, step) && step.Acquire?
    ensures RefsCountUsers(Next(s, step))
  {
    var s' := Next(s, step);
    forall l | l in s'.refs
      ensures s'.refs[l] == |Users(s'.threads, l)|
    {
      UsersChange(s.threads, step.t, s'.threads[step.t], l);
      assert step.t !in Users(s.threads, l);
      if l !in s.refs {
        assert Users(s.threads, l) == {};
      }
    }
  }

  lemma ReleaseKeepsCounts(s: State, step: Step)
    requires Inv(s) && Enabled(s, step) && step.Release?
    ensures RefsCountUsers(Next(s, step))
  {
    var s' := Next(s, step);
    forall l | l in s'.refs
      ensures s'.refs[l] == |Users(s'.threads, l)|
    {
      UsersChange(s.threads, step.t, Idle, l);
      assert step.t in Users(s.threads, l) <==> l == s.threads[step.t].lock;
    }
  }

  lemma OthersKeepCounts(s: State, step: Step)
    requires Inv(s) && Enabled(s, step) && (step.Enter? || step.Leave?)
    ensures RefsCountUsers(Next(s, step))
  {
    var s' := Next(s, step);
    forall l | l in s'.refs
      ensures s'.refs[l] == |Users(s'.threads, l)|
    {
      UsersChange(s.threads, step.t, s'.threads[step.t], l);
      assert Users(s'.threads, l) == Users(s.threads, l);
    }
  }

  /** A lock that still has a user when one lets go has references left. */
  lemma ReleaseKeepsLocks(s: State, step: Step)
    requires Inv(s) && Enabled(s, step) && step.Release?
    ensures var s' := Next(s, step); OneLockPerKey(s') && LocksInUse(s')
  {
    var s' := Next(s, step);
    var phase := s.threads[step.t];
    ReleaseKeepsCounts(s, step);
    forall t | t in s'.threads && !s'.threads[t].Idle?
      ensures s'.threads[t].key in s'.locks && s'.locks[s'.threads[t].key] == s'.threads[t].lock
    {
      if s.threads[t].key == phase.key {
        assert t in Users(s'.threads, phase.lock);
      }
    }
    if s'.refs[phase.lock] != 0 {
      assert s'.refs[phase.lock] == |Users(s'.threads, phase.lock)|;
    }
  }

  lemma AcquireKeepsLocks(s: State, step: Step)
    requires Inv(s) && Enabled(s, step) && step.Acquire?
    ensures var s' := Next(s, step); OneLockPerKey(s') && LocksInUse(s')
  {
    hide RefsCountUsers, HoldersRun;
  }

  lemma HoldersNext(s: State, step: Step)
    requires HoldersRun(s) && Enabled(s, step)
    ensures HoldersRun(Next(s, step))
  {
  }

  lemma OthersKeepLocks(s: State, step: Step)
    requires Inv(s) && Enabled(s, step) && (step.Enter? || step.Leave?)
    ensures var s' := Next(s, step); OneLockPerKey(s') && LocksInUse(s')
  {
    hide RefsCountUsers, HoldersRun;
  }

  lemma InvNext(s: State, step: Step)
    requires Inv(s) && Enabled(s, step)
    ensures Inv(Next(s, step))
  {
    HoldersNext(s, step);
    hide RefsCountUsers, HoldersRun, OneLockPerKey, LocksInUse;
    match step
    case Acquire(t, key, newLock) =>
      AcquireKeepsCounts(s, step);
      AcquireKeepsLocks(s, step);
    case Enter(t) =>
      OthersKeepCounts(s, step);
      OthersKeepLocks(s, step);
    case Leave(t) =>
      OthersKeepCounts(s, step);
      OthersKeepLocks(s, step);
    case Release(t) =>
      ReleaseKeepsCounts(s, step);
      ReleaseKeepsLocks(s, step);
  }

  /** A run: each state is the previous one after an enabled step of some thread. */
  ghost predicate IsRun(states: seq<State>, steps: seq<Step>) {
    |states| == |steps| + 1 && Init(states[0])
    && forall i :: 0 <= i < |steps| ==> Enabled(states[i], steps[i]) && states[i + 1] == Next(states[i], steps[i])
  }

  lemma {:induction false} RunInv(states: seq<State>, steps: seq<Step>, i: nat)
    requires IsRun(states, steps) && i < |states|
    ensures Inv(states[i])
  {
    if i > 0 {
      RunInv(states, steps, i - 1);
      InvNext(states[i - 1], steps[i - 1]);
    }
  }

  /** In every state of every run, no two threads run their functions under one key. */
  lemma MutualExclusion(states: seq<State>, steps: seq<Step>, i: nat, t1: Thread, t2: Thread)
    requires IsRun(states, steps) && i < |states|
    requires t1 in states[i].threads && t2 in states[i].threads
    requires states[i].threads[t1].Running? && states[i].threads[t2].Running?
    requires states[i].threads[t1].key == states[i].threads[t2].key
    ensures t1 == t2
  {
    RunInv(states, steps, i);
  }

  /** In every state of every run, references and threads agree, and idle threads leave nothing behind. */
  lemma ReferencesAreExact(states: seq<State>, steps: seq<Step>, i: nat)
    requires IsRun(states, steps) && i < |states|
    ensures var s := states[i];
            && (forall l :: l in s.refs ==> s.refs[l] == |Users(s.threads, l)|)
            && (forall t1, t2 | t1 in s.threads && t2 in s.threads && !s.threads[t1].Idle? && !s.threads[t2].Idle? ::
                  s.threads[t1].key == s.threads[t2].key ==> s.threads[t1].lock == s.threads[t2].lock)
            && ((forall t :: t in s.threads ==> s.threads[t].Idle?) ==> s.locks == map[] && s.holders == map[])
  {
    RunInv(states, steps, i);
    var s := states[i];
    if forall t :: t in s.threads ==> s.threads[t].Idle? {
      assert forall l :: Users(s.threads, l) == {};
      assert forall k :: k in s.locks ==> s.refs[s.locks[k]] == 0;
    }
  }

  /** Release always finds the table pointing at the lock it gives up, so no idle lock stays behind. */
  lemma ReleaseFindsItsLock(states: seq<State>, steps: seq<Step>, i: nat)
    requires IsRun(states, steps) && i < |steps| && steps[i].Release?
    ensures var phase := states[i].threads[steps[i].t];
            phase.key in states[i].locks && states[i].locks[phase.key] == phase.lock
  {
    RunInv(states, steps, i);
  }

  /** No deadlock: a waiting thread can enter, or the thread that keeps it out can leave. */
  lemma Progress(states: seq<State>, steps: seq<Step>, i: nat, t: Thread)
    requires IsRun(states, steps) && i < |states|
    requires t in states[i].threads && !states[i].threads[t].Idle?
    ensures exists u: Thread ::
            Enabled(states[i], Enter(u)) || Enabled(states[i], Leave(u)) || Enabled(states[i], Release(u))
  {
    RunInv(states, steps, i);
    var s := states[i];
    var phase := s.threads[t];
    if phase.Waiting? && phase.lock in s.holders {
      assert Enabled(s, Leave(s.holders[phase.lock]));
    } else if phase.Waiting? {
      assert Enabled(s, Enter(t));
    } else if phase.Running? {
      assert Enabled(s, Leave(t));
    } else {
      assert Enabled(s, Release(t));
    }
  }
}
