/** A lock on several keys at once, with a wait queue (src/utils/map_lock.rs). */
module MapLock {
  import opened Collections
  import opened Dag

  /** A waiting request; `id` is the blocker, which becomes the guard when the task is woken. */
  datatype Task<T> = Task(id: nat, keys: seq<T>)

  predicate IsLocked<T(==)>(keys: set<T>, wanted: seq<T>)
  {
    exists i :: 0 <= i < |wanted| && wanted[i] in keys
  }

  /**
   * One pass over the queue from front to back: wake each task whose keys are free by
   * then, and lock its keys; the others keep waiting.
   */
  function Pass<T>(keys: set<T>, tasks: seq<Task<T>>): (seq<Task<T>>, seq<Task<T>>)
    decreases |tasks|
  {
    if tasks == [] then ([], [])
    else if IsLocked(keys, tasks[0].keys) then
      var (woken, left) := Pass(keys, tasks[1..]);
      (woken, [tasks[0]] + left)
    else
      var (woken, left) := Pass(keys + Elements(tasks[0].keys), tasks[1..]);
      ([tasks[0]] + woken, left)
  }

  /** Tasks that are all blocked are stepped over. */
  lemma {:induction false} PassSkips<T>(keys: set<T>, blocked: seq<Task<T>>, rest: seq<Task<T>>)
    requires forall t :: t in blocked ==> IsLocked(keys, t.keys)
    ensures Pass(keys, blocked + rest) == (Pass(keys, rest).0, blocked + Pass(keys, rest).1)
  {
    if blocked == [] {
      assert blocked + rest == rest && blocked + Pass(keys, rest).1 == Pass(keys, rest).1;
    } else {
      assert blocked[0] in blocked;
      assert (blocked + rest)[1..] == blocked[1..] + rest;
      PassSkips(keys, blocked[1..], rest);
      assert [blocked[0]] + (blocked[1..] + Pass(keys, rest).1) == blocked + Pass(keys, rest).1;
    }
  }

  lemma LockedGrows<T>(keys: set<T>, more: set<T>, wanted: seq<T>)
    requires IsLocked(keys, wanted)
    ensures IsLocked(keys + more, wanted)
  {
    var i :| 0 <= i < |wanted| && wanted[i] in keys;
    assert wanted[i] in keys + more;
  }

  /** Waking the first free task and starting over at the front is the same as going on. */
  lemma PassRestarts<T>(keys: set<T>, tasks: seq<Task<T>>, i: nat)
    requires i < |tasks| && !IsLocked(keys, tasks[i].keys)
    requires forall j :: 0 <= j < i ==> IsLocked(keys, tasks[j].keys)
    ensures var (woken, left) := Pass(keys + Elements(tasks[i].keys), tasks[..i] + tasks[i + 1..]);
      Pass(keys, tasks) == ([tasks[i]] + woken, left)
  {
    var more := keys + Elements(tasks[i].keys);
    forall t | t in tasks[..i] ensures IsLocked(keys, t.keys) && IsLocked(more, t.keys) {
      LockedGrows(keys, Elements(tasks[i].keys), t.keys);
    }
    assert tasks == tasks[..i] + tasks[i..];
    PassSkips(keys, tasks[..i], tasks[i..]);
    PassSkips(more, tasks[..i], tasks[i + 1..]);
    assert tasks[i..][1..] == tasks[i + 1..];
  }

  /**
   * First come, first served: a pass wakes the last task of the queue exactly when none of its
   * keys is locked or goes to a task woken before it, and the tasks before it fare as without it.
   */
  lemma {:induction false} LastInLine<T>(keys: set<T>, tasks: seq<Task<T>>, t: Task<T>)
    ensures var (woken, left) := Pass(keys, tasks);
      var free := forall k :: k in t.keys ==> k !in keys && forall w :: w in woken ==> k !in w.keys;
      Pass(keys, tasks + [t]) == if free then (woken + [t], left) else (woken, left + [t])
    decreases |tasks|
  {
    var (woken, left) := Pass(keys, tasks);
    LockedMeans(keys, t.keys);
    if tasks == [] {
      assert tasks + [t] == [t] && [t][1..] == [] && woken + [t] == [t] && left + [t] == [t];
      assert [t][0] == t && Pass(keys, tasks) == Pass(keys + Elements(t.keys), tasks);
      assert [t] + tasks == [t];
      assert Pass(keys, [t]) == if IsLocked(keys, t.keys) then ([], [t]) else ([t], []);
    } else {
      var first := tasks[0];
      assert (tasks + [t])[0] == first && (tasks + [t])[1..] == tasks[1..] + [t];
      var keys' := if IsLocked(keys, first.keys) then keys else keys + Elements(first.keys);
      LastInLine(keys', tasks[1..], t);
      var (woken', left') := Pass(keys', tasks[1..]);
      assert [first] + (left' + [t]) == ([first] + left') + [t];
      assert [first] + (woken' + [t]) == ([first] + woken') + [t];
      if !IsLocked(keys, first.keys) {
        assert forall w :: w in woken <==> w == first || w in woken';
      }
    }
  }

  lemma LockedMeans<T>(keys: set<T>, wanted: seq<T>)
    ensures IsLocked(keys, wanted) <==> exists k :: k in wanted && k in keys
  {
    if IsLocked(keys, wanted) {
      var i :| 0 <= i < |wanted| && wanted[i] in keys;
      assert wanted[i] in wanted;
    }
    if k :| k in wanted && k in keys {
      var i :| 0 <= i < |wanted| && wanted[i] == k;
    }
  }

  /** What is held: guards with their keys. */
  type Held<!T> = map<nat, set<T>>

  /** Guards hold pairwise disjoint key sets whose union is exactly the locked set. */
  ghost predicate HeldOk<T>(keys: set<T>, held: Held<T>)
  {
    && (forall g, k :: g in held && k in held[g] ==> k in keys)
    && (forall k :: k in keys ==> exists g :: g in held && k in held[g])
    && (forall g, h, k :: g in held && h in held && k in held[g] && k in held[h] ==> g == h)
  }

  /** Waiting tasks have distinct keys and fresh blockers. */
  ghost predicate TasksOk<T>(tasks: seq<Task<T>>, held: Held<T>)
  {
    && (forall t :: t in tasks ==> Distinct(t.keys) && t.id !in held)
    && (forall i, j :: 0 <= i < j < |tasks| ==> tasks[i].id != tasks[j].id)
  }

  /** No waiting task could run: each wants some locked key. */
  ghost predicate NoneReady<T>(keys: set<T>, tasks: seq<Task<T>>)
  {
    forall t :: t in tasks ==> IsLocked(keys, t.keys)
  }

  lemma GrantKeeps<T>(keys: set<T>, held: Held<T>, id: nat, wanted: seq<T>)
    requires HeldOk(keys, held) && id !in held && !IsLocked(keys, wanted)
    ensures HeldOk(keys + Elements(wanted), held[id := Elements(wanted)])
  {
    var keys', held' := keys + Elements(wanted), held[id := Elements(wanted)];
    forall k | k in wanted ensures k !in keys {
      var i :| 0 <= i < |wanted| && wanted[i] == k;
    }
    forall k | k in keys' ensures exists g :: g in held' && k in held'[g] {
      if k in keys {
        var g :| g in held && k in held[g];
        assert g in held' && k in held'[g];
      } else {
        assert id in held' && k in held'[id];
      }
    }
  }

  lemma DropKeeps<T>(keys: set<T>, held: Held<T>, id: nat)
    requires HeldOk(keys, held) && id in held
    ensures HeldOk(keys - held[id], held - {id})
  {
    forall k | k in keys - held[id] ensures exists g :: g in held - {id} && k in (held - {id})[g] {
      var g :| g in held && k in held[g];
      assert g in held - {id};
    }
  }

  /** Nothing waits when nothing is held. */
  lemma NothingHeldNothingQueued<T>(keys: set<T>, held: Held<T>, tasks: seq<Task<T>>)
    requires HeldOk(keys, held) && NoneReady(keys, tasks) && held == map[]
    ensures tasks == []
  {
    FirstIsMember(tasks);
    assert keys == {};
  }

  /** The guards woken tasks become. */
  ghost function Granted<T>(held: Held<T>, woken: seq<Task<T>>): Held<T>
    decreases |woken|
  {
    if woken == [] then held else Granted(held[woken[0].id := Elements(woken[0].keys)], woken[1..])
  }

  class Lock<T(==)> {
    var keys: set<T>
    var tasks: seq<Task<T>>
    ghost var held: Held<T>

    ghost predicate Valid()
      reads this
    {
      HeldOk(keys, held) && TasksOk(tasks, held) && NoneReady(keys, tasks)
    }

    constructor ()
      ensures Valid() && held == map[] && tasks == []
    {
      keys, tasks, held := {}, [], map[];
    }

    method KeysIsLocked(wanted: seq<T>) returns (locked: bool)
      ensures locked <==> IsLocked(keys, wanted)
    {
      for i := 0 to |wanted|
        invariant !IsLocked(keys, wanted[..i])
      {
        if wanted[i] in keys {
          return true;
        }
        assert forall j :: 0 <= j < i + 1 ==> wanted[..i + 1][j] == wanted[j];
        assert forall j :: 0 <= j < i ==> wanted[..i][j] == wanted[j];
      }
      assert wanted[..|wanted|] == wanted;
      locked := false;
    }

    /** Every insertion is of a key not locked before. */
    method KeysLock(wanted: seq<T>)
      requires Distinct(wanted) && !IsLocked(keys, wanted)
      modifies `keys
      ensures keys == old(keys) + Elements(wanted)
    {
      for i := 0 to |wanted|
        invariant keys == old(keys) + Elements(wanted[..i])
      {
        assert wanted[i] !in keys by {
          assert wanted[i] !in old(keys);
          assert forall j :: 0 <= j < i ==> wanted[j] != wanted[i];
        }
        assert wanted[..i + 1] == wanted[..i] + [wanted[i]];
        keys := keys + {wanted[i]};
      }
      assert wanted[..|wanted|] == wanted;
    }

    /** Remove the first task in the queue that is ready to go, if any. */
    method TaskDequeue() returns (r: Option<Task<T>>, ghost at: nat)
      modifies `tasks
      ensures r.None? ==> tasks == old(tasks) && NoneReady(keys, tasks)
      ensures r.Some? ==>
        && at < |old(tasks)| && r.value == old(tasks)[at] && !IsLocked(keys, r.value.keys)
        && (forall j :: 0 <= j < at ==> IsLocked(keys, old(tasks)[j].keys))
        && tasks == old(tasks)[..at] + old(tasks)[at + 1..]
    {
      at := 0;
      for i := 0 to |tasks|
        invariant tasks == old(tasks)
        invariant forall j :: 0 <= j < i ==> IsLocked(keys, tasks[j].keys)
      {
        var locked := KeysIsLocked(tasks[i].keys);
        if !locked {
          at := i;
          r := Some(tasks[i]);
          tasks := tasks[..i] + tasks[i + 1..];
          return;
        }
      }
      r := None;
    }

    method TryLock(id: nat, wanted: seq<T>) returns (ok: bool)
      requires Valid() && Distinct(wanted) && id !in held && forall t :: t in tasks ==> t.id != id
      modifies this
      ensures Valid() && tasks == old(tasks)
      ensures ok <==> !IsLocked(old(keys), wanted)
      ensures held == if ok then old(held)[id := Elements(wanted)] else old(held)
    {
      var locked := KeysIsLocked(wanted);
      if locked {
        return false;
      }
      Acquire(id, wanted);
      ok := true;
    }

    /** Take keys that are free. */
    method Acquire(id: nat, wanted: seq<T>)
      requires Valid() && Distinct(wanted) && id !in held && !IsLocked(keys, wanted)
      requires forall t :: t in tasks ==> t.id != id
      modifies `keys, `held
      ensures Valid() && held == old(held)[id := Elements(wanted)]
    {
      GrantKeeps(keys, held, id, wanted);
      forall t | t in tasks
        ensures IsLocked(keys + Elements(wanted), t.keys)
      {
        LockedGrows(keys, Elements(wanted), t.keys);
      }
      KeysLock(wanted);
      held := held[id := Elements(wanted)];
    }

    /** Lock now if all keys are free, else wait at the end of the queue. */
    method RequestLock(id: nat, wanted: seq<T>) returns (granted: bool)
      requires Valid() && Distinct(wanted) && id !in held && forall t :: t in tasks ==> t.id != id
      modifies this
      ensures Valid()
      ensures granted <==> !IsLocked(old(keys), wanted)
      ensures if granted then held == old(held)[id := Elements(wanted)] && tasks == old(tasks)
              else held == old(held) && tasks == old(tasks) + [Task(id, wanted)]
    {
      var locked := KeysIsLocked(wanted);
      if !locked {
        Acquire(id, wanted);
        return true;
      }
      tasks := tasks + [Task(id, wanted)];
      granted := false;
    }

    /** Dropping guard `id`: free its keys and wake, in queue order, every task that has become ready. */
    method ReleaseKeys(id: nat, released: seq<T>)
      requires Valid() && id in held && held[id] == Elements(released)
      modifies this
      ensures Valid()
      ensures var (woken, left) := Pass(old(keys) - Elements(released), old(tasks));
        tasks == left && held == Granted(old(held) - {id}, woken)
    {
      DropKeeps(keys, held, id);
      keys := set k | k in keys && k !in released;
      held := held - {id};
      assert keys == old(keys) - Elements(released);
      ghost var all := Pass(keys, tasks);
      ghost var goal := Granted(held, all.0);
      var task, at := TaskDequeue();
      ghost var queue := old(tasks);
      while task.Some?
        invariant HeldOk(keys, held) && TasksOk(queue, held)
        invariant task.None? ==> tasks == queue && NoneReady(keys, tasks)
        invariant task.Some? ==>
          && 0 <= at < |queue| && task.value == queue[at] && !IsLocked(keys, task.value.keys)
          && (forall j :: 0 <= j < at ==> IsLocked(keys, queue[j].keys))
          && tasks == queue[..at] + queue[at + 1..]
        invariant Granted(held, Pass(keys, queue).0) == goal && Pass(keys, queue).1 == all.1
        decreases |queue| + if task.Some? then 1 else 0
      {
        var t := task.value;
        assert t in queue;
        PassRestarts(keys, queue, at);
        GrantKeeps(keys, held, t.id, t.keys);
        TaskLeaves(queue, held, at);
        KeysLock(t.keys);
        held := held[t.id := Elements(t.keys)];
        queue := tasks;
        task, at := TaskDequeue();
      }
      PassNone(keys, tasks);
    }
  }

  lemma {:induction false} PassNone<T>(keys: set<T>, tasks: seq<Task<T>>)
    requires NoneReady(keys, tasks)
    ensures Pass(keys, tasks) == ([], tasks)
  {
    PassSkips(keys, tasks, []);
    assert tasks + [] == tasks;
  }

  lemma TaskLeaves<T>(queue: seq<Task<T>>, held: Held<T>, at: nat)
    requires TasksOk(queue, held) && at < |queue|
    ensures TasksOk(queue[..at] + queue[at + 1..], held[queue[at].id := Elements(queue[at].keys)])
  {
    hide Distinct;
    var rest := queue[..at] + queue[at + 1..];
    forall i | 0 <= i < |rest| ensures rest[i] in queue && rest[i].id != queue[at].id { RestAt(queue, at, i); }
    forall i, j | 0 <= i < j < |rest| ensures rest[i].id != rest[j].id {
      RestAt(queue, at, i);
      RestAt(queue, at, j);
    }
    assert forall t :: t in rest ==> exists i :: 0 <= i < |rest| && rest[i] == t;
  }

  lemma RestAt<T>(queue: seq<Task<T>>, at: nat, i: nat)
    requires at < |queue| && i < |queue| - 1 && forall i, j :: 0 <= i < j < |queue| ==> queue[i].id != queue[j].id
    ensures var rest := queue[..at] + queue[at + 1..];
      && |rest| == |queue| - 1 && rest[i] == (if i < at then queue[i] else queue[i + 1])
      && rest[i] in queue && rest[i].id != queue[at].id
  {
  }
}
