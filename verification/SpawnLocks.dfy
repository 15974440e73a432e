/** `SpawnLocks` and the tasks that use it, as the objects they are. */
module SpawnLocks {
  import opened Wrappers
  import opened LockModel

  /** The steps of one section so far: it begins for this task and run, and is not over. */
  ghost predicate Underway(trace: seq<Op>, task: nat, run: string) {
    && trace != [] && trace[0] == Begin(task, run)
    && forall i | 0 < i < |trace| :: !trace[i].Begin? && !trace[i].Clone?
  }

  /** The steps of one whole section. */
  ghost predicate IsAcquisition(trace: seq<Op>, task: nat, run: string) {
    trace != [] && trace[|trace| - 1] == Clone && Underway(trace[..|trace| - 1], task, run)
  }

  /** The steps `trace` of a section lead from `start` to `s`. */
  ghost predicate Reached(start: State, s: State, trace: seq<Op>, task: nat, run: string) {
    s == Run(start, trace) && Underway(trace, task, run)
  }

  lemma ReachedBegin(start: State, task: nat, run: string)
    ensures Reached(start, Step(start, Begin(task, run)), [Begin(task, run)], task, run)
  {
    hide Step;
    RunOne(start, Begin(task, run));
  }

  lemma ThenOwn(start: State, s: State, trace: seq<Op>, task: nat, run: string, op: Op)
    requires Reached(start, s, trace, task, run) && !op.Begin? && !op.Clone?
    ensures Reached(start, Step(s, op), trace + [op], task, run)
  {
    hide Step, Run;
    RunSnoc(start, trace, op);
  }

  lemma ThenOthers(start: State, s: State, trace: seq<Op>, task: nat, run: string, ops: seq<Op>)
    requires Reached(start, s, trace, task, run) && forall i | 0 <= i < |ops| :: OfOthers(ops[i])
    ensures Reached(start, Run(s, ops), trace + ops, task, run)
  {
    hide Run;
    RunConcat(start, trace, ops);
  }

  lemma ThenClone(start: State, s: State, trace: seq<Op>, task: nat, run: string)
    requires Reached(start, s, trace, task, run)
    ensures Step(s, Clone) == Run(start, trace + [Clone]) && IsAcquisition(trace + [Clone], task, run)
  {
    hide Step, Run;
    RunSnoc(start, trace, Clone);
    assert (trace + [Clone])[..|trace|] == trace;
  }

  class SpawnLocks {
    var inner: map<string, nat>
    var strongCounts: map<nat, nat>
    var held: map<nat, nat>
    var tasks: map<nat, Phase>
    /** Who has the mutex of the table, and how far it has come. */
    var section: Option<Section>
    var nextLock: nat

    ghost function View(): State
      reads this
    {
      State(inner, strongCounts, held, tasks, section, nextLock)
    }

    constructor ()
      ensures View() == Init()
    {
      inner, strongCounts, held, tasks, section, nextLock := map[], map[], map[], map[], None, 0;
    }

    method ReleaseRef(lock: nat)
      modifies `strongCounts
      ensures strongCounts == DropRef(old(strongCounts), lock)
    {
      if Count(strongCounts, lock) > 1 {
        strongCounts := strongCounts[lock := strongCounts[lock] - 1];
      } else {
        strongCounts := strongCounts - {lock};
      }
    }

    // ---- The section of `acquire` ----

    method LockTable(task: nat, run: string)
      requires section.None? && task !in tasks
      modifies `section
      ensures View() == Step(old(View()), Begin(task, run))
      ensures section == Some(Sweeping(task, run, inner.Keys, None, {}))
    {
      section := Some(Sweeping(task, run, inner.Keys, None, {}));
    }

    /** The closure of `retain` on one entry: is anybody else referring to it? */
    method InspectEntry(entry: string) returns (retained: bool)
      requires Enabled(View(), Visit(entry))
      modifies `section
      ensures View() == Step(old(View()), Visit(entry))
      ensures section == VisitEntry(old(View()), entry).section && (retained <==> section.value.doomed.None?)
    {
      var sec := section.value;
      retained := Count(strongCounts, inner[entry]) > 1;
      if retained {
        section := Some(sec.(unvisited := sec.unvisited - {entry}, doomed := None, kept := sec.kept + {entry}));
      } else {
        section := Some(sec.(unvisited := sec.unvisited - {entry}, doomed := Some(entry)));
      }
    }

    method RemoveEntry()
      requires Enabled(View(), Discard)
      modifies `inner, `strongCounts, `section
      ensures View() == Step(old(View()), Discard)
      ensures section == Some(old(section).value.(doomed := None)) && inner == old(inner) - {old(section).value.doomed.value}
    {
      var entry := section.value.doomed.value;
      ReleaseRef(inner[entry]);
      inner := inner - {entry};
      section := Some(section.value.(doomed := None));
    }

    method FindOrInsert()
      requires Enabled(View(), Enter)
      modifies `inner, `strongCounts, `nextLock, `section
      ensures View() == Step(old(View()), Enter)
      ensures section.Some? && section.value.Entered?
      ensures section.value.task == old(section).value.task && section.value.run == old(section).value.run
    {
      var sec := section.value;
      var lock;
      if sec.run in inner {
        lock := inner[sec.run];
        assert inner[sec.run := lock] == inner;
      } else {
        lock := nextLock;
        nextLock := nextLock + 1;
        inner := inner[sec.run := lock];
        strongCounts := strongCounts[lock := 1];
      }
      section := Some(Entered(sec.task, sec.run, lock, sec.kept));
    }

    method CloneAndUnlock() returns (lock: nat)
      requires Enabled(View(), Clone)
      modifies `strongCounts, `tasks, `section
      ensures View() == Step(old(View()), Clone)
      ensures tasks == old(tasks)[old(section).value.task := Waiting(old(section).value.run, lock)] && section.None?
    {
      var sec := section.value;
      lock := sec.lock;
      strongCounts := strongCounts[lock := Count(strongCounts, lock) + 1];
      tasks := tasks[sec.task := Waiting(sec.run, lock)];
      section := None;
    }

    // ---- What other tasks do meanwhile ----

    /** The wait of `lock_owned` ends once the lock is free. */
    method TryLock(task: nat) returns (granted: bool)
      requires task in tasks && tasks[task].Waiting?
      modifies `held, `tasks
      ensures View() == Step(old(View()), Grant(task))
      ensures tasks.Keys == old(tasks).Keys && (granted <==> tasks[task].Holding?)
    {
      var lock := tasks[task].lock;
      if lock in held {
        return false;
      }
      held := held[lock := task];
      tasks := tasks[task := Holding(tasks[task].run, lock)];
      return true;
    }

    /** The acquiring future is dropped while it waits. */
    method CancelWait(task: nat)
      requires task in tasks && tasks[task].Waiting?
      modifies `strongCounts, `tasks
      ensures View() == Step(old(View()), Cancel(task))
      ensures tasks == old(tasks) - {task}
    {
      ReleaseRef(tasks[task].lock);
      tasks := tasks - {task};
    }

    /** Dropping a guard first unlocks, then gives up its reference. */
    method UnlockGuard(task: nat)
      requires task in tasks && tasks[task].Holding?
      modifies `held, `tasks
      ensures View() == Step(old(View()), Unlock(task))
      ensures tasks.Keys == old(tasks).Keys
    {
      held := held - {tasks[task].lock};
      tasks := tasks[task := Dropping(tasks[task].run, tasks[task].lock)];
    }

    method DropGuard(task: nat)
      requires task in tasks && tasks[task].Dropping?
      modifies `strongCounts, `tasks
      ensures View() == Step(old(View()), Release(task))
      ensures tasks == old(tasks) - {task}
    {
      ReleaseRef(tasks[task].lock);
      tasks := tasks - {task};
    }

    /** One step of another task, if it is its turn. */
    method OtherTask(op: Op)
      requires OfOthers(op)
      modifies `strongCounts, `held, `tasks
      ensures View() == Step(old(View()), op)
      ensures tasks.Keys <= old(tasks).Keys
    {
      hide Step;
      if !Enabled(View(), op) {
        Disabled(View(), op);
      }
      match op
      case Grant(task) =>
        if task in tasks && tasks[task].Waiting? {
          var _ := TryLock(task);
        }
      case Cancel(task) =>
        if task in tasks && tasks[task].Waiting? {
          CancelWait(task);
        }
      case Unlock(task) =>
        if task in tasks && tasks[task].Holding? {
          UnlockGuard(task);
        }
      case Release(task) =>
        if task in tasks && tasks[task].Dropping? {
          DropGuard(task);
        }
    }

    method OtherTasks(ops: seq<Op>)
      requires forall i | 0 <= i < |ops| :: OfOthers(ops[i])
      modifies `strongCounts, `held, `tasks
      ensures View() == Run(old(View()), ops)
      ensures tasks.Keys <= old(tasks).Keys
    {
      hide Step;
      var i := 0;
      while i < |ops|
        invariant 0 <= i <= |ops|
        invariant Run(old(View()), ops) == Run(View(), ops[i..])
        invariant tasks.Keys <= old(tasks).Keys
        invariant inner == old(inner) && section == old(section) && nextLock == old(nextLock)
      {
        assert ops[i..][1..] == ops[i + 1..];
        OtherTask(ops[i]);
        i := i + 1;
      }
    }

    // ---- The whole section ----

    /**
     `acquire` up to its wait, with the steps `others(k)` of other tasks between its own. What it does is one
     section in a run of the model, so what holds of every interleaving holds of it.
     */
    method Acquire(task: nat, run: string, others: nat -> seq<Op>) returns (lock: nat, ghost trace: seq<Op>)
      requires section.None? && task !in tasks
      requires forall k: nat, i | 0 <= i < |others(k)| :: OfOthers(others(k)[i])
      modifies this
      ensures View() == Run(old(View()), trace) && IsAcquisition(trace, task, run)
      ensures section.None? && task in tasks && tasks[task] == Waiting(run, lock)
    {
      hide Step, Run, Reached, IsAcquisition;
      ghost var start := View();
      LockTable(task, run);
      trace := [Begin(task, run)];
      ReachedBegin(start, task, run);
      var k := 0;
      var runs := inner.Keys;
      while runs != {}
        invariant Reached(start, View(), trace, task, run)
        invariant task !in tasks
        invariant section.Some? && section.value.Sweeping? && section.value.doomed.None?
        invariant section.value.task == task && section.value.run == run
        invariant section.value.unvisited == runs <= inner.Keys
        decreases |runs|
      {
        var entry :| entry in runs;
        runs := runs - {entry};
        ThenOwn(start, View(), trace, task, run, Visit(entry));
        var retained := InspectEntry(entry);
        trace := trace + [Visit(entry)];
        ThenOthers(start, View(), trace, task, run, others(k));
        OtherTasks(others(k));
        trace := trace + others(k);
        if !retained {
          ThenOwn(start, View(), trace, task, run, Discard);
          RemoveEntry();
          trace := trace + [Discard];
        }
        k := k + 1;
      }
      ThenOwn(start, View(), trace, task, run, Enter);
      FindOrInsert();
      trace := trace + [Enter];
      ThenOthers(start, View(), trace, task, run, others(k));
      OtherTasks(others(k));
      trace := trace + others(k);
      ThenClone(start, View(), trace, task, run);
      lock := CloneAndUnlock();
      trace := trace + [Clone];
    }
  }
}
