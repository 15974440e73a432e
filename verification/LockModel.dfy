/**
 The per-run lock table. Acquiring is a section under the table's mutex - sweep the entries one by
 one, get or create the run's entry, clone its `Arc` - and then a wait on the run's lock. Other tasks
 take no part in a section, but their waits end and their references drop at any point of it.
 A lock is known by a number; `counts` are strong counts, `held` says which task has which lock.
 */
module LockModel {
  import opened Wrappers

  datatype Phase =
    | Waiting(run: string, lock: nat)
    | Holding(run: string, lock: nat)
    | Dropping(run: string, lock: nat)

  /**
   Where the section of `task` stands: `retain` has yet to visit `unvisited`, has read a count of one at
   `doomed` and is about to drop that entry, and has seen `kept` referred to; or the run's entry is there.
   */
  datatype Section =
    | Sweeping(task: nat, run: string, unvisited: set<string>, doomed: Option<string>, kept: set<string>)
    | Entered(task: nat, run: string, lock: nat, kept: set<string>)

  datatype State = State(
    table: map<string, nat>,
    counts: map<nat, nat>,
    held: map<nat, nat>,
    tasks: map<nat, Phase>,
    section: Option<Section>,
    next: nat)

  function Init(): State {
    State(map[], map[], map[], map[], None, 0)
  }

  function Count(counts: map<nat, nat>, lock: nat): nat {
    if lock in counts then counts[lock] else 0
  }

  /** A dropped reference; the last one frees the lock. */
  function DropRef(counts: map<nat, nat>, lock: nat): map<nat, nat> {
    if Count(counts, lock) > 1 then counts[lock := counts[lock] - 1] else counts - {lock}
  }

  // ---- Steps ----

  /**
   The steps of a section, the end of a task's wait, its cancellation, and the two halves of a guard's
   drop. A step that is not enabled changes nothing.
   */
  datatype Op =
    | Begin(task: nat, run: string)
    | Visit(entry: string)
    | Discard
    | Enter
    | Clone
    | Grant(task: nat)
    | Cancel(task: nat)
    | Unlock(task: nat)
    | Release(task: nat)

  function BeginSection(s: State, task: nat, run: string): State {
    s.(section := Some(Sweeping(task, run, s.table.Keys, None, {})))
  }

  /** `retain` reads one strong count. */
  function VisitEntry(s: State, entry: string): State
    requires s.section.Some? && s.section.value.Sweeping? && entry in s.table
  {
    var sec := s.section.value;
    var used := Count(s.counts, s.table[entry]) > 1;
    s.(section := Some(sec.(unvisited := sec.unvisited - {entry},
                            doomed := if used then None else Some(entry),
                            kept := if used then sec.kept + {entry} else sec.kept)))
  }

  /** The entry read to be unused goes, and with it the table's reference. */
  function DiscardEntry(s: State): State
    requires s.section.Some? && s.section.value.Sweeping? && s.section.value.doomed.Some?
    requires s.section.value.doomed.value in s.table
  {
    var entry := s.section.value.doomed.value;
    s.(table := s.table - {entry},
       counts := DropRef(s.counts, s.table[entry]),
       section := Some(s.section.value.(doomed := None)))
  }

  /** Get or create the run's entry; a new lock starts with the table's reference. */
  function EnterRun(s: State): State
    requires s.section.Some? && s.section.value.Sweeping?
  {
    var sec := s.section.value;
    var found := sec.run in s.table;
    var lock := if found then s.table[sec.run] else s.next;
    s.(table := s.table[sec.run := lock],
       counts := if found then s.counts else s.counts[lock := 1],
       next := s.next + if found then 0 else 1,
       section := Some(Entered(sec.task, sec.run, lock, sec.kept)))
  }

  /** The clone ends the section; the task waits. */
  function CloneEntry(s: State): State
    requires s.section.Some? && s.section.value.Entered?
  {
    var sec := s.section.value;
    s.(counts := s.counts[sec.lock := Count(s.counts, sec.lock) + 1],
       tasks := s.tasks[sec.task := Waiting(sec.run, sec.lock)],
       section := None)
  }

  predicate Enabled(s: State, op: Op) {
    match op
    case Begin(task, _) => s.section.None? && task !in s.tasks
    case Visit(entry) =>
      && s.section.Some? && s.section.value.Sweeping? && s.section.value.doomed.None?
      && entry in s.section.value.unvisited && entry in s.table
    case Discard =>
      && s.section.Some? && s.section.value.Sweeping? && s.section.value.doomed.Some?
      && s.section.value.doomed.value in s.table
    case Enter =>
      s.section.Some? && s.section.value.Sweeping? && s.section.value.doomed.None? && s.section.value.unvisited == {}
    case Clone => s.section.Some? && s.section.value.Entered?
    case Grant(task) => task in s.tasks && s.tasks[task].Waiting? && s.tasks[task].lock !in s.held
    case Cancel(task) => task in s.tasks && s.tasks[task].Waiting?
    case Unlock(task) => task in s.tasks && s.tasks[task].Holding?
    case Release(task) => task in s.tasks && s.tasks[task].Dropping?
  }

  function Step(s: State, op: Op): State {
    if !Enabled(s, op) then s
    else
      match op
      case Begin(task, run) => BeginSection(s, task, run)
      case Visit(entry) => VisitEntry(s, entry)
      case Discard => DiscardEntry(s)
      case Enter => EnterRun(s)
      case Clone => CloneEntry(s)
      case Grant(task) =>
        s.(held := s.held[s.tasks[task].lock := task],
           tasks := s.tasks[task := Holding(s.tasks[task].run, s.tasks[task].lock)])
      case Unlock(task) =>
        s.(held := s.held - {s.tasks[task].lock},
           tasks := s.tasks[task := Dropping(s.tasks[task].run, s.tasks[task].lock)])
      case _ =>
        s.(counts := DropRef(s.counts, s.tasks[op.task].lock), tasks := s.tasks - {op.task})
  }

  function Run(s: State, ops: seq<Op>): State
    decreases |ops|
  {
    if ops == [] then s else Run(Step(s, ops[0]), ops[1..])
  }

  /** The steps a task takes outside any section. */
  predicate OfOthers(op: Op) {
    op.Grant? || op.Cancel? || op.Unlock? || op.Release?
  }

  lemma Disabled(s: State, op: Op)
    requires !Enabled(s, op)
    ensures Step(s, op) == s
  {
  }

  lemma RunOne(s: State, op: Op)
    ensures Run(s, [op]) == Step(s, op)
  {
    hide Step;
    assert [op][1..] == [];
    assert Run(Step(s, op), []) == Step(s, op);
  }

  lemma RunSnoc(s: State, ops: seq<Op>, op: Op)
    ensures Run(s, ops + [op]) == Step(Run(s, ops), op)
  {
    hide Step;
    RunConcat(s, ops, [op]);
    RunOne(Run(s, ops), op);
  }

  // ---- The invariant ----

  function Owners(tasks: map<nat, Phase>, lock: nat): set<nat> {
    set t | t in tasks && tasks[t].lock == lock
  }

  function OwnerCount(tasks: map<nat, Phase>, lock: nat): nat {
    |Owners(tasks, lock)|
  }

  /** Whoever uses a run's lock uses the one in the table. */
  ghost predicate Shared(table: map<string, nat>, tasks: map<nat, Phase>) {
    forall t | t in tasks :: tasks[t].run in table && table[tasks[t].run] == tasks[t].lock
  }

  ghost predicate Distinct(table: map<string, nat>, next: nat) {
    && (forall r, r' | r in table && r' in table && r != r' :: table[r] != table[r'])
    && (forall r | r in table :: table[r] < next)
  }

  /** A strong count is the table's reference plus one per task. */
  ghost predicate CountsExact(table: map<string, nat>, counts: map<nat, nat>, tasks: map<nat, Phase>) {
    forall r | r in table :: Count(counts, table[r]) == 1 + OwnerCount(tasks, table[r])
  }

  ghost predicate AllInTable(table: map<string, nat>, counts: map<nat, nat>) {
    forall l | l in counts :: exists r :: r in table && table[r] == l
  }

  ghost predicate HeldExact(held: map<nat, nat>, tasks: map<nat, Phase>) {
    && (forall t | t in tasks && tasks[t].Holding? :: tasks[t].lock in held && held[tasks[t].lock] == t)
    && (forall l | l in held :: held[l] in tasks && tasks[held[l]].Holding? && tasks[held[l]].lock == l)
  }

  predicate RunInUse(tasks: map<nat, Phase>, run: string) {
    exists t :: t in tasks && tasks[t].run == run
  }

  predicate LockInUse(tasks: map<nat, Phase>, lock: nat) {
    exists t :: t in tasks && tasks[t].lock == lock
  }

  /** Every entry is yet to be visited, was seen in use, or is about to go - and then still nobody uses it. */
  ghost predicate SectionOk(section: Option<Section>, table: map<string, nat>, tasks: map<nat, Phase>) {
    section.Some? ==>
      && section.value.task !in tasks
      && match section.value
         case Sweeping(_, _, unvisited, doomed, kept) =>
           && table.Keys == unvisited + kept + (if doomed.Some? then {doomed.value} else {})
           && unvisited !! kept
           && (doomed.Some? ==> doomed.value !in unvisited + kept && !RunInUse(tasks, doomed.value))
         case Entered(_, run, lock, kept) =>
           table.Keys == kept + {run} && table[run] == lock
  }

  ghost predicate Inv(s: State) {
    && Shared(s.table, s.tasks)
    && Distinct(s.table, s.next)
    && CountsExact(s.table, s.counts, s.tasks)
    && AllInTable(s.table, s.counts)
    && HeldExact(s.held, s.tasks)
    && SectionOk(s.section, s.table, s.tasks)
  }

  lemma OwnerAdded(tasks: map<nat, Phase>, task: nat, phase: Phase, l: nat)
    requires task !in tasks
    ensures OwnerCount(tasks[task := phase], l) == OwnerCount(tasks, l) + if l == phase.lock then 1 else 0
  {
    assert Owners(tasks[task := phase], l) == Owners(tasks, l) + if l == phase.lock then {task} else {};
  }

  lemma OwnerMoved(tasks: map<nat, Phase>, task: nat, phase: Phase, l: nat)
    requires task in tasks && tasks[task].lock == phase.lock
    ensures OwnerCount(tasks[task := phase], l) == OwnerCount(tasks, l)
  {
    assert Owners(tasks[task := phase], l) == Owners(tasks, l);
  }

  lemma OwnerGone(tasks: map<nat, Phase>, task: nat, l: nat)
    requires task in tasks
    ensures OwnerCount(tasks - {task}, l) == OwnerCount(tasks, l) - if l == tasks[task].lock then 1 else 0
  {
    assert Owners(tasks - {task}, l) == Owners(tasks, l) - if l == tasks[task].lock then {task} else {};
    assert l == tasks[task].lock ==> task in Owners(tasks, l);
  }

  lemma OwnedIsCounted(s: State, task: nat)
    requires Inv(s) && task in s.tasks
    ensures Count(s.counts, s.tasks[task].lock) > 1
  {
    assert task in Owners(s.tasks, s.tasks[task].lock);
  }

  lemma Unowned(tasks: map<nat, Phase>, lock: nat)
    requires forall t | t in tasks :: tasks[t].lock != lock
    ensures OwnerCount(tasks, lock) == 0
  {
    assert Owners(tasks, lock) == {};
  }

  /** The count tells whether a task uses the run. */
  lemma CountTellsUse(s: State, entry: string)
    requires Inv(s) && entry in s.table
    ensures Count(s.counts, s.table[entry]) > 1 <==> RunInUse(s.tasks, entry)
  {
    if t :| t in s.tasks && s.tasks[t].run == entry {
      OwnedIsCounted(s, t);
    } else {
      Unowned(s.tasks, s.table[entry]);
    }
  }

  // ---- The steps keep it ----

  lemma VisitKeeps(s: State, entry: string)
    requires Inv(s) && Enabled(s, Visit(entry))
    ensures Inv(VisitEntry(s, entry))
  {
    CountTellsUse(s, entry);
    hide Shared, Distinct, CountsExact, AllInTable, HeldExact, RunInUse, SectionOk;
    VisitSection(s, entry);
  }

  lemma VisitSection(s: State, entry: string)
    requires SectionOk(s.section, s.table, s.tasks) && Enabled(s, Visit(entry))
    requires Count(s.counts, s.table[entry]) > 1 <==> RunInUse(s.tasks, entry)
    ensures SectionOk(VisitEntry(s, entry).section, s.table, s.tasks)
  {
    hide RunInUse, Count;
  }

  lemma DiscardKeeps(s: State)
    requires Inv(s) && Enabled(s, Discard)
    ensures Inv(DiscardEntry(s))
  {
    hide Shared, Distinct, CountsExact, AllInTable, HeldExact, SectionOk, RunInUse;
    var entry := s.section.value.doomed.value;
    CountTellsUse(s, entry);
    DiscardSection(s, entry);
    UnusedStays(s, entry);
    DiscardTable(s, entry);
  }

  lemma DiscardSection(s: State, entry: string)
    requires SectionOk(s.section, s.table, s.tasks) && Enabled(s, Discard) && entry == s.section.value.doomed.value
    ensures !RunInUse(s.tasks, entry)
    ensures SectionOk(DiscardEntry(s).section, s.table - {entry}, s.tasks)
  {
    hide RunInUse, DropRef;
  }

  lemma UnusedStays(s: State, entry: string)
    requires !RunInUse(s.tasks, entry)
    ensures forall t | t in s.tasks :: s.tasks[t].run != entry
  {
    forall t | t in s.tasks ensures s.tasks[t].run != entry {
      assert !RunInUse(s.tasks, entry);
    }
  }

  lemma DiscardTable(s: State, entry: string)
    requires Shared(s.table, s.tasks) && Distinct(s.table, s.next) && CountsExact(s.table, s.counts, s.tasks)
    requires AllInTable(s.table, s.counts) && entry in s.table && forall t | t in s.tasks :: s.tasks[t].run != entry
    ensures var table, counts := s.table - {entry}, s.counts - {s.table[entry]};
            && Shared(table, s.tasks) && Distinct(table, s.next) && CountsExact(table, counts, s.tasks)
            && AllInTable(table, counts)
  {
    hide OwnerCount;
    var table, counts := s.table - {entry}, s.counts - {s.table[entry]};
    forall l | l in counts ensures exists r :: r in table && table[r] == l {
      var r :| r in s.table && s.table[r] == l;
      assert table[r] == l;
    }
  }

  lemma BeginKeeps(s: State, task: nat, run: string)
    requires Inv(s) && Enabled(s, Begin(task, run))
    ensures Inv(BeginSection(s, task, run))
  {
    hide Shared, Distinct, CountsExact, AllInTable, HeldExact;
  }

  lemma EnterKeeps(s: State)
    requires Inv(s) && Enabled(s, Enter)
    ensures Inv(EnterRun(s))
  {
    hide Shared, Distinct, CountsExact, AllInTable, HeldExact, SectionOk;
    var sec := s.section.value;
    EnterSection(s);
    if sec.run in s.table {
      assert EnterRun(s).table == s.table;
    } else {
      InsertTable(s, sec.run);
    }
  }

  lemma EnterSection(s: State)
    requires SectionOk(s.section, s.table, s.tasks) && Enabled(s, Enter)
    ensures SectionOk(EnterRun(s).section, EnterRun(s).table, s.tasks)
  {
    hide RunInUse;
    var sec := s.section.value;
    assert EnterRun(s).table.Keys == s.table.Keys + {sec.run};
  }

  lemma InsertTable(s: State, run: string)
    requires Shared(s.table, s.tasks) && Distinct(s.table, s.next) && CountsExact(s.table, s.counts, s.tasks)
    requires AllInTable(s.table, s.counts) && run !in s.table
    ensures var table, counts := s.table[run := s.next], s.counts[s.next := 1];
            && Shared(table, s.tasks) && Distinct(table, s.next + 1) && CountsExact(table, counts, s.tasks)
            && AllInTable(table, counts)
  {
    hide OwnerCount;
    var table, counts := s.table[run := s.next], s.counts[s.next := 1];
    Unowned(s.tasks, s.next);
    forall l | l in counts ensures exists r :: r in table && table[r] == l {
      if l == s.next {
        assert table[run] == l;
      } else {
        var r :| r in s.table && s.table[r] == l;
        assert table[r] == l;
      }
    }
  }

  lemma CloneKeeps(s: State)
    requires Inv(s) && Enabled(s, Clone)
    ensures Inv(CloneEntry(s))
  {
    hide CountsExact, Distinct, OwnerCount, RunInUse;
    CloneCounts(s);
    assert s.table[s.section.value.run] == s.section.value.lock;
  }

  lemma CloneCounts(s: State)
    requires Inv(s) && Enabled(s, Clone)
    ensures var s' := CloneEntry(s); CountsExact(s'.table, s'.counts, s'.tasks)
  {
    hide OwnerCount, Shared, HeldExact, AllInTable, RunInUse;
    var sec := s.section.value;
    var s' := CloneEntry(s);
    forall r | r in s.table ensures Count(s'.counts, s.table[r]) == 1 + OwnerCount(s'.tasks, s.table[r]) {
      OwnerAdded(s.tasks, sec.task, Waiting(sec.run, sec.lock), s.table[r]);
    }
  }

  /** Nobody starts to use a run while a task only moves on or leaves. */
  lemma SectionUndisturbed(s: State, tasks: map<nat, Phase>)
    requires SectionOk(s.section, s.table, s.tasks)
    requires forall t | t in tasks :: t in s.tasks && tasks[t].run == s.tasks[t].run
    ensures SectionOk(s.section, s.table, tasks)
  {
  }

  lemma MoveKeeps(s: State, task: nat, phase: Phase, held: map<nat, nat>)
    requires Inv(s) && task in s.tasks && phase.run == s.tasks[task].run && phase.lock == s.tasks[task].lock
    requires HeldExact(held, s.tasks[task := phase])
    ensures Inv(s.(held := held, tasks := s.tasks[task := phase]))
  {
    hide HeldExact, OwnerCount, Distinct, AllInTable;
    forall r | r in s.table ensures Count(s.counts, s.table[r]) == 1 + OwnerCount(s.tasks[task := phase], s.table[r]) {
      OwnerMoved(s.tasks, task, phase, s.table[r]);
    }
    SectionUndisturbed(s, s.tasks[task := phase]);
    hide SectionOk;
  }

  lemma LeaveKeeps(s: State, task: nat)
    requires Inv(s) && task in s.tasks && !s.tasks[task].Holding?
    ensures Inv(s.(counts := DropRef(s.counts, s.tasks[task].lock), tasks := s.tasks - {task}))
  {
    hide OwnerCount;
    var lock := s.tasks[task].lock;
    var counts := DropRef(s.counts, lock);
    OwnedIsCounted(s, task);
    assert counts == s.counts[lock := s.counts[lock] - 1];
    hide DropRef;
    forall r | r in s.table ensures Count(counts, s.table[r]) == 1 + OwnerCount(s.tasks - {task}, s.table[r]) {
      OwnerGone(s.tasks, task, s.table[r]);
    }
    HeldByOthers(s, task);
    SectionUndisturbed(s, s.tasks - {task});
    hide HeldExact, SectionOk;
    assert AllInTable(s.table, counts) by {
      forall l | l in counts ensures exists r :: r in s.table && s.table[r] == l {
        assert l in s.counts;
      }
    }
  }

  lemma HeldByOthers(s: State, task: nat)
    requires HeldExact(s.held, s.tasks) && task in s.tasks && !s.tasks[task].Holding?
    ensures HeldExact(s.held, s.tasks - {task})
  {
  }

  lemma StepKeeps(s: State, op: Op)
    requires Inv(s)
    ensures Inv(Step(s, op))
  {
    hide Shared, Distinct, CountsExact, AllInTable, SectionOk, BeginSection, VisitEntry, DiscardEntry, EnterRun, CloneEntry, DropRef;
    if Enabled(s, op) {
      match op
      case Begin(task, run) => BeginKeeps(s, task, run);
      case Visit(entry) => VisitKeeps(s, entry);
      case Discard => DiscardKeeps(s);
      case Enter => EnterKeeps(s);
      case Clone => CloneKeeps(s);
      case Grant(task) =>
        var phase := s.tasks[task];
        MoveKeeps(s, task, Holding(phase.run, phase.lock), s.held[phase.lock := task]);
      case Unlock(task) =>
        var phase := s.tasks[task];
        MoveKeeps(s, task, Dropping(phase.run, phase.lock), s.held - {phase.lock});
      case _ => LeaveKeeps(s, op.task);
    }
  }

  lemma {:induction false} RunKeeps(s: State, ops: seq<Op>)
    requires Inv(s)
    ensures Inv(Run(s, ops))
    decreases |ops|
  {
    hide Inv, Step;
    if ops != [] {
      StepKeeps(s, ops[0]);
      RunKeeps(Step(s, ops[0]), ops[1..]);
    }
  }

  lemma InitKeeps()
    ensures Inv(Init())
  {
  }

  // ---- Results ----

  /** In every interleaving the tasks of a run, waiting or holding, share the one lock in the table. */
  lemma TasksShareTheLock(ops: seq<Op>, t: nat, u: nat)
    requires var s := Run(Init(), ops); t in s.tasks && u in s.tasks && s.tasks[t].run == s.tasks[u].run
    ensures var s := Run(Init(), ops);
            s.tasks[t].run in s.table && s.tasks[t].lock == s.tasks[u].lock == s.table[s.tasks[t].run]
  {
    hide Run;
    RunKeeps(Init(), ops);
  }

  /** Hence at most one task holds a run's lock, although entries are collected and made anew. */
  lemma AtMostOneHolder(ops: seq<Op>, t: nat, u: nat)
    requires var s := Run(Init(), ops);
             && t in s.tasks && u in s.tasks && s.tasks[t].Holding? && s.tasks[u].Holding?
             && s.tasks[t].run == s.tasks[u].run
    ensures t == u
  {
    hide Run;
    RunKeeps(Init(), ops);
  }

  /** Tasks of different runs never meet at a lock. */
  lemma RunsDoNotMeet(ops: seq<Op>, t: nat, u: nat)
    requires var s := Run(Init(), ops); t in s.tasks && u in s.tasks && s.tasks[t].run != s.tasks[u].run
    ensures var s := Run(Init(), ops); s.tasks[t].lock != s.tasks[u].lock
  {
    hide Run;
    RunKeeps(Init(), ops);
  }

  /** A visit keeps an entry exactly if some task uses its run at that moment, and else marks it for removal. */
  lemma VisitsAreExact(ops: seq<Op>, entry: string)
    requires Enabled(Run(Init(), ops), Visit(entry))
    ensures var s := Run(Init(), ops);
            var sec := Step(s, Visit(entry)).section.value;
            && (entry in sec.kept <==> RunInUse(s.tasks, entry))
            && (sec.doomed == Some(entry) <==> !RunInUse(s.tasks, entry))
  {
    hide Run;
    RunKeeps(Init(), ops);
    CountTellsUse(Run(Init(), ops), entry);
  }

  /** No interleaving lets anyone use an entry between the reading of its count and its removal. */
  lemma RemovalsAreSafe(ops: seq<Op>)
    requires var s := Run(Init(), ops); s.section.Some? && s.section.value.Sweeping? && s.section.value.doomed.Some?
    ensures var s := Run(Init(), ops);
            && s.section.value.doomed.value in s.table
            && !RunInUse(s.tasks, s.section.value.doomed.value)
            && Count(s.counts, s.table[s.section.value.doomed.value]) == 1
  {
    hide Run;
    RunKeeps(Init(), ops);
    var s := Run(Init(), ops);
    CountTellsUse(s, s.section.value.doomed.value);
  }

  /**
   After an acquisition the table holds the acquired run and the entries its visits saw in use. So it holds
   exactly the runs in use if and only if none of those seen in use was given up since; in any case exactly
   the locks in the table are alive.
   */
  lemma NothingElseLeaks(ops: seq<Op>)
    requires var s := Run(Init(), ops); s.section.Some? && s.section.value.Entered?
    ensures var s := Run(Init(), ops);
            var s' := Step(s, Clone);
            && s'.table.Keys == s.section.value.kept + {s.section.value.run}
            && ((forall r :: r in s'.table <==> RunInUse(s'.tasks, r)) <==>
                (forall r | r in s.section.value.kept :: RunInUse(s'.tasks, r)))
            && (forall l :: l in s'.counts <==> exists r :: r in s'.table && s'.table[r] == l)
  {
    hide Run, RunInUse, Step, Inv, CloneEntry;
    InitKeeps();
    RunKeeps(Init(), ops);
    var s := Run(Init(), ops);
    CloneStep(s);
    CloneKeeps(s);
    var s' := CloneEntry(s);
    AcquiredInUse(s);
    assert s'.table == s.table by { CloneTable(s); }
    forall r ensures RunInUse(s'.tasks, r) ==> r in s'.table {
      UsedInTable(s', r);
    }
    forall l ensures l in s'.counts <==> exists r :: r in s'.table && s'.table[r] == l {
      AliveInTable(s', l);
    }
    assert forall r :: r in s'.table <==> r in s.section.value.kept + {s.section.value.run};
  }

  lemma CloneTable(s: State)
    requires s.section.Some? && s.section.value.Entered?
    ensures CloneEntry(s).table == s.table
  {
  }

  lemma CloneStep(s: State)
    requires Inv(s) && s.section.Some? && s.section.value.Entered?
    ensures Step(s, Clone) == CloneEntry(s)
    ensures s.table.Keys == s.section.value.kept + {s.section.value.run}
  {
  }

  lemma AcquiredInUse(s: State)
    requires s.section.Some? && s.section.value.Entered?
    ensures RunInUse(CloneEntry(s).tasks, s.section.value.run)
  {
    assert CloneEntry(s).tasks[s.section.value.task].run == s.section.value.run;
  }

  lemma UsedInTable(s: State, r: string)
    requires Inv(s)
    ensures RunInUse(s.tasks, r) ==> r in s.table
  {
  }

  lemma AliveInTable(s: State, l: nat)
    requires Inv(s)
    ensures l in s.counts <==> exists r :: r in s.table && s.table[r] == l
  {
  }

  // ---- Undisturbed sections, and a disturbed one ----

  /** A step by which no task gives up a reference. */
  predicate GivesUp(op: Op) {
    op.Cancel? || op.Release?
  }

  ghost predicate KeptInUse(s: State) {
    s.section.Some? ==> forall r | r in s.section.value.kept :: RunInUse(s.tasks, r)
  }

  lemma StepKeptInUse(s: State, op: Op)
    requires Inv(s) && KeptInUse(s) && !GivesUp(op)
    ensures KeptInUse(Step(s, op))
  {
    hide Shared, Distinct, CountsExact, AllInTable, HeldExact, DropRef;
    if Enabled(s, op) && op.Visit? {
      CountTellsUse(s, op.entry);
    }
    var s' := Step(s, op);
    assert forall t | t in s.tasks :: t in s'.tasks && s'.tasks[t].run == s.tasks[t].run;
    if s'.section.Some? {
      forall r | r in s'.section.value.kept ensures RunInUse(s'.tasks, r) {
        var t :| t in s.tasks && s.tasks[t].run == r;
        assert s'.tasks[t].run == r;
      }
    }
  }

  lemma {:induction false} RunKeptInUse(s: State, ops: seq<Op>)
    requires Inv(s) && KeptInUse(s) && forall i | 0 <= i < |ops| :: !GivesUp(ops[i])
    ensures KeptInUse(Run(s, ops))
    decreases |ops|
  {
    hide Inv, Step, KeptInUse;
    if ops != [] {
      StepKeeps(s, ops[0]);
      StepKeptInUse(s, ops[0]);
      assert forall i | 0 <= i < |ops[1..]| :: ops[1..][i] == ops[i + 1];
      RunKeptInUse(Step(s, ops[0]), ops[1..]);
    }
  }

  lemma {:induction false} RunConcat(s: State, a: seq<Op>, b: seq<Op>)
    ensures Run(s, a + b) == Run(Run(s, a), b)
    decreases |a|
  {
    hide Step;
    if a == [] {
      assert a + b == b;
    } else {
      assert (a + b)[1..] == a[1..] + b;
      RunConcat(Step(s, a[0]), a[1..], b);
    }
  }

  /** A section in which no task gives up a reference leaves exactly the runs in use. */
  lemma UndisturbedSectionsLeakNothing(before: seq<Op>, during: seq<Op>)
    requires Run(Init(), before).section.None?
    requires forall i | 0 <= i < |during| :: !GivesUp(during[i])
    requires var s := Run(Init(), before + during); s.section.Some? && s.section.value.Entered?
    ensures var s' := Step(Run(Init(), before + during), Clone);
            forall r :: r in s'.table <==> RunInUse(s'.tasks, r)
  {
    hide Run, RunInUse, Step;
    InitKeeps();
    RunKeeps(Init(), before);
    RunKeptInUse(Run(Init(), before), during);
    RunConcat(Init(), before, during);
    RunKeeps(Init(), before + during);
    var s := Run(Init(), before + during);
    CloneStep(s);
    NothingElseLeaks(before + during);
    forall r | r in s.section.value.kept ensures RunInUse(CloneEntry(s).tasks, r) {
      StillInUse(s, r);
    }
  }

  lemma StillInUse(s: State, r: string)
    requires Inv(s) && s.section.Some? && s.section.value.Entered? && RunInUse(s.tasks, r)
    ensures RunInUse(CloneEntry(s).tasks, r)
  {
    var t :| t in s.tasks && s.tasks[t].run == r;
    assert CloneEntry(s).tasks[t].run == r;
  }

  /** Task 0 acquires `a`; task 1 sweeps, and task 0 is gone right after its entry was visited: the entry stays. */
  lemma VisitedEntryStays(a: string, b: string)
    requires a != b
    ensures var s := Run(Init(), [Begin(0, a), Enter, Clone, Grant(0), Begin(1, b), Visit(a), Unlock(0), Release(0), Enter, Clone]);
            a in s.table && !RunInUse(s.tasks, a)
  {
    hide Run;
    var acquire, race := [Begin(0, a), Enter, Clone, Grant(0)], [Begin(1, b), Visit(a), Unlock(0), Release(0), Enter, Clone];
    var s1 := State(map[a := 0], map[0 := 2], map[0 := 0], map[0 := Holding(a, 0)], None, 1);
    assert Run(Init(), acquire) == s1 by { AcquireRun(a); }
    RaceRun(a, b, s1);
    RunConcat(Init(), acquire, race);
    assert acquire + race == [Begin(0, a), Enter, Clone, Grant(0), Begin(1, b), Visit(a), Unlock(0), Release(0), Enter, Clone];
  }

  lemma AcquireRun(a: string)
    ensures Run(Init(), [Begin(0, a), Enter, Clone, Grant(0)])
         == State(map[a := 0], map[0 := 2], map[0 := 0], map[0 := Holding(a, 0)], None, 1)
  {
    var s1 := Step(Init(), Begin(0, a));
    var s2 := Step(s1, Enter);
    assert s2 == State(map[a := 0], map[0 := 1], map[], map[], Some(Entered(0, a, 0, {})), 1);
    var s3 := Step(s2, Clone);
    var s4 := Step(s3, Grant(0));
    FourSteps(Init(), Begin(0, a), Enter, Clone, Grant(0));
  }

  lemma FourSteps(s: State, o1: Op, o2: Op, o3: Op, o4: Op)
    ensures Run(s, [o1, o2, o3, o4]) == Step(Step(Step(Step(s, o1), o2), o3), o4)
  {
    hide Step;
    var s1 := Step(s, o1);
    var s2 := Step(s1, o2);
    var s3 := Step(s2, o3);
    assert [o1, o2, o3, o4][1..] == [o2, o3, o4] && [o2, o3, o4][1..] == [o3, o4] && [o3, o4][1..] == [o4] && [o4][1..] == [];
    assert Run(s3, [o4]) == Run(Step(s3, o4), []) == Step(s3, o4);
    assert Run(s2, [o3, o4]) == Run(s3, [o4]);
    assert Run(s1, [o2, o3, o4]) == Run(s2, [o3, o4]);
  }

  lemma RaceRun(a: string, b: string, s: State)
    requires a != b && s == State(map[a := 0], map[0 := 2], map[0 := 0], map[0 := Holding(a, 0)], None, 1)
    ensures var s' := Run(s, [Begin(1, b), Visit(a), Unlock(0), Release(0), Enter, Clone]);
            a in s'.table && !RunInUse(s'.tasks, a)
  {
    hide Step;
    VisitRace(a, b, s);
    var s4 := State(map[a := 0], map[0 := 1], map[], map[], Some(Sweeping(1, b, {}, None, {a})), 1);
    EnterRace(a, b, s4);
    FourSteps(s, Begin(1, b), Visit(a), Unlock(0), Release(0));
    RunConcat(s, [Begin(1, b), Visit(a), Unlock(0), Release(0)], [Enter, Clone]);
    assert [Begin(1, b), Visit(a), Unlock(0), Release(0)] + [Enter, Clone]
        == [Begin(1, b), Visit(a), Unlock(0), Release(0), Enter, Clone];
    RunOne(s4, Enter);
    RunSnoc(s4, [Enter], Clone);
    assert [Enter] + [Clone] == [Enter, Clone];
  }

  lemma VisitRace(a: string, b: string, s: State)
    requires s == State(map[a := 0], map[0 := 2], map[0 := 0], map[0 := Holding(a, 0)], None, 1)
    ensures Step(Step(Step(Step(s, Begin(1, b)), Visit(a)), Unlock(0)), Release(0))
         == State(map[a := 0], map[0 := 1], map[], map[], Some(Sweeping(1, b, {}, None, {a})), 1)
  {
    assert s.table.Keys == {a} && {a} - {a} == {} && {} + {a} == {a};
    var s2 := Step(Step(s, Begin(1, b)), Visit(a));
    assert s2 == s.(section := Some(Sweeping(1, b, {}, None, {a})));
    var s3 := Step(s2, Unlock(0));
    assert s3.held == map[] && s3.tasks == map[0 := Dropping(a, 0)];
  }

  lemma EnterRace(a: string, b: string, s: State)
    requires a != b && s == State(map[a := 0], map[0 := 1], map[], map[], Some(Sweeping(1, b, {}, None, {a})), 1)
    ensures var s' := Step(Step(s, Enter), Clone);
            a in s'.table && !RunInUse(s'.tasks, a)
  {
    var s' := Step(Step(s, Enter), Clone);
    assert s'.tasks == map[1 := Waiting(b, 1)];
  }
}
