/** The undo database as a machine of deltas, the machine of full snapshots it
    stands for, and the proof that every run of the first is a run of the second. */
module UndoMachine {
  import opened Arithmetic
  import opened ObjectStore
  import opened UndoDelta
  import opened Stacks

  datatype Op<V> =
    | Change(change: ObjectStore.Change<V>)
    | Start(force: bool)
    | Undo
    | Merge
    | Commit
    | PopCommit
    | Enable
    | Disable
    | SetMaxSize(size: nat)

  // ----- the machine of deltas -------------------------------------------------

  datatype Machine<V> = Machine(
    store: Store<V>,
    stack: seq<Delta<V>>,
    active: nat,
    disabled: bool,
    maxSize: nat)

  predicate CanStart(disabled: bool, force: bool) {
    !disabled || force
  }

  /** Undo on an empty stack would be an error of the program; Inv rules it out. */
  predicate CanUndo(disabled: bool, active: nat, depth: nat) {
    !disabled && active > 0 && depth > 0
  }

  predicate CanMerge(active: nat, depth: nat) {
    active > 0 && depth >= 2
  }

  predicate CanPop(active: nat, depth: nat) {
    active == 0 && depth > 0
  }

  /** One call; a call whose assertions fail throws and changes nothing. */
  function Step<V>(m: Machine<V>, op: Op<V>): Machine<V> {
    match op
    case Change(c) => StepChange(m, c)
    case Start(force) =>
      if CanStart(m.disabled, force)
      then m.(stack := Trim(m.stack, m.maxSize) + [Nothing()], active := m.active + 1, disabled := false)
      else m
    case Undo =>
      if CanUndo(m.disabled, m.active, |m.stack|)
      then m.(store := Rewind(Last(m.stack), m.store), stack := Opened(Front(m.stack), Nothing()), active := m.active - 1)
      else m
    case Merge =>
      if CanMerge(m.active, |m.stack|)
      then
        var rest := Front(m.stack);
        m.(stack := Front(rest) + [Compose(Last(rest), Last(m.stack))], active := m.active - 1)
      else m
    case Commit => if m.active > 0 then m.(active := m.active - 1) else m
    case PopCommit =>
      if CanPop(m.active, |m.stack|)
      then m.(store := Rewind(Last(m.stack), m.store), stack := Front(m.stack), disabled := false)
      else m
    case Enable => m.(disabled := false)
    case Disable => m.(disabled := true)
    case SetMaxSize(size) => m.(maxSize := size)
  }

  function StepChange<V>(m: Machine<V>, c: ObjectStore.Change<V>): Machine<V> {
    if !Applicable(m.store, c) then m
    else if m.disabled then m.(store := Apply(m.store, c))
    else
      var stack := Opened(m.stack, Nothing());
      m.(store := Apply(m.store, c), stack := Front(stack) + [Record(Last(stack), m.store, c)])
  }

  function Run<V>(m: Machine<V>, ops: seq<Op<V>>): Machine<V>
    decreases |ops|
  {
    if ops == [] then m else Run(Step(m, ops[0]), ops[1..])
  }

  // ----- the machine of snapshots -----------------------------------------------

  /** saved[i] is the whole database as it was when state i was opened. Changes made
      while recording is off are not tracked, so the states below `exact`, which were
      open at that time, promise nothing. */
  datatype Snapshots<V> = Snapshots(
    store: Store<V>,
    saved: seq<Store<V>>,
    exact: nat,
    active: nat,
    disabled: bool,
    maxSize: nat)

  function SnapStep<V>(s: Snapshots<V>, op: Op<V>): Snapshots<V> {
    match op
    case Change(c) => SnapChange(s, c)
    case Start(force) =>
      if CanStart(s.disabled, force)
      then
        var kept := Trim(s.saved, s.maxSize);
        var dropped := |s.saved| - |kept|;
        s.(saved := kept + [s.store], exact := if s.exact > dropped then s.exact - dropped else 0,
           active := s.active + 1, disabled := false)
      else s
    case Undo =>
      if CanUndo(s.disabled, s.active, |s.saved|)
      then
        var back := Last(s.saved);
        s.(store := back, saved := Opened(Front(s.saved), back), active := s.active - 1)
      else s
    case Merge =>
      if CanMerge(s.active, |s.saved|)
      then s.(saved := Front(s.saved), exact := Min(s.exact, |s.saved| - 1), active := s.active - 1)
      else s
    case Commit => if s.active > 0 then s.(active := s.active - 1) else s
    case PopCommit =>
      if CanPop(s.active, |s.saved|)
      then s.(store := Last(s.saved), saved := Front(s.saved), disabled := false)
      else s
    case Enable => s.(disabled := false)
    case Disable => s.(disabled := true)
    case SetMaxSize(size) => s.(maxSize := size)
  }

  function SnapChange<V>(s: Snapshots<V>, c: ObjectStore.Change<V>): Snapshots<V> {
    if !Applicable(s.store, c) then s
    else if s.disabled then s.(store := Apply(s.store, c), exact := |s.saved|)
    else s.(store := Apply(s.store, c), saved := Opened(s.saved, s.store))
  }

  function SnapRun<V>(s: Snapshots<V>, ops: seq<Op<V>>): Snapshots<V>
    decreases |ops|
  {
    if ops == [] then s else SnapRun(SnapStep(s, ops[0]), ops[1..])
  }

  /** No state is rewound that was open while recording was off. */
  predicate Tracked<V>(s: Snapshots<V>, op: Op<V>) {
    && (op.Undo? && CanUndo(s.disabled, s.active, |s.saved|) ==> s.exact < |s.saved|)
    && (op.PopCommit? && CanPop(s.active, |s.saved|) ==> s.exact < |s.saved|)
  }

  predicate TrackedRun<V>(s: Snapshots<V>, ops: seq<Op<V>>)
    decreases |ops|
  {
    ops == [] || (Tracked(s, ops[0]) && TrackedRun(SnapStep(s, ops[0]), ops[1..]))
  }

  // ----- refinement ----------------------------------------------------------------

  /** The database right after state i was closed: the next snapshot, or the present. */
  function After<V>(s: Snapshots<V>, i: nat): Store<V> {
    if i + 1 < |s.saved| then s.saved[i + 1] else s.store
  }

  ghost predicate EntryRefines<V>(m: Machine<V>, s: Snapshots<V>, i: nat)
    requires i < |m.stack| == |s.saved|
  {
    WellFormed(s.saved[i]) && Between(m.stack[i], s.saved[i], After(s, i))
  }

  ghost predicate Refines<V>(m: Machine<V>, s: Snapshots<V>) {
    && m.store == s.store && m.active == s.active && m.disabled == s.disabled && m.maxSize == s.maxSize
    && WellFormed(m.store)
    && |m.stack| == |s.saved|
    && s.exact <= |s.saved|
    && (m.active > 0 ==> |m.stack| > 0)
    && forall i: nat :: s.exact <= i < |m.stack| ==> EntryRefines(m, s, i)
  }

  lemma ChangeRefines<V>(m: Machine<V>, s: Snapshots<V>, c: ObjectStore.Change<V>)
    requires Refines(m, s)
    ensures Refines(StepChange(m, c), SnapChange(s, c))
  {
    var m', s' := StepChange(m, c), SnapChange(s, c);
    ApplyWellFormed(m.store, c);
    if Applicable(m.store, c) && !m.disabled {
      var stack, saved := Opened(m.stack, Nothing()), Opened(s.saved, s.store);
      NothingChanged(m.store);
      forall i: nat | s'.exact <= i < |m'.stack|
        ensures EntryRefines(m', s', i)
      {
        if m.stack != [] { assert EntryRefines(m, s, i); }
        if i == |stack| - 1 {
          RecordExact(stack[i], saved[i], m.store, c);
        }
      }
    }
  }

  lemma StartRefines<V>(m: Machine<V>, s: Snapshots<V>, force: bool)
    requires Refines(m, s)
    ensures Refines(Step(m, Start(force)), SnapStep(s, Start(force)))
  {
    var m', s' := Step(m, Start(force)), SnapStep(s, Start(force));
    if CanStart(m.disabled, force) {
      NothingChanged(m.store);
      var dropped := |m.stack| - |Trim(m.stack, m.maxSize)|;
      forall i: nat | s'.exact <= i < |m'.stack|
        ensures EntryRefines(m', s', i)
      {
        if i < |m'.stack| - 1 { assert EntryRefines(m, s, i + dropped); }
      }
    }
  }

  lemma RewindRefines<V>(m: Machine<V>, s: Snapshots<V>, op: Op<V>)
    requires Refines(m, s) && (op.Undo? || op.PopCommit?) && Tracked(s, op)
    ensures Refines(Step(m, op), SnapStep(s, op))
  {
    var m', s' := Step(m, op), SnapStep(s, op);
    if (op.Undo? && CanUndo(m.disabled, m.active, |m.stack|)) || (op.PopCommit? && CanPop(m.active, |m.stack|)) {
      var top := |m.stack| - 1;
      assert EntryRefines(m, s, top);
      RewindExact(m.stack[top], s.saved[top], m.store);
      NothingChanged(m'.store);
      forall i: nat | s'.exact <= i < |m'.stack|
        ensures EntryRefines(m', s', i)
      {
        if top > 0 { assert EntryRefines(m, s, i); }
      }
    }
  }

  lemma MergeRefines<V>(m: Machine<V>, s: Snapshots<V>)
    requires Refines(m, s)
    ensures Refines(Step(m, Merge), SnapStep(s, Merge))
  {
    var m', s' := Step(m, Merge), SnapStep(s, Merge);
    if CanMerge(m.active, |m.stack|) {
      var top := |m.stack| - 1;
      forall i: nat | s'.exact <= i < |m'.stack|
        ensures EntryRefines(m', s', i)
      {
        assert EntryRefines(m, s, i);
        if i == top - 1 {
          assert EntryRefines(m, s, top);
          ComposeExact(m.stack[i], m.stack[top], s.saved[i], s.saved[top], s.store);
        }
      }
    }
  }

  /** Every call on deltas is the same call on full snapshots. */
  lemma StepRefines<V>(m: Machine<V>, s: Snapshots<V>, op: Op<V>)
    requires Refines(m, s) && Tracked(s, op)
    ensures Refines(Step(m, op), SnapStep(s, op))
  {
    match op
    case Change(c) => ChangeRefines(m, s, c);
    case Start(force) => StartRefines(m, s, force);
    case Undo => RewindRefines(m, s, op);
    case PopCommit => RewindRefines(m, s, op);
    case Merge => MergeRefines(m, s);
    case Commit => SameEntries(m, s, op);
    case Enable => SameEntries(m, s, op);
    case Disable => SameEntries(m, s, op);
    case SetMaxSize(_) => SameEntries(m, s, op);
  }

  lemma SameEntries<V>(m: Machine<V>, s: Snapshots<V>, op: Op<V>)
    requires Refines(m, s) && (op.Commit? || op.Enable? || op.Disable? || op.SetMaxSize?)
    ensures Refines(Step(m, op), SnapStep(s, op))
  {
    var m', s' := Step(m, op), SnapStep(s, op);
    forall i: nat | s'.exact <= i < |m'.stack|
      ensures EntryRefines(m', s', i)
    {
      assert EntryRefines(m, s, i);
    }
  }

  /** Every run: the deltas restore exactly the objects and counters full copies would restore. */
  lemma {:induction false} RunRefines<V>(m: Machine<V>, s: Snapshots<V>, ops: seq<Op<V>>)
    requires Refines(m, s) && TrackedRun(s, ops)
    ensures Refines(Run(m, ops), SnapRun(s, ops))
    ensures Run(m, ops).store == SnapRun(s, ops).store
    decreases |ops|
  {
    if ops != [] {
      StepRefines(m, s, ops[0]);
      RunRefines(Step(m, ops[0]), SnapStep(s, ops[0]), ops[1..]);
    }
  }
}
