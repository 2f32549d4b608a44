/** Nested sessions as transactions. A session is opened, a body runs inside it, and the
    session is either merged into its parent or abandoned when it goes out of scope. */
module UndoSessions {
  import opened Arithmetic
  import opened ObjectStore
  import opened UndoMachine
  import opened Stacks

  datatype Program<V> =
    | Do(change: ObjectStore.Change<V>)
    | Then(first: Program<V>, second: Program<V>)
    | Session(body: Program<V>, merged: bool)

  /** How many sessions are open at once. */
  function Depth<V>(p: Program<V>): nat {
    match p
    case Do(_) => 0
    case Then(p1, p2) => if Depth(p1) < Depth(p2) then Depth(p2) else Depth(p1)
    case Session(body, _) => Depth(body) + 1
  }

  /** The changes that no abandoned session encloses. */
  function Kept<V>(p: Program<V>): seq<ObjectStore.Change<V>> {
    match p
    case Do(c) => [c]
    case Then(p1, p2) => Kept(p1) + Kept(p2)
    case Session(body, merged) => if merged then Kept(body) else []
  }

  /** Leaving a session: when the merge throws, the destructor still undoes. */
  function Close<V>(m: Machine<V>, merged: bool): Machine<V> {
    if merged && CanMerge(m.active, |m.stack|) then Step(m, Merge) else Step(m, Undo)
  }

  function Exec<V>(m: Machine<V>, p: Program<V>): Machine<V>
    decreases p
  {
    match p
    case Do(c) => Step(m, Change(c))
    case Then(p1, p2) => Exec(Exec(m, p1), p2)
    case Session(body, merged) => Close(Exec(Step(m, Start(false)), body), merged)
  }

  function SnapClose<V>(s: Snapshots<V>, merged: bool): Snapshots<V> {
    if merged && CanMerge(s.active, |s.saved|) then SnapStep(s, Merge) else SnapStep(s, Undo)
  }

  function SnapExec<V>(s: Snapshots<V>, p: Program<V>): Snapshots<V>
    decreases p
  {
    match p
    case Do(c) => SnapStep(s, Change(c))
    case Then(p1, p2) => SnapExec(SnapExec(s, p1), p2)
    case Session(body, merged) => SnapClose(SnapExec(SnapStep(s, Start(false)), body), merged)
  }

  /** Recording is on, and an enclosing state is open. */
  predicate Ready<V>(s: Snapshots<V>) {
    !s.disabled && s.saved != [] && s.exact <= |s.saved|
  }

  /** s1 keeps the newest states of s: the oldest are dropped, and only when the
      states still open and d more would not fit. */
  ghost predicate KeepsNewest<V>(s: Snapshots<V>, s1: Snapshots<V>, d: nat) {
    && |s1.saved| <= |s.saved|
    && s1.saved == s.saved[|s.saved| - |s1.saved|..]
    && (s1.exact == 0 || s1.exact + (|s.saved| - |s1.saved|) <= s.exact)
    && (|s1.saved| == |s.saved| || |s1.saved| + d > s.maxSize)
  }

  /** s1 is s after a program of depth d that leaves `store` behind, all its sessions closed. */
  ghost predicate Balanced<V>(s: Snapshots<V>, s1: Snapshots<V>, d: nat, store: Store<V>) {
    && s1.store == store
    && s1.active == s.active && s1.maxSize == s.maxSize
    && Ready(s1)
    && KeepsNewest(s, s1, d)
  }

  /** Dropping from `saved` what does not fit, pushing, dropping again and popping leaves a suffix of `saved`. */
  lemma PoppedIsSuffix<T>(saved: seq<T>, top: T, after: seq<T>, size: nat, d: nat)
    requires saved != [] && d < size
    requires var pushed := Trim(saved, size) + [top];
      && |after| <= |pushed| && after == pushed[|pushed| - |after|..]
      && (|after| == |pushed| || |after| + d > size)
    ensures |after| >= 2 && Last(after) == top
    ensures |after| - 1 <= |saved| && Front(after) == saved[|saved| - (|after| - 1)..]
    ensures |after| - 1 == |saved| || |after| - 1 + (d + 1) > size
  {
    var kept := Trim(saved, size);
    PoppedSuffix(kept, top, after);
    SuffixTwice(saved, kept, Front(after));
  }

  lemma PoppedSuffix<T>(kept: seq<T>, top: T, after: seq<T>)
    requires 1 < |after| <= |kept| + 1 && after == (kept + [top])[|kept| + 1 - |after|..]
    ensures Last(after) == top && Front(after) == kept[|kept| - (|after| - 1)..]
  {}

  lemma SuffixTwice<T>(s: seq<T>, t: seq<T>, u: seq<T>)
    requires |u| <= |t| <= |s| && t == s[|s| - |t|..] && u == t[|t| - |u|..]
    ensures u == s[|s| - |u|..]
  {}

  lemma CloseBalanced<V>(s: Snapshots<V>, s2: Snapshots<V>, d: nat, store: Store<V>, merged: bool)
    requires Ready(s) && d < s.maxSize
    requires Balanced(SnapStep(s, Start(false)), s2, d, store)
    ensures Balanced(s, SnapClose(s2, merged), d + 1, if merged then store else s.store)
    ensures s2.exact < |s2.saved|
  {
    PoppedIsSuffix(s.saved, s.store, s2.saved, s.maxSize, d);
    CloseValue(s2, merged);
  }

  /** Whether it merges or undoes, closing takes one state off the stack. */
  lemma CloseValue<V>(s: Snapshots<V>, merged: bool)
    requires Ready(s) && s.exact < |s.saved| && |s.saved| >= 2 && s.active > 0
    ensures SnapClose(s, merged)
         == s.(store := if merged then s.store else Last(s.saved), saved := Front(s.saved), active := s.active - 1)
  {}

  lemma BalancedTwice<V>(s: Snapshots<V>, s1: Snapshots<V>, s2: Snapshots<V>, d: nat, e: nat, store1: Store<V>, store2: Store<V>)
    requires Balanced(s, s1, d, store1) && Balanced(s1, s2, e, store2)
    ensures Balanced(s, s2, if d < e then e else d, store2)
  {
    SuffixTwice(s.saved, s1.saved, s2.saved);
  }

  /** A program no deeper than the history is long acts as its kept changes do, with no undo at all. */
  lemma {:induction false} SnapExecBalanced<V>(s: Snapshots<V>, p: Program<V>)
    requires Ready(s) && Depth(p) <= s.maxSize
    ensures Balanced(s, SnapExec(s, p), Depth(p), ApplyAll(s.store, Kept(p)))
    decreases p
  {
    match p
    case Do(c) =>
      assert ApplyAll(Apply(s.store, c), [c][1..]) == Apply(s.store, c);
    case Then(p1, p2) =>
      SnapExecBalanced(s, p1);
      var s1 := SnapExec(s, p1);
      SnapExecBalanced(s1, p2);
      ApplyAllConcat(s.store, Kept(p1), Kept(p2));
      BalancedTwice(s, s1, SnapExec(s1, p2), Depth(p1), Depth(p2), s1.store, ApplyAll(s1.store, Kept(p2)));
    case Session(body, merged) =>
      var s1 := SnapStep(s, Start(false));
      SnapExecBalanced(s1, body);
      CloseBalanced(s, SnapExec(s1, body), Depth(body), ApplyAll(s.store, Kept(body)), merged);
  }

  lemma {:induction false} ExecRefines<V>(m: Machine<V>, s: Snapshots<V>, p: Program<V>)
    requires Refines(m, s) && Ready(s) && Depth(p) <= s.maxSize
    ensures Refines(Exec(m, p), SnapExec(s, p))
    decreases p
  {
    match p
    case Do(c) => ChangeRefines(m, s, c);
    case Then(p1, p2) =>
      ExecRefines(m, s, p1);
      SnapExecBalanced(s, p1);
      ExecRefines(Exec(m, p1), SnapExec(s, p1), p2);
    case Session(body, merged) =>
      var m1, s1 := Step(m, Start(false)), SnapStep(s, Start(false));
      StartRefines(m, s, false);
      ExecRefines(m1, s1, body);
      SnapExecBalanced(s1, body);
      CloseBalanced(s, SnapExec(s1, body), Depth(body), ApplyAll(s.store, Kept(body)), merged);
      var m2, s2 := Exec(m1, body), SnapExec(s1, body);
      if merged && CanMerge(m2.active, |m2.stack|) { MergeRefines(m2, s2); } else { RewindRefines(m2, s2, Undo); }
  }

  /** Sessions are transactions: what is abandoned leaves no trace in objects or counters,
      what is merged is as if no session had been opened. */
  lemma SessionsAreTransactions<V>(m: Machine<V>, s: Snapshots<V>, p: Program<V>)
    requires Refines(m, s) && Ready(s) && Depth(p) <= m.maxSize
    ensures Exec(m, p).store == ApplyAll(m.store, Kept(p))
    ensures Exec(m, p).active == m.active
  {
    ExecRefines(m, s, p);
    SnapExecBalanced(s, p);
  }

  // ----- the bound on the depth is exact ------------------------------------------

  /** k sessions around one change, every one of them to be merged. */
  function Nested<V>(k: nat, c: ObjectStore.Change<V>): (p: Program<V>)
    ensures Depth(p) == k && Kept(p) == [c]
  {
    if k == 0 then Do(c) else Session(Nested(k - 1, c), true)
  }

  lemma {:induction false} NestedSize<V>(s: Snapshots<V>, k: nat, c: ObjectStore.Change<V>)
    requires Ready(s) && k <= s.maxSize
    ensures |SnapExec(s, Nested(k, c)).saved| == (if k == 0 then |s.saved| else Min(|s.saved|, s.maxSize - k + 1))
    decreases k
  {
    if k > 0 {
      var s1 := SnapStep(s, Start(false));
      NestedSize(s1, k - 1, c);
      SnapExecBalanced(s1, Nested(k - 1, c));
      CloseSize(SnapExec(s1, Nested(k - 1, c)));
    }
  }

  /** A merge that is possible takes one state off the stack. */
  lemma CloseSize<V>(s: Snapshots<V>)
    requires Ready(s) && |s.saved| >= 2 && s.active > 0
    ensures |SnapClose(s, true).saved| == |s.saved| - 1
  {}

  /** The change is lost, the stack is down to one state, and that is like new. */
  ghost predicate Lost<V>(s: Snapshots<V>, s': Snapshots<V>) {
    && s'.store == s.store && s'.saved == [s.store] && s'.exact == 0
    && s'.active == s.active && s'.maxSize == s.maxSize && !s'.disabled
  }

  /** With one state left, and that the outermost session's, there is nothing to merge into: the merge throws
      and the destructor undoes. */
  lemma CloseLoses<V>(s: Snapshots<V>, s2: Snapshots<V>)
    requires !s.disabled && |s2.saved| == 1 && s2.saved[0] == s.store && s2.exact == 0
    requires s2.active == s.active + 1 && s2.maxSize == s.maxSize && !s2.disabled
    ensures Lost(s, SnapClose(s2, true))
  {}

  /** With one session more than fit, trimming has eaten the parent of the outermost. */
  lemma OneTooDeep<V>(s: Snapshots<V>, c: ObjectStore.Change<V>)
    requires Ready(s)
    ensures var s2 := SnapExec(SnapStep(s, Start(false)), Nested(s.maxSize, c));
      |s2.saved| == 1 && s2.saved[0] == s.store && s2.exact == 0
      && s2.active == s.active + 1 && s2.maxSize == s.maxSize && !s2.disabled
  {
    var s1 := SnapStep(s, Start(false));
    SnapExecBalanced(s1, Nested(s.maxSize, c));
    NestedSize(s1, s.maxSize, c);
  }

  /** Nesting deeper than that changes nothing any more: every session beyond finds the same single state. */
  lemma {:induction false} TooDeepLoses<V>(s: Snapshots<V>, k: nat, c: ObjectStore.Change<V>)
    requires Ready(s) && k > s.maxSize
    ensures Lost(s, SnapExec(s, Nested(k, c)))
    decreases k
  {
    var s1 := SnapStep(s, Start(false));
    if k == s.maxSize + 1 {
      OneTooDeep(s, c);
    } else {
      TooDeepLoses(s1, k - 1, c);
    }
    CloseLoses(s, SnapExec(s1, Nested(k - 1, c)));
  }

  lemma UndoneRefines<V>(m: Machine<V>, s: Snapshots<V>)
    requires Refines(m, s) && |s.saved| == 1 && s.exact == 0
    ensures Refines(Close(m, true), SnapClose(s, true))
  {
    RewindRefines(m, s, Undo);
  }

  lemma NestedOnce<V>(m: Machine<V>, s: Snapshots<V>, k: nat, c: ObjectStore.Change<V>)
    requires k > 0
    ensures Exec(m, Nested(k, c)) == Close(Exec(Step(m, Start(false)), Nested(k - 1, c)), true)
    ensures SnapExec(s, Nested(k, c)) == SnapClose(SnapExec(SnapStep(s, Start(false)), Nested(k - 1, c)), true)
  {}

  lemma OneStateLeft<V>(s: Snapshots<V>, k: nat, c: ObjectStore.Change<V>)
    requires Ready(s) && k >= s.maxSize
    ensures var s2 := SnapExec(SnapStep(s, Start(false)), Nested(k, c)); |s2.saved| == 1 && s2.exact == 0
  {
    if k == s.maxSize { OneTooDeep(s, c); } else { TooDeepLoses(SnapStep(s, Start(false)), k, c); }
  }

  /** One session more, beyond the limit. */
  lemma OneMoreRefines<V>(m: Machine<V>, s: Snapshots<V>, m1: Machine<V>, s1: Snapshots<V>, k: nat, c: ObjectStore.Change<V>)
    requires Ready(s) && k > s.maxSize && m1 == Step(m, Start(false)) && s1 == SnapStep(s, Start(false))
    requires Refines(Exec(m1, Nested(k - 1, c)), SnapExec(s1, Nested(k - 1, c)))
    ensures Refines(Exec(m, Nested(k, c)), SnapExec(s, Nested(k, c)))
  {
    NestedOnce(m, s, k, c);
    OneStateLeft(s, k - 1, c);
    UndoneRefines(Exec(m1, Nested(k - 1, c)), SnapExec(s1, Nested(k - 1, c)));
  }

  lemma Started<V>(m: Machine<V>, s: Snapshots<V>) returns (m1: Machine<V>, s1: Snapshots<V>)
    requires Refines(m, s) && Ready(s)
    ensures m1 == Step(m, Start(false)) && s1 == SnapStep(s, Start(false))
    ensures Refines(m1, s1) && Ready(s1)
  {
    m1, s1 := Step(m, Start(false)), SnapStep(s, Start(false));
    StartRefines(m, s, false);
  }

  lemma {:induction false} NestedRefines<V>(m: Machine<V>, s: Snapshots<V>, k: nat, c: ObjectStore.Change<V>)
    requires Refines(m, s) && Ready(s)
    ensures Refines(Exec(m, Nested(k, c)), SnapExec(s, Nested(k, c)))
    decreases k
  {
    if k <= s.maxSize {
      ExecRefines(m, s, Nested(k, c));
    } else {
      var m1, s1 := Started(m, s);
      NestedRefines(m1, s1, k - 1, c);
      OneMoreRefines(m, s, m1, s1, k, c);
    }
  }

  /** A change inside k sessions that are all to be merged takes effect if and only if k is within the limit. */
  lemma TakesEffectIff<V>(m: Machine<V>, s: Snapshots<V>, k: nat, c: ObjectStore.Change<V>)
    requires Refines(m, s) && Ready(s) && Apply(m.store, c) != m.store
    ensures Depth(Nested(k, c)) == k
    ensures Exec(m, Nested(k, c)).store == Apply(m.store, c) <==> k <= m.maxSize
    ensures k > m.maxSize ==> Exec(m, Nested(k, c)).store == m.store
  {
    if k <= m.maxSize {
      SessionsAreTransactions(m, s, Nested(k, c));
      assert ApplyAll(Apply(m.store, c), [c][1..]) == Apply(m.store, c);
    } else {
      TooDeepLoses(s, k, c);
      NestedRefines(m, s, k, c);
    }
  }
}
