/** The undo database as it runs: containers updated in place, loops over them on undo,
    merge and pop_commit. Every method is one step of the machine of deltas. */
module UndoDatabase {
  import opened ObjectStore
  import opened UndoDelta
  import opened UndoMachine
  import opened Stacks
  import opened Maps

  class Database<V(==)> {
    var store: Store<V>
    var stack: seq<Delta<V>>
    var active: nat
    var disabled: bool
    var maxSize: nat
    /** The full snapshots the deltas stand for. */
    ghost var shadow: Snapshots<V>

    ghost function State(): Machine<V>
      reads this
    {
      Machine(store, stack, active, disabled, maxSize)
    }

    ghost predicate Valid()
      reads this
    {
      Refines(State(), shadow)
    }

    /** A fresh database with the given indexes; recording is off until it is enabled, 256 states are kept. */
    constructor (indexes: set<IndexId>)
      ensures Valid()
      ensures State() == Machine(Store(map[], map i | i in indexes :: 0), [], 0, true, 256)
      ensures shadow == Snapshots(store, [], 0, 0, true, 256)
    {
      store := Store(map[], map i | i in indexes :: 0);
      stack, active, disabled, maxSize := [], 0, true, 256;
      new;
      shadow := Snapshots(store, [], 0, 0, true, 256);
    }

    /** The hooks of the indexes call this before the state on top is written to. */
    method OpenState()
      modifies this`stack
      ensures stack == Opened(old(stack), Nothing())
    {
      if stack == [] {
        stack := [Nothing()];
      }
    }

    /** on_create runs just after the object is in the index. */
    method Create(index: IndexId, value: V) returns (id: ObjectId)
      requires Valid() && index in store.nextIds
      modifies this
      ensures Valid() && id == FreshId(old(store), index)
      ensures State() == Step(old(State()), Change(ObjectStore.Create(index, value)))
      ensures shadow == SnapStep(old(shadow), Change(ObjectStore.Create(index, value)))
    {
      ghost var op := Change(ObjectStore.Create(index, value));
      StepRefines(State(), shadow, op);
      id := ObjectId(index, store.nextIds[index]);
      store := Store(store.objects[id := value], store.nextIds[index := id.number + 1]);
      if !disabled {
        OpenState();
        var state := stack[|stack| - 1];
        if id.index !in state.oldNextIds {
          state := state.(oldNextIds := state.oldNextIds[id.index := id.number]);
        }
        state := state.(newIds := state.newIds + {id});
        stack := stack[..|stack| - 1] + [state];
      }
      shadow := SnapStep(shadow, op);
    }

    /** on_modify runs just before the object is written. */
    method Modify(id: ObjectId, value: V)
      requires Valid() && id in store.objects
      modifies this
      ensures Valid()
      ensures State() == Step(old(State()), Change(ObjectStore.Modify(id, value)))
      ensures shadow == SnapStep(old(shadow), Change(ObjectStore.Modify(id, value)))
    {
      ghost var op := Change(ObjectStore.Modify(id, value));
      StepRefines(State(), shadow, op);
      if !disabled {
        OpenState();
        var state := stack[|stack| - 1];
        if id !in state.newIds && id !in state.oldValues {
          state := state.(oldValues := state.oldValues[id := store.objects[id]]);
        }
        stack := stack[..|stack| - 1] + [state];
      }
      store := store.(objects := store.objects[id := value]);
      shadow := SnapStep(shadow, op);
    }

    /** on_remove runs just before the object leaves the index. */
    method Remove(id: ObjectId)
      requires Valid() && id in store.objects
      modifies this
      ensures Valid()
      ensures State() == Step(old(State()), Change(ObjectStore.Remove(id)))
      ensures shadow == SnapStep(old(shadow), Change(ObjectStore.Remove(id)))
    {
      ghost var op := Change(ObjectStore.Remove(id));
      StepRefines(State(), shadow, op);
      if !disabled {
        OpenState();
        var state := stack[|stack| - 1];
        if id in state.newIds {
          state := state.(newIds := state.newIds - {id});
        } else if id in state.oldValues {
          state := state.(removed := state.removed[id := state.oldValues[id]], oldValues := state.oldValues - {id});
        } else if id !in state.removed {
          state := state.(removed := state.removed[id := store.objects[id]]);
        }
        stack := stack[..|stack| - 1] + [state];
      }
      store := store.(objects := store.objects - {id});
      shadow := SnapStep(shadow, op);
    }

    method DropOldest()
      modifies this`stack
      ensures stack == Trim(old(stack), maxSize)
    {
      while |stack| > maxSize
        invariant Trim(stack, maxSize) == Trim(old(stack), maxSize)
      {
        stack := stack[1..];
      }
    }

    method StartUndoSession(force: bool)
      requires Valid()
      modifies this
      ensures Valid()
      ensures State() == Step(old(State()), Start(force)) && shadow == SnapStep(old(shadow), Start(force))
    {
      StepRefines(State(), shadow, Start(force));
      shadow := SnapStep(shadow, Start(force));
      if disabled && !force {
        return;
      }
      if force {
        disabled := false;
      }
      DropOldest();
      stack := stack + [Nothing()];
      active := active + 1;
    }

    /** Shared by undo and pop_commit. Each object to be written back or deleted is found,
        and no object to be reinserted is there already. */
    method RestoreTop(ghost was: Store<V>)
      requires stack != [] && Between(Last(stack), was, store)
      modifies this`store
      ensures store == Rewind(Last(stack), old(store))
    {
      var state := stack[|stack| - 1];
      forall id
        ensures id in state.oldValues ==> id in store.objects
        ensures id in state.newIds ==> id in store.objects
        ensures id in state.removed ==> id !in store.objects
      {
        assert ObjectBetween(state, was, store, id);
      }
      var objects := WriteBack(store.objects, state.oldValues);
      objects := DeleteNew(objects, state.newIds);
      var counters := ResetCounters(store.nextIds, state.oldNextIds);
      objects := Reinsert(objects, state.removed);
      store := Store(objects, counters);
    }

    /** False, and nothing changed, when an assertion of the original throws. */
    method Undo() returns (ok: bool)
      requires Valid() && Tracked(shadow, UndoMachine.Undo)
      modifies this
      ensures Valid() && (ok <==> !old(disabled) && old(active) > 0)
      ensures State() == Step(old(State()), UndoMachine.Undo) && shadow == SnapStep(old(shadow), UndoMachine.Undo)
    {
      if disabled || active == 0 {
        return false;
      }
      StepRefines(State(), shadow, UndoMachine.Undo);
      assert EntryRefines(State(), shadow, |stack| - 1);
      disabled := true;
      RestoreTop(Last(shadow.saved));
      stack := stack[..|stack| - 1];
      OpenState();
      disabled := false;
      active := active - 1;
      shadow := SnapStep(shadow, UndoMachine.Undo);
      return true;
    }

    method PopCommit() returns (ok: bool)
      requires Valid() && Tracked(shadow, UndoMachine.PopCommit)
      modifies this
      ensures Valid() && (ok <==> old(active) == 0 && old(stack) != [])
      ensures State() == Step(old(State()), UndoMachine.PopCommit) && shadow == SnapStep(old(shadow), UndoMachine.PopCommit)
    {
      if active != 0 || stack == [] {
        return false;
      }
      StepRefines(State(), shadow, UndoMachine.PopCommit);
      assert EntryRefines(State(), shadow, |stack| - 1);
      disabled := true;
      RestoreTop(Last(shadow.saved));
      stack := stack[..|stack| - 1];
      disabled := false;
      shadow := SnapStep(shadow, UndoMachine.PopCommit);
      return true;
    }

    /** The two assertions in the loops of merge are the cells marked N/A; when both states
        were tracked they never fire. */
    method Merge() returns (ok: bool)
      requires Valid() && shadow.exact + 1 < |stack|
      modifies this
      ensures Valid() && (ok <==> old(active) > 0 && |old(stack)| >= 2)
      ensures State() == Step(old(State()), UndoMachine.Merge) && shadow == SnapStep(old(shadow), UndoMachine.Merge)
    {
      if active == 0 || |stack| < 2 {
        return false;
      }
      StepRefines(State(), shadow, UndoMachine.Merge);
      var state, prev := stack[|stack| - 1], stack[|stack| - 2];
      assert EntryRefines(State(), shadow, |stack| - 1) && EntryRefines(State(), shadow, |stack| - 2);
      prev := MergeInto(prev, state, shadow.saved[|stack| - 2], shadow.saved[|stack| - 1], store);
      assert Front(Front(stack)) == stack[..|stack| - 2];
      stack := stack[..|stack| - 2] + [prev];
      active := active - 1;
      shadow := SnapStep(shadow, UndoMachine.Merge);
      return true;
    }

    method Commit() returns (ok: bool)
      requires Valid()
      modifies this
      ensures Valid() && (ok <==> old(active) > 0)
      ensures State() == Step(old(State()), UndoMachine.Commit) && shadow == SnapStep(old(shadow), UndoMachine.Commit)
    {
      StepRefines(State(), shadow, UndoMachine.Commit);
      shadow := SnapStep(shadow, UndoMachine.Commit);
      if active == 0 {
        return false;
      }
      active := active - 1;
      return true;
    }

    method SetEnabled(enabled: bool)
      requires Valid()
      modifies this
      ensures Valid()
      ensures var op := if enabled then Enable else Disable;
        State() == Step(old(State()), op) && shadow == SnapStep(old(shadow), op)
    {
      ghost var op := if enabled then Enable else Disable;
      StepRefines(State(), shadow, op);
      shadow := SnapStep(shadow, op);
      disabled := !enabled;
    }

    method SetMaxSize(size: nat)
      requires Valid()
      modifies this
      ensures Valid()
      ensures State() == Step(old(State()), UndoMachine.SetMaxSize(size)) && shadow == SnapStep(old(shadow), UndoMachine.SetMaxSize(size))
    {
      StepRefines(State(), shadow, UndoMachine.SetMaxSize(size));
      shadow := SnapStep(shadow, UndoMachine.SetMaxSize(size));
      maxSize := size;
    }
  }

  // ----- the loops of undo ------------------------------------------------------

  /** Every object looked up is there. */
  method WriteBack<V(==)>(m: map<ObjectId, V>, olds: map<ObjectId, V>) returns (r: map<ObjectId, V>)
    requires olds.Keys <= m.Keys
    ensures r == m + olds
  {
    r := m;
    var todo := olds;
    ghost var done := map[];
    while todo != map[]
      invariant todo.Keys !! done.Keys && todo + done == olds
      invariant r == m + done
      decreases todo.Keys
    {
      var id :| id in todo;
      assert id in r by { assert id in olds; }
      TakeOne(todo, done, id);
      PutOne(m, done, id, todo[id]);
      r := r[id := todo[id]];
      done := done[id := todo[id]];
      todo := todo - {id};
    }
    assert todo + done == done;
  }

  method DeleteNew<V>(m: map<ObjectId, V>, news: set<ObjectId>) returns (r: map<ObjectId, V>)
    requires news <= m.Keys
    ensures r == m - news
  {
    r := m;
    var todo := news;
    while todo != {}
      invariant todo <= news
      invariant r == m - (news - todo)
    {
      var id :| id in todo;
      assert id in r;
      DropOne(m, news - todo, id);
      assert news - (todo - {id}) == (news - todo) + {id};
      r := r - {id};
      todo := todo - {id};
    }
    assert news - todo == news;
  }

  method ResetCounters<I(==), N(==)>(m: map<I, N>, olds: map<I, N>) returns (r: map<I, N>)
    ensures r == m + olds
  {
    r := m;
    var todo := olds;
    ghost var done := map[];
    while todo != map[]
      invariant todo.Keys !! done.Keys && todo + done == olds
      invariant r == m + done
      decreases todo.Keys
    {
      var i :| i in todo;
      TakeOne(todo, done, i);
      PutOne(m, done, i, todo[i]);
      r := r[i := todo[i]];
      done := done[i := todo[i]];
      todo := todo - {i};
    }
    assert todo + done == done;
  }

  /** No insertion meets an object with the same id. */
  method Reinsert<V(==)>(m: map<ObjectId, V>, gone: map<ObjectId, V>) returns (r: map<ObjectId, V>)
    requires gone.Keys !! m.Keys
    ensures r == m + gone
  {
    r := m;
    var todo := gone;
    ghost var done := map[];
    while todo != map[]
      invariant todo.Keys !! done.Keys && todo + done == gone
      invariant r == m + done
      decreases todo.Keys
    {
      var id :| id in todo;
      assert id !in r by { assert id in gone; }
      TakeOne(todo, done, id);
      PutOne(m, done, id, todo[id]);
      r := r[id := todo[id]];
      done := done[id := todo[id]];
      todo := todo - {id};
    }
    assert todo + done == done;
  }

  // ----- the loops of merge ---------------------------------------------------------

  /** *+upd: objects the older state does not know about are taken over. */
  method MergeOldValues<K(==), V(==)>(news: set<K>, olds: map<K, V>, removed: map<K, V>, from: map<K, V>)
    returns (r: map<K, V>)
    requires forall id :: id in from ==> id in news || id in olds || id !in removed
    ensures r == (from - news) + olds
  {
    r := olds;
    var todo := from;
    ghost var done := map[];
    while todo != map[]
      invariant todo.Keys !! done.Keys && todo + done == from
      invariant r == (done - news) + olds
      decreases todo.Keys
    {
      var id :| id in todo;
      TakeOne(todo, done, id);
      YieldOne(olds, news, done, id, todo[id]);
      if id !in news && id !in r {
        assert id !in removed by { assert id in from; }
        r := r[id := todo[id]];
      }
      done := done[id := todo[id]];
      todo := todo - {id};
    }
    assert todo + done == done;
  }

  /** Counters: the older state's value wins. */
  method MergeCounters<I(==), N(==)>(olds: map<I, N>, from: map<I, N>) returns (r: map<I, N>)
    ensures r == from + olds
  {
    r := olds;
    var todo := from;
    ghost var done := map[];
    while todo != map[]
      invariant todo.Keys !! done.Keys && todo + done == from
      invariant r == (done - {}) + olds
      decreases todo.Keys
    {
      var i :| i in todo;
      TakeOne(todo, done, i);
      YieldOne(olds, {}, done, i, todo[i]);
      if i !in r {
        r := r[i := todo[i]];
      }
      done := done[i := todo[i]];
      todo := todo - {i};
    }
    assert todo + done == done && done - {} == done;
  }

  /** The updates of the third loop after the objects in `gone`: an updated object is deleted
      with its oldest value. */
  ghost function Dels<K, V>(news: set<K>, olds: map<K, V>, gone: map<K, V>): map<K, V> {
    map id | id in gone && id !in news :: if id in olds then olds[id] else gone[id]
  }

  lemma DelsOneMore<K, V>(news: set<K>, olds: map<K, V>, gone: map<K, V>, id: K, was: V)
    requires id !in gone
    ensures Dels(news, olds, gone[id := was]) ==
            (if id in news then Dels(news, olds, gone)
             else Dels(news, olds, gone)[id := if id in olds then olds[id] else was])
  {
    var l, r := Dels(news, olds, gone[id := was]), Dels(news, olds, gone);
    if id in news {
      assert l == r;
    } else {
      assert l == r[id := if id in olds then olds[id] else was];
    }
  }

  /** The three containers of the older state after the objects in `gone`. */
  ghost predicate DeletedSoFar<K, V>(news0: set<K>, olds0: map<K, V>, removed0: map<K, V>, gone: map<K, V>,
                                     news: set<K>, olds: map<K, V>, removed: map<K, V>) {
    var dels := Dels(news0, olds0, gone);
    news == news0 - gone.Keys && olds == olds0 - dels.Keys && removed == removed0 + dels
  }

  lemma DeletedOneMore<K, V>(news0: set<K>, olds0: map<K, V>, removed0: map<K, V>, gone: map<K, V>,
                             news: set<K>, olds: map<K, V>, removed: map<K, V>, id: K, was: V)
    requires id !in gone && DeletedSoFar(news0, olds0, removed0, gone, news, olds, removed)
    ensures var gone' := gone[id := was];
      if id in news then DeletedSoFar(news0, olds0, removed0, gone', news - {id}, olds, removed)
      else if id in olds then DeletedSoFar(news0, olds0, removed0, gone', news, olds - {id}, removed[id := olds[id]])
      else DeletedSoFar(news0, olds0, removed0, gone', news, olds, removed[id := was])
    ensures id !in news && id !in olds ==> (id in removed <==> id in removed0)
    ensures id in news <==> id in news0
    ensures id in olds <==> id in olds0
  {
    var dels := Dels(news0, olds0, gone);
    var x := if id in olds0 then olds0[id] else was;
    DelsOneMore(news0, olds0, gone, id, was);
    assert news0 - gone[id := was].Keys == news - {id};
    PutOne(removed0, dels, id, x);
    DropOne(olds0, dels.Keys, id);
    assert dels[id := x].Keys == dels.Keys + {id};
    assert id !in olds ==> olds - {id} == olds;
    assert id !in news ==> news - {id} == news;
    assert id !in dels;
  }

  /** *+del: new objects are forgotten, updated ones become deleted with their oldest value. */
  method MergeRemoved<K(==), V(==)>(news0: set<K>, olds0: map<K, V>, removed0: map<K, V>, from: map<K, V>)
    returns (news: set<K>, olds: map<K, V>, removed: map<K, V>)
    requires forall id :: id in from && id !in news0 && id !in olds0 ==> id !in removed0
    ensures DeletedSoFar(news0, olds0, removed0, from, news, olds, removed)
  {
    news, olds, removed := news0, olds0, removed0;
    var todo := from;
    ghost var done: map<K, V> := map[];
    assert Dels(news, olds, done) == map[];
    while todo != map[]
      invariant todo.Keys !! done.Keys && todo + done == from
      invariant DeletedSoFar(news0, olds0, removed0, done, news, olds, removed)
      decreases todo.Keys
    {
      var id :| id in todo;
      TakeOne(todo, done, id);
      DeletedOneMore(news0, olds0, removed0, done, news, olds, removed, id, todo[id]);
      if id in news {
        news := news - {id};
      } else if id in olds {
        olds, removed := olds - {id}, removed[id := olds[id]];
      } else {
        assert id !in removed by { assert id in from; }
        removed := removed[id := todo[id]];
      }
      done := done[id := todo[id]];
      todo := todo - {id};
    }
    assert todo + done == done;
  }

  method MergeInto<V(==)>(a: Delta<V>, b: Delta<V>, ghost first: Store<V>, ghost mid: Store<V>, ghost last: Store<V>)
    returns (prev: Delta<V>)
    requires WellFormed(first) && Between(a, first, mid) && Between(b, mid, last)
    ensures prev == Compose(a, b)
  {
    forall id
      ensures id in b.oldValues ==> id in a.newIds || id in a.oldValues || id !in a.removed
      ensures id in b.removed && id !in a.newIds ==> id in a.oldValues || id !in a.removed
    {
      MergeFollowsMatrix(a, b, first, mid, last, id);
    }
    var olds := MergeOldValues(a.newIds, a.oldValues, a.removed, b.oldValues);
    var counters := MergeCounters(a.oldNextIds, b.oldNextIds);
    var news, removed;
    news, olds, removed := MergeRemoved(a.newIds + b.newIds, olds, a.removed, b.removed);
    prev := Delta(olds, counters, news, removed);
  }
}
