/** One undo state: what has to be put back to return from the database as it is
    to the database as it was when the state was opened. */
module UndoDelta {
  import opened ObjectStore

  datatype Delta<V> = Delta(
    oldValues: map<ObjectId, V>,
    oldNextIds: map<IndexId, nat>,
    newIds: set<ObjectId>,
    removed: map<ObjectId, V>)

  function Nothing<V>(): Delta<V> {
    Delta(map[], map[], {}, map[])
  }

  // ----- recording ---------------------------------------------------------

  function OnCreate<V>(d: Delta<V>, id: ObjectId): Delta<V> {
    d.(oldNextIds := if id.index in d.oldNextIds then d.oldNextIds else d.oldNextIds[id.index := id.number],
       newIds := d.newIds + {id})
  }

  function OnModify<V>(d: Delta<V>, id: ObjectId, was: V): Delta<V> {
    if id in d.newIds || id in d.oldValues then d
    else d.(oldValues := d.oldValues[id := was])
  }

  function OnRemove<V>(d: Delta<V>, id: ObjectId, was: V): Delta<V> {
    if id in d.newIds then d.(newIds := d.newIds - {id})
    else if id in d.oldValues then
      d.(removed := d.removed[id := d.oldValues[id]], oldValues := d.oldValues - {id})
    else if id in d.removed then d
    else d.(removed := d.removed[id := was])
  }

  /** What the hooks write down for a change that is about to be made to s. */
  function Record<V>(d: Delta<V>, s: Store<V>, c: Change<V>): Delta<V> {
    if !Applicable(s, c) then d
    else
      match c
      case Create(index, _) => OnCreate(d, FreshId(s, index))
      case Modify(id, _) => OnModify(d, id, s.objects[id])
      case Remove(id) => OnRemove(d, id, s.objects[id])
  }

  // ----- rewinding and merging ----------------------------------------------

  /** Old values written back, new objects deleted, counters reset, removed objects reinserted. */
  function Rewind<V>(d: Delta<V>, s: Store<V>): Store<V> {
    Store((s.objects + d.oldValues) - d.newIds + d.removed, s.nextIds + d.oldNextIds)
  }

  /** Merging the newer state b into the older state a. */
  function Compose<V>(a: Delta<V>, b: Delta<V>): Delta<V> {
    var olds := (b.oldValues - a.newIds) + a.oldValues;
    var news := a.newIds + b.newIds;
    var gone := map id | id in b.removed && id !in news :: if id in olds then olds[id] else b.removed[id];
    Delta(olds - gone.Keys, b.oldNextIds + a.oldNextIds, news - b.removed.Keys, a.removed + gone)
  }

  // ----- what a delta means --------------------------------------------------

  /** An object's relationship to an undo state. */
  datatype Fate<V> = New | Upd(was: V) | Del(was: V) | Nop

  function FateOf<V>(d: Delta<V>, id: ObjectId): Fate<V> {
    if id in d.newIds then New
    else if id in d.oldValues then Upd(d.oldValues[id])
    else if id in d.removed then Del(d.removed[id])
    else Nop
  }

  /** No object is listed in two of the containers. */
  predicate ListedOnce<V>(d: Delta<V>, id: ObjectId) {
    && (id in d.newIds ==> id !in d.oldValues && id !in d.removed)
    && (id in d.oldValues ==> id !in d.removed)
  }

  /** The fate of an object tells its old value, or that there was none. */
  ghost predicate Explains<V>(f: Fate<V>, was: map<ObjectId, V>, now: map<ObjectId, V>, id: ObjectId) {
    match f
    case New => id !in was && id in now
    case Upd(x) => id in was && id in now && was[id] == x
    case Del(x) => id in was && id !in now && was[id] == x
    case Nop => (id in was <==> id in now) && (id in was ==> was[id] == now[id])
  }

  ghost predicate ObjectBetween<V>(d: Delta<V>, was: Store<V>, now: Store<V>, id: ObjectId) {
    && ListedOnce(d, id)
    && Explains(FateOf(d, id), was.objects, now.objects, id)
    && (id in d.newIds ==> id.index in was.nextIds && was.nextIds[id.index] <= id.number)
  }

  /** Counters only grow, and the first value of each one that moved is kept. */
  ghost predicate CounterBetween<V>(d: Delta<V>, was: Store<V>, now: Store<V>, i: IndexId) {
    && (i in was.nextIds <==> i in now.nextIds)
    && (i in d.oldNextIds ==> i in was.nextIds && d.oldNextIds[i] == was.nextIds[i])
    && (i in was.nextIds ==> was.nextIds[i] <= now.nextIds[i])
    && (i in was.nextIds && i !in d.oldNextIds ==> was.nextIds[i] == now.nextIds[i])
  }

  /** d says exactly how the store changed from `was` to `now`. */
  ghost predicate Between<V>(d: Delta<V>, was: Store<V>, now: Store<V>) {
    && (forall id :: ObjectBetween(d, was, now, id))
    && (forall i :: CounterBetween(d, was, now, i))
  }

  lemma NothingChanged<V>(s: Store<V>)
    ensures Between(Nothing(), s, s)
  {}

  /** Rewinding recovers the old store exactly: every object and every counter. */
  lemma RewindExact<V>(d: Delta<V>, was: Store<V>, now: Store<V>)
    requires Between(d, was, now)
    ensures Rewind(d, now) == was
  {
    var back := Rewind(d, now);
    assert back.objects == was.objects by {
      forall id
        ensures id in back.objects <==> id in was.objects
        ensures id in was.objects ==> back.objects[id] == was.objects[id]
      {
        assert ObjectBetween(d, was, now, id);
      }
    }
    assert back.nextIds == was.nextIds by {
      forall i
        ensures i in back.nextIds <==> i in was.nextIds
        ensures i in was.nextIds ==> back.nextIds[i] == was.nextIds[i]
      {
        assert CounterBetween(d, was, now, i);
      }
    }
  }

  // ----- recording keeps the delta exact -------------------------------------

  lemma RecordObject<V>(d: Delta<V>, was: Store<V>, now: Store<V>, c: Change<V>, id: ObjectId)
    requires WellFormed(was) && WellFormed(now) && Between(d, was, now) && Applicable(now, c)
    ensures ObjectBetween(Record(d, now, c), was, Apply(now, c), id)
  {
    match c
    case Create(index, v) => RecordCreate(d, was, now, index, v, id);
    case Modify(m, v) => assert ObjectBetween(d, was, now, id);
    case Remove(m) => RecordRemove(d, was, now, m, id);
  }

  lemma RecordCreate<V>(d: Delta<V>, was: Store<V>, now: Store<V>, index: IndexId, v: V, id: ObjectId)
    requires WellFormed(was) && WellFormed(now) && Between(d, was, now) && Applicable(now, Create(index, v))
    ensures ObjectBetween(OnCreate(d, FreshId(now, index)), was, Apply(now, Create(index, v)), id)
  {
    var id0 := FreshId(now, index);
    assert CounterBetween(d, was, now, index);
    assert id0 !in now.objects && id0 !in was.objects;
    assert ObjectBetween(d, was, now, id0) && ObjectBetween(d, was, now, id);
  }

  lemma RecordRemove<V>(d: Delta<V>, was: Store<V>, now: Store<V>, m: ObjectId, id: ObjectId)
    requires Between(d, was, now) && Applicable(now, Remove(m))
    ensures ObjectBetween(OnRemove(d, m, now.objects[m]), was, Apply(now, Remove(m)), id)
  {
    assert ObjectBetween(d, was, now, id);
  }

  lemma RecordCounter<V>(d: Delta<V>, was: Store<V>, now: Store<V>, c: Change<V>, i: IndexId)
    requires Between(d, was, now) && Applicable(now, c)
    ensures CounterBetween(Record(d, now, c), was, Apply(now, c), i)
  {
    assert CounterBetween(d, was, now, i);
  }

  lemma ApplyWellFormed<V>(s: Store<V>, c: Change<V>)
    requires WellFormed(s)
    ensures WellFormed(Apply(s, c))
  {}

  /** Whichever change is made, the hooks keep the delta exact. */
  lemma RecordExact<V>(d: Delta<V>, was: Store<V>, now: Store<V>, c: Change<V>)
    requires WellFormed(was) && WellFormed(now) && Between(d, was, now)
    ensures Between(Record(d, now, c), was, Apply(now, c))
  {
    if Applicable(now, c) {
      forall id { RecordObject(d, was, now, c, id); }
      forall i { RecordCounter(d, was, now, c, i); }
    }
  }

  // ----- merging is composition ------------------------------------------------

  datatype Cell<V> = Illegal | Merged(fate: Fate<V>)

  /** The documented 4x4 matrix: rows are the older state, columns the newer one. */
  function Matrix<V>(older: Fate<V>, newer: Fate<V>): Cell<V> {
    match older
    case New =>
      (match newer case New => Illegal case Upd(_) => Merged(New) case Del(_) => Merged(Nop) case Nop => Merged(New))
    case Upd(x) =>
      (match newer case New => Illegal case Upd(_) => Merged(Upd(x)) case Del(_) => Merged(Del(x)) case Nop => Merged(Upd(x)))
    case Del(x) =>
      (match newer case New => Illegal case Upd(_) => Illegal case Del(_) => Illegal case Nop => Merged(Del(x)))
    case Nop =>
      Merged(newer)
  }

  /** A removed id is never handed out again, so no object comes back under its old id. */
  lemma NoResurrection<V>(a: Delta<V>, b: Delta<V>, first: Store<V>, mid: Store<V>, last: Store<V>, id: ObjectId)
    requires WellFormed(first) && Between(a, first, mid) && Between(b, mid, last)
    requires id in first.objects && id !in mid.objects
    ensures id !in last.objects
  {
    assert CounterBetween(a, first, mid, id.index);
    assert ObjectBetween(b, mid, last, id);
  }

  /** Merging follows the matrix cell by cell, and never meets a cell marked N/A. */
  lemma MergeFollowsMatrix<V>(a: Delta<V>, b: Delta<V>, first: Store<V>, mid: Store<V>, last: Store<V>, id: ObjectId)
    requires WellFormed(first) && Between(a, first, mid) && Between(b, mid, last)
    ensures Matrix(FateOf(a, id), FateOf(b, id)) == Merged(FateOf(Compose(a, b), id))
    ensures ListedOnce(Compose(a, b), id)
  {
    assert ObjectBetween(a, first, mid, id) && ObjectBetween(b, mid, last, id);
    if id in first.objects && id !in mid.objects {
      NoResurrection(a, b, first, mid, last, id);
    }
  }

  lemma ComposeObject<V>(a: Delta<V>, b: Delta<V>, first: Store<V>, mid: Store<V>, last: Store<V>, id: ObjectId)
    requires WellFormed(first) && Between(a, first, mid) && Between(b, mid, last)
    ensures ObjectBetween(Compose(a, b), first, last, id)
  {
    MergeFollowsMatrix(a, b, first, mid, last, id);
    assert ObjectBetween(a, first, mid, id) && ObjectBetween(b, mid, last, id);
    assert CounterBetween(a, first, mid, id.index);
  }

  lemma ComposeCounter<V>(a: Delta<V>, b: Delta<V>, first: Store<V>, mid: Store<V>, last: Store<V>, i: IndexId)
    requires Between(a, first, mid) && Between(b, mid, last)
    ensures CounterBetween(Compose(a, b), first, last, i)
  {
    assert CounterBetween(a, first, mid, i) && CounterBetween(b, mid, last, i);
  }

  /** The merged state says exactly what the two states say one after the other. */
  lemma ComposeExact<V>(a: Delta<V>, b: Delta<V>, first: Store<V>, mid: Store<V>, last: Store<V>)
    requires WellFormed(first) && Between(a, first, mid) && Between(b, mid, last)
    ensures Between(Compose(a, b), first, last)
  {
    forall id { ComposeObject(a, b, first, mid, last, id); }
    forall i { ComposeCounter(a, b, first, mid, last, i); }
  }

  /** Rewinding by the merged state is rewinding by the newer state and then by the older one. */
  lemma RewindCompose<V>(a: Delta<V>, b: Delta<V>, first: Store<V>, mid: Store<V>, last: Store<V>)
    requires WellFormed(first) && Between(a, first, mid) && Between(b, mid, last)
    ensures Rewind(Compose(a, b), last) == Rewind(a, Rewind(b, last))
  {
    RewindExact(b, mid, last);
    RewindExact(a, first, mid);
    ComposeExact(a, b, first, mid, last);
    RewindExact(Compose(a, b), first, last);
  }
}
