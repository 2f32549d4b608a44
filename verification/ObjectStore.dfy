/** The object database without undo: objects keyed by id, and one monotone
    next-id counter for every registered index. */
module ObjectStore {

  /** An index is named by its space and its object type. */
  datatype IndexId = IndexId(space: nat, kind: nat)

  datatype ObjectId = ObjectId(index: IndexId, number: nat)

  /** nextIds has a key for every registered index. */
  datatype Store<V> = Store(objects: map<ObjectId, V>, nextIds: map<IndexId, nat>)

  /** The three ways in which an evaluator changes the database. */
  datatype Change<V> =
    | Create(index: IndexId, value: V)
    | Modify(id: ObjectId, value: V)
    | Remove(id: ObjectId)

  /** Ids are handed out by the counters, so none in use is at or above its counter. */
  ghost predicate WellFormed<V>(s: Store<V>) {
    forall id :: id in s.objects ==> id.index in s.nextIds && id.number < s.nextIds[id.index]
  }

  /** The id the next object of an index is given. */
  function FreshId<V>(s: Store<V>, index: IndexId): ObjectId
    requires index in s.nextIds
  {
    ObjectId(index, s.nextIds[index])
  }

  /** A change to an unknown index or object throws before anything is written. */
  predicate Applicable<V>(s: Store<V>, c: Change<V>) {
    match c
    case Create(index, _) => index in s.nextIds
    case Modify(id, _) => id in s.objects
    case Remove(id) => id in s.objects
  }

  function Apply<V>(s: Store<V>, c: Change<V>): Store<V> {
    if !Applicable(s, c) then s
    else
      match c
      case Create(index, v) =>
        Store(s.objects[FreshId(s, index) := v], s.nextIds[index := s.nextIds[index] + 1])
      case Modify(id, v) => s.(objects := s.objects[id := v])
      case Remove(id) => s.(objects := s.objects - {id})
  }

  function ApplyAll<V>(s: Store<V>, cs: seq<Change<V>>): Store<V>
    decreases |cs|
  {
    if cs == [] then s else ApplyAll(Apply(s, cs[0]), cs[1..])
  }

  lemma {:induction false} ApplyAllConcat<V>(s: Store<V>, cs: seq<Change<V>>, ds: seq<Change<V>>)
    ensures ApplyAll(s, cs + ds) == ApplyAll(ApplyAll(s, cs), ds)
    decreases |cs|
  {
    if cs == [] {
      assert cs + ds == ds;
    } else {
      assert (cs + ds)[1..] == cs[1..] + ds;
      ApplyAllConcat(Apply(s, cs[0]), cs[1..], ds);
    }
  }
}
