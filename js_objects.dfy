/** Plain JavaScript objects as the inventory and warehouse screens use them:
    records whose keys come from a form, merged with object spread, kept in
    a list and upserted or removed by their `id` property. */
module JsObjects {
  import opened Options
  import opened Seqs

  /** A property value: the seeded numbers, or the text an input produced. */
  datatype Value = Num(n: int) | Str(s: string)

  /** An object: its own properties, by name. */
  type Obj = map<string, Value>

  /** JavaScript truthiness of a value. */
  predicate TruthyValue(v: Value) {
    match v
    case Num(n) => n != 0
    case Str(s) => s != ""
  }

  /** `o?.id` is truthy: there is an object and its `id` is truthy. */
  predicate HasTruthyId(o: Option<Obj>) {
    o.Some? && "id" in o.value && TruthyValue(o.value["id"])
  }

  /** `x.id === id`: `x` has an `id` equal to `id`. */
  predicate IdIs(x: Obj, id: Value) {
    "id" in x && x["id"] == id
  }

  /** `{ ...a, ...b }`: every property of either, `b` winning on a clash. */
  function Spread(a: Obj, b: Obj): (r: Obj)
    ensures r.Keys == a.Keys + b.Keys
    ensures forall k :: k in b ==> r[k] == b[k]
    ensures forall k :: k in a && k !in b ==> r[k] == a[k]
  {
    a + b
  }

  /** The object a save appends: `{ id: Date.now(), ...form }`, the clock
      reading being `newId`. */
  function Appended(form: Obj, newId: int): (o: Obj)
    ensures "id" in o
    ensures o["id"] == if "id" in form then form["id"] else Num(newId)
  {
    Spread(map["id" := Num(newId)], form)
  }

  /** The list after a save: with an edited object whose `id` is truthy, the
      objects with that id get the form spread over them; otherwise one new
      object goes at the end. */
  function Upsert(list: seq<Obj>, editing: Option<Obj>, form: Obj, newId: int): (r: seq<Obj>)
    ensures HasTruthyId(editing) ==> |r| == |list|
    ensures HasTruthyId(editing) ==> forall i :: 0 <= i < |list| && !IdIs(list[i], editing.value["id"]) ==> r[i] == list[i]
    ensures HasTruthyId(editing) ==> forall i :: 0 <= i < |list| && IdIs(list[i], editing.value["id"]) ==> r[i] == Spread(list[i], form)
    ensures !HasTruthyId(editing) ==> r == list + [Appended(form, newId)]
  {
    if HasTruthyId(editing) then
      var id := editing.value["id"];
      MapWhere(list, (x: Obj) => IdIs(x, id), (x: Obj) => Spread(x, form))
    else
      list + [Appended(form, newId)]
  }

  /** Every object has an `id` property. */
  predicate AllHaveIds(list: seq<Obj>) {
    forall i :: 0 <= i < |list| ==> "id" in list[i]
  }

  /** Saves never produce an object without an id. */
  lemma UpsertKeepsIds(list: seq<Obj>, editing: Option<Obj>, form: Obj, newId: int)
    requires AllHaveIds(list)
    ensures AllHaveIds(Upsert(list, editing, form, newId))
  {
  }

  /** A form still holding the id of an object that was opened for editing
      (the dialog was cancelled, then opened again with Add's `{}`) makes the
      save append a second object with that same id. */
  lemma StaleFormDuplicatesId(list: seq<Obj>, k: int, newId: int)
    requires 0 <= k < |list| && "id" in list[k]
    ensures var r := Upsert(list, Some(map[]), list[k], newId);
      |r| == |list| + 1 && r[k]["id"] == r[|list|]["id"] == list[k]["id"]
  {
    var r := Upsert(list, Some(map[]), list[k], newId);
    assert r[k] == list[k];
  }

  /** The list after a confirmed or declined delete of `id`. */
  function RemoveId(list: seq<Obj>, id: Value, confirmed: bool): (r: seq<Obj>)
    ensures !confirmed ==> r == list
    ensures confirmed ==> forall x :: x in r <==> x in list && !IdIs(x, id)
    ensures confirmed ==> forall x :: multiset(r)[x] == if !IdIs(x, id) then multiset(list)[x] else 0
    ensures IsSubsequence(r, list)
  {
    if confirmed then
      FilterSpec(list, (x: Obj) => !IdIs(x, id));
      Filter(list, (x: Obj) => !IdIs(x, id))
    else
      SubsequenceOfSelf(list);
      list
  }

  /** Adding an object under an id nothing in the list has, then deleting
      that id, gives the list back. */
  lemma {:induction false} AddThenDeleteRestores(list: seq<Obj>, form: Obj, newId: int)
    requires "id" !in form
    requires forall x :: x in list ==> !IdIs(x, Num(newId))
    ensures RemoveId(Upsert(list, None, form, newId), Num(newId), true) == list
  {
    var keep := (x: Obj) => !IdIs(x, Num(newId));
    FilterAppendOne(list, Appended(form, newId), keep);
    FilterKeepsAll(list, keep);
  }
}
