/**
 * The datasource capability (`DataSource<T>`), its error type, and a
 * reference datasource that holds its records in memory.
 *
 * The records of a datasource are a `Store` value: the ids in insertion
 * order, the record stored under each id, an optional fault that, when
 * set, makes every operation fail with it (a backend that is down), and an
 * optional write fault that only `create`, `update` and `delete` report (a
 * backend that answers queries but rejects changes). The class `DataSource` owns a `Store` and a log of the
 * calls made on it, so that properties of the handlers about which
 * datasource operations they invoke can be stated and proved.
 */
module DataSourceBase {
  import opened Wrappers
  import opened Json
  import opened Strings

  datatype DataSourceError =
    | ConnectionError(msg: string)
    | QueryError(msg: string)
    | NotFound(msg: string)
    | ValidationError(msg: string)
    | MappingError(msg: string)
    | SerializationError(msg: string)

  /** The `Display` text of a datasource error. */
  function Display(e: DataSourceError): string {
    match e
    case ConnectionError(m) => "Connection error: " + m
    case QueryError(m) => "Query error: " + m
    case NotFound(m) => "Not found: " + m
    case ValidationError(m) => "Validation error: " + m
    case MappingError(m) => "Mapping error: " + m
    case SerializationError(m) => "Serialization error: " + m
  }

  /** The fixed text that precedes the message in `Display`. */
  function Prefix(e: DataSourceError): (p: string)
    ensures |p| >= 1
    ensures Display(e) == p + e.msg
  {
    match e
    case ConnectionError(_) => "Connection error: "
    case QueryError(_) => "Query error: "
    case NotFound(_) => "Not found: "
    case ValidationError(_) => "Validation error: "
    case MappingError(_) => "Mapping error: "
    case SerializationError(_) => "Serialization error: "
  }

  /** Every display text ends with the carried message. */
  lemma DisplayEndsWithMessage(e: DataSourceError)
    ensures |Display(e)| > |e.msg|
    ensures Display(e)[|Display(e)| - |e.msg|..] == e.msg
  {
    var p := Prefix(e);
    assert Display(e)[|p|..] == e.msg;
  }

  /**
   * The six prefixes are pairwise distinct: errors of two different
   * variants, whatever their messages, differ already in the first
   * character of their prefixes.
   */
  lemma PrefixesDistinct(e1: DataSourceError, e2: DataSourceError)
    requires e1.(msg := "") != e2.(msg := "")
    ensures Prefix(e1)[0] != Prefix(e2)[0]
  {
  }

  /** Two errors display alike only when they are the same error. */
  lemma DisplayInjective(e1: DataSourceError, e2: DataSourceError)
    requires Display(e1) == Display(e2)
    ensures e1 == e2
  {
    var p1, p2 := Prefix(e1), Prefix(e2);
    assert p1[0] == Display(e1)[0] == p2[0];
    assert p1 == p2;
    assert e1.msg == Display(e1)[|p1|..];
    assert e2.msg == Display(e2)[|p2|..];
  }

  /** The records of a datasource, in insertion order, and the injected faults. */
  datatype Store = Store(
    ids: seq<string>,
    records: map<string, Json>,
    fault: Option<DataSourceError>,
    writeFault: Option<DataSourceError>)

  /** The error a write reports, if any: the general fault first. */
  function WriteError(s: Store): Option<DataSourceError> {
    if s.fault.Some? then s.fault else s.writeFault
  }

  /** Every id is listed once and the listed ids are exactly the stored ones. */
  predicate ValidStore(s: Store) {
    && (forall i, j :: 0 <= i < j < |s.ids| ==> s.ids[i] != s.ids[j])
    && (forall i :: 0 <= i < |s.ids| ==> s.ids[i] in s.records)
    && (forall k :: k in s.records ==> k in s.ids)
  }

  /** An empty datasource that works. */
  function EmptyStore(): (s: Store)
    ensures ValidStore(s) && s.records == map[] && s.fault.None? && s.writeFault.None?
  {
    Store([], map[], None, None)
  }

  /** The stored records in insertion order. */
  function Items(s: Store): (r: seq<Json>)
    requires ValidStore(s)
    ensures |r| == |s.ids| == |s.records|
    ensures forall i :: 0 <= i < |s.ids| ==> r[i] == s.records[s.ids[i]]
  {
    DistinctIdsCoverRecords(s);
    seq(|s.ids|, i requires 0 <= i < |s.ids| => s.records[s.ids[i]])
  }

  lemma DistinctIdsCoverRecords(s: Store)
    requires ValidStore(s)
    ensures |s.ids| == |s.records|
  {
    var keys := s.records.Keys;
    DistinctSeqSize(s.ids);
    assert (set i | 0 <= i < |s.ids| :: s.ids[i]) == keys;
  }

  lemma {:induction false} DistinctSeqSize(xs: seq<string>)
    requires forall i, j :: 0 <= i < j < |xs| ==> xs[i] != xs[j]
    ensures |set i | 0 <= i < |xs| :: xs[i]| == |xs|
    decreases |xs|
  {
    if |xs| > 0 {
      var rest := xs[1..];
      DistinctSeqSize(rest);
      var s := set i | 0 <= i < |xs| :: xs[i];
      var t := set i | 0 <= i < |rest| :: rest[i];
      assert s == t + {xs[0]} by {
        forall x | x in s ensures x in t + {xs[0]} {
          var i :| 0 <= i < |xs| && xs[i] == x;
          if i > 0 { assert rest[i - 1] == x; }
        }
      }
      assert xs[0] !in t;
    }
  }

  /**
   * The id a record is stored under: its "id" member, a string as it is or
   * an integer in decimal, as a relational table keyed by "id" would hold it.
   */
  function RecordKey(item: Json): (r: Option<string>)
    ensures r.Some? ==> item.JObject? && "id" in item.members
  {
    if item.JObject? && "id" in item.members then
      match item.members["id"]
      case JString(x) => Some(x)
      case JInt(i) => Some(IntToString(i))
      case _ => None
    else None
  }

  function GetAllOf(s: Store): (r: Result<seq<Json>, DataSourceError>)
    requires ValidStore(s)
    ensures r.Failure? <==> s.fault.Some?
    ensures r.Failure? ==> r.error == s.fault.value
    ensures r.Success? ==> r.value == Items(s)
  {
    if s.fault.Some? then Failure(s.fault.value) else Success(Items(s))
  }

  function GetByIdOf(s: Store, id: string): (r: Result<Option<Json>, DataSourceError>)
    ensures r.Failure? <==> s.fault.Some?
    ensures r.Failure? ==> r.error == s.fault.value
    ensures r.Success? ==> (r.value.Some? <==> id in s.records)
    ensures r.Success? && r.value.Some? ==> r.value.value == s.records[id]
  {
    if s.fault.Some? then Failure(s.fault.value)
    else if id in s.records then Success(Some(s.records[id]))
    else Success(None)
  }

  /**
   * Inserts a record under its key; like an INSERT into a table keyed by
   * "id", a missing key or a key already present is an error. The created
   * record is the input, unchanged.
   */
  function CreateOf(s: Store, item: Json): (r: (Result<Json, DataSourceError>, Store))
    requires ValidStore(s)
    ensures ValidStore(r.1) && r.1.fault == s.fault && r.1.writeFault == s.writeFault
    ensures r.0.Success? <==> WriteError(s).None? && RecordKey(item).Some? && RecordKey(item).value !in s.records
    ensures r.0.Success? ==> r.0.value == item && r.1.records == s.records[RecordKey(item).value := item]
    ensures r.0.Failure? ==> r.1 == s
  {
    if WriteError(s).Some? then (Failure(WriteError(s).value), s)
    else match RecordKey(item)
      case None => (Failure(ValidationError("The ID field 'id' was not found in the entity")), s)
      case Some(key) =>
        if key in s.records then (Failure(QueryError("Duplicate entry '" + key + "' for key 'PRIMARY'")), s)
        else
          var s' := s.(ids := s.ids + [key], records := s.records[key := item]);
          assert forall i :: 0 <= i < |s.ids| ==> s'.ids[i] == s.ids[i];
          (Success(item), s')
  }

  /**
   * Overwrites the record under `id` when there is one; like an UPDATE that
   * matches no row, an absent id changes nothing and still succeeds. The
   * result is the input item, unchanged.
   */
  function UpdateOf(s: Store, id: string, item: Json): (r: (Result<Json, DataSourceError>, Store))
    requires ValidStore(s)
    ensures ValidStore(r.1) && r.1.fault == s.fault && r.1.writeFault == s.writeFault
    ensures r.0.Success? <==> WriteError(s).None?
    ensures r.0.Failure? ==> r.0.error == WriteError(s).value
    ensures r.0.Success? ==> r.0.value == item
    ensures r.1.records == if r.0.Success? && id in s.records then s.records[id := item] else s.records
  {
    if WriteError(s).Some? then (Failure(WriteError(s).value), s)
    else if id in s.records then (Success(item), s.(records := s.records[id := item]))
    else (Success(item), s)
  }

  /** Removes the record under `id`; the result says whether there was one. */
  function DeleteOf(s: Store, id: string): (r: (Result<bool, DataSourceError>, Store))
    requires ValidStore(s)
    ensures ValidStore(r.1) && r.1.fault == s.fault && r.1.writeFault == s.writeFault
    ensures r.0.Success? <==> WriteError(s).None?
    ensures r.0.Failure? ==> r.0.error == WriteError(s).value
    ensures r.0.Success? ==> (r.0.value <==> id in s.records)
    ensures r.1.records == if r.0.Success? then s.records - {id} else s.records
  {
    if WriteError(s).Some? then (Failure(WriteError(s).value), s)
    else if id in s.records then
      var ids' := RemoveId(s.ids, id);
      assert forall i :: 0 <= i < |ids'| ==> ids'[i] in ids';
      (Success(true), s.(ids := ids', records := s.records - {id}))
    else (Success(false), s)
  }

  /** The ids without `id`, in the same order. */
  function RemoveId(ids: seq<string>, id: string): (r: seq<string>)
    ensures forall x :: x in r <==> x in ids && x != id
    ensures (forall i, j :: 0 <= i < j < |ids| ==> ids[i] != ids[j]) ==> (forall i, j :: 0 <= i < j < |r| ==> r[i] != r[j])
    decreases |ids|
  {
    if |ids| == 0 then []
    else if ids[0] == id then RemoveId(ids[1..], id)
    else
      var rest := RemoveId(ids[1..], id);
      assert forall x :: x in rest ==> x in ids[1..];
      assert (forall i, j :: 0 <= i < j < |ids| ==> ids[i] != ids[j]) ==> ids[0] !in ids[1..];
      [ids[0]] + rest
  }

  /** A call made on a datasource, as the log records it. */
  datatype Op =
    | GetAllCall
    | GetByIdCall(id: string)
    | CreateCall(item: Json)
    | UpdateCall(id: string, item: Json)
    | DeleteCall(id: string)

  /** Number of `update` calls in a log. */
  function UpdateCount(log: seq<Op>): nat
    decreases |log|
  {
    if |log| == 0 then 0 else (if log[0].UpdateCall? then 1 else 0) + UpdateCount(log[1..])
  }

  lemma {:induction false} UpdateCountConcat(a: seq<Op>, b: seq<Op>)
    ensures UpdateCount(a + b) == UpdateCount(a) + UpdateCount(b)
    decreases |a|
  {
    if |a| == 0 {
      assert a + b == b;
    } else {
      assert (a + b)[1..] == a[1..] + b;
      UpdateCountConcat(a[1..], b);
    }
  }

  /**
   * A datasource handle. Every handle a handler holds is this same object:
   * cloning a datasource shares its records (`BoxClone`).
   */
  class DataSource {
    var store: Store
    var log: seq<Op>

    ghost predicate Valid()
      reads this
    {
      ValidStore(store)
    }

    constructor (initial: Store)
      requires ValidStore(initial)
      ensures Valid() && store == initial && log == []
    {
      store := initial;
      log := [];
    }

    method GetAll() returns (r: Result<seq<Json>, DataSourceError>)
      requires Valid()
      modifies this`log
      ensures r == GetAllOf(store)
      ensures log == old(log) + [GetAllCall]
    {
      r := GetAllOf(store);
      log := log + [GetAllCall];
    }

    method GetById(id: string) returns (r: Result<Option<Json>, DataSourceError>)
      modifies this`log
      ensures r == GetByIdOf(store, id)
      ensures log == old(log) + [GetByIdCall(id)]
    {
      r := GetByIdOf(store, id);
      log := log + [GetByIdCall(id)];
    }

    method Create(item: Json) returns (r: Result<Json, DataSourceError>)
      requires Valid()
      modifies this
      ensures Valid()
      ensures (r, store) == CreateOf(old(store), item)
      ensures log == old(log) + [CreateCall(item)]
    {
      var answer := CreateOf(store, item);
      r, store := answer.0, answer.1;
      log := log + [CreateCall(item)];
    }

    method Update(id: string, item: Json) returns (r: Result<Json, DataSourceError>)
      requires Valid()
      modifies this
      ensures Valid()
      ensures (r, store) == UpdateOf(old(store), id, item)
      ensures log == old(log) + [UpdateCall(id, item)]
    {
      var answer := UpdateOf(store, id, item);
      r, store := answer.0, answer.1;
      log := log + [UpdateCall(id, item)];
    }

    method Delete(id: string) returns (r: Result<bool, DataSourceError>)
      requires Valid()
      modifies this
      ensures Valid()
      ensures (r, store) == DeleteOf(old(store), id)
      ensures log == old(log) + [DeleteCall(id)]
    {
      var answer := DeleteOf(store, id);
      r, store := answer.0, answer.1;
      log := log + [DeleteCall(id)];
    }

    /** Cloning a datasource handle shares the records it reaches. */
    method BoxClone() returns (d: DataSource)
      ensures d == this
    {
      d := this;
    }
  }

  /**
   * `Box<dyn DataSource<T>>` as a datasource: every operation is forwarded to
   * the boxed datasource and its result returned unchanged.
   */
  class BoxedDataSource {
    const inner: DataSource

    constructor (inner: DataSource)
      ensures this.inner == inner
    {
      this.inner := inner;
    }

    method GetAll() returns (r: Result<seq<Json>, DataSourceError>)
      requires inner.Valid()
      modifies inner`log
      ensures r == GetAllOf(inner.store)
      ensures inner.log == old(inner.log) + [GetAllCall]
    {
      r := inner.GetAll();
    }

    method GetById(id: string) returns (r: Result<Option<Json>, DataSourceError>)
      modifies inner`log
      ensures r == GetByIdOf(inner.store, id)
      ensures inner.log == old(inner.log) + [GetByIdCall(id)]
    {
      r := inner.GetById(id);
    }

    method Create(item: Json) returns (r: Result<Json, DataSourceError>)
      requires inner.Valid()
      modifies inner
      ensures inner.Valid()
      ensures (r, inner.store) == CreateOf(old(inner.store), item)
      ensures inner.log == old(inner.log) + [CreateCall(item)]
    {
      r := inner.Create(item);
    }

    method Update(id: string, item: Json) returns (r: Result<Json, DataSourceError>)
      requires inner.Valid()
      modifies inner
      ensures inner.Valid()
      ensures (r, inner.store) == UpdateOf(old(inner.store), id, item)
      ensures inner.log == old(inner.log) + [UpdateCall(id, item)]
    {
      r := inner.Update(id, item);
    }

    method Delete(id: string) returns (r: Result<bool, DataSourceError>)
      requires inner.Valid()
      modifies inner
      ensures inner.Valid()
      ensures (r, inner.store) == DeleteOf(old(inner.store), id)
      ensures inner.log == old(inner.log) + [DeleteCall(id)]
    {
      r := inner.Delete(id);
    }

    method BoxClone() returns (d: DataSource)
      ensures d == inner
    {
      d := inner.BoxClone();
    }
  }
}
