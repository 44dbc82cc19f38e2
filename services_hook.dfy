/** The `useServices` hook: a cache of the active services, ordered by
    `order_index`, with the three writes the admin panel uses. Each write
    refetches after it succeeds; a failure only sets `error`. */
module ServicesHook {
  import opened Wrappers
  import opened Remote

  /** A row of the `services` table (timestamps left out). */
  datatype Service = Service(id: string, name: string, description: string, priceFrom: int,
                             icon: string, category: string, isActive: bool, orderIndex: int)

  /** The columns a create or an update writes: everything but the id. */
  datatype ServiceFields = ServiceFields(name: string, description: string, priceFrom: int,
                                         icon: string, category: string, isActive: bool,
                                         orderIndex: int)

  function FieldsOf(s: Service): ServiceFields
  {
    ServiceFields(s.name, s.description, s.priceFrom, s.icon, s.category, s.isActive, s.orderIndex)
  }

  /** The row with id `id` and columns `f`. */
  function Row(id: string, f: ServiceFields): Service
  {
    Service(id, f.name, f.description, f.priceFrom, f.icon, f.category, f.isActive, f.orderIndex)
  }

  function OrderKey(s: Service): int { s.orderIndex }

  /** `.eq('is_active', true)` */
  function Active(rows: seq<Service>): (r: seq<Service>)
    ensures forall x :: x in r <==> x in rows && x.isActive
  {
    if rows == [] then []
    else (if rows[0].isActive then [rows[0]] else []) + Active(rows[1..])
  }

  /** What the public query returns: exactly the active rows, ascending by
      `order_index`. */
  function ActiveByOrder(rows: seq<Service>): (r: seq<Service>)
    ensures SortedBy(r, OrderKey)
    ensures forall x :: x in r <==> x in rows && x.isActive
    ensures multiset(r) == multiset(Active(rows))
  {
    var r := SortBy(Active(rows), OrderKey);
    assert forall x :: x in r <==> x in multiset(Active(rows));
    r
  }

  /** `.update(updates).eq('id', id)`: every row with that id gets the new
      columns; every other row is unchanged. */
  function UpdateById(rows: seq<Service>, id: string, f: ServiceFields): (r: seq<Service>)
    ensures |r| == |rows|
    ensures forall i :: 0 <= i < |rows| ==> r[i] == if rows[i].id == id then Row(id, f) else rows[i]
  {
    seq(|rows|, i requires 0 <= i < |rows| => if rows[i].id == id then Row(id, f) else rows[i])
  }

  /** `.delete().eq('id', id)`: removes the rows with that id, keeps the others. */
  function DeleteById(rows: seq<Service>, id: string): (r: seq<Service>)
    ensures forall x :: x in r <==> x in rows && x.id != id
  {
    if rows == [] then []
    else (if rows[0].id != id then [rows[0]] else []) + DeleteById(rows[1..], id)
  }

  /** The hook's state, together with the remote table it reads. */
  datatype Cache = Cache(table: seq<Service>, services: seq<Service>, loading: bool,
                         error: Option<string>)

  /** `useState([])`, `useState(true)`, `useState(null)`. */
  function Initial(table: seq<Service>): Cache
  {
    Cache(table, [], true, None)
  }

  /** `fetchServices` once it has settled: a success replaces the list and
      leaves `error` as it was; a failure keeps the list; `loading` is
      released either way. */
  function Fetch(c: Cache, read: Status): Cache
  {
    match read
    case Ok => c.(services := ActiveByOrder(c.table), loading := false)
    case Err(f) => c.(loading := false, error := Caught(f, FetchError))
  }

  /** A successful fetch lists exactly the active rows in `order_index`
      order, leaving `error` alone; a failed one keeps the list and sets
      `error`; `loading` ends false either way. */
  lemma FetchOutcomes(c: Cache, read: Status)
    ensures !Fetch(c, read).loading && Fetch(c, read).table == c.table
    ensures read.Ok? ==>
      SortedBy(Fetch(c, read).services, OrderKey) &&
      (forall x :: x in Fetch(c, read).services <==> x in c.table && x.isActive) &&
      Fetch(c, read).error == c.error
    ensures read.Err? ==>
      Fetch(c, read).services == c.services &&
      Fetch(c, read).error == Some(ErrorText(read.failure, FetchError))
  {
  }

  /** A write that, when it succeeds, turns the table into `newTable` and
      refetches; when it fails, sets `error` and changes nothing else. */
  function Write(c: Cache, newTable: seq<Service>, write: Status, fallback: string,
                 read: Status): Cache
  {
    match write
    case Ok => Fetch(c.(table := newTable), read)
    case Err(f) => c.(error := Caught(f, fallback))
  }

  function Update(c: Cache, id: string, f: ServiceFields, write: Status, read: Status): Cache
  {
    Write(c, UpdateById(c.table, id, f), write, UpdateError, read)
  }

  /** `createService`: the backend gives the new row the id `newId`. */
  function Create(c: Cache, f: ServiceFields, newId: string, write: Status, read: Status): Cache
  {
    Write(c, c.table + [Row(newId, f)], write, CreateError, read)
  }

  function Delete(c: Cache, id: string, write: Status, read: Status): Cache
  {
    Write(c, DeleteById(c.table, id), write, DeleteError, read)
  }

  /** One call into the hook. */
  datatype Op =
    | FetchOp(read: Status)
    | UpdateOp(id: string, fields: ServiceFields, write: Status, read: Status)
    | CreateOp(fields: ServiceFields, newId: string, write: Status, read: Status)
    | DeleteOp(id: string, write: Status, read: Status)

  function Step(c: Cache, op: Op): Cache
  {
    match op
    case FetchOp(read) => Fetch(c, read)
    case UpdateOp(id, f, write, read) => Update(c, id, f, write, read)
    case CreateOp(f, newId, write, read) => Create(c, f, newId, write, read)
    case DeleteOp(id, write, read) => Delete(c, id, write, read)
  }

  /** The calls `ops`, one after another. */
  function Run(c: Cache, ops: seq<Op>): Cache
    decreases |ops|
  {
    if ops == [] then c else Run(Step(c, ops[0]), ops[1..])
  }

  /** Every remote call of `op` succeeds. */
  predicate Succeeds(op: Op)
  {
    match op
    case FetchOp(read) => read.Ok?
    case UpdateOp(_, _, write, read) => write.Ok? && read.Ok?
    case CreateOp(_, _, write, read) => write.Ok? && read.Ok?
    case DeleteOp(_, write, read) => write.Ok? && read.Ok?
  }

  /** What the public page may show: active services in display order. */
  ghost predicate PublicView(services: seq<Service>)
  {
    SortedBy(services, OrderKey) && forall x :: x in services ==> x.isActive
  }

  /** Whatever the calls and their outcomes, the cached list only ever holds
      active services in `order_index` order. */
  lemma {:induction false} ServicesStayPublic(table: seq<Service>, ops: seq<Op>)
    ensures PublicView(Run(Initial(table), ops).services)
  {
    PublicViewKept(Initial(table), ops);
  }

  lemma {:induction false} PublicViewKept(c: Cache, ops: seq<Op>)
    requires PublicView(c.services)
    ensures PublicView(Run(c, ops).services)
    decreases |ops|
  {
    if ops != [] {
      PublicViewKept(Step(c, ops[0]), ops[1..]);
    }
  }

  /** Once `error` is set no later call clears it: no success path assigns it. */
  lemma {:induction false} ErrorNeverCleared(c: Cache, ops: seq<Op>)
    requires c.error.Some?
    ensures Run(c, ops).error.Some?
    decreases |ops|
  {
    if ops != [] {
      ErrorNeverCleared(Step(c, ops[0]), ops[1..]);
    }
  }

  /** Calls that all succeed leave `error` exactly as it was, set or not. */
  lemma {:induction false} SuccessesKeepError(c: Cache, ops: seq<Op>)
    requires forall i :: 0 <= i < |ops| ==> Succeeds(ops[i])
    ensures Run(c, ops).error == c.error
    decreases |ops|
  {
    if ops != [] {
      assert Succeeds(ops[0]);
      SuccessesKeepError(Step(c, ops[0]), ops[1..]);
    }
  }

  /** A service created with `is_active` set appears in the list after the
      refetch; one created inactive does not. */
  lemma CreatedShownIffActive(c: Cache, f: ServiceFields, newId: string)
    ensures Row(newId, f) in Create(c, f, newId, Ok, Ok).services <==> f.isActive
  {
  }

  /** After an update that clears `is_active`, no service with that id is
      listed. */
  lemma DeactivatedHidden(c: Cache, id: string, f: ServiceFields)
    requires !f.isActive
    ensures forall x :: x in Update(c, id, f, Ok, Ok).services ==> x.id != id
  {
    var rows := UpdateById(c.table, id, f);
    forall x | x in Update(c, id, f, Ok, Ok).services ensures x.id != id {
      var i :| 0 <= i < |rows| && rows[i] == x;
      assert rows[i] == if c.table[i].id == id then Row(id, f) else c.table[i];
    }
  }

  /** After a successful delete, no service with that id is listed, and every
      active row with another id still is. */
  lemma DeletedHidden(c: Cache, id: string)
    ensures forall x :: x in Delete(c, id, Ok, Ok).services <==> x in c.table && x.isActive && x.id != id
  {
  }

  /** The hook itself: its three state variables and the remote `services`
      table it reads and writes. */
  class ServicesCache {
    var table: seq<Service>
    var services: seq<Service>
    var loading: bool
    var error: Option<string>

    function State(): Cache
      reads this
    {
      Cache(table, services, loading, error)
    }

    constructor (remote: seq<Service>)
      ensures State() == Initial(remote)
    {
      table := remote;
      services := [];
      loading := true;
      error := None;
    }

    /** `fetchServices` (also what mounting the hook runs). */
    method FetchServices(read: Status)
      modifies this
      ensures State() == Fetch(old(State()), read)
      ensures !loading && table == old(table)
      ensures read.Err? ==> services == old(services) && error.Some?
    {
      loading := true;
      match read {
        case Ok => services := ActiveByOrder(table);
        case Err(f) => error := Caught(f, FetchError);
      }
      loading := false;
    }

    method UpdateService(id: string, updates: ServiceFields, write: Status, read: Status)
      modifies this
      ensures State() == Update(old(State()), id, updates, write, read)
      ensures write.Err? ==> services == old(services) && table == old(table) && error.Some?
    {
      match write {
        case Ok =>
          table := UpdateById(table, id, updates);
          FetchServices(read);
        case Err(f) =>
          error := Caught(f, UpdateError);
      }
    }

    method CreateService(service: ServiceFields, newId: string, write: Status, read: Status)
      modifies this
      ensures State() == Create(old(State()), service, newId, write, read)
      ensures write.Err? ==> services == old(services) && table == old(table) && error.Some?
    {
      match write {
        case Ok =>
          table := table + [Row(newId, service)];
          FetchServices(read);
        case Err(f) =>
          error := Caught(f, CreateError);
      }
    }

    method DeleteService(id: string, write: Status, read: Status)
      modifies this
      ensures State() == Delete(old(State()), id, write, read)
      ensures write.Err? ==> services == old(services) && table == old(table) && error.Some?
    {
      match write {
        case Ok =>
          table := DeleteById(table, id);
          FetchServices(read);
        case Err(f) =>
          error := Caught(f, DeleteError);
      }
    }
  }
}
