/** The `useContactInfo` hook: the salon's single contact record, read with
    `limit(1).single()`, where the backend's "no rows" error `PGRST116` is not
    treated as an error, and written by update-by-id when a record is cached or
    insert when none is. */
module ContactInfoHook {
  import opened Wrappers
  import opened Remote

  /** A row of the `contact_info` table (timestamps left out). */
  datatype ContactInfo = ContactInfo(id: string, phone: string, email: string, address: string)

  /** The columns the admin form writes. */
  datatype ContactFields = ContactFields(phone: string, email: string, address: string)

  function ContactRow(id: string, f: ContactFields): ContactInfo
  {
    ContactInfo(id, f.phone, f.email, f.address)
  }

  function FieldsOf(c: ContactInfo): ContactFields
  {
    ContactFields(c.phone, c.email, c.address)
  }

  /** `contactInfo?.<field> || fallback`, as the screens display a field:
      the record's value, or the fallback when there is no record or the
      value is empty. */
  function Displayed(info: Option<ContactInfo>, field: ContactInfo -> string, fallback: string): (r: string)
    ensures info.Some? && field(info.value) != "" ==> r == field(info.value)
    ensures !(info.Some? && field(info.value) != "") ==> r == fallback
  {
    OrElse(if info.Some? then Some(field(info.value)) else None, fallback)
  }

  /** The backend's code for "`single()` found no row". */
  const NoRows: string := "PGRST116"

  /** The failure the backend reports for `single()` on an empty table; only
      its code is ever looked at. */
  const NoRowsFailure: Failure := Failure(NoRows, "The result contains 0 rows", true)

  /** The `{ data, error }` pair of a query. */
  datatype Reply = Reply(data: Option<ContactInfo>, error: Option<Failure>)

  /** `.select('*').limit(1).single()` on `table`, when the call itself
      reaches the backend (`read` is `Ok`) or not. */
  function Single(table: seq<ContactInfo>, read: Status): (r: Reply)
    ensures r.data.Some? <==> read.Ok? && table != []
    ensures r.data.Some? ==> r.data.value == table[0] && r.error.None?
    ensures r.data.None? ==> r.error.Some?
    ensures read.Ok? && table == [] ==> r.error == Some(NoRowsFailure)
    ensures read.Err? ==> r.error == Some(read.failure)
  {
    match read
    case Err(f) => Reply(None, Some(f))
    case Ok => if table == [] then Reply(None, Some(NoRowsFailure)) else Reply(Some(table[0]), None)
  }

  /** `.update(updates).eq('id', id)` */
  function UpdateById(rows: seq<ContactInfo>, id: string, f: ContactFields): (r: seq<ContactInfo>)
    ensures |r| == |rows|
    ensures forall i :: 0 <= i < |rows| ==>
      r[i] == if rows[i].id == id then ContactRow(id, f) else rows[i]
  {
    seq(|rows|, i requires 0 <= i < |rows| =>
      if rows[i].id == id then ContactRow(id, f) else rows[i])
  }

  /** The hook's state, with the remote table. */
  datatype Cache = Cache(table: seq<ContactInfo>, contactInfo: Option<ContactInfo>, loading: bool,
                         error: Option<string>)

  function Initial(table: seq<ContactInfo>): Cache
  {
    Cache(table, None, true, None)
  }

  /** `fetchContactInfo` once settled: an error other than `PGRST116` is
      thrown and caught; otherwise `data` (null for "no rows") is stored. */
  function Fetch(c: Cache, read: Status): Cache
  {
    var reply := Single(c.table, read);
    if reply.error.Some? && reply.error.value.code != NoRows
    then c.(loading := false, error := Caught(reply.error.value, FetchError))
    else c.(contactInfo := reply.data, loading := false)
  }

  /** The table after the write of `updateContactInfo(u)` succeeds: an update
      of the cached record's row, or an insert when nothing is cached. */
  function Written(c: Cache, u: ContactFields, newId: string): seq<ContactInfo>
  {
    if c.contactInfo.Some? then UpdateById(c.table, c.contactInfo.value.id, u)
    else c.table + [ContactRow(newId, u)]
  }

  /** `updateContactInfo(u)`: on success the hook refetches (a failing
      refetch is caught inside the fetch); a failed write sets `error` only. */
  function Update(c: Cache, u: ContactFields, newId: string, write: Status, read: Status): Cache
  {
    match write
    case Ok => Fetch(c.(table := Written(c, u, newId)), read)
    case Err(f) => c.(error := Caught(f, UpdateError))
  }

  /** The outcomes of a fetch: `PGRST116`, whether it comes from an empty
      table or is reported for the call, leaves `error` alone and clears the
      record; any other failure sets `error` and keeps the record; a row read
      becomes the record. `loading` ends false in every case. */
  lemma FetchOutcomes(c: Cache, read: Status)
    ensures !Fetch(c, read).loading && Fetch(c, read).table == c.table
    ensures read.Ok? && c.table != [] ==>
      Fetch(c, read).contactInfo == Some(c.table[0]) && Fetch(c, read).error == c.error
    ensures read.Ok? && c.table == [] ==>
      Fetch(c, read).contactInfo.None? && Fetch(c, read).error == c.error
    ensures read.Err? && read.failure.code == NoRows ==>
      Fetch(c, read).contactInfo.None? && Fetch(c, read).error == c.error
    ensures read.Err? && read.failure.code != NoRows ==>
      Fetch(c, read).contactInfo == c.contactInfo &&
      Fetch(c, read).error == Some(ErrorText(read.failure, FetchError))
  {
  }

  /** With a record cached, a successful write only changes rows with its id
      and inserts nothing; with none cached it appends exactly one row built
      from the fields. */
  lemma WriteTargets(c: Cache, u: ContactFields, newId: string)
    ensures c.contactInfo.Some? ==>
      |Written(c, u, newId)| == |c.table| &&
      forall i :: 0 <= i < |c.table| && c.table[i].id != c.contactInfo.value.id ==>
        Written(c, u, newId)[i] == c.table[i]
    ensures c.contactInfo.None? ==>
      Written(c, u, newId) == c.table + [ContactInfo(newId, u.phone, u.email, u.address)]
  {
  }

  datatype Op = FetchOp(read: Status) | UpdateOp(fields: ContactFields, newId: string, write: Status, read: Status)

  function Step(c: Cache, op: Op): Cache
  {
    match op
    case FetchOp(read) => Fetch(c, read)
    case UpdateOp(u, newId, write, read) => Update(c, u, newId, write, read)
  }

  function Run(c: Cache, ops: seq<Op>): Cache
    decreases |ops|
  {
    if ops == [] then c else Run(Step(c, ops[0]), ops[1..])
  }

  /** Once `error` is set no later call clears it. */
  lemma {:induction false} ErrorNeverCleared(c: Cache, ops: seq<Op>)
    requires c.error.Some?
    ensures Run(c, ops).error.Some?
    decreases |ops|
  {
    if ops != [] {
      ErrorNeverCleared(Step(c, ops[0]), ops[1..]);
    }
  }

  /** Used on its own, the hook can create a second contact row: a failed
      first fetch leaves nothing cached, so the next save inserts. */
  lemma SaveAfterFailedFetchInserts(row: ContactInfo, f: Failure, u: ContactFields, newId: string)
    requires f.code != NoRows
    ensures var c := Run(Initial([row]), [FetchOp(Err(f)), UpdateOp(u, newId, Ok, Ok)]);
      |c.table| == 2
  {
    var ops := [FetchOp(Err(f)), UpdateOp(u, newId, Ok, Ok)];
    var c1 := Fetch(Initial([row]), Err(f));
    assert c1.contactInfo.None?;
    assert ops[1..] == [UpdateOp(u, newId, Ok, Ok)] && ops[1..][1..] == [];
    assert Run(c1, ops[1..]) == Run(Update(c1, u, newId, Ok, Ok), []);
  }

  /** The hook itself. */
  class ContactCache {
    var table: seq<ContactInfo>
    var contactInfo: Option<ContactInfo>
    var loading: bool
    var error: Option<string>

    function State(): Cache
      reads this
    {
      Cache(table, contactInfo, loading, error)
    }

    constructor (remote: seq<ContactInfo>)
      ensures State() == Initial(remote)
    {
      table := remote;
      contactInfo := None;
      loading := true;
      error := None;
    }

    method FetchContactInfo(read: Status)
      modifies this
      ensures State() == Fetch(old(State()), read)
      ensures !loading && table == old(table)
    {
      loading := true;
      var reply := Single(table, read);
      if reply.error.Some? && reply.error.value.code != NoRows {
        error := Caught(reply.error.value, FetchError);
      } else {
        contactInfo := reply.data;
      }
      loading := false;
    }

    method UpdateContactInfo(updates: ContactFields, newId: string, write: Status, read: Status)
      modifies this
      ensures State() == Update(old(State()), updates, newId, write, read)
      ensures write.Err? ==>
        table == old(table) && contactInfo == old(contactInfo) && error.Some?
    {
      match write {
        case Ok =>
          if contactInfo.Some? {
            table := UpdateById(table, contactInfo.value.id, updates);
          } else {
            table := table + [ContactRow(newId, updates)];
          }
          FetchContactInfo(read);
        case Err(f) =>
          error := Caught(f, UpdateError);
      }
    }
  }
}
