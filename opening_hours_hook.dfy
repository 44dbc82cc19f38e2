/** The `useOpeningHours` hook: a cache of the seven pre-seeded opening-hour
    rows ordered by weekday, the per-day update, and the two display helpers
    `getDayName` and `formatTime`. */
module OpeningHoursHook {
  import opened Wrappers
  import opened Remote

  /** A row of the `opening_hours` table: `dayOfWeek` is 0 for Sunday up to 6
      for Saturday; the times are nullable `HH:MM:SS` strings. */
  datatype OpeningHour = OpeningHour(id: string, dayOfWeek: int, isOpen: bool,
                                     openingTime: Option<string>, closingTime: Option<string>)

  /** The `updates` object of `updateHours`: a partial row in which every
      property may be absent. */
  datatype HoursPatch = HoursPatch(isOpen: Field<bool>, openingTime: Field<Option<string>>,
                                   closingTime: Field<Option<string>>)

  /** A patch with no property at all (`{}`). */
  const NoChange: HoursPatch := HoursPatch(Unset, Unset, Unset)

  function FieldOr<T>(f: Field<T>, current: T): T
  {
    if f.Set? then f.value else current
  }

  /** What the backend writes into row `h` for `.update(p)`: each present
      property replaces its column, absent ones leave it. */
  function Patched(h: OpeningHour, p: HoursPatch): OpeningHour
  {
    h.(isOpen := FieldOr(p.isOpen, h.isOpen),
       openingTime := FieldOr(p.openingTime, h.openingTime),
       closingTime := FieldOr(p.closingTime, h.closingTime))
  }

  /** `.update(p).eq('day_of_week', d)`: only rows of day `d` change. */
  function UpdateDay(rows: seq<OpeningHour>, d: int, p: HoursPatch): (r: seq<OpeningHour>)
    ensures |r| == |rows|
    ensures forall i :: 0 <= i < |rows| ==>
      r[i] == if rows[i].dayOfWeek == d then Patched(rows[i], p) else rows[i]
  {
    seq(|rows|, i requires 0 <= i < |rows| =>
      if rows[i].dayOfWeek == d then Patched(rows[i], p) else rows[i])
  }

  function DayKey(h: OpeningHour): int { h.dayOfWeek }

  const DayNames: seq<string> :=
    ["Dimanche", "Lundi", "Mardi", "Mercredi", "Jeudi", "Vendredi", "Samedi"]

  /** `getDayName`: `days[dayOfWeek]`, which is `undefined` (here `None`) off
      the table. */
  function DayName(d: int): (r: Option<string>)
    ensures r.Some? <==> 0 <= d < 7
  {
    if 0 <= d < |DayNames| then Some(DayNames[d]) else None
  }

  /** The seven weekdays get seven different names, Sunday first. */
  lemma DayNamesDistinct(d: int, e: int)
    requires 0 <= d < 7 && 0 <= e < 7 && d != e
    ensures DayName(d).Some? && DayName(e).Some? && DayName(d) != DayName(e)
    ensures DayName(0) == Some("Dimanche") && DayName(6) == Some("Samedi")
  {
  }

  /** `formatTime`: `''` for a null or empty time, else `substring(0, 5)`. */
  function FormatTime(t: Option<string>): (r: string)
    ensures |r| <= 5
    ensures t.None? ==> r == ""
    ensures t.Some? ==> |r| <= |t.value| && r == t.value[..|r|]
    ensures t.Some? && |t.value| >= 5 ==> r == t.value[..5]
    ensures t.Some? && |t.value| < 5 ==> r == t.value
  {
    if t.None? || t.value == "" then ""
    else if |t.value| < 5 then t.value
    else t.value[..5]
  }

  /** Formatting an already formatted time changes nothing. */
  lemma FormatTimeIdempotent(t: Option<string>)
    ensures FormatTime(Some(FormatTime(t))) == FormatTime(t)
  {
  }

  /** The hook's state, with the remote table. */
  datatype Cache = Cache(table: seq<OpeningHour>, hours: seq<OpeningHour>, loading: bool,
                         error: Option<string>)

  function Initial(table: seq<OpeningHour>): Cache
  {
    Cache(table, [], true, None)
  }

  /** `fetchHours` once settled: all rows ascending by weekday. */
  function Fetch(c: Cache, read: Status): Cache
  {
    match read
    case Ok => c.(hours := SortBy(c.table, DayKey), loading := false)
    case Err(f) => c.(loading := false, error := Caught(f, FetchError))
  }

  /** A successful fetch holds every row in weekday order, leaving `error`
      alone; a failed one keeps the rows and sets `error`; `loading` ends
      false either way. */
  lemma FetchOutcomes(c: Cache, read: Status)
    ensures !Fetch(c, read).loading && Fetch(c, read).table == c.table
    ensures read.Ok? ==>
      SortedBy(Fetch(c, read).hours, DayKey) &&
      multiset(Fetch(c, read).hours) == multiset(c.table) && Fetch(c, read).error == c.error
    ensures read.Err? ==>
      Fetch(c, read).hours == c.hours &&
      Fetch(c, read).error == Some(ErrorText(read.failure, FetchError))
  {
  }

  /** `updateHours(d, p)`: on success the rows of day `d` are patched and the
      hook refetches; on failure only `error` changes. */
  function Update(c: Cache, d: int, p: HoursPatch, write: Status, read: Status): Cache
  {
    match write
    case Ok => Fetch(c.(table := UpdateDay(c.table, d, p)), read)
    case Err(f) => c.(error := Caught(f, UpdateError))
  }

  datatype Op = FetchOp(read: Status) | UpdateOp(day: int, patch: HoursPatch, write: Status, read: Status)

  function Step(c: Cache, op: Op): Cache
  {
    match op
    case FetchOp(read) => Fetch(c, read)
    case UpdateOp(d, p, write, read) => Update(c, d, p, write, read)
  }

  function Run(c: Cache, ops: seq<Op>): Cache
    decreases |ops|
  {
    if ops == [] then c else Run(Step(c, ops[0]), ops[1..])
  }

  /** The cached rows are always in weekday order, and the table always keeps
      its rows: updates never create or delete one, and the weekday of a row
      never changes. */
  lemma {:induction false} OrderedAndDaysKept(c: Cache, ops: seq<Op>)
    requires SortedBy(c.hours, DayKey)
    ensures SortedBy(Run(c, ops).hours, DayKey)
    ensures |Run(c, ops).table| == |c.table|
    ensures forall i :: 0 <= i < |c.table| ==> Run(c, ops).table[i].dayOfWeek == c.table[i].dayOfWeek
    decreases |ops|
  {
    if ops != [] {
      OrderedAndDaysKept(Step(c, ops[0]), ops[1..]);
    }
  }

  /** Once `error` is set no later call clears it. */
  lemma {:induction false} ErrorNeverCleared(c: Cache, ops: seq<Op>)
    requires c.error.Some?
    ensures Run(c, ops).error.Some?
    decreases |ops|
  {
    if ops != [] {
      ErrorNeverCleared(Step(c, ops[0]), ops[1..]);
    }
  }

  /** The hook itself. */
  class HoursCache {
    var table: seq<OpeningHour>
    var hours: seq<OpeningHour>
    var loading: bool
    var error: Option<string>

    function State(): Cache
      reads this
    {
      Cache(table, hours, loading, error)
    }

    constructor (remote: seq<OpeningHour>)
      ensures State() == Initial(remote)
    {
      table := remote;
      hours := [];
      loading := true;
      error := None;
    }

    method FetchHours(read: Status)
      modifies this
      ensures State() == Fetch(old(State()), read)
      ensures !loading && table == old(table)
      ensures read.Err? ==> hours == old(hours) && error.Some?
    {
      loading := true;
      match read {
        case Ok => hours := SortBy(table, DayKey);
        case Err(f) => error := Caught(f, FetchError);
      }
      loading := false;
    }

    method UpdateHours(dayOfWeek: int, updates: HoursPatch, write: Status, read: Status)
      modifies this
      ensures State() == Update(old(State()), dayOfWeek, updates, write, read)
      ensures write.Err? ==> hours == old(hours) && table == old(table) && error.Some?
    {
      match write {
        case Ok =>
          table := UpdateDay(table, dayOfWeek, updates);
          FetchHours(read);
        case Err(f) =>
          error := Caught(f, UpdateError);
      }
    }
  }
}
