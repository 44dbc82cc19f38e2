/** The admin screen for opening hours: a per-day edit buffer layered over
    the cached rows. Toggling a day fills default times, a time input sets one
    field, saving sends the day's buffer and drops it, and every input shows
    the buffered value if there is one and the stored one otherwise. */
module HoursManager {
  import opened Wrappers
  import opened Remote
  import opened OpeningHoursHook

  /** The two time inputs of a day. */
  datatype TimeField = OpeningTime | ClosingTime

  /** The fields `getCurrentValue` is asked for. */
  datatype HourField = IsOpenField | TimeOf(time: TimeField)

  /** What `getCurrentValue` returns: `null`, the open flag, or a time. */
  datatype Value = Null | Flag(b: bool) | Time(t: string)

  /** `prev[dayOfWeek]`, spread as `{}` when the day has no buffer. */
  function Buffered(editing: map<int, HoursPatch>, d: int): HoursPatch
  {
    if d in editing then editing[d] else NoChange
  }

  /** A buffered time as the `||` of the toggle sees it: absent is `undefined`. */
  function BufferedTime(f: Field<Option<string>>): Option<string>
  {
    if f.Set? then f.value else None
  }

  /** The day's buffer after `handleToggleDay(d, isOpen)`. The stored row is
      not consulted: opening a day keeps a non-empty buffered time and fills
      `09:00` / `18:00` otherwise; closing it nulls both times. */
  function Toggled(p: HoursPatch, isOpen: bool): (q: HoursPatch)
    ensures q.isOpen == Set(isOpen)
    ensures !isOpen ==> q.openingTime == Set(None) && q.closingTime == Set(None)
    ensures isOpen && p.openingTime.Set? && p.openingTime.value.Some? && p.openingTime.value.value != "" ==>
      q.openingTime == p.openingTime
    ensures isOpen && !(p.openingTime.Set? && p.openingTime.value.Some? && p.openingTime.value.value != "") ==>
      q.openingTime == Set(Some("09:00"))
    ensures isOpen && p.closingTime.Set? && p.closingTime.value.Some? && p.closingTime.value.value != "" ==>
      q.closingTime == p.closingTime
    ensures isOpen && !(p.closingTime.Set? && p.closingTime.value.Some? && p.closingTime.value.value != "") ==>
      q.closingTime == Set(Some("18:00"))
  {
    HoursPatch(Set(isOpen),
               Set(if isOpen then Some(OrElse(BufferedTime(p.openingTime), "09:00")) else None),
               Set(if isOpen then Some(OrElse(BufferedTime(p.closingTime), "18:00")) else None))
  }

  /** Closing a day and opening it again resets its times to the defaults,
      whatever was buffered before. */
  lemma ToggleOffThenOn(p: HoursPatch)
    ensures Toggled(Toggled(p, false), true) ==
      HoursPatch(Set(true), Set(Some("09:00")), Set(Some("18:00")))
  {
  }

  /** The day's buffer after `handleTimeChange(d, field, v)`. */
  function WithTime(p: HoursPatch, field: TimeField, v: string): (q: HoursPatch)
    ensures q.isOpen == p.isOpen
    ensures field == OpeningTime ==> q.openingTime == Set(Some(v)) && q.closingTime == p.closingTime
    ensures field == ClosingTime ==> q.closingTime == Set(Some(v)) && q.openingTime == p.openingTime
  {
    match field
    case OpeningTime => p.(openingTime := Set(Some(v)))
    case ClosingTime => p.(closingTime := Set(Some(v)))
  }

  /** A buffered field, `None` when the buffer does not have it. */
  function PatchValue(p: HoursPatch, f: HourField): Option<Value>
  {
    match f
    case IsOpenField => if p.isOpen.Set? then Some(Flag(p.isOpen.value)) else None
    case TimeOf(OpeningTime) => if p.openingTime.Set? then Some(TimeValue(p.openingTime.value)) else None
    case TimeOf(ClosingTime) => if p.closingTime.Set? then Some(TimeValue(p.closingTime.value)) else None
  }

  function TimeValue(t: Option<string>): Value
  {
    if t.Some? then Time(t.value) else Null
  }

  /** A stored row's field. */
  function RowValue(h: OpeningHour, f: HourField): Value
  {
    match f
    case IsOpenField => Flag(h.isOpen)
    case TimeOf(OpeningTime) => TimeValue(h.openingTime)
    case TimeOf(ClosingTime) => TimeValue(h.closingTime)
  }

  /** `hours.find(h => h.day_of_week === d)` */
  function FindDay(hours: seq<OpeningHour>, d: int): (r: Option<OpeningHour>)
    ensures r.Some? ==> r.value in hours && r.value.dayOfWeek == d
    ensures r.None? <==> forall x :: x in hours ==> x.dayOfWeek != d
  {
    if hours == [] then None
    else if hours[0].dayOfWeek == d then Some(hours[0])
    else FindDay(hours[1..], d)
  }

  /** `getCurrentValue(d, f)`: the buffered field if the buffer has it, else
      the stored row's field, else `null`. */
  function CurrentValue(editing: map<int, HoursPatch>, hours: seq<OpeningHour>, d: int,
                        f: HourField): (v: Value)
    ensures d in editing && PatchValue(editing[d], f).Some? ==> v == PatchValue(editing[d], f).value
    ensures !(d in editing && PatchValue(editing[d], f).Some?) ==>
      (v == Null <==> FindDay(hours, d).None? || RowValue(FindDay(hours, d).value, f) == Null)
    ensures !(d in editing && PatchValue(editing[d], f).Some?) && FindDay(hours, d).Some? ==>
      exists x :: x in hours && x.dayOfWeek == d && v == RowValue(x, f)
  {
    if d in editing && PatchValue(editing[d], f).Some? then PatchValue(editing[d], f).value
    else match FindDay(hours, d)
      case Some(h) => RowValue(h, f)
      case None => Null
  }

  /** A changed time is what the input shows next, and no other day or field
      shows anything different. */
  lemma TimeChangeShown(editing: map<int, HoursPatch>, hours: seq<OpeningHour>, d: int,
                        field: TimeField, v: string, d2: int, f2: HourField)
    ensures var after := editing[d := WithTime(Buffered(editing, d), field, v)];
      && CurrentValue(after, hours, d, TimeOf(field)) == Time(v)
      && (d2 != d || f2 != TimeOf(field) ==>
           CurrentValue(after, hours, d2, f2) == CurrentValue(editing, hours, d2, f2))
  {
  }

  /** A field the patch sets is what the patched row holds. */
  lemma PatchedField(h: OpeningHour, p: HoursPatch, f: HourField)
    requires PatchValue(p, f).Some?
    ensures RowValue(Patched(h, p), f) == PatchValue(p, f).value
  {
  }

  /** In any reordering of the updated table, the row found for day `d` is
      a patched one, and there is one when the table has day `d`. */
  lemma FoundIsPatched(table: seq<OpeningHour>, d: int, p: HoursPatch, hours: seq<OpeningHour>)
    requires multiset(hours) == multiset(UpdateDay(table, d, p))
    requires exists i :: 0 <= i < |table| && table[i].dayOfWeek == d
    ensures FindDay(hours, d).Some?
    ensures exists j :: 0 <= j < |table| && FindDay(hours, d).value == Patched(table[j], p)
  {
    var rows := UpdateDay(table, d, p);
    var i :| 0 <= i < |table| && table[i].dayOfWeek == d;
    assert rows[i] in multiset(hours);
    var h := FindDay(hours, d).value;
    assert h in multiset(rows);
    var j :| 0 <= j < |rows| && rows[j] == h;
    assert h == Patched(table[j], p);
  }

  /** Once a day is saved with both calls succeeding and its buffer dropped,
      every field the buffer held is what the screen shows for that day, now
      read back from the refetched rows. */
  lemma SavedDayShown(c: OpeningHoursHook.Cache, editing: map<int, HoursPatch>, d: int, f: HourField)
    requires d in editing && PatchValue(editing[d], f).Some?
    requires exists i :: 0 <= i < |c.table| && c.table[i].dayOfWeek == d
    ensures CurrentValue(editing - {d}, Update(c, d, editing[d], Ok, Ok).hours, d, f) ==
      PatchValue(editing[d], f).value
  {
    var p := editing[d];
    var hours := Update(c, d, p, Ok, Ok).hours;
    FoundIsPatched(c.table, d, p, hours);
    var j :| 0 <= j < |c.table| && FindDay(hours, d).value == Patched(c.table[j], p);
    PatchedField(c.table[j], p, f);
  }

  /** The screen: its day buffers and the opening-hours hook it reads. */
  class HoursEditor {
    const hook: HoursCache
    var editingHours: map<int, HoursPatch>

    constructor (hook: HoursCache)
      ensures this.hook == hook && editingHours == map[]
    {
      this.hook := hook;
      editingHours := map[];
    }

    method ToggleDay(dayOfWeek: int, isOpen: bool)
      modifies this
      ensures editingHours == old(editingHours)[dayOfWeek := Toggled(Buffered(old(editingHours), dayOfWeek), isOpen)]
    {
      editingHours := editingHours[dayOfWeek := Toggled(Buffered(editingHours, dayOfWeek), isOpen)];
    }

    method TimeChange(dayOfWeek: int, field: TimeField, value: string)
      modifies this
      ensures editingHours == old(editingHours)[dayOfWeek := WithTime(Buffered(old(editingHours), dayOfWeek), field, value)]
    {
      editingHours := editingHours[dayOfWeek := WithTime(Buffered(editingHours, dayOfWeek), field, value)];
    }

    /** `handleSave(d)`: nothing without a buffer for `d`; otherwise the
        buffer is sent and then dropped, whatever the outcome. */
    method Save(dayOfWeek: int, write: Status, read: Status)
      modifies this, hook
      ensures dayOfWeek !in old(editingHours) ==>
        editingHours == old(editingHours) && hook.State() == old(hook.State())
      ensures dayOfWeek in old(editingHours) ==>
        editingHours == old(editingHours) - {dayOfWeek} &&
        hook.State() == Update(old(hook.State()), dayOfWeek, old(editingHours)[dayOfWeek], write, read)
    {
      if dayOfWeek in editingHours {
        var updates := editingHours[dayOfWeek];
        hook.UpdateHours(dayOfWeek, updates, write, read);
        editingHours := editingHours - {dayOfWeek};
      }
    }

  }
}
