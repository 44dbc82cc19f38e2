/** The `useSiteContent` hook: the flat `(section, key, value)` rows of the
    `site_content` table grouped into a section -> key -> value map, the
    `getContent` lookup with a default, and the upsert on `(section, key)`. */
module SiteContentHook {
  import opened Wrappers
  import opened Remote

  /** A row of the `site_content` table; `kind` is the `type` column. */
  datatype ContentRow = ContentRow(id: string, section: string, key: string, value: string,
                                   kind: string)

  /** `Record<string, Record<string, string>>` */
  type Content = map<string, map<string, string>>

  predicate Matches(r: ContentRow, s: string, k: string)
  {
    r.section == s && r.key == k
  }

  /** The table constraint that the upsert's conflict target relies on: at most
      one row per `(section, key)`. */
  ghost predicate Unique(rows: seq<ContentRow>)
  {
    forall i, j :: 0 <= i < j < |rows| ==> !Matches(rows[j], rows[i].section, rows[i].key)
  }

  /** One pass of the `forEach` body: create the section's record if it is
      missing, then set the key. */
  function Put(m: Content, r: ContentRow): Content
  {
    var inner := if r.section in m then m[r.section] else map[];
    m[r.section := inner[r.key := r.value]]
  }

  /** The map the grouping loop builds from `rows`, read left to right. */
  function Organize(rows: seq<ContentRow>): Content
    decreases |rows|
  {
    if rows == [] then map[] else Put(Organize(rows[..|rows| - 1]), rows[|rows| - 1])
  }

  /** Reference definition of "later rows win": the value of the last row
      with section `s` and key `k`, if there is one. */
  function LastValue(rows: seq<ContentRow>, s: string, k: string): (r: Option<string>)
    ensures r.Some? <==> exists i :: 0 <= i < |rows| && Matches(rows[i], s, k)
    ensures r.Some? ==> exists i :: (0 <= i < |rows| && Matches(rows[i], s, k) &&
      rows[i].value == r.value && forall j :: i < j < |rows| ==> !Matches(rows[j], s, k))
    decreases |rows|
  {
    if rows == [] then None
    else
      var init, last := rows[..|rows| - 1], rows[|rows| - 1];
      assert forall i :: 0 <= i < |init| ==> init[i] == rows[i];
      if Matches(last, s, k) then
        assert Matches(rows[|rows| - 1], s, k);
        Some(last.value)
      else
        assert !Matches(rows[|rows| - 1], s, k);
        LastValue(init, s, k)
  }

  /** The grouped map holds `(s, k)` exactly when some row has that section
      and key, and then it holds the value of the last such row. */
  lemma {:induction false} OrganizeIsLastValue(rows: seq<ContentRow>, s: string, k: string)
    ensures (s in Organize(rows) && k in Organize(rows)[s]) <==> LastValue(rows, s, k).Some?
    ensures LastValue(rows, s, k).Some? ==>
      s in Organize(rows) && k in Organize(rows)[s] &&
      Organize(rows)[s][k] == LastValue(rows, s, k).value
    decreases |rows|
  {
    if rows != [] {
      OrganizeIsLastValue(rows[..|rows| - 1], s, k);
    }
  }

  /** No section appears in the grouped map without a row for it. */
  lemma {:induction false} OrganizeSections(rows: seq<ContentRow>, s: string)
    ensures s in Organize(rows) <==> exists i :: 0 <= i < |rows| && rows[i].section == s
    decreases |rows|
  {
    if rows != [] {
      var init := rows[..|rows| - 1];
      OrganizeSections(init, s);
      assert forall i :: 0 <= i < |init| ==> init[i] == rows[i];
      if s in Organize(init) {
        var i :| 0 <= i < |init| && init[i].section == s;
        assert rows[i].section == s;
      }
    }
  }

  /** The grouping loop of `fetchContent`. */
  method OrganizeContent(data: seq<ContentRow>) returns (organized: Content)
    ensures organized == Organize(data)
  {
    organized := map[];
    var n := 0;
    while n < |data|
      invariant 0 <= n <= |data|
      invariant organized == Organize(data[..n])
    {
      var item := data[n];
      if item.section !in organized {
        organized := organized[item.section := map[]];
      }
      organized := organized[item.section := organized[item.section][item.key := item.value]];
      assert data[..n + 1][..n] == data[..n];
      n := n + 1;
    }
    assert data[..n] == data;
  }

  /** `getContent(section, key, defaultValue)`: `content[section]?.[key] ||
      defaultValue`, so an empty stored value also yields the default. */
  function GetContent(content: Content, section: string, key: string, defaultValue: string): (r: string)
    ensures section in content && key in content[section] && content[section][key] != "" ==>
      r == content[section][key]
    ensures !(section in content && key in content[section]) ==> r == defaultValue
    ensures section in content && key in content[section] && content[section][key] == "" ==>
      r == defaultValue
  {
    if section in content && key in content[section] && content[section][key] != ""
    then content[section][key]
    else defaultValue
  }

  /** What the page shows for `(s, k)` after a fetch: the last row's value when
      it is non-empty, the default otherwise, and in particular the default for
      a pair no row has. */
  lemma GetContentOfRows(rows: seq<ContentRow>, s: string, k: string, d: string)
    ensures GetContent(Organize(rows), s, k, d) ==
      match LastValue(rows, s, k)
      case Some(v) => (if v != "" then v else d)
      case None => d
    ensures (forall i :: 0 <= i < |rows| ==> !Matches(rows[i], s, k)) ==>
      GetContent(Organize(rows), s, k, d) == d
  {
    OrganizeIsLastValue(rows, s, k);
  }

  /** `ON CONFLICT (section, key) DO UPDATE`: the rows of `(s, k)` get the new
      value and type `text`; every other row is unchanged. */
  function SetValue(rows: seq<ContentRow>, s: string, k: string, v: string): (r: seq<ContentRow>)
    ensures |r| == |rows|
    ensures forall i :: 0 <= i < |rows| ==>
      r[i] == if Matches(rows[i], s, k) then rows[i].(value := v, kind := "text") else rows[i]
    decreases |rows|
  {
    if rows == [] then []
    else
      var last := rows[|rows| - 1];
      SetValue(rows[..|rows| - 1], s, k, v) +
        [if Matches(last, s, k) then last.(value := v, kind := "text") else last]
  }

  /** `.upsert({ section, key, value, type: 'text' }, { onConflict: 'section,key' })`:
      update the row of `(s, k)` if there is one, else insert a row with the
      backend's id `newId`. */
  function Upsert(rows: seq<ContentRow>, s: string, k: string, v: string, newId: string): (r: seq<ContentRow>)
    ensures |r| == |rows| <==> exists i :: 0 <= i < |rows| && Matches(rows[i], s, k)
    ensures |r| == |rows| || |r| == |rows| + 1
  {
    if exists i :: 0 <= i < |rows| && Matches(rows[i], s, k)
    then SetValue(rows, s, k, v)
    else rows + [ContentRow(newId, s, k, v, "text")]
  }

  /** After the upsert: every row of `(s, k)` has the new value and type
      `text`, at least one exists, the only row added (if any) is that one,
      rows of other pairs are unchanged, and on a constrained table it is
      exactly one row. */
  lemma UpsertSpec(rows: seq<ContentRow>, s: string, k: string, v: string, newId: string)
    ensures var r := Upsert(rows, s, k, v, newId);
      && (exists i :: 0 <= i < |r| && Matches(r[i], s, k))
      && (forall i :: 0 <= i < |r| && Matches(r[i], s, k) ==> r[i].value == v && r[i].kind == "text")
      && (forall i :: 0 <= i < |rows| && !Matches(rows[i], s, k) ==> i < |r| && r[i] == rows[i])
      && (forall i :: |rows| <= i < |r| ==> Matches(r[i], s, k))
      && (Unique(rows) ==> Unique(r))
  {
    var r := Upsert(rows, s, k, v, newId);
    if exists i :: 0 <= i < |rows| && Matches(rows[i], s, k) {
      var i :| 0 <= i < |rows| && Matches(rows[i], s, k);
      assert Matches(r[i], s, k);
    } else {
      assert Matches(r[|rows|], s, k);
    }
  }

  /** Keys are untouched by `SetValue`, so lookups of other pairs are too, and
      the pair itself now reads `v`. */
  lemma {:induction false} SetValueLastValue(rows: seq<ContentRow>, s: string, k: string, v: string,
                                             s2: string, k2: string)
    ensures LastValue(SetValue(rows, s, k, v), s2, k2) ==
      if s2 == s && k2 == k && LastValue(rows, s, k).Some? then Some(v) else LastValue(rows, s2, k2)
    decreases |rows|
  {
    if rows != [] {
      var r := SetValue(rows, s, k, v);
      SetValueLastValue(rows[..|rows| - 1], s, k, v, s2, k2);
      assert r[..|r| - 1] == SetValue(rows[..|rows| - 1], s, k, v);
    }
  }

  /** The upsert round trip: after it (and a refetch) `(s, k)` reads `v`, and
      every other pair reads what it read before. */
  lemma {:induction false} UpsertLastValue(rows: seq<ContentRow>, s: string, k: string, v: string,
                                           newId: string, s2: string, k2: string)
    ensures LastValue(Upsert(rows, s, k, v, newId), s2, k2) ==
      if s2 == s && k2 == k then Some(v) else LastValue(rows, s2, k2)
  {
    if exists i :: 0 <= i < |rows| && Matches(rows[i], s, k) {
      SetValueLastValue(rows, s, k, v, s2, k2);
    } else {
      var r := rows + [ContentRow(newId, s, k, v, "text")];
      assert r[..|r| - 1] == rows;
    }
  }

  /** After `updateContent(s, k, v)` and its refetch, `getContent(s, k, d)`
      returns `v` whenever `v` is non-empty (and `d` when it is empty), and
      every other pair returns what it returned before. */
  lemma UpdatedContentIsServed(rows: seq<ContentRow>, s: string, k: string, v: string,
                               newId: string, s2: string, k2: string, d: string)
    ensures GetContent(Organize(Upsert(rows, s, k, v, newId)), s, k, d) == if v != "" then v else d
    ensures !(s2 == s && k2 == k) ==>
      GetContent(Organize(Upsert(rows, s, k, v, newId)), s2, k2, d) ==
      GetContent(Organize(rows), s2, k2, d)
  {
    var r := Upsert(rows, s, k, v, newId);
    UpsertLastValue(rows, s, k, v, newId, s, k);
    UpsertLastValue(rows, s, k, v, newId, s2, k2);
    GetContentOfRows(r, s, k, d);
    GetContentOfRows(r, s2, k2, d);
    GetContentOfRows(rows, s2, k2, d);
  }

  /** The hook's state, with the remote table. */
  datatype Cache = Cache(table: seq<ContentRow>, content: Content, loading: bool,
                         error: Option<string>)

  function Initial(table: seq<ContentRow>): Cache
  {
    Cache(table, map[], true, None)
  }

  /** `fetchContent` once settled. */
  function Fetch(c: Cache, read: Status): Cache
  {
    match read
    case Ok => c.(content := Organize(c.table), loading := false)
    case Err(f) => c.(loading := false, error := Caught(f, FetchError))
  }

  /** `updateContent(s, k, v)`: on success the upsert is applied and the hook
      refetches; on failure only `error` changes. */
  function Update(c: Cache, s: string, k: string, v: string, newId: string,
                         write: Status, read: Status): Cache
  {
    match write
    case Ok => Fetch(c.(table := Upsert(c.table, s, k, v, newId)), read)
    case Err(f) => c.(error := Caught(f, UpdateError))
  }

  datatype Op =
    | FetchOp(read: Status)
    | UpdateOp(section: string, key: string, value: string, newId: string, write: Status, read: Status)

  function Step(c: Cache, op: Op): Cache
  {
    match op
    case FetchOp(read) => Fetch(c, read)
    case UpdateOp(s, k, v, newId, write, read) => Update(c, s, k, v, newId, write, read)
  }

  function Run(c: Cache, ops: seq<Op>): Cache
    decreases |ops|
  {
    if ops == [] then c else Run(Step(c, ops[0]), ops[1..])
  }

  /** No sequence of calls gives the table two rows for one `(section, key)`. */
  lemma {:induction false} TableStaysUnique(c: Cache, ops: seq<Op>)
    requires Unique(c.table)
    ensures Unique(Run(c, ops).table)
    decreases |ops|
  {
    if ops != [] {
      if ops[0].UpdateOp? && ops[0].write.Ok? {
        UpsertSpec(c.table, ops[0].section, ops[0].key, ops[0].value, ops[0].newId);
      }
      TableStaysUnique(Step(c, ops[0]), ops[1..]);
    }
  }

  /** Once `error` is set no later call clears it. */
  lemma {:induction false} ErrorNeverCleared(c: Cache, ops: seq<Op>)
    requires c.error.Some?
    ensures Run(c, ops).error.Some?
    decreases |ops|
  {
    if ops != [] {
      ErrorNeverCleared(Step(c, ops[0]), ops[1..]);
    }
  }

  /** The hook itself. */
  class ContentCache {
    var table: seq<ContentRow>
    var content: Content
    var loading: bool
    var error: Option<string>

    function State(): Cache
      reads this
    {
      Cache(table, content, loading, error)
    }

    constructor (remote: seq<ContentRow>)
      ensures State() == Initial(remote)
    {
      table := remote;
      content := map[];
      loading := true;
      error := None;
    }

    method FetchContent(read: Status)
      modifies this
      ensures State() == Fetch(old(State()), read)
      ensures !loading && table == old(table)
      ensures read.Err? ==> content == old(content) && error.Some?
    {
      loading := true;
      match read {
        case Ok =>
          var organizedContent := OrganizeContent(table);
          content := organizedContent;
        case Err(f) =>
          error := Caught(f, FetchError);
      }
      loading := false;
    }

    method UpdateContent(section: string, key: string, value: string, newId: string,
                         write: Status, read: Status)
      modifies this
      ensures State() == Update(old(State()), section, key, value, newId, write, read)
      ensures write.Err? ==> content == old(content) && table == old(table) && error.Some?
      ensures write.Ok? && read.Ok? ==> GetContent(content, section, key, "") == value
    {
      match write {
        case Ok =>
          table := Upsert(table, section, key, value, newId);
          FetchContent(read);
          UpdatedContentIsServed(old(table), section, key, value, newId, section, key, "");
        case Err(f) =>
          error := Caught(f, UpdateError);
      }
    }
  }
}
