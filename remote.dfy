/** The hosted backend as the hooks see it: the outcome of a remote call, the
    message a hook stores when a call fails, and the ordering a `select ...
    order(key, ascending)` query applies to a table. */
module Remote {
  import opened Wrappers

  /** What the client library reports for a failed call. `code` is the
      backend's error code (for instance `PGRST116`, "no rows"); `isError` says
      whether the thrown value is an instance of `Error`, which decides whether
      a hook shows `message` or its own fallback text. */
  datatype Failure = Failure(code: string, message: string, isError: bool)

  /** The outcome of one remote call. On `Ok` the backend applies the call to
      its table; on `Err` nothing is applied. */
  datatype Status = Ok | Err(failure: Failure)

  /** Fallback texts of the hooks' `catch` blocks. */
  const FetchError: string := "Une erreur est survenue"
  const UpdateError: string := "Erreur lors de la mise à jour"
  const CreateError: string := "Erreur lors de la création"
  const DeleteError: string := "Erreur lors de la suppression"
  const UploadError: string := "Erreur lors de l'upload"

  /** `err instanceof Error ? err.message : fallback` */
  function ErrorText(f: Failure, fallback: string): string
  {
    if f.isError then f.message else fallback
  }

  /** The `error` a hook holds after catching `f`: never null, so a failure is
      always visible to the managers' `if (error)` gate. */
  function Caught(f: Failure, fallback: string): (e: Option<string>)
    ensures e.Some?
    ensures f.isError ==> e.value == f.message
    ensures !f.isError ==> e.value == fallback
  {
    Some(ErrorText(f, fallback))
  }

  /** `s` is ordered by `key`, ascending. */
  ghost predicate SortedBy<T>(s: seq<T>, key: T -> int)
  {
    forall i, j :: 0 <= i < j < |s| ==> key(s[i]) <= key(s[j])
  }

  /** Inserts `x` into `s` before the first element whose key is not smaller
      than `key(x)`. */
  function InsertBy<T>(x: T, s: seq<T>, key: T -> int): (r: seq<T>)
    ensures multiset(r) == multiset(s) + multiset{x}
  {
    if s == [] || key(x) <= key(s[0]) then
      [x] + s
    else
      assert s == [s[0]] + s[1..];
      [s[0]] + InsertBy(x, s[1..], key)
  }

  /** In an ordered sequence no element has a smaller key than the first. */
  lemma FirstIsLeast<T>(s: seq<T>, y: T, key: T -> int)
    requires SortedBy(s, key) && y in s
    ensures key(s[0]) <= key(y)
  {
    var k :| 0 <= k < |s| && s[k] == y;
    if k > 0 { assert key(s[0]) <= key(s[k]); }
  }

  /** An element no larger than everything in an ordered sequence can go first. */
  lemma SortedCons<T>(a: T, rest: seq<T>, key: T -> int)
    requires SortedBy(rest, key)
    requires forall y :: y in rest ==> key(a) <= key(y)
    ensures SortedBy([a] + rest, key)
  {
    var r := [a] + rest;
    forall i, j | 0 <= i < j < |r| ensures key(r[i]) <= key(r[j]) {
      assert r[j] == rest[j - 1];
      if i > 0 { assert r[i] == rest[i - 1]; }
    }
  }

  /** Inserting into an ordered sequence keeps it ordered. */
  lemma {:induction false} InsertBySorted<T>(x: T, s: seq<T>, key: T -> int)
    requires SortedBy(s, key)
    ensures SortedBy(InsertBy(x, s, key), key)
  {
    if s == [] || key(x) <= key(s[0]) {
      forall y | y in s ensures key(x) <= key(y) { FirstIsLeast(s, y, key); }
      SortedCons(x, s, key);
    } else {
      var rest := InsertBy(x, s[1..], key);
      InsertBySorted(x, s[1..], key);
      forall y | y in rest ensures key(s[0]) <= key(y) {
        assert y in multiset(rest);
        if y != x {
          assert y in multiset(s[1..]);
          FirstIsLeast(s, y, key);
        }
      }
      SortedCons(s[0], rest, key);
    }
  }

  /** The rows of a table as `order(key, { ascending: true })` returns them.
      The backend leaves the order of equal keys open; the model keeps table
      order for them. */
  function SortBy<T>(s: seq<T>, key: T -> int): (r: seq<T>)
    ensures SortedBy(r, key)
    ensures multiset(r) == multiset(s)
  {
    if s == [] then []
    else
      assert s == [s[0]] + s[1..];
      InsertBySorted(s[0], SortBy(s[1..], key), key);
      InsertBy(s[0], SortBy(s[1..], key), key)
  }
}
