/** The `useGallery` hook: a cache of all gallery images ordered by
    `order_index`, the three-step upload (store the file, resolve its public
    URL, insert the row) and the metadata update and delete. */
module GalleryHook {
  import opened Wrappers
  import opened Remote

  /** A row of the `gallery_images` table (timestamps left out). */
  datatype GalleryImage = GalleryImage(id: string, title: string, description: string,
                                       imageUrl: string, category: string, isFeatured: bool,
                                       orderIndex: int)

  /** The metadata the admin form edits and sends: no id and no URL. */
  datatype ImageFields = ImageFields(title: string, description: string, category: string,
                                     isFeatured: bool, orderIndex: int)

  /** A file picked in the browser; only its name matters to the hook. */
  datatype File = File(name: string)

  function FieldsOf(img: GalleryImage): ImageFields
  {
    ImageFields(img.title, img.description, img.category, img.isFeatured, img.orderIndex)
  }

  /** The row `{ ...imageData, image_url: url }` with id `id`. */
  function ImageRow(id: string, f: ImageFields, url: string): GalleryImage
  {
    GalleryImage(id, f.title, f.description, url, f.category, f.isFeatured, f.orderIndex)
  }

  function OrderKey(img: GalleryImage): int { img.orderIndex }

  /** `name.split('.').pop()`: the text after the last dot, or the whole name
      when it has none. */
  function Extension(name: string): (ext: string)
    ensures '.' !in ext
    ensures '.' !in name ==> ext == name
  {
    if name == [] then []
    else if name[|name| - 1] == '.' then []
    else
      var init := name[..|name| - 1];
      assert name == init + [name[|name| - 1]];
      Extension(init) + [name[|name| - 1]]
  }

  /** The extension ends the name, and when the name has a dot it is
      preceded by one: it is the segment after the last dot. */
  lemma {:induction false} ExtensionIsLastSegment(name: string)
    ensures |Extension(name)| <= |name| && name[|name| - |Extension(name)|..] == Extension(name)
    ensures '.' in name ==> |Extension(name)| < |name| && name[|name| - |Extension(name)| - 1] == '.'
    decreases |name|
  {
    if name != [] && name[|name| - 1] != '.' {
      var init := name[..|name| - 1];
      var last := name[|name| - 1];
      assert name == init + [last];
      ExtensionIsLastSegment(init);
      var e := Extension(init);
      assert Extension(name) == e + [last];
      assert name[|name| - |e| - 1..] == init[|init| - |e|..] + [last];
      if '.' in name {
        assert '.' in init;
        assert name[|name| - |e| - 2] == init[|init| - |e| - 1];
      }
    }
  }

  /** Whatever precedes the last dot does not change the extension. */
  lemma {:induction false} ExtensionAfterDot(t: string, e: string)
    requires '.' !in e
    ensures Extension(t + "." + e) == e
    decreases |e|
  {
    var name := t + "." + e;
    if e != [] {
      var init := e[..|e| - 1];
      assert name[..|name| - 1] == t + "." + init;
      assert name[|name| - 1] == e[|e| - 1];
      ExtensionAfterDot(t, init);
      assert e == init + [e[|e| - 1]];
    }
  }

  /** `gallery/${Math.random()}.${fileExt}` for the random token `token`. */
  function StoragePath(token: string, fileName: string): (p: string)
    ensures |p| > 8 && p[..8] == "gallery/"
  {
    "gallery/" + token + "." + Extension(fileName)
  }

  /** The stored file keeps the extension of the uploaded one, whatever the
      token (which itself contains a dot, as `Math.random()` prints one). */
  lemma StoredFileKeepsExtension(token: string, fileName: string)
    ensures Extension(StoragePath(token, fileName)) == Extension(fileName)
  {
    ExtensionAfterDot("gallery/" + token, Extension(fileName));
  }

  /** `.update(updates).eq('id', id)`: rows with that id get the new metadata
      and keep their URL; other rows are unchanged. */
  function UpdateById(rows: seq<GalleryImage>, id: string, f: ImageFields): (r: seq<GalleryImage>)
    ensures |r| == |rows|
    ensures forall i :: 0 <= i < |rows| ==>
      r[i] == if rows[i].id == id then ImageRow(id, f, rows[i].imageUrl) else rows[i]
  {
    seq(|rows|, i requires 0 <= i < |rows| =>
      if rows[i].id == id then ImageRow(id, f, rows[i].imageUrl) else rows[i])
  }

  /** `.delete().eq('id', id)` */
  function DeleteById(rows: seq<GalleryImage>, id: string): (r: seq<GalleryImage>)
    ensures forall x :: x in r <==> x in rows && x.id != id
  {
    if rows == [] then []
    else (if rows[0].id != id then [rows[0]] else []) + DeleteById(rows[1..], id)
  }

  /** The hook's state, with the remote table and the paths stored in the
      `images` bucket. */
  datatype Cache = Cache(table: seq<GalleryImage>, storage: set<string>,
                         images: seq<GalleryImage>, loading: bool, error: Option<string>)

  function Initial(table: seq<GalleryImage>, storage: set<string>): Cache
  {
    Cache(table, storage, [], true, None)
  }

  /** `fetchImages` once settled: all rows, no filter, ascending
      `order_index`. */
  function Fetch(c: Cache, read: Status): Cache
  {
    match read
    case Ok => c.(images := SortBy(c.table, OrderKey), loading := false)
    case Err(f) => c.(loading := false, error := Caught(f, FetchError))
  }

  /** A successful fetch lists every row, with no filter, in `order_index`
      order, leaving `error` alone; a failed one keeps the list and sets
      `error`; `loading` ends false either way. */
  lemma FetchOutcomes(c: Cache, read: Status)
    ensures !Fetch(c, read).loading && Fetch(c, read).table == c.table &&
            Fetch(c, read).storage == c.storage
    ensures read.Ok? ==>
      SortedBy(Fetch(c, read).images, OrderKey) &&
      multiset(Fetch(c, read).images) == multiset(c.table) && Fetch(c, read).error == c.error
    ensures read.Err? ==>
      Fetch(c, read).images == c.images &&
      Fetch(c, read).error == Some(ErrorText(read.failure, FetchError))
  {
  }

  function Write(c: Cache, newTable: seq<GalleryImage>, write: Status, fallback: string,
                 read: Status): Cache
  {
    match write
    case Ok => Fetch(c.(table := newTable), read)
    case Err(f) => c.(error := Caught(f, fallback))
  }

  /** `uploadImage`: the file goes to `StoragePath(token, file.name)`; `resolve`
      is the client library's `getPublicUrl`; the backend gives the new row the
      id `newId`. The first failing step ends the call. */
  function Upload(c: Cache, file: File, data: ImageFields, token: string,
                  resolve: string -> string, newId: string,
                  upload: Status, insert: Status, read: Status): Cache
  {
    var path := StoragePath(token, file.name);
    match upload
    case Err(f) => c.(error := Caught(f, UploadError))
    case Ok =>
      var stored := c.(storage := c.storage + {path});
      Write(stored, stored.table + [ImageRow(newId, data, resolve(path))], insert, UploadError, read)
  }

  function Update(c: Cache, id: string, f: ImageFields, write: Status, read: Status): Cache
  {
    Write(c, UpdateById(c.table, id, f), write, UpdateError, read)
  }

  function Delete(c: Cache, id: string, write: Status, read: Status): Cache
  {
    Write(c, DeleteById(c.table, id), write, DeleteError, read)
  }

  datatype Op =
    | FetchOp(read: Status)
    | UploadOp(file: File, data: ImageFields, token: string, resolve: string -> string,
               newId: string, upload: Status, insert: Status, read: Status)
    | UpdateOp(id: string, fields: ImageFields, write: Status, read: Status)
    | DeleteOp(id: string, write: Status, read: Status)

  function Step(c: Cache, op: Op): Cache
  {
    match op
    case FetchOp(read) => Fetch(c, read)
    case UploadOp(file, data, token, resolve, newId, upload, insert, read) =>
      Upload(c, file, data, token, resolve, newId, upload, insert, read)
    case UpdateOp(id, f, write, read) => Update(c, id, f, write, read)
    case DeleteOp(id, write, read) => Delete(c, id, write, read)
  }

  function Run(c: Cache, ops: seq<Op>): Cache
    decreases |ops|
  {
    if ops == [] then c else Run(Step(c, ops[0]), ops[1..])
  }

  /** One call keeps the cached images ordered and keeps every stored file. */
  lemma StepKeepsOrderAndFiles(c: Cache, op: Op)
    requires SortedBy(c.images, OrderKey)
    ensures SortedBy(Step(c, op).images, OrderKey)
    ensures c.storage <= Step(c, op).storage
  {
    match op
    case FetchOp(read) =>
    case UploadOp(file, data, token, resolve, newId, upload, insert, read) =>
      var path := StoragePath(token, file.name);
      if upload.Ok? {
        var stored := c.(storage := c.storage + {path});
        WriteKeepsOrderAndFiles(stored, stored.table + [ImageRow(newId, data, resolve(path))],
                                insert, UploadError, read);
      }
    case UpdateOp(id, f, write, read) =>
      WriteKeepsOrderAndFiles(c, UpdateById(c.table, id, f), write, UpdateError, read);
    case DeleteOp(id, write, read) =>
      WriteKeepsOrderAndFiles(c, DeleteById(c.table, id), write, DeleteError, read);
  }

  lemma WriteKeepsOrderAndFiles(c: Cache, newTable: seq<GalleryImage>, write: Status,
                                fallback: string, read: Status)
    requires SortedBy(c.images, OrderKey)
    ensures SortedBy(Write(c, newTable, write, fallback, read).images, OrderKey)
    ensures Write(c, newTable, write, fallback, read).storage == c.storage
  {
  }

  /** The cached images are always in `order_index` order, and no call ever
      removes a stored file: deleting a row leaves its file in the bucket. */
  lemma {:induction false} OrderedAndFilesKept(c: Cache, ops: seq<Op>)
    requires SortedBy(c.images, OrderKey)
    ensures SortedBy(Run(c, ops).images, OrderKey)
    ensures c.storage <= Run(c, ops).storage
    decreases |ops|
  {
    if ops != [] {
      StepKeepsOrderAndFiles(c, ops[0]);
      OrderedAndFilesKept(Step(c, ops[0]), ops[1..]);
    }
  }

  /** Once `error` is set no later call clears it. */
  lemma {:induction false} ErrorNeverCleared(c: Cache, ops: seq<Op>)
    requires c.error.Some?
    ensures Run(c, ops).error.Some?
    decreases |ops|
  {
    if ops != [] {
      ErrorNeverCleared(Step(c, ops[0]), ops[1..]);
    }
  }

  /** A failed upload leaves rows and images as they were and reports an
      error; when only the insert fails the file stays in the bucket. */
  lemma UploadFailureKeepsRows(c: Cache, file: File, data: ImageFields, token: string,
                               resolve: string -> string, newId: string,
                               upload: Status, insert: Status, read: Status)
    ensures var d := Upload(c, file, data, token, resolve, newId, upload, insert, read);
      upload.Err? ==> d.storage == c.storage && d.table == c.table && d.images == c.images &&
                      d.error.Some?
    ensures var d := Upload(c, file, data, token, resolve, newId, upload, insert, read);
      upload.Ok? && insert.Err? ==>
        d.storage == c.storage + {StoragePath(token, file.name)} &&
        d.table == c.table && d.images == c.images && d.error.Some?
  {
  }

  /** An upload in which every step succeeds lists the new row, carrying the
      URL of the stored file, after the refetch. */
  lemma UploadedImageListed(c: Cache, file: File, data: ImageFields, token: string,
                            resolve: string -> string, newId: string)
    ensures var path := StoragePath(token, file.name);
      var d := Upload(c, file, data, token, resolve, newId, Ok, Ok, Ok);
      path in d.storage && ImageRow(newId, data, resolve(path)) in d.images
  {
    var path := StoragePath(token, file.name);
    var rows := c.table + [ImageRow(newId, data, resolve(path))];
    assert ImageRow(newId, data, resolve(path)) in multiset(rows);
  }

  /** The hook itself. */
  class ImagesCache {
    var table: seq<GalleryImage>
    var storage: set<string>
    var images: seq<GalleryImage>
    var loading: bool
    var error: Option<string>

    function State(): Cache
      reads this
    {
      Cache(table, storage, images, loading, error)
    }

    constructor (remote: seq<GalleryImage>, files: set<string>)
      ensures State() == Initial(remote, files)
    {
      table := remote;
      storage := files;
      images := [];
      loading := true;
      error := None;
    }

    method FetchImages(read: Status)
      modifies this
      ensures State() == Fetch(old(State()), read)
      ensures !loading && table == old(table) && storage == old(storage)
      ensures read.Err? ==> images == old(images) && error.Some?
    {
      loading := true;
      match read {
        case Ok => images := SortBy(table, OrderKey);
        case Err(f) => error := Caught(f, FetchError);
      }
      loading := false;
    }

    method UploadImage(file: File, imageData: ImageFields, token: string,
                       resolve: string -> string, newId: string,
                       upload: Status, insert: Status, read: Status)
      modifies this
      ensures State() == Upload(old(State()), file, imageData, token, resolve, newId,
                                upload, insert, read)
    {
      ghost var c := State();
      var filePath := StoragePath(token, file.name);
      match upload {
        case Err(f) =>
          error := Caught(f, UploadError);
        case Ok =>
          storage := storage + {filePath};
          ghost var stored := State();
          assert stored == c.(storage := c.storage + {filePath});
          var publicUrl := resolve(filePath);
          match insert {
            case Err(f) =>
              error := Caught(f, UploadError);
            case Ok =>
              table := table + [ImageRow(newId, imageData, publicUrl)];
              assert State() == stored.(table := stored.table + [ImageRow(newId, imageData, publicUrl)]);
              FetchImages(read);
          }
      }
    }

    method UpdateImage(id: string, updates: ImageFields, write: Status, read: Status)
      modifies this
      ensures State() == Update(old(State()), id, updates, write, read)
      ensures write.Err? ==> images == old(images) && table == old(table) && error.Some?
    {
      match write {
        case Ok =>
          table := UpdateById(table, id, updates);
          FetchImages(read);
        case Err(f) =>
          error := Caught(f, UpdateError);
      }
    }

    method DeleteImage(id: string, write: Status, read: Status)
      modifies this
      ensures State() == Delete(old(State()), id, write, read)
      ensures storage == old(storage)
      ensures write.Err? ==> images == old(images) && table == old(table) && error.Some?
    {
      match write {
        case Ok =>
          table := DeleteById(table, id);
          FetchImages(read);
        case Err(f) =>
          error := Caught(f, DeleteError);
      }
    }
  }
}
