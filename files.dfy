/**
 * Property images: listing a property's files, uploading a batch (optionally
 * marking the first as the principal image), choosing the principal image and
 * deleting a file. Only the property's owner or a staff user may act.
 */
module Files {
  import opened Wrappers
  import opened Accounts
  import opened Json
  import opened Sorting
  import DrfFields

  /** A file row; `fechaSubida` is a number that orders instants. */
  datatype FileRow = FileRow(id: int, propiedad: int, archivo: string, esPrincipal: bool, fechaSubida: int)

  /** The ownership test of every file view: the property's owner, or any staff user. */
  predicate MayManage(owner: int, user: User) {
    owner == user.id || user.isStaff
  }

  /** `File.objects.filter(propiedad=p).update(es_principal=False)`. */
  function ClearPrincipal(rows: seq<FileRow>, p: int): (r: seq<FileRow>)
    ensures |r| == |rows|
    ensures forall k :: 0 <= k < |r| ==>
      r[k] == if rows[k].propiedad == p then rows[k].(esPrincipal := false) else rows[k]
  {
    if rows == [] then []
    else
      var last := rows[|rows| - 1];
      ClearPrincipal(rows[..|rows| - 1], p) + [if last.propiedad == p then last.(esPrincipal := false) else last]
  }

  /** `File.objects.filter(propiedad_id=p)` before ordering: the property's files in stored order. */
  function PropertyRows(rows: seq<FileRow>, p: int): (r: seq<FileRow>)
    ensures forall f :: f in r <==> f in rows && f.propiedad == p
  {
    if rows == [] then []
    else
      var last := rows[|rows| - 1];
      assert forall f :: f in rows <==> f in rows[..|rows| - 1] || f == last;
      PropertyRows(rows[..|rows| - 1], p) + (if last.propiedad == p then [last] else [])
  }

  /** The files of `s` whose principal mark is `flag`, in stored order. */
  function WithMark(s: seq<FileRow>, flag: bool): (r: seq<FileRow>)
    ensures forall f :: f in r ==> f.esPrincipal == flag
  {
    if s == [] then []
    else WithMark(s[..|s| - 1], flag) + (if s[|s| - 1].esPrincipal == flag then [s[|s| - 1]] else [])
  }

  function FechaSubida(f: FileRow): int {
    f.fechaSubida
  }

  /** The model's default ordering `['-es_principal', '-fecha_subida']`: `a` may come before `b`. */
  predicate Before(a: FileRow, b: FileRow) {
    (a.esPrincipal && !b.esPrincipal) || (a.esPrincipal == b.esPrincipal && a.fechaSubida >= b.fechaSubida)
  }

  predicate InFileOrder(s: seq<FileRow>) {
    forall i, j :: 0 <= i < j < |s| ==> Before(s[i], s[j])
  }

  /** Selecting the principal files and the others splits a table in two. */
  lemma {:induction false} SplitByPrincipal(s: seq<FileRow>)
    ensures multiset(WithMark(s, true)) + multiset(WithMark(s, false)) == multiset(s)
    decreases |s|
  {
    if s != [] {
      var init, last := s[..|s| - 1], s[|s| - 1];
      SplitByPrincipal(init);
      assert s == init + [last];
    }
  }

  /** The rows of `s`, each exactly as often, in the default ordering: principal files first, then newest first. */
  function FileOrder(s: seq<FileRow>): (r: seq<FileRow>)
    ensures multiset(r) == multiset(s)
    ensures InFileOrder(r)
  {
    var a := SortDesc(WithMark(s, true), FechaSubida);
    var b := SortDesc(WithMark(s, false), FechaSubida);
    SplitByPrincipal(s);
    FileOrderSorted(a, b, WithMark(s, true), WithMark(s, false));
    a + b
  }

  lemma FileOrderSorted(a: seq<FileRow>, b: seq<FileRow>, pa: seq<FileRow>, pb: seq<FileRow>)
    requires multiset(a) == multiset(pa) && SortedDesc(a, FechaSubida)
    requires multiset(b) == multiset(pb) && SortedDesc(b, FechaSubida)
    requires forall f :: f in pa ==> f.esPrincipal
    requires forall f :: f in pb ==> !f.esPrincipal
    ensures InFileOrder(a + b)
  {
    var r := a + b;
    forall i, j | 0 <= i < j < |r| ensures Before(r[i], r[j]) {
      if j < |a| {
        assert r[i] == a[i] && r[j] == a[j];
        assert a[i] in multiset(pa) && a[j] in multiset(pa);
        assert FechaSubida(a[i]) >= FechaSubida(a[j]);
        assert a[i].esPrincipal && a[j].esPrincipal;
      } else if i >= |a| {
        assert r[i] == b[i - |a|] && r[j] == b[j - |a|];
        assert b[i - |a|] in multiset(pb) && b[j - |a|] in multiset(pb);
        assert FechaSubida(b[i - |a|]) >= FechaSubida(b[j - |a|]);
        assert !b[i - |a|].esPrincipal && !b[j - |a|].esPrincipal;
      } else {
        assert r[i] == a[i] && r[j] == b[j - |a|];
        assert a[i] in multiset(pa) && b[j - |a|] in multiset(pb);
        assert a[i].esPrincipal && !b[j - |a|].esPrincipal;
      }
    }
  }

  /** `File.objects.filter(propiedad_id=p)`: exactly the property's files, in the default ordering. */
  function OfProperty(rows: seq<FileRow>, p: int): (r: seq<FileRow>)
    ensures multiset(r) == multiset(PropertyRows(rows, p))
    ensures forall f :: f in r <==> f in rows && f.propiedad == p
    ensures InFileOrder(r)
  {
    var r := FileOrder(PropertyRows(rows, p));
    assert forall f :: f in r <==> f in multiset(r);
    r
  }

  /** Among the files of property `p`, exactly the one with id `id` is the principal image. */
  predicate OnlyPrincipal(rows: seq<FileRow>, p: int, id: int) {
    forall k :: 0 <= k < |rows| && rows[k].propiedad == p ==> (rows[k].esPrincipal <==> rows[k].id == id)
  }

  function IndexOfFile(rows: seq<FileRow>, id: int): (k: Option<nat>)
    ensures k.Some? ==> k.value < |rows| && rows[k.value].id == id
    ensures k.None? ==> forall i :: 0 <= i < |rows| ==> rows[i].id != id
  {
    if rows == [] then None
    else if rows[|rows| - 1].id == id then Some(|rows| - 1)
    else IndexOfFile(rows[..|rows| - 1], id)
  }

  /**
   * `get_files_by_propiedad`: 404 for an unknown property, 403 for a caller who may
   * not manage it, otherwise exactly that property's files. `owners` maps each
   * property to its owner.
   */
  function FilesByPropiedad(rows: seq<FileRow>, owners: map<int, int>, user: User, p: int): (r: Result<seq<FileRow>>)
    ensures p !in owners <==> r == Err(404)
    ensures p in owners && !MayManage(owners[p], user) <==> r == Err(403)
    ensures r.Ok? ==> r.value == OfProperty(rows, p)
  {
    if p !in owners then Err(404)
    else if !MayManage(owners[p], user) then Err(403)
    else Ok(OfProperty(rows, p))
  }

  /** The upload serializer accepts at most ten files per batch. */
  const MaxBatch: nat := 10

  /** One uploaded file: its name, and whether `ImageField` accepts it (a non-empty file the image library can open). */
  datatype Upload = Upload(nombre: string, esImagen: bool)

  /** The validated upload: the property id and the principal flag. */
  datatype UploadRequest = UploadRequest(propiedad: int, esPrincipal: bool)

  /**
   * `FileUploadSerializer.is_valid()`; `None` means status 400. `archivos` is `None`
   * when the request carries no file list at all; `propiedadId` and `esPrincipal`
   * are absent or the value sent.
   */
  function ValidateUpload(archivos: Option<seq<Upload>>, propiedadId: Option<Json>, esPrincipal: Option<Json>)
    : (r: Option<UploadRequest>)
    ensures r.Some? <==>
      archivos.Some? && |archivos.value| <= MaxBatch && (forall k :: 0 <= k < |archivos.value| ==> archivos.value[k].esImagen)
      && propiedadId.Some? && DrfFields.IntegerField(propiedadId.value).Some?
      && (esPrincipal.None? || DrfFields.BooleanField(esPrincipal.value).Some?)
    ensures r.Some? ==> Some(r.value.propiedad) == DrfFields.IntegerField(propiedadId.value)
    ensures r.Some? ==> (r.value.esPrincipal <==> esPrincipal.Some? && DrfFields.BooleanField(esPrincipal.value) == Some(true))
  {
    var files := archivos.Some? && |archivos.value| <= MaxBatch && forall k :: 0 <= k < |archivos.value| ==> archivos.value[k].esImagen;
    var id := if propiedadId.Some? then DrfFields.IntegerField(propiedadId.value) else None;
    var flag := if esPrincipal.Some? then DrfFields.BooleanField(esPrincipal.value) else Some(false);
    if files && id.Some? && flag.Some? then Some(UploadRequest(id.value, flag.value)) else None
  }

  /** The names of an upload batch, in order. */
  function Names(archivos: seq<Upload>): (r: seq<string>)
    ensures |r| == |archivos| && forall k :: 0 <= k < |r| ==> r[k] == archivos[k].nombre
  {
    if archivos == [] then [] else Names(archivos[..|archivos| - 1]) + [archivos[|archivos| - 1].nombre]
  }

  /** The `files` table and the next primary key. */
  class FileTable {
    var rows: seq<FileRow>
    var nextId: int

    ghost predicate Valid()
      reads this
    {
      nextId >= 1
      && (forall k :: 0 <= k < |rows| ==> 1 <= rows[k].id < nextId)
      && (forall i, j :: 0 <= i < j < |rows| ==> rows[i].id != rows[j].id)
    }

    constructor ()
      ensures Valid() && rows == [] && nextId == 1
    {
      rows := [];
      nextId := 1;
    }

    /**
     * `upload_multiple_files`: a payload the serializer refuses is a 400; an unknown
     * property raises `Http404`, which the view's generic handler turns into 500; a
     * caller who may not manage the property gets 403 before any write. Otherwise,
     * with `es_principal` every existing file of the property stops being principal
     * and only the first uploaded file becomes principal; without it the new files
     * are not principal and the existing ones keep their flags. `ahora` is the
     * upload instant.
     */
    method UploadMultipleFiles(owners: map<int, int>, user: User, archivos: Option<seq<Upload>>,
                               propiedadId: Option<Json>, esPrincipal: Option<Json>, ahora: int)
      returns (status: int, created: seq<FileRow>)
      requires Valid()
      modifies this
      ensures Valid()
      ensures status == 400 <==> ValidateUpload(archivos, propiedadId, esPrincipal).None?
      ensures ValidateUpload(archivos, propiedadId, esPrincipal).Some? ==>
        var p := ValidateUpload(archivos, propiedadId, esPrincipal).value.propiedad;
        (p !in owners ==> status == 500)
        && (p in owners && !MayManage(owners[p], user) ==> status == 403)
        && (status == 201 <==> p in owners && MayManage(owners[p], user))
      ensures status != 201 ==> rows == old(rows) && nextId == old(nextId) && created == []
      ensures status == 201 ==>
        var v := ValidateUpload(archivos, propiedadId, esPrincipal).value;
        |created| == |archivos.value|
        && rows == (if v.esPrincipal then ClearPrincipal(old(rows), v.propiedad) else old(rows)) + created
        && (forall k :: 0 <= k < |created| ==>
              created[k] == FileRow(old(nextId) + k, v.propiedad, archivos.value[k].nombre, v.esPrincipal && k == 0, ahora))
        && (v.esPrincipal && |created| > 0 ==> OnlyPrincipal(rows, v.propiedad, created[0].id))
        && (!v.esPrincipal ==> rows[..|old(rows)|] == old(rows) && forall k :: 0 <= k < |created| ==> !created[k].esPrincipal)
    {
      created := [];
      var v := ValidateUpload(archivos, propiedadId, esPrincipal);
      if v.None? {
        return 400, [];
      }
      var p := v.value.propiedad;
      if p !in owners {
        return 500, [];
      }
      if !MayManage(owners[p], user) {
        return 403, [];
      }
      if v.value.esPrincipal {
        rows := ClearPrincipal(rows, p);
      }
      ghost var base := rows;
      created := AppendBatch(p, Names(archivos.value), v.value.esPrincipal, ahora);
      if v.value.esPrincipal && |archivos.value| > 0 {
        BatchPrincipal(base, created, p);
      }
      status := 201;
    }

    /** The creation loop: one row per uploaded file; the flag is passed to the first one only. */
    method AppendBatch(p: int, archivos: seq<string>, esPrincipal: bool, ahora: int) returns (created: seq<FileRow>)
      requires Valid()
      modifies this
      ensures Valid()
      ensures |created| == |archivos| && rows == old(rows) + created && nextId == old(nextId) + |archivos|
      ensures forall k :: 0 <= k < |created| ==>
        created[k] == FileRow(old(nextId) + k, p, archivos[k], esPrincipal && k == 0, ahora)
    {
      created := [];
      var flag := esPrincipal;
      var i := 0;
      while i < |archivos|
        invariant 0 <= i <= |archivos|
        invariant |created| == i && rows == old(rows) + created && nextId == old(nextId) + i
        invariant flag == (esPrincipal && i == 0)
        invariant forall k :: 0 <= k < i ==> created[k] == FileRow(old(nextId) + k, p, archivos[k], esPrincipal && k == 0, ahora)
        invariant Valid()
      {
        var f := FileRow(nextId, p, archivos[i], flag, ahora);
        rows := rows + [f];
        created := created + [f];
        nextId := nextId + 1;
        flag := false;
        i := i + 1;
      }
    }

    /**
     * `set_principal_image`: 404 for an unknown file, 403 for a caller who may not
     * manage its property; otherwise the file becomes the only principal image of its
     * property, and no other property's files change.
     */
    method SetPrincipalImage(owners: map<int, int>, user: User, fileId: int) returns (status: int)
      requires Valid()
      requires forall k :: 0 <= k < |rows| ==> rows[k].propiedad in owners
      modifies this
      ensures Valid() && nextId == old(nextId) && |rows| == |old(rows)|
      ensures IndexOfFile(old(rows), fileId).None? <==> status == 404
      ensures status == 403 <==>
        (IndexOfFile(old(rows), fileId).Some?
         && !MayManage(owners[old(rows)[IndexOfFile(old(rows), fileId).value].propiedad], user))
      ensures status == 200 || status == 403 || status == 404
      ensures status != 200 ==> rows == old(rows)
      ensures status == 200 ==>
        var p := old(rows)[IndexOfFile(old(rows), fileId).value].propiedad;
        OnlyPrincipal(rows, p, fileId)
        && (forall k :: 0 <= k < |rows| ==> rows[k].id == old(rows)[k].id && rows[k].propiedad == old(rows)[k].propiedad)
        && (forall k :: 0 <= k < |rows| && rows[k].propiedad != p ==> rows[k] == old(rows)[k])
    {
      var found := IndexOfFile(rows, fileId);
      if found.None? {
        return 404;
      }
      var k := found.value;
      var p := rows[k].propiedad;
      if !MayManage(owners[p], user) {
        return 403;
      }
      var cleared := ClearPrincipal(rows, p);
      rows := cleared[k := cleared[k].(esPrincipal := true)];
      status := 200;
    }

    /**
     * `delete_file`: 404 for an unknown file; a caller who may not manage its
     * property is refused (403) and the file is kept; otherwise exactly that file is removed.
     */
    method DeleteFile(owners: map<int, int>, user: User, fileId: int) returns (status: int)
      requires Valid()
      requires forall k :: 0 <= k < |rows| ==> rows[k].propiedad in owners
      modifies this
      ensures Valid() && nextId == old(nextId)
      ensures IndexOfFile(old(rows), fileId).None? <==> status == 404
      ensures status == 200 || status == 403 || status == 404
      ensures status != 200 ==> rows == old(rows)
      ensures status == 200 ==>
        var k := IndexOfFile(old(rows), fileId).value;
        MayManage(owners[old(rows)[k].propiedad], user) && rows == old(rows)[..k] + old(rows)[k + 1..]
      ensures status == 403 ==>
        !MayManage(owners[old(rows)[IndexOfFile(old(rows), fileId).value].propiedad], user)
    {
      var found := IndexOfFile(rows, fileId);
      if found.None? {
        return 404;
      }
      var k := found.value;
      if !MayManage(owners[rows[k].propiedad], user) {
        return 403;
      }
      rows := rows[..k] + rows[k + 1..];
      status := 200;
    }
  }

  lemma BatchPrincipal(base: seq<FileRow>, created: seq<FileRow>, p: int)
    requires |created| > 0
    requires forall k :: 0 <= k < |base| && base[k].propiedad == p ==> !base[k].esPrincipal
    requires forall k :: 0 <= k < |base| ==> base[k].id < created[0].id
    requires forall k :: 0 <= k < |created| ==>
      created[k].propiedad == p && created[k].id == created[0].id + k && (created[k].esPrincipal <==> k == 0)
    ensures OnlyPrincipal(base + created, p, created[0].id)
  {
    var r := base + created;
    forall k | 0 <= k < |r| && r[k].propiedad == p
      ensures r[k].esPrincipal <==> r[k].id == created[0].id
    {
      if k >= |base| {
        assert r[k] == created[k - |base|];
      } else {
        assert r[k] == base[k];
      }
    }
  }
}
