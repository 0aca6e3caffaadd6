/** The cams file store (lib/cams.ts): `cams.json` read with a fallback to a default
    file, written in a normalised shape, and read through a cache keyed on the file's
    modification time. The file is abstract: absent, or present with a modification
    time and what `JSON.parse` makes of its text. Writing stores the normalised value
    itself (`JSON.parse` after `JSON.stringify` gives it back). */
module CamsStore {
  import opened Js

  /** The file as `fs.statSync` and `fs.readFileSync` + `JSON.parse` see it. */
  datatype DiskFile = DiskFile(mtime: int, content: JsonParse)

  /** The module-level `cached` record. */
  datatype Cached = Cached(mtime: int, data: Json)

  /** What one cached read returns, and the cache it leaves. */
  datatype CachedReadResult = CachedReadResult(data: Json, cache: Cached)

  /** `{ version: 1, updatedAt: <now>, cams: [] }` */
  function DefaultCamFile(stamp: string): (f: Json)
    ensures f.JObj? && f.fields.Keys == {"version", "updatedAt", "cams"}
    ensures Prop(f, "version") == Some(JNum(1))
    ensures Prop(f, "updatedAt") == Some(JStr(stamp))
    ensures Prop(f, "cams") == Some(JArr([]))
  {
    JObj(map["version" := JNum(1), "updatedAt" := JStr(stamp), "cams" := JArr([])])
  }

  /** `parsed?.cams` is truthy. `?.` on null gives undefined; strings, numbers,
      booleans and arrays have no `cams` property. */
  predicate HasCams(v: Json) {
    var p := Prop(v, "cams");
    p.Some? && Truthy(p.value)
  }

  /** `readCamsFile`: the parsed file when it has a truthy `cams`, the default file
      when the file is missing, does not parse, or has no truthy `cams`. */
  function ReadCamsFile(disk: Option<DiskFile>, stamp: string): (f: Json)
    ensures HasCams(f)
    ensures disk.Some? && disk.value.content.Parsed? && HasCams(disk.value.content.value) ==>
      f == disk.value.content.value
    ensures disk.None? || disk.value.content.ParseFailed? || !HasCams(disk.value.content.value) ==>
      f == DefaultCamFile(stamp)
  {
    if disk.None? then DefaultCamFile(stamp)
    else match disk.value.content
      case ParseFailed(_) => DefaultCamFile(stamp)
      case Parsed(v) => if HasCams(v) then v else DefaultCamFile(stamp)
  }

  /** `cams` when it is an array, else `[]` (`Array.isArray(x.cams) ? x.cams : []`). */
  function CamsArray(f: Json): (items: seq<Json>)
    ensures Prop(f, "cams").Some? && Prop(f, "cams").value.JArr? ==> items == f.fields["cams"].items
    ensures !(Prop(f, "cams").Some? && Prop(f, "cams").value.JArr?) ==> items == []
  {
    match Prop(f, "cams")
    case Some(JArr(items)) => items
    case _ => []
  }

  /** The object `writeCamsFile` stores: `version ?? 1`, a fresh `updatedAt` and the
      `cams` array (anything else becomes `[]`); other fields are dropped. */
  function Normalised(next: Json, stamp: string): (out: Json)
    requires next.JObj?
    ensures out.JObj? && out.fields.Keys == {"version", "updatedAt", "cams"}
    ensures Nullish(Prop(next, "version")) ==> Prop(out, "version") == Some(JNum(1))
    ensures !Nullish(Prop(next, "version")) ==> Prop(out, "version") == Prop(next, "version")
    ensures Prop(out, "updatedAt") == Some(JStr(stamp))
    ensures Prop(out, "cams") == Some(JArr(CamsArray(next)))
  {
    JObj(map[
      "version" := OrElse(Prop(next, "version"), JNum(1)),
      "updatedAt" := JStr(stamp),
      "cams" := JArr(CamsArray(next))])
  }

  /** Normalising twice is normalising once with the later timestamp. */
  lemma NormalisedIdempotent(next: Json, s1: string, s2: string)
    requires next.JObj?
    ensures Normalised(Normalised(next, s1), s2) == Normalised(next, s2)
  {
    var once := Normalised(next, s1);
    assert CamsArray(once) == CamsArray(next);
    assert OrElse(Prop(once, "version"), JNum(1)) == OrElse(Prop(next, "version"), JNum(1));
  }

  /** A written file reads back as exactly what was written: its `cams` is an array,
      hence truthy, so `readCamsFile` does not fall back to the default. */
  lemma WriteThenRead(next: Json, stamp: string, mtime: int, readStamp: string)
    requires next.JObj?
    ensures ReadCamsFile(Some(DiskFile(mtime, Parsed(Normalised(next, stamp)))), readStamp)
      == Normalised(next, stamp)
  {
    assert HasCams(Normalised(next, stamp));
  }

  /** `readCamsFileCached`. With no file (stat throws) the cache becomes mtime 0 and the
      fallback read; otherwise the file is re-read only when there is no cache or the
      cached mtime differs from the file's. */
  function CachedRead(disk: Option<DiskFile>, cached: Option<Cached>, stamp: string): (r: CachedReadResult)
    ensures r.cache.data == r.data
    ensures disk.None? ==> r.cache == Cached(0, DefaultCamFile(stamp))
    ensures disk.Some? && (cached.None? || cached.value.mtime != disk.value.mtime) ==>
      r.cache == Cached(disk.value.mtime, ReadCamsFile(disk, stamp))
    ensures disk.Some? && cached.Some? && cached.value.mtime == disk.value.mtime ==>
      r.cache == cached.value
  {
    if disk.None? then
      var c := Cached(0, ReadCamsFile(disk, stamp));
      CachedReadResult(c.data, c)
    else if cached.None? || cached.value.mtime != disk.value.mtime then
      var c := Cached(disk.value.mtime, ReadCamsFile(disk, stamp));
      CachedReadResult(c.data, c)
    else
      CachedReadResult(cached.value.data, cached.value)
  }

  /** After a write whose modification time differs from the cached one, the cached
      read returns the written file. */
  lemma CachedReadAfterWrite(next: Json, stamp: string, mtime: int, cached: Option<Cached>, readStamp: string)
    requires next.JObj?
    requires cached.None? || cached.value.mtime != mtime
    ensures CachedRead(Some(DiskFile(mtime, Parsed(Normalised(next, stamp)))), cached, readStamp).data
      == Normalised(next, stamp)
  {
    WriteThenRead(next, stamp, mtime, readStamp);
  }

  /** The cache is keyed on the modification time alone: when a write leaves the
      file's mtime equal to the cached one, the next read returns the cached data,
      whatever the file now holds. */
  lemma CachedReadIgnoresContentAtSameMtime(content: JsonParse, c: Cached, readStamp: string)
    ensures CachedRead(Some(DiskFile(c.mtime, content)), Some(c), readStamp).data == c.data
  {
  }

  /** The file and the module-level cache. */
  class Store {
    var disk: Option<DiskFile>
    var cached: Option<Cached>

    constructor(disk: Option<DiskFile>)
      ensures this.disk == disk && cached.None?
    {
      this.disk := disk;
      cached := None;
    }

    /** `readCamsFileCached`; `stamp` is the time `defaultCamFile` would print. */
    method ReadCached(stamp: string) returns (data: Json)
      modifies this`cached
      ensures data == CachedRead(disk, old(cached), stamp).data
      ensures cached == Some(CachedRead(disk, old(cached), stamp).cache)
    {
      if disk.None? {
        cached := Some(Cached(0, ReadCamsFile(disk, stamp)));
      } else if cached.None? || cached.value.mtime != disk.value.mtime {
        cached := Some(Cached(disk.value.mtime, ReadCamsFile(disk, stamp)));
      }
      data := cached.value.data;
    }

    /** `writeCamsFile(next)`; `mtime` is the modification time the file system gives
        the written file. The cache is left as it is. */
    method Write(next: Json, stamp: string, mtime: int)
      requires next.JObj?
      modifies this`disk
      ensures disk == Some(DiskFile(mtime, Parsed(Normalised(next, stamp))))
    {
      disk := Some(DiskFile(mtime, Parsed(Normalised(next, stamp))));
    }
  }
}
