/** The cams API (app/api/cams/route.ts): GET annotates every cam with a health
    record, POST upserts one cam by id, DELETE removes every cam with an id.

    Request bodies, the file and its entries are JSON values; the handlers only assume
    the shapes they test for. An entry that is `null` makes the handler throw (`c.id`,
    `cam.url` on null), which Next.js turns into a 500 reply: `Threw` below.

    The health of a cam comes from a 30 s cache keyed on `kind:host`, a DNS lookup and
    an HTTP reachability probe. `new URL(..).hostname`, the lookup and the probe are
    inputs (`ProbeEnv`), as are the clock readings. */
module CamsRoute {
  import opened Js
  import opened Types
  import opened CamsStore

  const HEALTH_CACHE_TTL_MS := 30_000
  const BAD_JSON := "Bad JSON"
  const BAD_BODY := "Body must be { cam: { id, name, kind, url, dwellSec?, attribution? } }"
  const MISSING_ID := "Missing id"
  const NOT_FOUND := "Not found"
  const INVALID_URL := "Invalid URL"
  const REACHABILITY_PREFIX := "Reachability failed: "

  /** A handler's outcome. */
  datatype Reply =
    | Text(status: int, text: string)   // new Response(text, { status })
    | JsonReply(status: int, body: Json) // Response.json(body)
    | Threw                              // an exception escaped: a 500

  /** `{ ok: true, count }` */
  function CountBody(count: nat): Json {
    JObj(map["ok" := JBool(true), "count" := JNum(count)])
  }

  // ---------------------------------------------------------------------------
  // validateCam

  /** A string property that is not blank after `trim()`. */
  predicate NonBlankString(p: Option<Json>) {
    IsString(p) && !IsBlank(p.value.s)
  }

  /** `typeof p === "string" && p.trim()` is truthy. */
  predicate TrimmedNonEmpty(p: Option<Json>) {
    IsString(p) && Trim(p.value.s) != ""
  }

  lemma TrimmedNonEmptyIff(p: Option<Json>)
    ensures TrimmedNonEmpty(p) <==> NonBlankString(p)
  {
    if IsString(p) {
      TrimEmptyIff(p.value.s);
    }
  }

  /** `validateCam`, check by check. */
  predicate ValidateCam(cam: Json) {
    if !Truthy(cam) || !IsObjectType(cam) then false
    else if !TrimmedNonEmpty(Prop(cam, "id")) then false
    else if !TrimmedNonEmpty(Prop(cam, "name")) then false
    else if !TrimmedNonEmpty(Prop(cam, "kind")) then false
    else if !TrimmedNonEmpty(Prop(cam, "url")) then false
    else if !Nullish(Prop(cam, "dwellSec")) && !IsNumber(Prop(cam, "dwellSec")) then false
    else if !Nullish(Prop(cam, "attribution")) && !IsString(Prop(cam, "attribution")) then false
    else true
  }

  /** What `validateCam` accepts: an object whose id, name, kind and url are strings
      with a non-whitespace character, whose dwellSec is absent, null or a number, and
      whose attribution is absent, null or a string. */
  lemma ValidateCamIff(cam: Json)
    ensures ValidateCam(cam) <==>
      && cam.JObj?
      && NonBlankString(Prop(cam, "id")) && NonBlankString(Prop(cam, "name"))
      && NonBlankString(Prop(cam, "kind")) && NonBlankString(Prop(cam, "url"))
      && (Nullish(Prop(cam, "dwellSec")) || IsNumber(Prop(cam, "dwellSec")))
      && (Nullish(Prop(cam, "attribution")) || IsString(Prop(cam, "attribution")))
  {
    TrimmedNonEmptyIff(Prop(cam, "id"));
    TrimmedNonEmptyIff(Prop(cam, "name"));
    TrimmedNonEmptyIff(Prop(cam, "kind"));
    TrimmedNonEmptyIff(Prop(cam, "url"));
  }

  // ---------------------------------------------------------------------------
  // Finding, replacing and removing entries by id

  /** `c.id === id` for a non-null entry. */
  predicate HasId(c: Json, id: string) {
    Prop(c, "id") == Some(JStr(id))
  }

  datatype IdSearch = FoundAt(i: nat) | NotFound | SearchThrew

  /** `cams.findIndex((c) => c.id === id)` from position `from`: the first entry with
      the id; a null entry reached before it throws. */
  function FindIdFrom(cams: seq<Json>, id: string, from: nat): (r: IdSearch)
    requires from <= |cams|
    ensures r.FoundAt? ==>
      && from <= r.i < |cams| && HasId(cams[r.i], id)
      && forall j :: from <= j < r.i ==> !cams[j].JNull? && !HasId(cams[j], id)
    ensures r.NotFound? ==> forall j :: from <= j < |cams| ==> !cams[j].JNull? && !HasId(cams[j], id)
    ensures r.SearchThrew? ==>
      exists j :: from <= j < |cams| && cams[j].JNull? &&
        forall k :: from <= k < j ==> !cams[k].JNull? && !HasId(cams[k], id)
    decreases |cams| - from
  {
    if from == |cams| then NotFound
    else if cams[from].JNull? then SearchThrew
    else if HasId(cams[from], id) then FoundAt(from)
    else FindIdFrom(cams, id, from + 1)
  }

  function FindId(cams: seq<Json>, id: string): (r: IdSearch)
    ensures r.FoundAt? ==> r.i < |cams| && HasId(cams[r.i], id)
  {
    FindIdFrom(cams, id, 0)
  }

  /** POST's update of the copied list: replace the first entry with the id, or append. */
  function Upsert(cams: seq<Json>, cam: Json, id: string): (r: seq<Json>)
    requires !FindId(cams, id).SearchThrew?
    ensures FindId(cams, id).FoundAt? ==>
      |r| == |cams| && r[FindId(cams, id).i] == cam &&
      forall j :: 0 <= j < |cams| && j != FindId(cams, id).i ==> r[j] == cams[j]
    ensures FindId(cams, id).NotFound? ==> r == cams + [cam]
  {
    match FindId(cams, id)
    case FoundAt(i) => cams[i := cam]
    case NotFound => cams + [cam]
  }

  /** The search stops at the first entry with the id when no entry before it is null. */
  lemma {:induction false} FindIdFromFirst(cams: seq<Json>, id: string, from: nat, p: nat)
    requires from <= p < |cams| && HasId(cams[p], id)
    requires forall j :: from <= j < p ==> !cams[j].JNull? && !HasId(cams[j], id)
    ensures FindIdFrom(cams, id, from) == FoundAt(p)
    decreases p - from
  {
    if from < p {
      FindIdFromFirst(cams, id, from + 1, p);
    }
  }

  /** After an upsert, looking the id up finds the upserted cam: where the first
      entry with the id was, or at the end. */
  lemma UpsertThenFind(cams: seq<Json>, cam: Json, id: string)
    requires HasId(cam, id) && !FindId(cams, id).SearchThrew?
    ensures var r := Upsert(cams, cam, id);
      FindId(r, id).FoundAt? && r[FindId(r, id).i] == cam
    ensures FindId(Upsert(cams, cam, id), id).i ==
      (if FindId(cams, id).FoundAt? then FindId(cams, id).i else |cams|)
  {
    var r := Upsert(cams, cam, id);
    var p := if FindId(cams, id).FoundAt? then FindId(cams, id).i else |cams|;
    assert p < |r| && r[p] == cam;
    assert forall j :: 0 <= j < p ==> r[j] == cams[j];
    FindIdFromFirst(r, id, 0, p);
  }

  /** Posting the same cam twice leaves the list as posting it once. */
  lemma UpsertIdempotent(cams: seq<Json>, cam: Json, id: string)
    requires HasId(cam, id) && !FindId(cams, id).SearchThrew?
    ensures !FindId(Upsert(cams, cam, id), id).SearchThrew?
    ensures Upsert(Upsert(cams, cam, id), cam, id) == Upsert(cams, cam, id)
  {
    UpsertThenFind(cams, cam, id);
  }

  /** DELETE's `cams.filter((c) => c.id !== id)` on a list without null entries. */
  function RemoveId(cams: seq<Json>, id: string): (r: seq<Json>)
    ensures |r| <= |cams|
    ensures forall c :: c in r ==> c in cams && !HasId(c, id)
    ensures |r| == |cams| <==> forall j :: 0 <= j < |cams| ==> !HasId(cams[j], id)
    ensures (forall j :: 0 <= j < |cams| ==> !HasId(cams[j], id)) ==> r == cams
  {
    if |cams| == 0 then []
    else
      var rest := RemoveId(cams[1..], id);
      assert forall j :: 1 <= j < |cams| ==> cams[j] == cams[1..][j - 1];
      if HasId(cams[0], id) then rest else [cams[0]] + rest
  }

  /** Filtering distributes over concatenation, so the kept entries stay in order. */
  lemma {:induction false} RemoveIdConcat(a: seq<Json>, b: seq<Json>, id: string)
    ensures RemoveId(a + b, id) == RemoveId(a, id) + RemoveId(b, id)
  {
    if |a| > 0 {
      var ab := a + b;
      var head := if HasId(a[0], id) then [] else [a[0]];
      assert ab[0] == a[0] && ab[1..] == a[1..] + b;
      RemoveIdConcat(a[1..], b, id);
      assert RemoveId(ab, id) == head + RemoveId(a[1..] + b, id);
      assert RemoveId(a, id) == head + RemoveId(a[1..], id);
    } else {
      assert a + b == b;
    }
  }

  /** Deleting an id after upserting a cam with that id gives what deleting it from
      the original list gives. */
  lemma DeleteAfterUpsert(cams: seq<Json>, cam: Json, id: string)
    requires HasId(cam, id) && !FindId(cams, id).SearchThrew?
    ensures RemoveId(Upsert(cams, cam, id), id) == RemoveId(cams, id)
  {
    var r := Upsert(cams, cam, id);
    match FindId(cams, id)
    case FoundAt(i) =>
      assert cams == cams[..i] + [cams[i]] + cams[i + 1..];
      assert r == cams[..i] + [cam] + cams[i + 1..];
      RemoveIdConcat(cams[..i] + [cams[i]], cams[i + 1..], id);
      RemoveIdConcat(cams[..i], [cams[i]], id);
      RemoveIdConcat(cams[..i] + [cam], cams[i + 1..], id);
      RemoveIdConcat(cams[..i], [cam], id);
    case NotFound =>
      RemoveIdConcat(cams, [cam], id);
  }

  predicate HasNull(cams: seq<Json>) {
    exists j :: 0 <= j < |cams| && cams[j].JNull?
  }

  // ---------------------------------------------------------------------------
  // Health

  /** `httpCheck`'s result: reachable, or the failure text. */
  datatype HttpResult = HttpResult(ok: bool, detail: string)

  /** The outside world one GET sees: `new URL(raw).hostname` (None when it throws),
      the DNS lookup's error text for a host (None when it resolves), the HTTP probe of
      a url, the clock before and after the probes, and the ISO text of the request. */
  datatype ProbeEnv = ProbeEnv(
    hostOf: string -> Option<string>,
    dnsError: string -> Option<string>,
    http: string -> HttpResult,
    startedAt: int,
    finishedAt: int,
    checkedAt: string)

  datatype CacheEntry = CacheEntry(at: int, health: Health)

  datatype HealthOutcome = HealthOutcome(health: Health, cache: map<string, CacheEntry>)

  /** `{ ok, checkedAt, detail }` */
  function HealthJson(h: Health): Json {
    var base := map["ok" := JBool(h.ok), "checkedAt" := JStr(h.checkedAt)];
    JObj(if h.detail.Some? then base["detail" := JStr(h.detail.value)] else base)
  }

  /** The cache key `${cam.kind}:${host}`. */
  function CacheKey(cam: Json, host: string): string {
    PropString(Prop(cam, "kind")) + ":" + host
  }

  /** `checkCamHealth(cam)` against a cache. */
  function HealthFor(cache: map<string, CacheEntry>, cam: Json, env: ProbeEnv): (r: HealthOutcome)
    requires !cam.JNull?
    // a url with no host: not ok, "Invalid URL", nothing cached
    ensures var host := env.hostOf(PropString(Prop(cam, "url")));
      host.None? || host.value == "" ==>
        r.health == Health(false, env.checkedAt, Some(INVALID_URL)) && r.cache == cache
    // a fresh entry for the key: returned unchanged, cache unchanged
    ensures var host := env.hostOf(PropString(Prop(cam, "url")));
      host.Some? && host.value != "" && CacheKey(cam, host.value) in cache &&
      env.startedAt - cache[CacheKey(cam, host.value)].at < HEALTH_CACHE_TTL_MS ==>
        r.health == cache[CacheKey(cam, host.value)].health && r.cache == cache
    // a probe: its outcome is cached under the key at the time it finished
    ensures var host := env.hostOf(PropString(Prop(cam, "url")));
      host.Some? && host.value != "" && !(CacheKey(cam, host.value) in cache &&
        env.startedAt - cache[CacheKey(cam, host.value)].at < HEALTH_CACHE_TTL_MS) ==>
        && r.cache == cache[CacheKey(cam, host.value) := CacheEntry(env.finishedAt, r.health)]
        && r.health.checkedAt == env.checkedAt && r.health.detail.Some?
        && (env.dnsError(host.value).Some? ==>
              !r.health.ok &&
              r.health.detail.value == "DNS lookup failed for " + host.value + ": " + env.dnsError(host.value).value)
        && (env.dnsError(host.value).None? ==>
              var http := env.http(PropString(Prop(cam, "url")));
              r.health.ok == http.ok &&
              r.health.detail.value == (if http.ok then http.detail else REACHABILITY_PREFIX + http.detail))
  {
    var url := PropString(Prop(cam, "url"));
    var host := env.hostOf(url);
    if host.None? || host.value == "" then
      HealthOutcome(Health(false, env.checkedAt, Some(INVALID_URL)), cache)
    else
      var key := CacheKey(cam, host.value);
      if key in cache && env.startedAt - cache[key].at < HEALTH_CACHE_TTL_MS then
        HealthOutcome(cache[key].health, cache)
      else
        var health :=
          match env.dnsError(host.value)
          case Some(e) => Health(false, env.checkedAt, Some("DNS lookup failed for " + host.value + ": " + e))
          case None =>
            var http := env.http(url);
            Health(http.ok, env.checkedAt, Some(if http.ok then http.detail else REACHABILITY_PREFIX + http.detail));
        HealthOutcome(health, cache[key := CacheEntry(env.finishedAt, health)])
  }

  /** Two cams of the same kind whose urls have the same host share one probe: a later
      check that starts within 30 s of the moment a probe finished gets that probe's
      health record, `checkedAt` included, and leaves the cache as the probe left it. */
  lemma SameKeySharesHealth(cache: map<string, CacheEntry>, a: Json, b: Json, e1: ProbeEnv, e2: ProbeEnv)
    requires !a.JNull? && !b.JNull?
    requires PropString(Prop(a, "kind")) == PropString(Prop(b, "kind"))
    requires e2.hostOf(PropString(Prop(b, "url"))) == e1.hostOf(PropString(Prop(a, "url")))
    // the first check probes: its url has a host and the cache holds no fresh entry for it
    requires var host := e1.hostOf(PropString(Prop(a, "url")));
      host.Some? && host.value != "" &&
      !(CacheKey(a, host.value) in cache && e1.startedAt - cache[CacheKey(a, host.value)].at < HEALTH_CACHE_TTL_MS)
    requires e2.startedAt - e1.finishedAt < HEALTH_CACHE_TTL_MS
    ensures var first := HealthFor(cache, a, e1);
      HealthFor(first.cache, b, e2) == HealthOutcome(first.health, first.cache)
  {
  }

  /** Keys of `{...v}`: an object's own fields; a string's characters and an array's
      items under their indices; nothing for null, booleans and numbers. */
  function SpreadFields(v: Json): (m: map<string, Json>)
    ensures v.JObj? ==> m == v.fields
  {
    match v
    case JObj(fields) => fields
    case JStr(s) => IndexFields(seq(|s|, i requires 0 <= i < |s| => JStr([s[i]])))
    case JArr(items) => IndexFields(items)
    case _ => map[]
  }

  /** `{ "0": vs[0], "1": vs[1], ... }` */
  function IndexFields(vs: seq<Json>): map<string, Json> {
    if |vs| == 0 then map[] else IndexFields(vs[..|vs| - 1])[NatToString(|vs| - 1) := vs[|vs| - 1]]
  }

  /** `{ ...c, health }` */
  function Annotate(c: Json, h: Health): (a: Json)
    ensures a.JObj? && "health" in a.fields && a.fields["health"] == HealthJson(h)
    ensures c.JObj? ==> a.fields.Keys == c.fields.Keys + {"health"}
    ensures c.JObj? ==> forall k :: k in c.fields && k != "health" ==> a.fields[k] == c.fields[k]
  {
    JObj(SpreadFields(c)["health" := HealthJson(h)])
  }

  datatype Annotated = Annotated(items: seq<Json>, cache: map<string, CacheEntry>)

  /** The GET annotation of a list without null entries, one cam after the other. */
  function AnnotateAll(cache: map<string, CacheEntry>, cams: seq<Json>, env: ProbeEnv): (r: Annotated)
    requires !HasNull(cams)
    ensures |r.items| == |cams|
    ensures forall i :: 0 <= i < |cams| ==>
      && r.items[i].JObj? && "health" in r.items[i].fields
      && (cams[i].JObj? ==> forall k :: k in cams[i].fields && k != "health" ==>
            k in r.items[i].fields && r.items[i].fields[k] == cams[i].fields[k])
  {
    if |cams| == 0 then Annotated([], cache)
    else
      var init := cams[..|cams| - 1];
      assert forall j :: 0 <= j < |init| ==> init[j] == cams[j];
      var before := AnnotateAll(cache, init, env);
      var last := cams[|cams| - 1];
      var o := HealthFor(before.cache, last, env);
      Annotated(before.items + [Annotate(last, o.health)], o.cache)
  }

  /** GET's body: the file as read with its `cams` replaced by the annotated list. */
  function WithHealth(data: Json, items: seq<Json>): Json {
    JObj(SpreadFields(data)["cams" := JArr(items)])
  }

  // ---------------------------------------------------------------------------
  // POST

  datatype PostCheck = NotJson | NoValidCam | CamOk(cam: Json, id: string)

  /** POST's two rejections, in order: the body is not JSON; `body?.cam` is falsy or
      fails `validateCam`. */
  function CheckPostBody(body: JsonParse): (r: PostCheck)
    ensures r.NotJson? <==> body.ParseFailed?
    ensures r.CamOk? ==> body.Parsed? && Some(r.cam) == Prop(body.value, "cam")
    ensures r.CamOk? <==> body.Parsed? && Prop(body.value, "cam").Some? && ValidateCam(Prop(body.value, "cam").value)
    ensures r.CamOk? ==> r.cam.JObj? && HasId(r.cam, r.id) && !IsBlank(r.id)
  {
    match body
    case ParseFailed(_) => NotJson
    case Parsed(v) =>
      var cam := Prop(v, "cam");
      if cam.None? || !Truthy(cam.value) || !ValidateCam(cam.value) then NoValidCam
      else
        ValidateCamIff(cam.value);
        CamOk(cam.value, Prop(cam.value, "id").value.s)
  }

  /** The object POST and DELETE hand to `writeCamsFile`. */
  function NextFile(current: Json, cams: seq<Json>, stamp: string): (f: Json)
    ensures f.JObj? && Prop(f, "cams") == Some(JArr(cams))
  {
    JObj(map["version" := OrElse(Prop(current, "version"), JNum(1)), "updatedAt" := JStr(stamp), "cams" := JArr(cams)])
  }

  /** The stored file keeps the version the file had (1 when it had none). */
  lemma WriteKeepsVersion(current: Json, cams: seq<Json>, stamp: string, writeStamp: string)
    ensures var out := Normalised(NextFile(current, cams, stamp), writeStamp);
      && Prop(out, "version") == Some(OrElse(Prop(current, "version"), JNum(1)))
      && Prop(out, "cams") == Some(JArr(cams))
  {
    var f := NextFile(current, cams, stamp);
    assert Prop(f, "version") == Some(OrElse(Prop(current, "version"), JNum(1)));
  }

  /** The handlers, the file store they share and the module-level health cache. */
  class CamsApi {
    const store: Store
    var healthCache: map<string, CacheEntry>

    constructor(store: Store)
      ensures this.store == store && healthCache == map[]
    {
      this.store := store;
      healthCache := map[];
    }

    method CheckCamHealth(cam: Json, env: ProbeEnv) returns (health: Health)
      requires !cam.JNull?
      modifies this`healthCache
      ensures HealthOutcome(health, healthCache) == HealthFor(old(healthCache), cam, env)
    {
      var url := PropString(Prop(cam, "url"));
      var host := env.hostOf(url);
      if host.None? || host.value == "" {
        return Health(false, env.checkedAt, Some(INVALID_URL));
      }
      var key := CacheKey(cam, host.value);
      if key in healthCache && env.startedAt - healthCache[key].at < HEALTH_CACHE_TTL_MS {
        return healthCache[key].health;
      }
      var dns := env.dnsError(host.value);
      if dns.Some? {
        health := Health(false, env.checkedAt, Some("DNS lookup failed for " + host.value + ": " + dns.value));
      } else {
        var http := env.http(url);
        health := Health(http.ok, env.checkedAt, Some(if http.ok then http.detail else REACHABILITY_PREFIX + http.detail));
      }
      healthCache := healthCache[key := CacheEntry(env.finishedAt, health)];
    }

    /** GET, with the `health` query parameter. */
    method Get(healthParam: Option<string>, stamp: string, env: ProbeEnv) returns (reply: Reply)
      modifies store`cached, this`healthCache
      ensures var read := CachedRead(store.disk, old(store.cached), stamp);
        store.cached == Some(read.cache)
      ensures var data := CachedRead(store.disk, old(store.cached), stamp).data;
        healthParam == Some("0") ==> reply == JsonReply(200, data) && healthCache == old(healthCache)
      ensures var data := CachedRead(store.disk, old(store.cached), stamp).data;
        healthParam != Some("0") && HasNull(CamsArray(data)) ==> reply == Threw
      ensures var data := CachedRead(store.disk, old(store.cached), stamp).data;
        healthParam != Some("0") && !HasNull(CamsArray(data)) ==>
          var a := AnnotateAll(old(healthCache), CamsArray(data), env);
          reply == JsonReply(200, WithHealth(data, a.items)) && healthCache == a.cache
    {
      var data := store.ReadCached(stamp);
      if healthParam == Some("0") {
        return JsonReply(200, data);
      }
      var cams := CamsArray(data);
      if HasNull(cams) {
        return Threw;
      }
      var items := AnnotateCams(cams, env);
      reply := JsonReply(200, WithHealth(data, items));
    }

    /** `cams.map(async (c) => ({ ...c, health: await checkCamHealth(c) }))`, one cam
        after the other. */
    method AnnotateCams(cams: seq<Json>, env: ProbeEnv) returns (items: seq<Json>)
      requires !HasNull(cams)
      modifies this`healthCache
      ensures Annotated(items, healthCache) == AnnotateAll(old(healthCache), cams, env)
    {
      items := [];
      var i := 0;
      while i < |cams|
        invariant 0 <= i <= |cams|
        invariant !HasNull(cams[..i])
        invariant AnnotateAll(old(healthCache), cams[..i], env) == Annotated(items, healthCache)
      {
        assert cams[..i + 1][..i] == cams[..i];
        ghost var before := AnnotateAll(old(healthCache), cams[..i], env);
        var h := CheckCamHealth(cams[i], env);
        assert AnnotateAll(old(healthCache), cams[..i + 1], env)
          == Annotated(before.items + [Annotate(cams[i], h)], healthCache);
        items := items + [Annotate(cams[i], h)];
        i := i + 1;
      }
      assert cams[..i] == cams;
    }

    /** POST: upsert the body's cam. `stamp` is the time printed into the file and
        `mtime` the modification time the write gives it. */
    method Post(body: JsonParse, stamp: string, mtime: int) returns (reply: Reply)
      modifies store
      // rejected requests read and write nothing
      ensures CheckPostBody(body).NotJson? ==> reply == Text(400, BAD_JSON)
      ensures CheckPostBody(body).NoValidCam? ==> reply == Text(400, BAD_BODY)
      ensures !CheckPostBody(body).CamOk? ==> store.disk == old(store.disk) && store.cached == old(store.cached)
      ensures CheckPostBody(body).CamOk? ==>
        var check := CheckPostBody(body);
        var read := CachedRead(old(store.disk), old(store.cached), stamp);
        var cams := CamsArray(read.data);
        && store.cached == Some(read.cache)
        && (FindId(cams, check.id).SearchThrew? ==> reply == Threw && store.disk == old(store.disk))
        && (!FindId(cams, check.id).SearchThrew? ==>
              var next := Upsert(cams, check.cam, check.id);
              && reply == JsonReply(200, CountBody(|next|))
              && store.disk == Some(DiskFile(mtime, Parsed(Normalised(NextFile(read.data, next, stamp), stamp)))))
    {
      var check := CheckPostBody(body);
      if check.NotJson? {
        return Text(400, BAD_JSON);
      }
      if check.NoValidCam? {
        return Text(400, BAD_BODY);
      }
      var current := store.ReadCached(stamp);
      var cams := CamsArray(current);
      var i := FindId(cams, check.id);
      if i.SearchThrew? {
        return Threw;
      }
      if i.FoundAt? {
        cams := cams[i.i := check.cam];
      } else {
        cams := cams + [check.cam];
      }
      store.Write(NextFile(current, cams, stamp), stamp, mtime);
      reply := JsonReply(200, CountBody(|cams|));
    }

    /** DELETE with the `id` query parameter. */
    method Delete(idParam: Option<string>, stamp: string, mtime: int) returns (reply: Reply)
      modifies store
      ensures idParam.None? || idParam == Some("") ==>
        reply == Text(400, MISSING_ID) && store.disk == old(store.disk) && store.cached == old(store.cached)
      ensures idParam.Some? && idParam.value != "" ==>
        var read := CachedRead(old(store.disk), old(store.cached), stamp);
        var cams := CamsArray(read.data);
        var next := RemoveId(cams, idParam.value);
        && store.cached == Some(read.cache)
        && (HasNull(cams) ==> reply == Threw && store.disk == old(store.disk))
        && (!HasNull(cams) && |next| == |cams| ==> reply == Text(404, NOT_FOUND) && store.disk == old(store.disk))
        && (!HasNull(cams) && |next| < |cams| ==>
              && reply == JsonReply(200, CountBody(|next|))
              && store.disk == Some(DiskFile(mtime, Parsed(Normalised(NextFile(read.data, next, stamp), stamp)))))
    {
      if idParam.None? || idParam.value == "" {
        return Text(400, MISSING_ID);
      }
      var id := idParam.value;
      var current := store.ReadCached(stamp);
      var cams := CamsArray(current);
      if exists j :: 0 <= j < |cams| && cams[j].JNull? {
        return Threw;
      }
      var next := RemoveId(cams, id);
      if |next| == |cams| {
        return Text(404, NOT_FOUND);
      }
      store.Write(NextFile(current, next, stamp), stamp, mtime);
      reply := JsonReply(200, CountBody(|next|));
    }
  }
}
