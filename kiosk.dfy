/** The kiosk page (app/page.tsx): which cam is shown, the playback status, the two
    deadlines that skip a cam, the per-kind readiness sources and the render choice.

    React runs the page's effects after a render whose dependencies changed. The session
    effect depends on `skipNext`, whose identity follows the `cam` object, and every
    successful list fetch yields fresh objects. So the session restarts whenever the
    displayed cam OBJECT changes. The model names that object by `CamRef` (which list
    snapshot, which position) and makes the restart an explicit step, `StartSession`,
    that may run exactly when `EffectDue()` holds. */
module Kiosk {
  import opened Js
  import opened Types

  datatype Status = Loading | Ready | Error

  /** The object identity of the displayed cam. */
  datatype CamRef = NoCam | CamAt(snapshot: nat, pos: nat)

  /** A `window.setTimeout(f, ms)` made at time `armedAt`, whose id sits in
      `readyTimerRef` or `dwellTimerRef`: when it fires it calls `skipNext(detail)` for
      `cam`. Firing does not clear the ref. */
  datatype Deadline = Deadline(armedAt: int, ms: int, detail: string, cam: Cam, fired: bool)
  {
    /** When the browser runs the callback. */
    function Due(): int {
      armedAt + TimerDelay(ms)
    }
  }

  /** The YouTube effect's 2 s timeout, which calls `markReady` for `cam`. */
  datatype ReadyCheck = ReadyCheck(due: int, cam: Cam)

  /** What the page renders. */
  datatype Screen =
    | NothingConfigured
    | Offline(cam: Cam, detail: string, autoSkipSec: int)
    | YouTubeFrame(cam: Cam)
    | VideoSurface(cam: Cam)

  const DEFAULT_READY_TIMEOUT_SEC := 15
  const DEFAULT_DWELL_SEC := 90
  const YOUTUBE_READY_MS := 2000
  const AUTO_SKIP_SEC := 8
  const GATE_FALLBACK_DETAIL := "Stream is offline"
  const FALLBACK_DETAIL := "The stream did not become ready."

  /** `cams.length ? cams[idx % cams.length] : null` */
  function Select(cams: seq<Cam>, idx: nat): (c: Option<Cam>)
    ensures c.None? <==> |cams| == 0
    ensures c.Some? ==> exists p :: 0 <= p < |cams| && c.value == cams[p] && p == idx % |cams|
  {
    if |cams| == 0 then None else Some(cams[idx % |cams|])
  }

  /** Over an unchanged list of n cams, the n selections after any index visit every
      position: position p is shown after `RoundRobinOffset(idx, p, n)` advances. */
  function RoundRobinOffset(idx: nat, p: nat, n: nat): (k: nat)
    requires p < n
    ensures k < n
    ensures (idx + k) % n == p
  {
    var k := (p - idx % n + n) % n;
    RoundRobinStep(idx, k, p, n);
    k
  }

  lemma ModOfMultiplePlus(q: int, n: int, p: int)
    requires n > 0 && 0 <= p < n
    ensures (q * n + p) % n == p
  {
    var x := q * n + p;
    var d := q - x / n;
    assert x == (x / n) * n + x % n;
    assert d * n == x % n - p;
  }

  lemma RoundRobinStep(idx: nat, k: nat, p: nat, n: nat)
    requires p < n && k == (p - idx % n + n) % n
    ensures (idx + k) % n == p
  {
    var q := idx / n;
    var r := idx % n;
    assert idx == q * n + r;
    if p >= r {
      ModOfMultiplePlus(1, n, p - r);
      assert k == p - r;
      ModOfMultiplePlus(q, n, p);
    } else {
      ModOfMultiplePlus(0, n, p - r + n);
      assert k == p - r + n;
      assert idx + k == (q + 1) * n + p;
      ModOfMultiplePlus(q + 1, n, p);
    }
  }

  /** Round-robin fairness: from any index, every cam of an unchanged list is selected
      within |cams| advances, and the selection repeats with period |cams|. */
  lemma RoundRobin(cams: seq<Cam>, idx: nat, p: nat)
    requires p < |cams|
    ensures Select(cams, idx + RoundRobinOffset(idx, p, |cams|)) == Some(cams[p])
    ensures Select(cams, idx + |cams|) == Select(cams, idx)
  {
    var n := |cams|;
    assert (idx + n) % n == idx % n by {
      var q := idx / n;
      assert idx + n == (q + 1) * n + idx % n;
      ModOfMultiplePlus(q + 1, n, idx % n);
    }
  }

  /** The health gate: a cam is skipped when its annotation says `ok === false`. */
  predicate GateRejects(c: Cam) {
    c.health.Some? && !c.health.value.ok
  }

  /** `health.detail || "Stream is offline"` */
  function GateDetail(c: Cam): (d: string)
    requires GateRejects(c)
    ensures d != ""
    ensures c.health.value.detail.Some? && c.health.value.detail.value != "" ==> d == c.health.value.detail.value
  {
    match c.health.value.detail
    case Some(s) => if s != "" then s else GATE_FALLBACK_DETAIL
    case None => GATE_FALLBACK_DETAIL
  }

  function StatusBadgeLabel(s: Status): (badge: string)
    ensures s == Loading <==> badge == "Loading"
    ensures s == Ready <==> badge == "Playing"
    ensures s == Error <==> badge == "Issue"
  {
    match s
    case Loading => "Loading"
    case Ready => "Playing"
    case Error => "Issue"
  }

  /** The render branch for the displayed cam and status. */
  function View(cam: Option<Cam>, status: Status, statusDetail: string): (v: Screen)
    ensures v.NothingConfigured? <==> cam.None?
    ensures v.Offline? <==> cam.Some? && status == Error
    ensures v.Offline? ==> v.cam == cam.value && v.autoSkipSec == AUTO_SKIP_SEC && v.detail != ""
    ensures v.Offline? && statusDetail != "" ==> v.detail == statusDetail
    ensures v.YouTubeFrame? <==> cam.Some? && status != Error && cam.value.kind == YouTube.Name()
    ensures v.VideoSurface? <==> cam.Some? && status != Error && cam.value.kind != YouTube.Name()
  {
    if cam.None? then NothingConfigured
    else if status == Error then Offline(cam.value, if statusDetail != "" then statusDetail else FALLBACK_DETAIL, AUTO_SKIP_SEC)
    else if cam.value.kind == YouTube.Name() then YouTubeFrame(cam.value)
    else VideoSurface(cam.value)
  }

  class KioskPage {
    const readyTimeoutSec: int   // READY_TIMEOUT_SEC
    const defaultDwellSec: int   // DEFAULT_DWELL_SEC
    const nativeHls: bool        // video.canPlayType("application/vnd.apple.mpegurl") is truthy
    const hlsJsSupported: bool   // Hls.isSupported()
    const iso: int -> string     // new Date(ms).toISOString()

    var cams: seq<Cam>
    var snapshot: nat            // how many list objects setCamFile has stored
    var idx: nat
    var status: Status
    var statusDetail: string
    var readyTimer: Option<Deadline>
    var dwellTimer: Option<Deadline>
    var hls: Option<Cam>               // hlsRef: a live hls.js instance, reporting fatal errors for that cam
    var videoListeners: Option<Cam>    // "playing"/"error" listeners on the mounted <video>
    var youTubeCheck: Option<ReadyCheck>
    var pendingPlays: seq<Cam>         // unsettled video.play() calls, whose rejection skips that cam
    var sessionRef: CamRef             // the cam object the effects last ran for
    var now: int
    var sent: seq<TelemetryEvent>      // telemetry posted, in order

    ghost predicate Valid()
      reads this`readyTimer, this`dwellTimer, this`status, this`videoListeners, this`sessionRef, this`snapshot
    {
      && (readyTimer.Some? <==> dwellTimer.Some?)
      && (readyTimer.Some? ==> readyTimer.value.cam == dwellTimer.value.cam)
      && (status == Error ==> videoListeners.None?)
      && (sessionRef.CamAt? ==> sessionRef.snapshot <= snapshot)
    }

    function Current(): (c: Option<Cam>)
      reads this`cams, this`idx
      ensures c == Select(cams, idx)
    {
      Select(cams, idx)
    }

    function CurrentRef(): (r: CamRef)
      reads this`cams, this`snapshot, this`idx
      ensures r.NoCam? <==> |cams| == 0
    {
      if |cams| == 0 then NoCam else CamAt(snapshot, idx % |cams|)
    }

    /** React re-runs the session, HLS and YouTube effects after this render. */
    predicate EffectDue()
      reads this`cams, this`snapshot, this`idx, this`sessionRef
    {
      CurrentRef() != sessionRef
    }

    /** The committed tree holds a <video> element (and so `videoRef.current` is set). */
    predicate VideoMounted()
      reads this`cams, this`idx, this`status
    {
      Current().Some? && status != Error && Current().value.kind != YouTube.Name()
    }

    function Screen(): Screen
      reads this`cams, this`idx, this`status, this`statusDetail
    {
      View(Current(), status, statusDetail)
    }

    function DwellSec(c: Cam): int {
      match c.dwellSec
      case Some(d) => d
      case None => defaultDwellSec
    }

    function ReadyDetail(): string {
      "Not ready within " + IntToString(readyTimeoutSec) + "s"
    }

    function DwellDetail(c: Cam): string {
      "Dwell reached (" + IntToString(DwellSec(c)) + "s)"
    }

    function CamEvent(c: Cam, event: string, detail: Option<string>): TelemetryEvent
      reads this`now
    {
      TelemetryEvent(iso(now), Some(c.id), Some(c.name), Some(c.kind), event, detail)
    }

    /** The HLS effect attaches listeners for an hls cam whose <video> is mounted. */
    predicate HlsWired(c: Cam, mounted: bool) {
      c.kind == Hls.Name() && mounted
    }

    /** ...and skips at once when neither native HLS nor hls.js is available. */
    predicate HlsUnsupported(c: Cam, mounted: bool)
    {
      HlsWired(c, mounted) && !nativeHls && !hlsJsSupported
    }

    /** ...otherwise it calls video.play(). */
    predicate HlsPlays(c: Cam, mounted: bool)
    {
      HlsWired(c, mounted) && (nativeHls || hlsJsSupported)
    }

    /** The page as first committed: no list yet, so no cam, status "loading". */
    constructor(readyTimeoutSec: int, defaultDwellSec: int, nativeHls: bool, hlsJsSupported: bool,
                iso: int -> string, now: int)
      ensures Valid()
      ensures this.readyTimeoutSec == readyTimeoutSec && this.defaultDwellSec == defaultDwellSec
      ensures this.nativeHls == nativeHls && this.hlsJsSupported == hlsJsSupported && this.iso == iso
      ensures cams == [] && idx == 0 && status == Loading && statusDetail == ""
      ensures readyTimer.None? && dwellTimer.None? && hls.None? && videoListeners.None?
      ensures youTubeCheck.None? && pendingPlays == [] && sent == []
      ensures sessionRef == NoCam && !EffectDue() && Current().None? && this.now == now
    {
      this.readyTimeoutSec, this.defaultDwellSec := readyTimeoutSec, defaultDwellSec;
      this.nativeHls, this.hlsJsSupported, this.iso := nativeHls, hlsJsSupported, iso;
      cams, snapshot, idx := [], 0, 0;
      status, statusDetail := Loading, "";
      readyTimer, dwellTimer, hls, videoListeners := None, None, None, None;
      youTubeCheck, pendingPlays := None, [];
      sessionRef, this.now, sent := NoCam, now, [];
    }

    /** `cleanupPlayer`: clear both deadlines and destroy the hls.js instance. */
    method CleanupPlayer()
      modifies this`readyTimer, this`dwellTimer, this`hls
      ensures readyTimer.None? && dwellTimer.None? && hls.None?
    {
      readyTimer := None;
      dwellTimer := None;
      hls := None;
    }

    /** `markReady` for the cam its closure captured. No status guard, and the ready
        deadline stays armed. */
    method MarkReady(cam: Option<Cam>)
      modifies this`status, this`statusDetail, this`sent
      ensures cam.None? ==> status == old(status) && statusDetail == old(statusDetail) && sent == old(sent)
      ensures cam.Some? ==> status == Ready && statusDetail == ""
      ensures cam.Some? ==> sent == old(sent) + [CamEvent(cam.value, "ready", None)]
    {
      if cam.None? {
        return;
      }
      status := Ready;
      statusDetail := "";
      sent := sent + [CamEvent(cam.value, "ready", None)];
    }

    /** `skipNext(detail)` for the cam its closure captured: it only reports the
        failure; it does not move to the next cam. Showing the offline screen unmounts
        the <video>, so its listeners deliver nothing more. */
    method SkipNext(cam: Option<Cam>, detail: string)
      modifies this`status, this`statusDetail, this`videoListeners, this`sent
      ensures cam.None? ==> status == old(status) && statusDetail == old(statusDetail)
      ensures cam.None? ==> sent == old(sent) && videoListeners == old(videoListeners)
      ensures cam.Some? ==> status == Error && statusDetail == detail && videoListeners.None?
      ensures cam.Some? ==> sent == old(sent) + [CamEvent(cam.value, "skip", Some(detail))]
    {
      if cam.None? {
        return;
      }
      status := Error;
      statusDetail := detail;
      videoListeners := None;
      sent := sent + [CamEvent(cam.value, "skip", Some(detail))];
    }

    /** `advance`, the only step that moves on: called by the offline screen. */
    method Advance()
      requires Valid()
      modifies this
      ensures Valid()
      ensures idx == old(idx) + 1
      ensures status == Loading && statusDetail == ""
      ensures readyTimer.None? && dwellTimer.None? && hls.None?
      ensures cams == old(cams) && snapshot == old(snapshot)
      ensures videoListeners == old(videoListeners) && youTubeCheck == old(youTubeCheck)
      ensures pendingPlays == old(pendingPlays) && sessionRef == old(sessionRef)
      ensures now == old(now) && sent == old(sent)
      ensures |cams| > 1 ==> CurrentRef() != old(CurrentRef())
      ensures |cams| <= 1 ==> CurrentRef() == old(CurrentRef()) && (EffectDue() <==> old(EffectDue()))
    {
      CleanupPlayer();
      status := Loading;
      statusDetail := "";
      idx := idx + 1;
      if |cams| > 1 {
        assert old(idx) % |cams| != idx % |cams| by {
          var n := |cams|;
          var q := old(idx) / n;
          var r := old(idx) % n;
          assert idx == q * n + r + 1;
          if r + 1 < n {
            ModOfMultiplePlus(q, n, r + 1);
          } else {
            assert idx == (q + 1) * n + 0;
            ModOfMultiplePlus(q + 1, n, 0);
          }
        }
      }
    }

    /** A successful fetch of /api/cams: `setCamFile(data)` with a fresh object. */
    method ListLoaded(list: seq<Cam>)
      requires Valid()
      modifies this
      ensures Valid()
      ensures cams == list && snapshot == old(snapshot) + 1
      ensures idx == old(idx) && status == old(status) && statusDetail == old(statusDetail)
      ensures readyTimer == old(readyTimer) && dwellTimer == old(dwellTimer) && hls == old(hls)
      ensures videoListeners == old(videoListeners) && youTubeCheck == old(youTubeCheck)
      ensures pendingPlays == old(pendingPlays) && sessionRef == old(sessionRef)
      ensures now == old(now) && sent == old(sent)
      ensures |list| > 0 ==> EffectDue()
    {
      cams := list;
      snapshot := snapshot + 1;
    }

    /** A failed fetch: the first one stores an empty list, later ones keep the last list. */
    method ListLoadFailed(initial: bool)
      requires Valid()
      modifies this
      ensures Valid()
      ensures initial ==> cams == [] && snapshot == old(snapshot) + 1
      ensures !initial ==> cams == old(cams) && snapshot == old(snapshot)
      ensures idx == old(idx) && status == old(status) && statusDetail == old(statusDetail)
      ensures readyTimer == old(readyTimer) && dwellTimer == old(dwellTimer) && hls == old(hls)
      ensures videoListeners == old(videoListeners) && youTubeCheck == old(youTubeCheck)
      ensures pendingPlays == old(pendingPlays) && sessionRef == old(sessionRef)
      ensures now == old(now) && sent == old(sent)
    {
      if initial {
        cams := [];
        snapshot := snapshot + 1;
      }
    }

    /** The session effect's body, after `cleanupPlayer`: health gate, `load` event,
        ready deadline and dwell deadline. */
    method RunSessionEffect(c: Cam)
      modifies this`status, this`statusDetail, this`videoListeners, this`sent, this`readyTimer, this`dwellTimer
      ensures videoListeners == (if GateRejects(c) then None else old(videoListeners))
      ensures GateRejects(c) ==> status == Error && statusDetail == GateDetail(c)
      ensures GateRejects(c) ==> readyTimer == old(readyTimer) && dwellTimer == old(dwellTimer)
      ensures GateRejects(c) ==> sent == old(sent) + [CamEvent(c, "skip", Some(GateDetail(c)))]
      ensures !GateRejects(c) ==> status == Loading && statusDetail == ""
      ensures !GateRejects(c) ==> sent == old(sent) + [CamEvent(c, "load", None)]
      ensures !GateRejects(c) ==>
        readyTimer == Some(Deadline(now, readyTimeoutSec * 1000, ReadyDetail(), c, false))
      ensures !GateRejects(c) ==>
        dwellTimer == Some(Deadline(now, DwellSec(c) * 1000, DwellDetail(c), c, false))
    {
      status := Loading;
      statusDetail := "";
      if GateRejects(c) {
        SkipNext(Some(c), GateDetail(c));
        return;
      }
      sent := sent + [CamEvent(c, "load", None)];
      readyTimer := Some(Deadline(now, readyTimeoutSec * 1000, ReadyDetail(), c, false));
      dwellTimer := Some(Deadline(now, DwellSec(c) * 1000, DwellDetail(c), c, false));
    }

    /** The HLS effect: listeners on the mounted <video>, then native playback, an
        immediate skip when HLS is unsupported, or a new hls.js instance. */
    method RunHlsEffect(c: Cam, mounted: bool)
      modifies this`status, this`statusDetail, this`videoListeners, this`sent, this`hls, this`pendingPlays
      ensures HlsUnsupported(c, mounted) ==> status == Error && videoListeners.None?
      ensures HlsUnsupported(c, mounted) ==> statusDetail == "HLS not supported by this browser"
      ensures HlsUnsupported(c, mounted) ==>
        sent == old(sent) + [CamEvent(c, "skip", Some("HLS not supported by this browser"))]
      ensures !HlsUnsupported(c, mounted) ==> status == old(status) && statusDetail == old(statusDetail)
      ensures !HlsUnsupported(c, mounted) ==> sent == old(sent)
      ensures !HlsUnsupported(c, mounted) ==> videoListeners == (if HlsWired(c, mounted) then Some(c) else old(videoListeners))
      ensures hls == (if HlsPlays(c, mounted) && !nativeHls then Some(c) else old(hls))
      ensures pendingPlays == old(pendingPlays) + (if HlsPlays(c, mounted) then [c] else [])
    {
      if !HlsWired(c, mounted) {
        return;
      }
      videoListeners := Some(c);
      if nativeHls {
        pendingPlays := pendingPlays + [c];
        return;
      }
      if !hlsJsSupported {
        SkipNext(Some(c), "HLS not supported by this browser");
        return;
      }
      hls := Some(c);
      pendingPlays := pendingPlays + [c];
    }

    /** The status, deadlines and telemetry the three effects leave for cam `c`, from
        the telemetry `sent0` they started with. A cam whose health says ok === false is
        skipped at once, with no `load` and no deadline. Any other cam gets `load`, a
        ready deadline and a dwell deadline. An HLS cam the browser cannot play is then
        skipped as well. */
    ghost predicate SessionStarted(c: Cam, mounted: bool, sent0: seq<TelemetryEvent>)
      reads this`readyTimer, this`dwellTimer, this`status, this`statusDetail, this`videoListeners, this`sent, this`now
    {
      var unsupported := HlsUnsupported(c, mounted);
      var unsupportedSkip := if unsupported then [CamEvent(c, "skip", Some("HLS not supported by this browser"))] else [];
      && (GateRejects(c) ==>
        && readyTimer.None? && dwellTimer.None? && status == Error && videoListeners.None?
        && statusDetail == (if unsupported then "HLS not supported by this browser" else GateDetail(c))
        && sent == sent0 + [CamEvent(c, "skip", Some(GateDetail(c)))] + unsupportedSkip)
      && (!GateRejects(c) ==>
        && sent == sent0 + [CamEvent(c, "load", None)] + unsupportedSkip
        && readyTimer == Some(Deadline(now, readyTimeoutSec * 1000, ReadyDetail(), c, false))
        && dwellTimer == Some(Deadline(now, DwellSec(c) * 1000, DwellDetail(c), c, false))
        && status == (if unsupported then Error else Loading)
        && statusDetail == (if unsupported then "HLS not supported by this browser" else "")
        && videoListeners == (if HlsWired(c, mounted) && !unsupported then Some(c) else None))
    }

    /** The readiness sources the effects leave for cam `c`: the YouTube check, the
        hls.js instance and the pending `play()` calls, from the plays `plays0`. */
    ghost predicate PlayerStarted(c: Cam, mounted: bool, plays0: seq<Cam>)
      reads this`youTubeCheck, this`hls, this`pendingPlays, this`now
    {
      && youTubeCheck == (if c.kind == YouTube.Name() then Some(ReadyCheck(now + YOUTUBE_READY_MS, c)) else None)
      && hls == (if HlsPlays(c, mounted) && !nativeHls then Some(c) else None)
      && pendingPlays == plays0 + (if HlsPlays(c, mounted) then [c] else [])
    }

    /** The three effects for a displayed cam, after their cleanups: session, HLS and
        YouTube in that order. `mounted` says whether the committed tree holds a <video>. */
    method RunCamEffects(c: Cam, mounted: bool)
      requires readyTimer.None? && dwellTimer.None? && hls.None? && videoListeners.None? && youTubeCheck.None?
      modifies this`status, this`statusDetail, this`videoListeners, this`sent
      modifies this`readyTimer, this`dwellTimer, this`hls, this`pendingPlays, this`youTubeCheck
      ensures status == Error ==> videoListeners.None?
      ensures readyTimer.Some? <==> dwellTimer.Some?
      ensures readyTimer.Some? ==> readyTimer.value.cam == c && dwellTimer.value.cam == c
      ensures SessionStarted(c, mounted, old(sent))
      ensures PlayerStarted(c, mounted, old(pendingPlays))
    {
      ghost var unsupported := HlsUnsupported(c, mounted);
      ghost var unsupportedSkip := CamEvent(c, "skip", Some("HLS not supported by this browser"));
      RunSessionEffect(c);
      ghost var afterSession := sent;
      RunHlsEffect(c, mounted);
      assert sent == afterSession + (if unsupported then [unsupportedSkip] else []);
      if c.kind == YouTube.Name() {
        youTubeCheck := Some(ReadyCheck(now + YOUTUBE_READY_MS, c));
      }
      if status == Error {
        // the offline screen replaces the <video> the HLS effect has just wired
        videoListeners := None;
      }
    }

    /** React's commit after the displayed cam object changed: the three effects'
        cleanups, then the effects for the new cam (or the idle page when there is none). */
    method StartSession()
      requires Valid() && EffectDue()
      modifies this`readyTimer, this`dwellTimer, this`hls, this`videoListeners, this`youTubeCheck
      modifies this`status, this`statusDetail, this`sent, this`pendingPlays, this`sessionRef
      ensures Valid() && !EffectDue() && sessionRef == CurrentRef()
      // no cam: an idle "loading" page with nothing armed
      ensures old(Current()).None? ==>
        && status == Loading && statusDetail == "" && sent == old(sent)
        && readyTimer.None? && dwellTimer.None? && hls.None? && videoListeners.None?
        && youTubeCheck.None? && pendingPlays == old(pendingPlays)
      // a cam: the effects of `RunCamEffects`
      ensures old(Current()).Some? ==> SessionStarted(old(Current()).value, old(VideoMounted()), old(sent))
      ensures old(Current()).Some? ==> PlayerStarted(old(Current()).value, old(VideoMounted()), old(pendingPlays))
    {
      var mounted := VideoMounted();
      var cam := Current();
      // cleanups of the previous run (page.tsx:195, 256-259, 268), then the session
      // effect's own cleanupPlayer
      CleanupPlayer();
      videoListeners := None;
      youTubeCheck := None;
      sessionRef := CurrentRef();
      if cam.None? {
        status := Loading;
        statusDetail := "";
      } else {
        RunCamEffects(cam.value, mounted);
      }
    }

    /** The abstract clock moves forward. */
    method Tick(t: int)
      requires Valid() && t >= now
      modifies this`now
      ensures Valid() && now == t
    {
      now := t;
    }

    /** The ready deadline expires: `skipNext("Not ready within Ns")`. */
    method FireReadyTimer()
      requires Valid()
      requires readyTimer.Some? && !readyTimer.value.fired && readyTimer.value.Due() <= now
      modifies this
      ensures Valid()
      ensures readyTimer == Some(old(readyTimer).value.(fired := true)) && dwellTimer == old(dwellTimer)
      ensures status == Error && statusDetail == old(readyTimer).value.detail
      ensures sent == old(sent) + [CamEvent(old(readyTimer).value.cam, "skip", Some(old(readyTimer).value.detail))]
      ensures idx == old(idx) && cams == old(cams) && snapshot == old(snapshot) && hls == old(hls)
      ensures youTubeCheck == old(youTubeCheck) && pendingPlays == old(pendingPlays)
      ensures sessionRef == old(sessionRef) && now == old(now)
    {
      var d := readyTimer.value;
      readyTimer := Some(d.(fired := true));
      SkipNext(Some(d.cam), d.detail);
    }

    /** The dwell deadline expires: `skipNext("Dwell reached (Ns)")`. */
    method FireDwellTimer()
      requires Valid()
      requires dwellTimer.Some? && !dwellTimer.value.fired && dwellTimer.value.Due() <= now
      modifies this
      ensures Valid()
      ensures dwellTimer == Some(old(dwellTimer).value.(fired := true)) && readyTimer == old(readyTimer)
      ensures status == Error && statusDetail == old(dwellTimer).value.detail
      ensures sent == old(sent) + [CamEvent(old(dwellTimer).value.cam, "skip", Some(old(dwellTimer).value.detail))]
      ensures idx == old(idx) && cams == old(cams) && snapshot == old(snapshot) && hls == old(hls)
      ensures youTubeCheck == old(youTubeCheck) && pendingPlays == old(pendingPlays)
      ensures sessionRef == old(sessionRef) && now == old(now)
    {
      var d := dwellTimer.value;
      dwellTimer := Some(d.(fired := true));
      SkipNext(Some(d.cam), d.detail);
    }

    /** The YouTube heuristic: 2 s after the effect ran, `markReady`. */
    method FireYouTubeCheck()
      requires Valid()
      requires youTubeCheck.Some? && youTubeCheck.value.due <= now
      modifies this
      ensures Valid()
      ensures youTubeCheck.None? && status == Ready && statusDetail == ""
      ensures sent == old(sent) + [CamEvent(old(youTubeCheck).value.cam, "ready", None)]
      ensures readyTimer == old(readyTimer) && dwellTimer == old(dwellTimer) && hls == old(hls)
      ensures idx == old(idx) && cams == old(cams) && snapshot == old(snapshot)
      ensures videoListeners == old(videoListeners) && pendingPlays == old(pendingPlays)
      ensures sessionRef == old(sessionRef) && now == old(now)
    {
      var cam := youTubeCheck.value.cam;
      youTubeCheck := None;
      MarkReady(Some(cam));
    }

    /** The <video> fires "playing". */
    method VideoPlaying()
      requires Valid()
      modifies this
      ensures Valid()
      ensures old(videoListeners).Some? ==> status == Ready && statusDetail == ""
      ensures old(videoListeners).Some? ==> sent == old(sent) + [CamEvent(old(videoListeners).value, "ready", None)]
      ensures old(videoListeners).None? ==> status == old(status) && statusDetail == old(statusDetail) && sent == old(sent)
      ensures readyTimer == old(readyTimer) && dwellTimer == old(dwellTimer) && hls == old(hls)
      ensures idx == old(idx) && cams == old(cams) && snapshot == old(snapshot)
      ensures videoListeners == old(videoListeners) && youTubeCheck == old(youTubeCheck)
      ensures pendingPlays == old(pendingPlays) && sessionRef == old(sessionRef) && now == old(now)
    {
      MarkReady(videoListeners);
    }

    /** The <video> fires "error". */
    method VideoError()
      requires Valid()
      modifies this
      ensures Valid()
      ensures old(videoListeners).Some? ==> status == Error && statusDetail == "Video element error"
      ensures old(videoListeners).Some? ==>
        sent == old(sent) + [CamEvent(old(videoListeners).value, "skip", Some("Video element error"))]
      ensures old(videoListeners).None? ==> status == old(status) && statusDetail == old(statusDetail) && sent == old(sent)
      ensures readyTimer == old(readyTimer) && dwellTimer == old(dwellTimer) && hls == old(hls)
      ensures idx == old(idx) && cams == old(cams) && snapshot == old(snapshot)
      ensures youTubeCheck == old(youTubeCheck) && pendingPlays == old(pendingPlays)
      ensures sessionRef == old(sessionRef) && now == old(now)
    {
      SkipNext(videoListeners, "Video element error");
    }

    /** hls.js reports an error; only fatal ones skip. */
    method HlsError(fatal: bool, errorType: string, details: string)
      requires Valid()
      modifies this
      ensures Valid()
      ensures old(hls).Some? && fatal ==> status == Error && statusDetail == "HLS fatal: " + errorType + "/" + details
      ensures old(hls).Some? && fatal ==>
        sent == old(sent) + [CamEvent(old(hls).value, "skip", Some("HLS fatal: " + errorType + "/" + details))]
      ensures old(hls).None? || !fatal ==> status == old(status) && statusDetail == old(statusDetail) && sent == old(sent)
      ensures old(hls).None? || !fatal ==> videoListeners == old(videoListeners)
      ensures readyTimer == old(readyTimer) && dwellTimer == old(dwellTimer) && hls == old(hls)
      ensures idx == old(idx) && cams == old(cams) && snapshot == old(snapshot)
      ensures youTubeCheck == old(youTubeCheck) && pendingPlays == old(pendingPlays)
      ensures sessionRef == old(sessionRef) && now == old(now)
    {
      if hls.Some? && fatal {
        SkipNext(hls, "HLS fatal: " + errorType + "/" + details);
      }
    }

    /** The i-th pending `video.play()` settles; a rejection skips the cam that call
        was made for, even if the session has since restarted. */
    method PlaySettled(i: nat, failure: Option<string>)
      requires Valid() && i < |pendingPlays|
      modifies this
      ensures Valid()
      ensures pendingPlays == old(pendingPlays)[..i] + old(pendingPlays)[i + 1..]
      ensures failure.Some? ==> status == Error && statusDetail == "HLS play failed: " + failure.value
      ensures failure.Some? ==>
        sent == old(sent) + [CamEvent(old(pendingPlays)[i], "skip", Some("HLS play failed: " + failure.value))]
      ensures failure.None? ==> status == old(status) && statusDetail == old(statusDetail) && sent == old(sent)
      ensures failure.None? ==> videoListeners == old(videoListeners)
      ensures readyTimer == old(readyTimer) && dwellTimer == old(dwellTimer) && hls == old(hls)
      ensures idx == old(idx) && cams == old(cams) && snapshot == old(snapshot)
      ensures youTubeCheck == old(youTubeCheck) && sessionRef == old(sessionRef) && now == old(now)
    {
      var c := pendingPlays[i];
      pendingPlays := pendingPlays[..i] + pendingPlays[i + 1..];
      if failure.Some? {
        SkipNext(Some(c), "HLS play failed: " + failure.value);
      }
    }
  }

  // ---------------------------------------------------------------------------
  // Runs of the page

  /** Every successful poll hands the page a fresh list object, so the displayed cam
      object changes and the session starts over: a healthy `web` cam loaded at 0 ms
      and polled at 5000 ms has its deadlines measured from 5000 ms. With a poll every
      5 s, the 15 s ready deadline and the 90 s dwell deadline are re-armed before
      they can expire. */
  method PollRearmsDeadlines(c: Cam) returns (readyDue: int, dwellDue: int, loads: nat)
    requires !GateRejects(c) && c.kind == Web.Name() && c.dwellSec.None?
    ensures readyDue == 5000 + DEFAULT_READY_TIMEOUT_SEC * 1000
    ensures dwellDue == 5000 + DEFAULT_DWELL_SEC * 1000
    ensures loads == 2
  {
    var page := new KioskPage(DEFAULT_READY_TIMEOUT_SEC, DEFAULT_DWELL_SEC, false, true, t => "", 0);
    page.ListLoaded([c]);
    page.StartSession();
    assert page.sent == [page.CamEvent(c, "load", None)];
    page.Tick(5000);
    page.ListLoaded([c]);
    page.StartSession();
    readyDue := page.readyTimer.value.Due();
    dwellDue := page.dwellTimer.value.Due();
    loads := |page.sent|;
  }

  /** A YouTube cam whose health says it is offline is reported (`skip`, offline
      screen), and 2 s later the YouTube heuristic marks it ready anyway, before the
      8 s countdown can advance. Nothing is armed then: no deadline will move on from it. */
  method GatedYouTubeCamBecomesReady(c: Cam, d: Cam) returns (before: Status, after: Status, armed: bool, shown: Option<Cam>)
    requires GateRejects(c) && c.kind == YouTube.Name()
    ensures before == Error && after == Ready && !armed && shown == Some(c)
  {
    var page := new KioskPage(DEFAULT_READY_TIMEOUT_SEC, DEFAULT_DWELL_SEC, false, true, t => "", 0);
    page.ListLoaded([c, d]);
    page.StartSession();
    before := page.status;
    page.Tick(YOUTUBE_READY_MS);
    page.FireYouTubeCheck();
    after := page.status;
    armed := page.readyTimer.Some? || page.dwellTimer.Some?;
    shown := page.Current();
  }
}
