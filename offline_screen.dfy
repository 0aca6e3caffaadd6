/** The offline screen (app/components/offline-screen.tsx): a countdown `left` that an
    interval decrements once a second without going below 0, an effect that calls
    `onSkipNow` whenever `left` has changed to a value <= 0, and a "Skip now" button.
    The kiosk passes its `advance` as `onSkipNow`; `advance` keeps its identity across
    renders, so the second effect re-runs only when `left` changes. */
module OfflineScreen {
  import opened Js
  import opened Types
  import Kiosk

  const DEFAULT_AUTO_SKIP_SEC := 8
  const UNNAMED_TITLE := "This stream"

  function Max(a: int, b: int): int {
    if a >= b then a else b
  }

  /** One interval tick: `Math.max(0, v - 1)`. */
  function TickLeft(v: int): (r: int)
    ensures r >= 0
    ensures v > 0 ==> r == v - 1
    ensures v <= 0 ==> r == 0
  {
    Max(0, v - 1)
  }

  /** `left` after k ticks from a. */
  function LeftAfter(a: int, k: nat): int {
    if k == 0 then a else TickLeft(LeftAfter(a, k - 1))
  }

  /** How many times the skip effect fires during k ticks from a: once per tick that
      changes `left` to a value <= 0 (React does not re-run the effect when the state
      setter stores the value it already holds). */
  function SkipsDuring(a: int, k: nat): nat {
    if k == 0 then 0
    else
      var before := LeftAfter(a, k - 1);
      var after := TickLeft(before);
      SkipsDuring(a, k - 1) + (if after != before && after <= 0 then 1 else 0)
  }

  /** The countdown saturates at 0: after k >= 1 ticks `left` is `max(0, a - k)`. */
  lemma {:induction false} LeftAfterClosedForm(a: int, k: nat)
    ensures k > 0 ==> LeftAfter(a, k) == Max(0, a - k)
    ensures k > 0 ==> LeftAfter(a, k) >= 0
  {
    if k > 1 {
      LeftAfterClosedForm(a, k - 1);
    }
  }

  /** `left` never increases between resets. */
  lemma {:induction false} LeftNonIncreasing(a: int, j: nat, k: nat)
    requires a >= 0 && j <= k
    ensures LeftAfter(a, k) <= LeftAfter(a, j)
  {
    if j < k {
      LeftNonIncreasing(a, j, k - 1);
      LeftAfterClosedForm(a, k - 1);
      LeftAfterClosedForm(a, k);
    }
  }

  /** Over k ticks the countdown asks for a skip at most once: exactly when it starts
      away from 0 and k ticks are enough to bring it down to 0. */
  lemma {:induction false} SkipsDuringClosedForm(a: int, k: nat)
    ensures SkipsDuring(a, k) == (if k > 0 && a != 0 && a <= k then 1 else 0)
  {
    if k > 0 {
      SkipsDuringClosedForm(a, k - 1);
      LeftAfterClosedForm(a, k - 1);
      LeftAfterClosedForm(a, k);
    }
  }

  /** With the default 8 s, the screen asks for the next cam exactly at the 8th tick. */
  lemma DefaultCountdownSkipsOnce(k: nat)
    ensures SkipsDuring(DEFAULT_AUTO_SKIP_SEC, k) == (if k >= DEFAULT_AUTO_SKIP_SEC then 1 else 0)
    ensures k >= DEFAULT_AUTO_SKIP_SEC ==> LeftAfter(DEFAULT_AUTO_SKIP_SEC, k) == 0
  {
    SkipsDuringClosedForm(DEFAULT_AUTO_SKIP_SEC, k);
    LeftAfterClosedForm(DEFAULT_AUTO_SKIP_SEC, k);
  }

  /** `cam?.name ?? "This stream"` */
  function Title(cam: Option<Cam>): (t: string)
    ensures cam.None? ==> t == UNNAMED_TITLE
    ensures cam.Some? ==> t == cam.value.name
  {
    match cam
    case Some(c) => c.name
    case None => UNNAMED_TITLE
  }

  /** The block with name, id, kind and url is rendered. */
  predicate DetailsBlockShown(cam: Option<Cam>) {
    cam.Some?
  }

  /** The "Details:" line is rendered: a cam, and a truthy `detail`. */
  predicate DetailLineShown(cam: Option<Cam>, detail: string) {
    DetailsBlockShown(cam) && detail != ""
  }

  /** The offline screen as the kiosk renders it always names the cam and shows a
      non-empty detail line: the status detail, or the kiosk's fallback sentence. */
  lemma KioskFallbackScreen(cam: Option<Cam>, status: Kiosk.Status, statusDetail: string)
    requires Kiosk.View(cam, status, statusDetail).Offline?
    ensures var v := Kiosk.View(cam, status, statusDetail);
      && Title(Some(v.cam)) == cam.value.name
      && DetailLineShown(Some(v.cam), v.detail)
      && (statusDetail != "" ==> v.detail == statusDetail)
      && v.autoSkipSec == DEFAULT_AUTO_SKIP_SEC
  {
  }

  /** The mounted countdown. `skips` counts the calls of `onSkipNow`. */
  class Countdown {
    var autoSkipSec: int
    var camId: Option<string>
    var left: int
    var skips: nat

    /** Mount: `left` starts at `autoSkipSec`; the reset effect stores the same value
        and the skip effect runs once, asking at once when that value is <= 0. */
    constructor(autoSkipSec: int, camId: Option<string>)
      ensures this.autoSkipSec == autoSkipSec && this.camId == camId
      ensures left == autoSkipSec
      ensures skips == (if autoSkipSec <= 0 then 1 else 0)
    {
      this.autoSkipSec := autoSkipSec;
      this.camId := camId;
      left := autoSkipSec;
      skips := if autoSkipSec <= 0 then 1 else 0;
    }

    /** One interval tick. */
    method Tick()
      modifies this`left, this`skips
      ensures left == TickLeft(old(left))
      ensures skips == old(skips) + (if left != old(left) && left <= 0 then 1 else 0)
    {
      var v := TickLeft(left);
      if v != left {
        left := v;
        if left <= 0 {
          skips := skips + 1;
        }
      }
    }

    /** k ticks in a row, matching the closed form of the countdown. */
    method TickMany(k: nat)
      modifies this`left, this`skips
      ensures left == LeftAfter(old(left), k)
      ensures skips == old(skips) + SkipsDuring(old(left), k)
    {
      var i := 0;
      while i < k
        invariant 0 <= i <= k
        invariant left == LeftAfter(old(left), i)
        invariant skips == old(skips) + SkipsDuring(old(left), i)
      {
        Tick();
        i := i + 1;
      }
    }

    /** New props. When `autoSkipSec` or the cam id differs, the reset effect stores
        `autoSkipSec` in `left` (restarting the interval), and the skip effect runs if
        that changed `left`. */
    method PropsChanged(newAutoSkipSec: int, newCamId: Option<string>)
      modifies this
      ensures autoSkipSec == newAutoSkipSec && camId == newCamId
      ensures newAutoSkipSec == old(autoSkipSec) && newCamId == old(camId) ==>
        left == old(left) && skips == old(skips)
      ensures newAutoSkipSec != old(autoSkipSec) || newCamId != old(camId) ==>
        && left == newAutoSkipSec
        && skips == old(skips) + (if newAutoSkipSec != old(left) && newAutoSkipSec <= 0 then 1 else 0)
    {
      var depsChanged := newAutoSkipSec != autoSkipSec || newCamId != camId;
      autoSkipSec := newAutoSkipSec;
      camId := newCamId;
      if depsChanged && left != newAutoSkipSec {
        left := newAutoSkipSec;
        if left <= 0 {
          skips := skips + 1;
        }
      }
    }

    /** "Skip now": `onSkipNow` whatever `left` is. */
    method SkipNowClicked()
      modifies this`skips
      ensures skips == old(skips) + 1
    {
      skips := skips + 1;
    }
  }
}
