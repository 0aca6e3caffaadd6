/** The records of lib/types.ts as the kiosk page sees them once a list has been fetched. */
module Types {
  import opened Js

  /** The three kinds a configured cam may name. The file stores the kind as a string,
      and the API accepts any non-blank string there, so `Cam.kind` stays a string. */
  datatype CamKind = YouTube | Hls | Web {
    function Name(): string {
      match this
      case YouTube => "youtube"
      case Hls => "hls"
      case Web => "web"
    }
  }

  function ParseKind(s: string): (k: Option<CamKind>)
    ensures k.Some? ==> k.value.Name() == s
    ensures (s == "youtube" || s == "hls" || s == "web") ==> k.Some?
  {
    if s == "youtube" then Some(YouTube)
    else if s == "hls" then Some(Hls)
    else if s == "web" then Some(Web)
    else None
  }

  /** The annotation the cams API attaches to each cam. */
  datatype Health = Health(ok: bool, checkedAt: string, detail: Option<string>)

  datatype Cam = Cam(
    id: string,
    name: string,
    kind: string,
    url: string,
    dwellSec: Option<int>,
    attribution: Option<string>,
    health: Option<Health>)

  datatype TelemetryEvent = TelemetryEvent(
    ts: string,
    camId: Option<string>,
    camName: Option<string>,
    kind: Option<string>,
    event: string,
    detail: Option<string>)
}
