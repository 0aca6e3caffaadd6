/** The admin page (app/admin/page.tsx): a text area holding cams.json, its validation,
    the Load and Save buttons and the status badge. `JSON.parse` and `JSON.stringify`
    are parameters of the page; the network replies are inputs of the reply steps. */
module Admin {
  import opened Js
  import CamsRoute

  const ROOT_ERROR := "Root must be an object"
  const CAMS_ERROR := "Missing or invalid 'cams' array"
  const MAX_SHOWN_ERRORS := 12

  // ---------------------------------------------------------------------------
  // validateCamFile

  /** `!v || typeof v !== "string"` fails: a non-empty string. Whitespace passes. */
  predicate FieldIsString(p: Option<Json>) {
    p.Some? && p.value.JStr? && p.value.s != ""
  }

  function ElementPrefix(i: nat): string {
    "cams[" + NatToString(i) + "]"
  }

  /** The messages of the checks that fail, in the order the checks run. */
  function FailedChecks(checks: seq<(bool, string)>): (msgs: seq<string>)
    ensures |msgs| <= |checks|
  {
    if |checks| == 0 then []
    else
      var last := checks[|checks| - 1];
      FailedChecks(checks[..|checks| - 1]) + (if last.0 then [] else [last.1])
  }

  lemma {:induction false} FailedChecksEmptyIff(checks: seq<(bool, string)>)
    ensures FailedChecks(checks) == [] <==> forall k :: 0 <= k < |checks| ==> checks[k].0
  {
    if |checks| > 0 {
      var init, last := checks[..|checks| - 1], checks[|checks| - 1];
      FailedChecksEmptyIff(init);
      var before, msg := FailedChecks(init), if last.0 then [] else [last.1];
      assert FailedChecks(checks) == before + msg;
      if before == [] && msg == [] {
        forall k | 0 <= k < |checks|
          ensures checks[k].0
        {
          if k < |init| {
            assert checks[k] == init[k];
          }
        }
      } else if before != [] {
        var k :| 0 <= k < |init| && !init[k].0;
        assert checks[k] == init[k];
        assert |before + msg| > 0;
      } else {
        assert |before + msg| > 0;
      }
    }
  }

  /** The checks of an object element, each with its message. */
  function FieldChecks(c: Json, p: string): seq<(bool, string)> {
    [ (FieldIsString(Prop(c, "id")), p + ".id must be a string"),
      (FieldIsString(Prop(c, "name")), p + ".name must be a string"),
      (FieldIsString(Prop(c, "kind")), p + ".kind must be a string"),
      (FieldIsString(Prop(c, "url")), p + ".url must be a string"),
      (Nullish(Prop(c, "dwellSec")) || IsNumber(Prop(c, "dwellSec")), p + ".dwellSec must be a number") ]
  }

  /** The messages for element i, in the order the checks run. */
  function ElementErrors(c: Json, i: nat): (errs: seq<string>)
    ensures !Truthy(c) || !IsObjectType(c) ==> errs == [ElementPrefix(i) + " must be an object"]
    ensures |errs| <= 5
  {
    if !Truthy(c) || !IsObjectType(c) then [ElementPrefix(i) + " must be an object"]
    else FailedChecks(FieldChecks(c, ElementPrefix(i)))
  }

  /** The messages for the first n elements. */
  function ErrorsUpTo(items: seq<Json>, n: nat): seq<string>
    requires n <= |items|
  {
    if n == 0 then [] else ErrorsUpTo(items, n - 1) + ElementErrors(items[n - 1], n - 1)
  }

  /** `validateCamFile(obj)` */
  function CamFileErrors(obj: Json): (errs: seq<string>)
    ensures !Truthy(obj) || !IsObjectType(obj) ==> errs == [ROOT_ERROR]
  {
    if !Truthy(obj) || !IsObjectType(obj) then [ROOT_ERROR]
    else match Prop(obj, "cams")
      case Some(JArr(items)) => ErrorsUpTo(items, |items|)
      case _ => [CAMS_ERROR]
  }

  /** An element the admin page accepts. */
  predicate WellFormedCam(c: Json) {
    && c.JObj?
    && FieldIsString(Prop(c, "id")) && FieldIsString(Prop(c, "name"))
    && FieldIsString(Prop(c, "kind")) && FieldIsString(Prop(c, "url"))
    && (Nullish(Prop(c, "dwellSec")) || IsNumber(Prop(c, "dwellSec")))
  }

  /** A file the admin page accepts: an object whose `cams` is an array of acceptable
      elements. An array root is an object to `typeof` but has no `cams`. */
  predicate WellFormedCamFile(obj: Json) {
    && obj.JObj?
    && Prop(obj, "cams").Some? && Prop(obj, "cams").value.JArr?
    && forall j :: 0 <= j < |obj.fields["cams"].items| ==> WellFormedCam(obj.fields["cams"].items[j])
  }

  lemma ElementErrorsEmptyIff(c: Json, i: nat)
    ensures ElementErrors(c, i) == [] <==> WellFormedCam(c)
  {
    var checks := FieldChecks(c, ElementPrefix(i));
    FailedChecksEmptyIff(checks);
    assert (forall k :: 0 <= k < |checks| ==> checks[k].0)
      <==> checks[0].0 && checks[1].0 && checks[2].0 && checks[3].0 && checks[4].0;
  }

  /** The first n elements are acceptable, element by element. */
  predicate PrefixWellFormed(items: seq<Json>, n: nat)
    requires n <= |items|
  {
    n == 0 || (PrefixWellFormed(items, n - 1) && WellFormedCam(items[n - 1]))
  }

  lemma {:induction false} ErrorsUpToEmptyStep(items: seq<Json>, n: nat)
    requires n <= |items|
    ensures ErrorsUpTo(items, n) == [] <==> PrefixWellFormed(items, n)
  {
    if n > 0 {
      ErrorsUpToEmptyStep(items, n - 1);
      var c := items[n - 1];
      ElementErrorsEmptyIff(c, n - 1);
      var before, last := ErrorsUpTo(items, n - 1), ElementErrors(c, n - 1);
      assert ErrorsUpTo(items, n) == before + last;
      assert |before + last| == |before| + |last|;
      assert PrefixWellFormed(items, n) == (PrefixWellFormed(items, n - 1) && WellFormedCam(c));
    }
  }

  lemma {:induction false} PrefixWellFormedAll(items: seq<Json>, n: nat)
    requires n <= |items|
    ensures PrefixWellFormed(items, n) <==> forall j :: 0 <= j < n ==> WellFormedCam(items[j])
  {
    if n > 0 {
      PrefixWellFormedAll(items, n - 1);
    }
  }

  lemma ErrorsUpToEmptyIff(items: seq<Json>, n: nat)
    requires n <= |items|
    ensures ErrorsUpTo(items, n) == [] <==> forall j :: 0 <= j < n ==> WellFormedCam(items[j])
  {
    ErrorsUpToEmptyStep(items, n);
    PrefixWellFormedAll(items, n);
  }

  /** `validateCamFile` finds nothing exactly for the well-formed files. */
  lemma CamFileErrorsEmptyIff(obj: Json)
    ensures CamFileErrors(obj) == [] <==> WellFormedCamFile(obj)
  {
    if obj.JObj? && Prop(obj, "cams").Some? && Prop(obj, "cams").value.JArr? {
      ErrorsUpToEmptyIff(obj.fields["cams"].items, |obj.fields["cams"].items|);
    }
  }

  /** A missing or non-array `cams` is reported once, with no per-element message. */
  lemma MissingCamsReportedOnce(obj: Json)
    requires obj.JObj? && !(Prop(obj, "cams").Some? && Prop(obj, "cams").value.JArr?)
    ensures CamFileErrors(obj) == [CAMS_ERROR]
  {
  }

  /** One `forEach` callback: the messages pushed for element i. */
  method CheckElement(c: Json, i: nat) returns (e: seq<string>)
    ensures e == ElementErrors(c, i)
    ensures e == [] <==> WellFormedCam(c)
  {
    ElementErrorsEmptyIff(c, i);
    var p := ElementPrefix(i);
    if !Truthy(c) || !IsObjectType(c) {
      return [p + " must be an object"];
    }
    ghost var checks := FieldChecks(c, p);
    e := [];
    if !FieldIsString(Prop(c, "id")) { e := e + [p + ".id must be a string"]; }
    assert e == FailedChecks(checks[..1]);
    if !FieldIsString(Prop(c, "name")) { e := e + [p + ".name must be a string"]; }
    assert checks[..2][..1] == checks[..1];
    assert e == FailedChecks(checks[..2]);
    if !FieldIsString(Prop(c, "kind")) { e := e + [p + ".kind must be a string"]; }
    assert checks[..3][..2] == checks[..2];
    assert e == FailedChecks(checks[..3]);
    if !FieldIsString(Prop(c, "url")) { e := e + [p + ".url must be a string"]; }
    assert checks[..4][..3] == checks[..3];
    assert e == FailedChecks(checks[..4]);
    if !Nullish(Prop(c, "dwellSec")) && !IsNumber(Prop(c, "dwellSec")) {
      e := e + [p + ".dwellSec must be a number"];
    }
    assert checks[..5][..4] == checks[..4] && checks[..5] == checks;
  }

  /** `validateCamFile`: a `forEach` over the elements that pushes messages. */
  method ValidateCamFile(obj: Json) returns (errors: seq<string>)
    ensures errors == CamFileErrors(obj)
    ensures errors == [] <==> WellFormedCamFile(obj)
  {
    if !Truthy(obj) || !IsObjectType(obj) {
      CamFileErrorsEmptyIff(obj);
      return [ROOT_ERROR];
    }
    errors := [];
    var cams := Prop(obj, "cams");
    if !(cams.Some? && cams.value.JArr?) {
      errors := errors + [CAMS_ERROR];
    }
    if cams.Some? && cams.value.JArr? {
      var items := cams.value.items;
      var i := 0;
      while i < |items|
        invariant 0 <= i <= |items|
        invariant errors == ErrorsUpTo(items, i)
      {
        var e := CheckElement(items[i], i);
        assert ErrorsUpTo(items, i + 1) == errors + e;
        errors := errors + e;
        i := i + 1;
      }
    }
    CamFileErrorsEmptyIff(obj);
  }

  // ---------------------------------------------------------------------------
  // validationErrors / isValid

  /** `validationErrors` for the text and what the parser makes of it. */
  function ValidationErrors(raw: string, parsed: JsonParse): (errs: seq<string>)
    ensures IsBlank(raw) ==> errs == []
    ensures !IsBlank(raw) && parsed.ParseFailed? ==> errs == ["Invalid JSON: " + parsed.error]
  {
    TrimEmptyIff(raw);
    if Trim(raw) == "" then []
    else match parsed
      case ParseFailed(e) => ["Invalid JSON: " + e]
      case Parsed(v) => CamFileErrors(v)
  }

  /** `validationErrors.length === 0 && raw.trim().length > 0` */
  predicate IsValid(raw: string, parsed: JsonParse) {
    |ValidationErrors(raw, parsed)| == 0 && |Trim(raw)| > 0
  }

  /** The text is valid exactly when it is not blank, parses, and the parsed value is
      a well-formed cams file. */
  lemma IsValidIff(raw: string, parsed: JsonParse)
    ensures IsValid(raw, parsed) <==> !IsBlank(raw) && parsed.Parsed? && WellFormedCamFile(parsed.value)
  {
    TrimEmptyIff(raw);
    if parsed.Parsed? {
      CamFileErrorsEmptyIff(parsed.value);
    }
  }

  // ---------------------------------------------------------------------------
  // Rendering

  datatype AdminStatus = Idle | Loading | Saving | Failed | Ok

  function BadgeText(s: AdminStatus): (t: string)
    ensures s == Idle <==> t == "Ready"
    ensures s == Loading <==> t == "Loading"
    ensures s == Saving <==> t == "Saving"
    ensures s == Ok <==> t == "OK"
    ensures s == Failed <==> t == "Error"
  {
    match s
    case Idle => "Ready"
    case Loading => "Loading"
    case Saving => "Saving"
    case Ok => "OK"
    case Failed => "Error"
  }

  /** The listed messages: the first 12. */
  function ShownErrors(errs: seq<string>): (shown: seq<string>)
    ensures |shown| == if |errs| <= MAX_SHOWN_ERRORS then |errs| else MAX_SHOWN_ERRORS
    ensures shown == errs[..|shown|]
  {
    if |errs| <= MAX_SHOWN_ERRORS then errs else errs[..MAX_SHOWN_ERRORS]
  }

  /** How many messages the "…and N more" line counts. */
  function HiddenCount(errs: seq<string>): (n: nat)
    ensures |ShownErrors(errs)| + n == |errs|
    ensures n > 0 <==> |errs| > MAX_SHOWN_ERRORS
  {
    if |errs| > MAX_SHOWN_ERRORS then |errs| - MAX_SHOWN_ERRORS else 0
  }

  /** The line under the list, when there are more than 12 messages. */
  function MoreLine(errs: seq<string>): (line: Option<string>)
    ensures line.Some? <==> |errs| > MAX_SHOWN_ERRORS
    ensures line.Some? ==> line.value == "…and " + NatToString(HiddenCount(errs)) + " more"
  {
    if |errs| > MAX_SHOWN_ERRORS then Some("…and " + NatToString(HiddenCount(errs)) + " more") else None
  }

  /** The list and the line account for every message: the line's number is the count
      of those left out, and it can be read back from the line. */
  lemma TruncationAccountsForAll(errs: seq<string>)
    requires |errs| > MAX_SHOWN_ERRORS
    ensures ShownErrors(errs) + errs[MAX_SHOWN_ERRORS..] == errs
    ensures DigitsValue(NatToString(HiddenCount(errs))) == |errs| - MAX_SHOWN_ERRORS
  {
    NatToStringRoundTrip(HiddenCount(errs));
  }

  // ---------------------------------------------------------------------------
  // The two sides of a save

  /** The admin page and the POST handler accept different things: a cam whose id is
      only whitespace passes the page's element check but not `validateCam`. */
  lemma WhitespaceIdAcceptedOnlyByAdmin()
    ensures var cam := JObj(map["id" := JStr(" "), "name" := JStr("n"), "kind" := JStr("hls"), "url" := JStr("u")]);
      WellFormedCam(cam) && !CamsRoute.ValidateCam(cam)
  {
    var cam := JObj(map["id" := JStr(" "), "name" := JStr("n"), "kind" := JStr("hls"), "url" := JStr("u")]);
    assert IsTrimmable(' ');
    CamsRoute.ValidateCamIff(cam);
    assert Prop(cam, "id") == Some(JStr(" "));
    assert IsBlank(" ");
  }

  /** Every cam the POST handler accepts also passes the page's element check. */
  lemma RouteValidIsAdminWellFormed(cam: Json)
    requires CamsRoute.ValidateCam(cam)
    ensures WellFormedCam(cam)
  {
    CamsRoute.ValidateCamIff(cam);
  }

  /** What the page does with a fetch: a reply (status, text, and the body as JSON), or
      a thrown error's message. */
  datatype FetchOutcome = Reply(status: int, text: string, json: JsonParse) | FetchThrew(message: string)

  predicate ResponseOk(status: int) {
    200 <= status <= 299
  }

  class AdminPage {
    const parse: string -> JsonParse    // JSON.parse, or its exception's message
    const stringify: Json -> string     // JSON.stringify(data, null, 2)
    var token: string
    var raw: string
    var status: AdminStatus
    var message: string
    var storedToken: string              // localStorage "admin_token"
    var posted: seq<Json>                // bodies sent to POST /api/cams, in order

    constructor(parse: string -> JsonParse, stringify: Json -> string, storedToken: string)
      ensures this.parse == parse && this.stringify == stringify
      ensures token == storedToken && this.storedToken == storedToken
      ensures raw == "" && status == Idle && message == "" && posted == []
    {
      this.parse := parse;
      this.stringify := stringify;
      token := storedToken;
      this.storedToken := storedToken;
      raw := "";
      status := Idle;
      message := "";
      posted := [];
    }

    /** The Save button is enabled. */
    predicate SaveEnabled()
      reads this
    {
      IsValid(raw, parse(raw)) && status != Saving && status != Loading
    }

    /** `save()` up to the request: the token, then the JSON, then validation; the
        first failing gate sets the error status and its message and nothing is sent. */
    method Save()
      modifies this`storedToken, this`status, this`message, this`posted
      ensures storedToken == token
      ensures IsBlank(token) ==> status == Failed && message == "Missing admin token." && posted == old(posted)
      ensures !IsBlank(token) && parse(raw).ParseFailed? ==>
        status == Failed && message == "Invalid JSON: " + parse(raw).error && posted == old(posted)
      ensures !IsBlank(token) && parse(raw).Parsed? && !WellFormedCamFile(parse(raw).value) ==>
        status == Failed && message == "Fix validation errors before saving." && posted == old(posted)
      ensures !IsBlank(token) && parse(raw).Parsed? && WellFormedCamFile(parse(raw).value) ==>
        status == Saving && message == "Saving…" && posted == old(posted) + [parse(raw).value]
    {
      var blank := Trim(token) == "";
      TrimEmptyIff(token);
      var parsed := parse(raw);
      var nextStatus, nextMessage, send := Saving, "Saving…", true;
      if blank {
        nextStatus, nextMessage, send := Failed, "Missing admin token.", false;
      } else if parsed.ParseFailed? {
        nextStatus, nextMessage, send := Failed, "Invalid JSON: " + parsed.error, false;
      } else {
        var errs := ValidateCamFile(parsed.value);
        if |errs| > 0 {
          nextStatus, nextMessage, send := Failed, "Fix validation errors before saving.", false;
        }
      }
      storedToken, status, message := token, nextStatus, nextMessage;
      if send {
        posted := posted + [parsed.value];
      }
    }

    /** The POST reply arrives. */
    method SaveReplied(outcome: FetchOutcome)
      modifies this`status, this`message
      ensures outcome.Reply? && ResponseOk(outcome.status) ==>
        status == Ok && message == "Saved. Kiosk will pick up changes within ~5 seconds."
      ensures outcome.Reply? && !ResponseOk(outcome.status) ==>
        status == Failed && message == "Save failed (" + IntToString(outcome.status) + "): " + outcome.text
      ensures outcome.FetchThrew? ==> status == Failed && message == "Save error: " + outcome.message
    {
      match outcome
      case Reply(code, text, _) =>
        if !ResponseOk(code) {
          status, message := Failed, "Save failed (" + IntToString(code) + "): " + text;
        } else {
          status, message := Ok, "Saved. Kiosk will pick up changes within ~5 seconds.";
        }
      case FetchThrew(e) =>
        status, message := Failed, "Save error: " + e;
    }

    /** `load()` up to the request. */
    method Load()
      modifies this`status, this`message
      ensures status == Loading && message == "Loading…"
    {
      status, message := Loading, "Loading…";
    }

    /** The GET reply arrives: on success the text area shows the file. */
    method LoadReplied(outcome: FetchOutcome)
      modifies this`status, this`message, this`raw
      ensures outcome.Reply? && ResponseOk(outcome.status) && outcome.json.Parsed? ==>
        raw == stringify(outcome.json.value) && status == Ok && message == "Loaded."
      ensures outcome.Reply? && ResponseOk(outcome.status) && outcome.json.ParseFailed? ==>
        raw == old(raw) && status == Failed && message == "Load error: " + outcome.json.error
      ensures outcome.Reply? && !ResponseOk(outcome.status) ==>
        raw == old(raw) && status == Failed &&
        message == "Load failed (" + IntToString(outcome.status) + "): " + outcome.text
      ensures outcome.FetchThrew? ==> raw == old(raw) && status == Failed && message == "Load error: " + outcome.message
    {
      match outcome
      case Reply(code, text, json) =>
        if !ResponseOk(code) {
          status, message := Failed, "Load failed (" + IntToString(code) + "): " + text;
        } else if json.ParseFailed? {
          status, message := Failed, "Load error: " + json.error;
        } else {
          raw := stringify(json.value);
          status, message := Ok, "Loaded.";
        }
      case FetchThrew(e) =>
        status, message := Failed, "Load error: " + e;
    }
  }

  /** A save the page lets through posts the whole file, but the POST handler wants
      `{ cam }`: a file without a `cam` field is answered 400 and nothing is written. */
  lemma AdminSaveBodyRejected(raw: string, parsed: JsonParse)
    requires IsValid(raw, parsed)
    requires parsed.Parsed? ==> Prop(parsed.value, "cam").None?
    ensures parsed.Parsed?
    ensures CamsRoute.CheckPostBody(parsed) == CamsRoute.NoValidCam
  {
    IsValidIff(raw, parsed);
  }
}
