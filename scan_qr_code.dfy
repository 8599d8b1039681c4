/**
  The referee's player-verification page: camera start/stop/switch, the
  decode callback with its duplicate guard, the roster lookup with its
  club-id-or-first-name policy, and the Proceed action.
  The camera library is replaced by its inputs: the camera list it
  enumerates and each decoded string it delivers. `JSON.parse` is a
  parameter of the decode handler.
*/
module ScanQrCode {
  import opened JsValues
  import opened Toasts

  /** A camera as `getCameras` lists it; `name` holds its `label`. */
  datatype Camera = Camera(id: string, name: string)

  // ---- Payload and lookup ----

  /** What `const { clubId, firstName } = JSON.parse(text)` yields, or that it threw. */
  datatype Lookup = Unreadable | Keys(clubId: JsValue, firstName: JsValue)

  /**
    Destructuring the parsed payload: a syntax error (`None`) or a `null`
    payload throws; a primitive has neither property, so both read `undefined`.
  */
  function Destructure(parsed: Option<JsValue>): (r: Lookup)
    ensures r.Unreadable? <==> parsed.None? || Nullish(parsed.value)
    ensures parsed.Some? && parsed.value.Obj? ==>
              r == Keys(Get(parsed.value.fields, "clubId"), Get(parsed.value.fields, "firstName"))
    ensures parsed.Some? && !parsed.value.Obj? && !Nullish(parsed.value) ==> r == Keys(Undefined, Undefined)
  {
    match parsed
    case None => Unreadable
    case Some(v) =>
      match v
      case Undefined => Unreadable
      case Null => Unreadable
      case Obj(fields) => Keys(Get(fields, "clubId"), Get(fields, "firstName"))
      case _ => Keys(Undefined, Undefined)
  }

  /** `p.clubId === clubId || p.firstName === firstName`; absent equals absent. */
  predicate Matches(p: Record, clubId: JsValue, firstName: JsValue) {
    Get(p, "clubId") == clubId || Get(p, "firstName") == firstName
  }

  /** `players.find(...)`: the first roster record, in roster order, that matches. */
  function FindPlayer(roster: seq<Record>, clubId: JsValue, firstName: JsValue): (r: Option<Record>)
    ensures r.None? <==> forall i :: 0 <= i < |roster| ==> !Matches(roster[i], clubId, firstName)
    ensures r.Some? ==> exists i :: 0 <= i < |roster| && roster[i] == r.value
                          && Matches(roster[i], clubId, firstName)
                          && forall j :: 0 <= j < i ==> !Matches(roster[j], clubId, firstName)
    decreases |roster|
  {
    if roster == [] then None
    else if Matches(roster[0], clubId, firstName) then Some(roster[0])
    else
      var r := FindPlayer(roster[1..], clubId, firstName);
      assert forall i :: 1 <= i < |roster| ==> roster[i] == roster[1..][i - 1];
      r
  }

  /** The record found is the one at the first matching index. */
  lemma {:induction false} FindPlayerIsFirst(roster: seq<Record>, clubId: JsValue, firstName: JsValue, i: nat)
    requires i < |roster| && Matches(roster[i], clubId, firstName)
    requires forall j :: 0 <= j < i ==> !Matches(roster[j], clubId, firstName)
    ensures FindPlayer(roster, clubId, firstName) == Some(roster[i])
    decreases i
  {
    if i > 0 {
      FindPlayerIsFirst(roster[1..], clubId, firstName, i - 1);
    }
  }

  /**
    The payload the player page encodes has keys `id`, `name`, `club` and
    `timestamp`, so both looked-up keys are absent: it matches the first
    roster record that lacks a club id or a first name, and no record when
    every record has both.
  */
  lemma AppGeneratedPayload(roster: seq<Record>, payload: map<string, JsValue>)
    requires "clubId" !in payload && "firstName" !in payload
    ensures Destructure(Some(Obj(payload))) == Keys(Undefined, Undefined)
    ensures (forall i :: 0 <= i < |roster| ==>
               (&& "clubId" in roster[i] && "firstName" in roster[i]
                && !roster[i]["clubId"].Undefined? && !roster[i]["firstName"].Undefined?))
            ==> FindPlayer(roster, Undefined, Undefined) == None
    ensures forall i :: (&& 0 <= i < |roster| && ("clubId" !in roster[i] || "firstName" !in roster[i])
                         && (forall j :: 0 <= j < i ==> !Matches(roster[j], Undefined, Undefined)))
                        ==> FindPlayer(roster, Undefined, Undefined) == Some(roster[i])
  {
    forall i | 0 <= i < |roster| && ("clubId" !in roster[i] || "firstName" !in roster[i])
               && (forall j :: 0 <= j < i ==> !Matches(roster[j], Undefined, Undefined))
      ensures FindPlayer(roster, Undefined, Undefined) == Some(roster[i])
    {
      FindPlayerIsFirst(roster, Undefined, Undefined, i);
    }
  }

  /** The worked lookups of the verification flow, on a one-player roster. */
  lemma LookupScenarios()
    ensures var p1 := map["id" := Str("p1"), "clubId" := Str("c1"), "firstName" := Str("Alex")];
      && FindPlayer([p1], Str("c1"), Str("X")) == Some(p1)
      && FindPlayer([p1], Str("zzz"), Str("Alex")) == Some(p1)
      && FindPlayer([p1], Str("zzz"), Str("Zed")) == None
  {
  }

  // ---- Cameras ----

  /** `cams.findIndex(cam => cam.id === cameraId)`: -1 when no camera has that id. */
  function FindCameraIndex(cams: seq<Camera>, cameraId: Option<string>): (r: int)
    ensures -1 <= r < |cams|
    ensures r == -1 <==> cameraId.None? || forall i :: 0 <= i < |cams| ==> cams[i].id != cameraId.value
    ensures r >= 0 ==> cameraId.Some? && cams[r].id == cameraId.value
                       && forall j :: 0 <= j < r ==> cams[j].id != cameraId.value
    decreases |cams|
  {
    if cameraId.None? || cams == [] then -1
    else if cams[0].id == cameraId.value then 0
    else
      var r := FindCameraIndex(cams[1..], cameraId);
      assert forall i :: 1 <= i < |cams| ==> cams[i] == cams[1..][i - 1];
      if r == -1 then -1 else r + 1
  }

  /** `(current + 1) % n`: the next camera in circular order; -1 rotates to the first. */
  function NextCameraIndex(current: int, n: int): (r: int)
    requires n >= 1 && -1 <= current < n
    ensures 0 <= r < n
    ensures current < n - 1 ==> r == current + 1
    ensures current == n - 1 ==> r == 0
  {
    (current + 1) % n
  }

  function RotateTimes(start: int, n: int, k: nat): (r: int)
    requires n >= 1 && 0 <= start < n
    ensures 0 <= r < n
    decreases k
  {
    if k == 0 then start else NextCameraIndex(RotateTimes(start, n, k - 1), n)
  }

  /**
    Switching `k` times from the first camera selects camera `k`, and `n`
    switches come back to the first: every camera comes round once per cycle.
  */
  lemma {:induction false} RotateTimesFromFirst(n: int, k: nat)
    requires n >= 1 && k <= n
    ensures RotateTimes(0, n, k) == if k == n then 0 else k
    decreases k
  {
    if k > 0 {
      RotateTimesFromFirst(n, k - 1);
    }
  }

  // ---- The page's state ----

  const NoCamerasMessage: string := "No cameras found"
  const StartFailedMessage: string := "Failed to start scanner. Please check camera permissions."
  const InvalidQrMessage: string := "Invalid QR Code format. Please scan a valid QR code."
  const NoMatchMessage: string := "No matching player found."
  const RosterFailedMessage: string := "Failed to load players data!"
  const ScanFirstMessage: string := "Please scan a valid player first."

  /** The notice of a match: `Player found: <firstName> (<clubId>)`. */
  function FoundMessage(p: Record): string {
    "Player found: " + ToJsString(Get(p, "firstName")) + " (" + ToJsString(Get(p, "clubId")) + ")"
  }

  /** The notice a lookup raises: the format error, the match found, or no match. */
  function SearchNotice(lookup: Lookup, found: Option<Record>): Toast {
    if lookup.Unreadable? then Toast(Error, InvalidQrMessage)
    else if found.Some? then Toast(Success, FoundMessage(found.value))
    else Toast(Error, NoMatchMessage)
  }

  /** The notices `startScanner` raises: none when it starts, one when it cannot. */
  function StartNotices(cameras: Option<seq<Camera>>): seq<Toast> {
    if cameras.None? then [Toast(Error, StartFailedMessage)]
    else if cameras.value == [] then [Toast(Error, NoCamerasMessage)]
    else []
  }

  /** The notice after a switch names the camera's label, or "camera" when it has none. */
  function SwitchedMessage(cam: Camera): string {
    "Switched to " + (if cam.name != "" then cam.name else "camera")
  }

  class ScanSession {
    var scanResult: Option<string>
    var players: seq<Record>
    var foundPlayer: Option<Record>
    var cameraId: Option<string>
    var isScanning: bool
    var availableCameras: seq<Camera>
    /** Whether `scannerRef.current` holds a scanner. */
    var hasScanner: bool
    var toasts: seq<Toast>

    constructor ()
      ensures scanResult == None && players == [] && foundPlayer == None && cameraId == None
      ensures !isScanning && availableCameras == [] && !hasScanner && toasts == []
    {
      scanResult := None;
      players := [];
      foundPlayer := None;
      cameraId := None;
      isScanning := false;
      availableCameras := [];
      hasScanner := false;
      toasts := [];
    }

    /** The mount effect's roster fetch; a failure leaves the roster empty as it was. */
    method LoadPlayers(response: Option<seq<Record>>)
      modifies this
      ensures players == if response.Some? then response.value else old(players)
      ensures toasts == old(toasts) + (if response.None? then [Toast(Error, RosterFailedMessage)] else [])
      ensures scanResult == old(scanResult) && foundPlayer == old(foundPlayer) && cameraId == old(cameraId)
      ensures isScanning == old(isScanning) && availableCameras == old(availableCameras)
      ensures hasScanner == old(hasScanner)
    {
      if response.Some? {
        players := response.value;
      } else {
        toasts := toasts + [Toast(Error, RosterFailedMessage)];
      }
    }

    /**
      `startScanner`: `cameras` is what `getCameras` delivered (`None` when
      it threw). With no camera nothing starts; otherwise the list is kept
      and scanning begins.
    */
    method StartScanner(cameras: Option<seq<Camera>>)
      modifies this
      ensures cameras.None? ==> !isScanning && toasts == old(toasts) + [Toast(Error, StartFailedMessage)]
                                && availableCameras == old(availableCameras) && hasScanner == old(hasScanner)
      ensures cameras == Some([]) ==> isScanning == old(isScanning) && toasts == old(toasts) + [Toast(Error, NoCamerasMessage)]
                                      && availableCameras == old(availableCameras) && hasScanner == old(hasScanner)
      ensures cameras.Some? && cameras.value != [] ==>
                isScanning && hasScanner && availableCameras == cameras.value && toasts == old(toasts)
      ensures toasts == old(toasts) + StartNotices(cameras)
      ensures scanResult == old(scanResult) && foundPlayer == old(foundPlayer)
      ensures cameraId == old(cameraId) && players == old(players)
    {
      if cameras.None? {
        toasts := toasts + [Toast(Error, StartFailedMessage)];
        isScanning := false;
        return;
      }
      if |cameras.value| == 0 {
        toasts := toasts + [Toast(Error, NoCamerasMessage)];
        return;
      }
      availableCameras := cameras.value;
      isScanning := true;
      hasScanner := true;
    }

    /** `stopScanner`: releases the scanner if there is one and stops scanning. */
    method StopScanner()
      modifies this
      ensures !isScanning && !hasScanner
      ensures scanResult == old(scanResult) && foundPlayer == old(foundPlayer) && cameraId == old(cameraId)
      ensures availableCameras == old(availableCameras) && players == old(players) && toasts == old(toasts)
    {
      if hasScanner {
        hasScanner := false;
      }
      isScanning := false;
    }

    /**
      `searchPlayer`: an unreadable payload only raises a notice; otherwise
      the found record, or none, replaces the match.
    */
    method SearchPlayer(scannedData: string, parse: string -> Option<JsValue>)
      modifies this
      ensures var lookup := Destructure(parse(scannedData));
        && foundPlayer == (if lookup.Unreadable? then old(foundPlayer)
                           else FindPlayer(players, lookup.clubId, lookup.firstName))
        && toasts == old(toasts) + [SearchNotice(lookup, foundPlayer)]
      ensures scanResult == old(scanResult) && cameraId == old(cameraId) && isScanning == old(isScanning)
      ensures availableCameras == old(availableCameras) && players == old(players) && hasScanner == old(hasScanner)
    {
      var lookup := Destructure(parse(scannedData));
      if lookup.Unreadable? {
        toasts := toasts + [Toast(Error, InvalidQrMessage)];
        return;
      }
      var player := FindPlayer(players, lookup.clubId, lookup.firstName);
      if player.Some? {
        foundPlayer := player;
        toasts := toasts + [Toast(Success, FoundMessage(player.value))];
      } else {
        foundPlayer := None;
        toasts := toasts + [Toast(Error, NoMatchMessage)];
      }
    }

    /**
      `handleScanSuccess`: text equal to the stored result is ignored; other
      text is stored first and then looked up, so a repeated unreadable
      payload is suppressed too.
    */
    method HandleScanSuccess(decodedText: string, parse: string -> Option<JsValue>)
      modifies this
      ensures old(scanResult) == Some(decodedText) ==>
                scanResult == old(scanResult) && foundPlayer == old(foundPlayer) && toasts == old(toasts)
      ensures old(scanResult) != Some(decodedText) ==>
                var lookup := Destructure(parse(decodedText));
                && scanResult == Some(decodedText)
                && foundPlayer == (if lookup.Unreadable? then old(foundPlayer)
                                   else FindPlayer(players, lookup.clubId, lookup.firstName))
                && toasts == old(toasts) + [SearchNotice(lookup, foundPlayer)]
      ensures cameraId == old(cameraId) && isScanning == old(isScanning) && hasScanner == old(hasScanner)
      ensures availableCameras == old(availableCameras) && players == old(players)
    {
      if Some(decodedText) != scanResult {
        scanResult := Some(decodedText);
        SearchPlayer(decodedText, parse);
      }
    }

    /**
      `switchCamera`: nothing happens without a scanner, while not scanning,
      or with fewer than two cameras. Otherwise the scanner stops, the next
      camera in circular order is selected, the scanner starts again with
      `cameras` and the switch is announced.
    */
    method SwitchCamera(cameras: Option<seq<Camera>>)
      modifies this
      ensures !old(hasScanner) || !old(isScanning) || |old(availableCameras)| < 2 ==>
                cameraId == old(cameraId) && isScanning == old(isScanning) && hasScanner == old(hasScanner)
                && availableCameras == old(availableCameras) && toasts == old(toasts)
      ensures old(hasScanner) && old(isScanning) && |old(availableCameras)| >= 2 ==>
                var next := NextCameraIndex(FindCameraIndex(old(availableCameras), old(cameraId)), |old(availableCameras)|);
                && cameraId == Some(old(availableCameras)[next].id)
                && (cameras.Some? && cameras.value != [] ==> isScanning && hasScanner && availableCameras == cameras.value)
                && (cameras.None? || cameras.value == [] ==>
                      !isScanning && !hasScanner && availableCameras == old(availableCameras))
                && toasts == old(toasts) + StartNotices(cameras) + [Toast(Info, SwitchedMessage(old(availableCameras)[next]))]
      ensures scanResult == old(scanResult) && foundPlayer == old(foundPlayer) && players == old(players)
    {
      if !hasScanner || !isScanning || |availableCameras| < 2 {
        return;
      }
      var cams := availableCameras;
      var current := FindCameraIndex(cams, cameraId);
      var next := NextCameraIndex(current, |cams|);
      StopScanner();
      cameraId := Some(cams[next].id);
      StartScanner(cameras);
      toasts := toasts + [Toast(Info, SwitchedMessage(cams[next]))];
    }

    /** `handleProceed`: succeeds exactly when a player is matched; otherwise only warns. */
    method HandleProceed() returns (proceeded: bool)
      modifies this
      ensures proceeded <==> foundPlayer.Some?
      ensures toasts == old(toasts) + [if proceeded
                                       then Toast(Success, "Proceeding with " + ToJsString(Get(foundPlayer.value, "firstName")) + "!")
                                       else Toast(Warning, ScanFirstMessage)]
      ensures scanResult == old(scanResult) && foundPlayer == old(foundPlayer) && cameraId == old(cameraId)
      ensures isScanning == old(isScanning) && availableCameras == old(availableCameras)
      ensures players == old(players) && hasScanner == old(hasScanner)
    {
      if foundPlayer.Some? {
        toasts := toasts + [Toast(Success, "Proceeding with " + ToJsString(Get(foundPlayer.value, "firstName")) + "!")];
        proceeded := true;
      } else {
        toasts := toasts + [Toast(Warning, ScanFirstMessage)];
        proceeded := false;
      }
    }
  }

  /** Stopping twice is stopping once. */
  method StopScannerTwice(s: ScanSession)
    modifies s
    ensures !s.isScanning && !s.hasScanner
    ensures s.foundPlayer == old(s.foundPlayer) && s.toasts == old(s.toasts)
  {
    s.StopScanner();
    s.StopScanner();
  }

  /** The same decoded text delivered twice in a row triggers one lookup and one notice. */
  method SameTextTwice(s: ScanSession, text: string, parse: string -> Option<JsValue>)
    requires s.scanResult != Some(text)
    modifies s
    ensures |s.toasts| == |old(s.toasts)| + 1
    ensures s.scanResult == Some(text)
  {
    s.HandleScanSuccess(text, parse);
    s.HandleScanSuccess(text, parse);
  }
}
