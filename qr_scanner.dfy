/** The badge scanner of client/components/QRScanner.tsx: the camera on/off
    state, the demo scans that run every three seconds while the camera is
    on, the last result, the five most recent scans and the sound played
    for each scan. The camera's answer, the random badge pick and the clock
    are parameters. */
module QrScanner {
  import opened Common

  datatype QRScanResult = QRScanResult(
    id: string,
    name: string,
    profile: string,
    score: int,
    issued: string,
    expires: string,
    valid: bool,
    company: Option<string>,
    lastScan: Option<string>)

  /** The demo badges of `validateQRCode`; the third one has expired. */
  const MockResults: seq<QRScanResult> := [
    QRScanResult("GFL-2024-A7B9C", "Jean Dupont", "Chauffeur-livreur", 92, "15/01/2024", "15/01/2025", true,
                 Some("Transport Express"), None),
    QRScanResult("GFL-2024-X3M8K", "Marie Martin", "Agent de nettoyage", 87, "20/12/2023", "20/12/2024", true,
                 Some("CleanPro Services"), None),
    QRScanResult("GFL-2023-E1R5T", "Pierre Durand", "Sous-traitant technique", 78, "05/03/2023", "05/03/2024", false,
                 Some("TechMaintenance"), None)
  ]

  /** `validateQRCode`: the badge at the randomly drawn index, stamped with
      the scan time. The scanned text plays no part. */
  function ValidateQRCode(pick: nat, now: string): (r: QRScanResult)
    requires pick < |MockResults|
    ensures r == MockResults[pick].(lastScan := Some(now))
    ensures r.valid <==> pick < 2
  {
    MockResults[pick].(lastScan := Some(now))
  }

  const CameraError := "Impossible d'accéder à la caméra. Vérifiez les permissions."

  /** `recentScans` keeps the new scan and four older ones. */
  const RecentScansKeep: nat := 4

  datatype Sound = Click | Success | Error

  /** How `getUserMedia` and `play()` answer `startCamera`: access refused,
      a stream but no mounted video element, a stream whose `play()`
      rejects, or a playing stream. */
  datatype CameraAnswer = Denied | NoVideoElement | PlayFailed | Playing

  class QRScannerState {
    var isScanning: bool
    var scanResult: Option<QRScanResult>
    var error: string
    var recentScans: seq<QRScanResult>
    /** `streamRef.current` is set. */
    var streamOpen: bool
    /** Every result handed to `onScanResult`, oldest first. */
    var delivered: seq<QRScanResult>
    /** Every sound played, oldest first. */
    var sounds: seq<Sound>

    /** At most five recent scans; the displayed result is the newest scan;
        an error message only shows while the camera is off. */
    ghost predicate Valid()
      reads this
    {
      && |recentScans| <= RecentScansKeep + 1
      && (scanResult.Some? ==> |recentScans| > 0 && recentScans[0] == scanResult.value)
      && (error != "" ==> !isScanning)
    }

    constructor ()
      ensures Valid()
      ensures !isScanning && scanResult.None? && error == "" && recentScans == []
      ensures !streamOpen && delivered == [] && sounds == []
    {
      isScanning := false;
      scanResult := None;
      error := "";
      recentScans := [];
      streamOpen := false;
      delivered := [];
      sounds := [];
    }

    /** `startCamera`: scanning starts at once with a click. Then, by the
        camera's answer: `Denied` stops scanning with the error message and
        the error sound; `NoVideoElement` leaves the stream unreferenced and
        scanning on; `PlayFailed` has already stored the stream when `play()`
        rejects, so the catch stops scanning and shows the error while the
        stream stays open; `Playing` keeps the stream and scans. */
    method StartCamera(answer: CameraAnswer)
      modifies this
      ensures isScanning <==> answer == Playing || answer == NoVideoElement
      ensures error == (if answer == Denied || answer == PlayFailed then CameraError else "")
      ensures streamOpen == (if answer == Playing || answer == PlayFailed then true else old(streamOpen))
      ensures sounds == old(sounds) + (if isScanning then [Click] else [Click, Error])
      ensures scanResult == old(scanResult) && recentScans == old(recentScans) && delivered == old(delivered)
      ensures old(Valid()) ==> Valid()
    {
      error := "";
      isScanning := true;
      sounds := sounds + [Click];
      if answer != Denied && answer != NoVideoElement {
        streamOpen := true;
      }
      if answer == Denied || answer == PlayFailed {
        error := CameraError;
        isScanning := false;
        sounds := sounds + [Error];
      }
    }

    /** `stopCamera`: the stream is released and scanning stops. */
    method StopCamera()
      modifies this
      ensures !isScanning && !streamOpen && sounds == old(sounds) + [Click]
      ensures error == old(error) && scanResult == old(scanResult)
      ensures recentScans == old(recentScans) && delivered == old(delivered)
      ensures old(Valid()) ==> Valid()
    {
      streamOpen := false;
      isScanning := false;
      sounds := sounds + [Click];
    }

    /** `simulateScan`: the drawn badge becomes the displayed result, goes in
        front of the recent scans, is handed to `onScanResult` as it is, and
        plays the success sound if valid, the error sound if not. */
    method SimulateScan(pick: nat, now: string) returns (result: QRScanResult)
      requires pick < |MockResults|
      modifies this
      ensures result == ValidateQRCode(pick, now)
      ensures scanResult == Some(result)
      ensures recentScans == PrependBounded(result, old(recentScans), RecentScansKeep)
      ensures delivered == old(delivered) + [result]
      ensures sounds == old(sounds) + [if result.valid then Success else Error]
      ensures isScanning == old(isScanning) && error == old(error) && streamOpen == old(streamOpen)
      ensures old(Valid()) ==> Valid()
    {
      result := ValidateQRCode(pick, now);
      scanResult := Some(result);
      recentScans := PrependBounded(result, recentScans, RecentScansKeep);
      sounds := sounds + [if result.valid then Success else Error];
      delivered := delivered + [result];
    }

    /** A tick of the three-second interval. The interval exists only while
        scanning, so without it nothing happens. */
    method AutoScanTick(pick: nat, now: string)
      requires pick < |MockResults|
      modifies this
      ensures !old(isScanning) ==> scanResult == old(scanResult) && recentScans == old(recentScans)
                                   && delivered == old(delivered) && sounds == old(sounds)
      ensures old(isScanning) ==> scanResult == Some(ValidateQRCode(pick, now))
                                  && delivered == old(delivered) + [ValidateQRCode(pick, now)]
      ensures isScanning == old(isScanning) && error == old(error)
      ensures old(Valid()) ==> Valid()
    {
      if isScanning {
        var _ := SimulateScan(pick, now);
      }
    }

    /** `handleManualScan`: a click, then a scan. */
    method HandleManualScan(pick: nat, now: string) returns (result: QRScanResult)
      requires pick < |MockResults|
      modifies this
      ensures result == ValidateQRCode(pick, now) && scanResult == Some(result)
      ensures recentScans == PrependBounded(result, old(recentScans), RecentScansKeep)
      ensures delivered == old(delivered) + [result]
      ensures sounds == old(sounds) + [Click, if result.valid then Success else Error]
      ensures old(Valid()) ==> Valid()
    {
      sounds := sounds + [Click];
      result := SimulateScan(pick, now);
    }

    /** The five-second timeout after a scan clears the displayed result. */
    method ClearResult()
      modifies this
      ensures scanResult.None?
      ensures recentScans == old(recentScans) && isScanning == old(isScanning) && error == old(error)
      ensures delivered == old(delivered) && sounds == old(sounds)
      ensures old(Valid()) ==> Valid()
    {
      scanResult := None;
    }
  }

  /** A run of scans: the recent list holds the newest five, newest first,
      each handed over in order, and exactly the expired badges played the
      error sound. */
  method ScanMany(scanner: QRScannerState, picks: seq<nat>, now: string) returns (results: seq<QRScanResult>)
    requires scanner.Valid()
    requires forall i :: 0 <= i < |picks| ==> picks[i] < |MockResults|
    modifies scanner
    ensures scanner.Valid()
    ensures |results| == |picks|
    ensures forall i :: 0 <= i < |picks| ==> results[i] == ValidateQRCode(picks[i], now)
    ensures scanner.recentScans == PrependAll(old(scanner.recentScans), results, RecentScansKeep)
    ensures scanner.delivered == old(scanner.delivered) + results
    ensures CountWhere(scanner.sounds, IsErrorSound) == old(CountWhere(scanner.sounds, IsErrorSound)) + CountWhere(results, Expired)
  {
    ghost var recent0, delivered0, errors0 := scanner.recentScans, scanner.delivered, CountWhere(scanner.sounds, IsErrorSound);
    results := [];
    var i := 0;
    while i < |picks|
      invariant 0 <= i <= |picks| && |results| == i
      invariant scanner.Valid()
      invariant forall k :: 0 <= k < i ==> results[k] == ValidateQRCode(picks[k], now)
      invariant scanner.recentScans == PrependAll(recent0, results, RecentScansKeep)
      invariant scanner.delivered == delivered0 + results
      invariant CountWhere(scanner.sounds, IsErrorSound) == errors0 + CountWhere(results, Expired)
    {
      ghost var soundsBefore := scanner.sounds;
      var r := scanner.SimulateScan(picks[i], now);
      PrependAllSnoc(recent0, results, r, RecentScansKeep);
      CountWhereSnoc(results, r, Expired);
      CountWhereSnoc(soundsBefore, if r.valid then Success else Error, IsErrorSound);
      results := results + [r];
      i := i + 1;
    }
  }

  /** When `play()` rejects after the stream was stored, the scanner shows
      the camera error and stops scanning, yet the stream stays open until
      `stopCamera` releases it. */
  method PlayFailureKeepsStream() returns (streamOpen: bool, scanning: bool, message: string, released: bool)
    ensures streamOpen && !scanning && message == CameraError
    ensures released
  {
    var scanner := new QRScannerState();
    scanner.StartCamera(PlayFailed);
    streamOpen, scanning, message := scanner.streamOpen, scanner.isScanning, scanner.error;
    scanner.StopCamera();
    released := !scanner.streamOpen;
  }

  predicate IsErrorSound(s: Sound) {
    s == Error
  }

  predicate Expired(r: QRScanResult) {
    !r.valid
  }
}
