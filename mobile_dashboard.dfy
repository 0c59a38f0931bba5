/** The supervisor's mobile dashboard of client/pages/MobileDashboard.tsx:
    the live counters, the list of recent access events fed by an
    eight-second timer and by the badge scanner, and the monitor tab. The
    random fields of a timer event and the clock are parameters. */
module MobileDashboard {
  import opened Common
  import QrScanner

  datatype AccessStatus = Authorized | Denied | Expired

  function StatusName(status: AccessStatus): string {
    match status
    case Authorized => "authorized"
    case Denied => "denied"
    case Expired => "expired"
  }

  datatype AccessEvent = AccessEvent(
    id: string,
    timestamp: string,
    user: string,
    profile: string,
    status: AccessStatus,
    location: string,
    supervisor: string)

  datatype LiveStats = LiveStats(onSite: int, authorized: int, denied: int, alerts: int)

  const InitialStats := LiveStats(23, 156, 7, 3)

  /** `prev.slice(0, 9)`: the new event and nine older ones. */
  const RecentAccessKeep: nat := 9

  /** The monitor tab lists this many events. */
  const MonitorSize: nat := 8

  datatype Tab = ScannerTab | MonitorTab | TeamTab | AlertsTab

  const Users := ["Jean Dupont", "Marie Martin", "Pierre Durand", "Sophie Bernard"]
  const Profiles := ["Chauffeur", "Nettoyage", "Technique", "Administratif"]
  const Locations := ["Entrée Principale", "Zone Production", "Bureaux", "Entrepôt"]

  /** The event of one timer tick: the drawn user, profile and location,
      the drawn status, and an id from the clock. */
  function TimerEvent(now: nat, timestamp: string, user: nat, profile: nat, location: nat, status: AccessStatus): (e: AccessEvent)
    requires user < |Users| && profile < |Profiles| && location < |Locations|
    ensures e.status == status && e.supervisor == "Supervisor Mobile"
    ensures e.user in Users && e.profile in Profiles && e.location in Locations
  {
    AccessEvent("evt_" + NatToString(now), timestamp, Users[user], Profiles[profile], status, Locations[location],
                "Supervisor Mobile")
  }

  /** The counters after a timer event: an authorized entry raises the
      authorized count and the people on site; anything else (expired
      included) raises the denied count; the alerts never move. */
  function StatsAfter(stats: LiveStats, status: AccessStatus): (r: LiveStats)
    ensures r.authorized + r.denied == stats.authorized + stats.denied + 1
    ensures r.authorized == stats.authorized + 1 <==> status == Authorized
    ensures r.denied == stats.denied + 1 <==> status != Authorized
    ensures r.onSite == stats.onSite + 1 <==> status == Authorized
    ensures r.onSite == stats.onSite <==> status != Authorized
    ensures r.alerts == stats.alerts
  {
    stats.(authorized := if status == Authorized then stats.authorized + 1 else stats.authorized,
           denied := if status != Authorized then stats.denied + 1 else stats.denied,
           onSite := if status == Authorized then stats.onSite + 1 else stats.onSite)
  }

  /** The event `handleScanResult` builds from a scanned badge: a valid
      badge is authorized, any other one denied. */
  function ScanEvent(result: QrScanner.QRScanResult, now: nat, timestamp: string): (e: AccessEvent)
    ensures e.status == Authorized <==> result.valid
    ensures e.status == Denied <==> !result.valid
    ensures e.user == result.name && e.profile == result.profile
    ensures e.location == "Scanner Mobile" && e.supervisor == "Mobile App"
  {
    AccessEvent("scan_" + NatToString(now), timestamp, result.name, result.profile,
                if result.valid then Authorized else Denied, "Scanner Mobile", "Mobile App")
  }

  /** `getStatusColor`. */
  function StatusColor(status: string): (c: string)
    ensures status !in {"authorized", "denied", "expired"} ==> c == "text-slate-400 bg-slate-500/10"
  {
    match status
    case "authorized" => "text-emerald-400 bg-emerald-500/10"
    case "denied" => "text-red-400 bg-red-500/10"
    case "expired" => "text-orange-400 bg-orange-500/10"
    case _ => "text-slate-400 bg-slate-500/10"
  }

  /** Each status has a colour of its own, none of them the fallback
      colour. */
  lemma StatusColorsDistinct(a: AccessStatus, b: AccessStatus)
    ensures StatusColor(StatusName(a)) == StatusColor(StatusName(b)) <==> a == b
    ensures StatusColor(StatusName(a)) != StatusColor("unknown")
  {
  }

  class MobileDashboardPage {
    var activeTab: Tab
    var liveStats: LiveStats
    var recentAccess: seq<AccessEvent>
    var isOnline: bool
    /** How many times the notification sound was played. */
    var notificationSounds: nat

    /** At most ten recent events; the alerts keep their initial value; the
        people on site move with the authorized count and neither count
        falls below its start. */
    ghost predicate Valid()
      reads this
    {
      && |recentAccess| <= RecentAccessKeep + 1
      && liveStats.alerts == InitialStats.alerts
      && liveStats.authorized - liveStats.onSite == InitialStats.authorized - InitialStats.onSite
      && liveStats.onSite >= InitialStats.onSite
      && liveStats.denied >= InitialStats.denied
    }

    constructor ()
      ensures Valid()
      ensures activeTab == ScannerTab && liveStats == InitialStats && recentAccess == [] && isOnline
      ensures notificationSounds == 0
    {
      activeTab := ScannerTab;
      liveStats := InitialStats;
      recentAccess := [];
      isOnline := true;
      notificationSounds := 0;
    }

    /** One tick of the eight-second interval: the event goes in front, the
        counters move, and an event that is not authorized sounds an alert. */
    method OnTimer(event: AccessEvent)
      modifies this
      ensures recentAccess == PrependBounded(event, old(recentAccess), RecentAccessKeep)
      ensures liveStats == StatsAfter(old(liveStats), event.status)
      ensures notificationSounds == old(notificationSounds) + if event.status == Authorized then 0 else 1
      ensures activeTab == old(activeTab) && isOnline == old(isOnline)
      ensures old(Valid()) ==> Valid()
    {
      recentAccess := PrependBounded(event, recentAccess, RecentAccessKeep);
      liveStats := StatsAfter(liveStats, event.status);
      if event.status != Authorized {
        notificationSounds := notificationSounds + 1;
      }
    }

    /** `handleScanResult`: the scan is listed, the counters stay. */
    method HandleScanResult(result: QrScanner.QRScanResult, now: nat, timestamp: string)
      modifies this
      ensures recentAccess == PrependBounded(ScanEvent(result, now, timestamp), old(recentAccess), RecentAccessKeep)
      ensures liveStats == old(liveStats) && notificationSounds == old(notificationSounds)
      ensures activeTab == old(activeTab) && isOnline == old(isOnline)
      ensures old(Valid()) ==> Valid()
    {
      recentAccess := PrependBounded(ScanEvent(result, now, timestamp), recentAccess, RecentAccessKeep);
    }

    /** `handleTabChange`. */
    method HandleTabChange(tab: Tab)
      modifies this
      ensures activeTab == tab
      ensures liveStats == old(liveStats) && recentAccess == old(recentAccess)
      ensures notificationSounds == old(notificationSounds) && isOnline == old(isOnline)
    {
      activeTab := tab;
    }

    /** The monitor tab: the eight newest events, newest first. */
    function MonitorEvents(): (r: seq<AccessEvent>)
      reads this
      ensures |r| == Min(MonitorSize, |recentAccess|)
      ensures forall i :: 0 <= i < |r| ==> r[i] == recentAccess[i]
    {
      Take(recentAccess, MonitorSize)
    }
  }

  predicate IsAuthorized(e: AccessEvent) {
    e.status == Authorized
  }

  /** A run of timer ticks: the list holds the newest ten events, newest
      first; every event counts once as authorized or denied; the people on
      site grow by the authorized events only; the alerts stay. */
  method RunTimer(page: MobileDashboardPage, events: seq<AccessEvent>)
    requires page.Valid()
    modifies page
    ensures page.Valid()
    ensures page.recentAccess == PrependAll(old(page.recentAccess), events, RecentAccessKeep)
    ensures page.liveStats.authorized == old(page.liveStats.authorized) + CountWhere(events, IsAuthorized)
    ensures page.liveStats.denied == old(page.liveStats.denied) + (|events| - CountWhere(events, IsAuthorized))
    ensures page.liveStats.onSite == old(page.liveStats.onSite) + CountWhere(events, IsAuthorized)
    ensures page.liveStats.alerts == old(page.liveStats.alerts)
    ensures page.notificationSounds == old(page.notificationSounds) + (|events| - CountWhere(events, IsAuthorized))
  {
    ghost var recent0, stats0, sounds0 := page.recentAccess, page.liveStats, page.notificationSounds;
    var i := 0;
    while i < |events|
      invariant 0 <= i <= |events|
      invariant page.Valid()
      invariant page.recentAccess == PrependAll(recent0, events[..i], RecentAccessKeep)
      invariant page.liveStats.authorized == stats0.authorized + CountWhere(events[..i], IsAuthorized)
      invariant page.liveStats.denied == stats0.denied + (i - CountWhere(events[..i], IsAuthorized))
      invariant page.liveStats.onSite == stats0.onSite + CountWhere(events[..i], IsAuthorized)
      invariant page.liveStats.alerts == stats0.alerts
      invariant page.notificationSounds == sounds0 + (i - CountWhere(events[..i], IsAuthorized))
    {
      page.OnTimer(events[i]);
      assert events[..i + 1] == events[..i] + [events[i]];
      PrependAllSnoc(recent0, events[..i], events[i], RecentAccessKeep);
      CountWhereSnoc(events[..i], events[i], IsAuthorized);
      i := i + 1;
    }
    assert events[..i] == events;
  }

  /** A badge scanned while the page shows the scanner: the event the page
      lists is authorized exactly when the badge is valid, i.e. for the two
      unexpired demo badges. */
  method ScanFromScanner(page: MobileDashboardPage, scanner: QrScanner.QRScannerState, pick: nat, now: nat, timestamp: string)
    requires pick < |QrScanner.MockResults|
    requires page.Valid() && scanner.Valid()
    modifies page, scanner
    ensures page.Valid() && scanner.Valid()
    ensures |page.recentAccess| > 0
    ensures page.recentAccess[0].status == Authorized <==> pick < 2
    ensures page.liveStats == old(page.liveStats)
  {
    var result := scanner.SimulateScan(pick, timestamp);
    page.HandleScanResult(result, now, timestamp);
  }
}
