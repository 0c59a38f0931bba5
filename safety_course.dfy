/** The interactive safety course of client/pages/SafetyCourse.tsx: three
    zones to click; each first click marks a zone as completed, and the way to
    the quiz opens once all of them are. */
module SafetyCourse {
  import opened Common

  datatype SafetyZone = SafetyZone(id: string, title: string, description: string)

  /** The `safetyZones` catalogue (icons and positions are presentation). */
  const SafetyZones: seq<SafetyZone> := [
    SafetyZone("ppe", "Port des EPI", "Équipements de protection individuelle obligatoires"),
    SafetyZone("restricted", "Zones interdites", "Zones d'accès restreint et de danger"),
    SafetyZone("signage", "Signalisation", "Panneaux et signalétique de sécurité")
  ]

  function ZoneIds(): (ids: set<string>)
    ensures ids == {"ppe", "restricted", "signage"} && |ids| == |SafetyZones| == 3
  {
    var ids := set z | z in SafetyZones :: z.id;
    assert SafetyZones[0] in SafetyZones && SafetyZones[1] in SafetyZones && SafetyZones[2] in SafetyZones;
    assert ids == {"ppe", "restricted", "signage"};
    ids
  }

  /** A list of clicked zone ids holds the whole catalogue exactly when it has
      as many entries as the catalogue, given that it is duplicate-free and
      only holds catalogue ids, as the page keeps it. */
  lemma CompleteIffAllZonesVisited(completed: seq<string>)
    ensures NoDup(completed) && (forall i :: 0 <= i < |completed| ==> completed[i] in ZoneIds()) ==>
      (|completed| == |SafetyZones| <==> forall id :: id in ZoneIds() ==> id in completed)
  {
    if !NoDup(completed) || exists i :: 0 <= i < |completed| && completed[i] !in ZoneIds() {
      return;
    }
    if |completed| == |SafetyZones| {
      NoDupFillsUniverse(completed, ZoneIds());
    }
    if forall id :: id in ZoneIds() ==> id in completed {
      NoDupCardinality(completed);
      assert (set x | x in completed) == ZoneIds();
    }
  }

  class SafetyCoursePage {
    var selectedZone: Option<string>
    var completedZones: seq<string>

    /** Duplicate-free list of catalogue ids, in order of first click. */
    ghost predicate Valid()
      reads this
    {
      NoDup(completedZones) && forall i :: 0 <= i < |completedZones| ==> completedZones[i] in ZoneIds()
    }

    constructor ()
      ensures Valid() && selectedZone.None? && completedZones == []
    {
      selectedZone := None;
      completedZones := [];
    }

    /** `handleZoneClick`: selects the zone, and completes it on its first
        click. */
    method HandleZoneClick(zoneId: string)
      modifies this
      ensures selectedZone == Some(zoneId)
      ensures completedZones == if zoneId in old(completedZones) then old(completedZones) else old(completedZones) + [zoneId]
      ensures zoneId in completedZones && old(completedZones) <= completedZones
      ensures NoDup(old(completedZones)) ==> NoDup(completedZones)
      ensures old(Valid()) && zoneId in ZoneIds() ==> Valid()
    {
      selectedZone := Some(zoneId);
      if zoneId !in completedZones {
        completedZones := completedZones + [zoneId];
      }
    }

    /** `canProceed`, which also decides whether "continue" is rendered. */
    predicate CanProceed()
      reads this
      ensures Valid() ==> (CanProceed() <==> forall id :: id in ZoneIds() ==> id in completedZones)
    {
      CompleteIffAllZonesVisited(completedZones);
      |completedZones| == |SafetyZones|
    }
  }

  /** Clicking the zones in the given order, from a fresh page: the page may
      proceed exactly when every zone was clicked at least once. */
  method ClickZones(page: SafetyCoursePage, clicks: seq<string>)
    requires page.Valid() && page.completedZones == []
    requires forall i :: 0 <= i < |clicks| ==> clicks[i] in ZoneIds()
    modifies page
    ensures page.Valid()
    ensures forall id :: id in page.completedZones <==> id in clicks
    ensures page.CanProceed() <==> forall id :: id in ZoneIds() ==> id in clicks
  {
    var i := 0;
    while i < |clicks|
      invariant 0 <= i <= |clicks|
      invariant page.Valid()
      invariant forall id :: id in page.completedZones <==> id in clicks[..i]
    {
      page.HandleZoneClick(clicks[i]);
      assert clicks[..i + 1] == clicks[..i] + [clicks[i]];
      i := i + 1;
    }
    assert clicks[..i] == clicks;
    assert page.CanProceed() <==> forall id :: id in ZoneIds() ==> id in page.completedZones;
  }

  lemma CompleteIffAllClicked(completed: seq<string>, clicks: seq<string>)
    requires NoDup(completed)
    requires forall i :: 0 <= i < |completed| ==> completed[i] in ZoneIds()
    requires forall id :: id in completed <==> id in clicks
    ensures |completed| == |SafetyZones| <==> forall id :: id in ZoneIds() ==> id in clicks
  {
    CompleteIffAllZonesVisited(completed);
  }
}
