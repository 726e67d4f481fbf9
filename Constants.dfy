/** The static mock data every dashboard reads, and the facts about it that
    the dashboards depend on: percentages are percentages, ids are unique,
    and the fixed slices the dashboards take stay within the tables. */
module Constants {
  import opened Types

  const Shipments: seq<Shipment> := [
    Shipment("OR-LX-7721", "San Francisco, CA", "Los Angeles, CA", InTransit, "14:20 PM", "450.50 KG", Some("OmniExpress"), 65),
    Shipment("OR-LX-4412", "Seattle, WA", "Portland, OR", Processing, "16:45 PM", "790.00 KG", Some("OmniExpress"), 20),
    Shipment("OR-LX-1009", "Austin, TX", "Dallas, TX", Delivered, "Completed", "120.00 KG", Some("OmniExpress"), 100),
    Shipment("OR-9912", "HKG - Hong Kong Intl", "LHR - London Heathrow", InTransit, "14:20", "450.50 KG", Some("Cathay Cargo"), 65),
    Shipment("OR-8841", "Seattle, WA", "Portland, OR", PickedUp, "16:45", "790.00 KG", None, 15),
    Shipment("OR-7729", "Austin, TX", "Dallas, TX", Delayed, "19:10", "120.00 KG", None, 45),
    Shipment("OR-6610", "Chicago, IL", "New York, NY", Pending, "TOMORROW", "300.00 KG", None, 0)
  ]

  const Vehicles: seq<Vehicle> := [
    Vehicle("VH-90210", Good, 100, Some("12 Days")),
    Vehicle("VH-45812", DueSoon, 75, Some("2 Days")),
    Vehicle("VH-11209", Overdue, 25, Some("Expired")),
    Vehicle("OR-7721", Active, 100, None),
    Vehicle("OR-3309", Warning, 75, None),
    Vehicle("OR-0092", Service, 25, None)
  ]

  const WarehouseZones: seq<WarehouseZone> := [
    WarehouseZone("ZONE-A-1", "Zone A-1", "Perishables & Bio", 1204, 82, Some("SKU")),
    WarehouseZone("ZONE-B-4", "Zone B-4", "Retail & Hardware", 3450, 94, Some("SKU")),
    WarehouseZone("COLD-STOR", "Cold Storage A", "Perishables & Bio", 210, 45, Some("UNIT")),
    WarehouseZone("HAZMAT", "Hazmat", "Chemicals", 88, 71, Some("UNIT"))
  ]

  const Alerts: seq<Alert> := [
    Alert("1", Critical, "Critical Delay", "TRK-882 Engine Malfunction - Route 4", "08:42"),
    Alert("2", SeverityWarning, "Weather Warning", "Heavy rain expected near Hub-North", "08:35"),
    Alert("3", Info, "Load Complete", "WH-Zone A finalized for TRK-910", "08:20")
  ]

  predicate IsPercentage(n: int) {
    0 <= n <= 100
  }

  /** Shipment progress is a percentage; a delivered shipment is complete and
      a pending one has not started. */
  lemma ShipmentProgress()
    ensures forall i :: 0 <= i < |Shipments| ==> IsPercentage(Shipments[i].progress)
    ensures forall i :: 0 <= i < |Shipments| && Shipments[i].status == Delivered ==> Shipments[i].progress == 100
    ensures forall i :: 0 <= i < |Shipments| && Shipments[i].status == Pending ==> Shipments[i].progress == 0
  {
  }

  lemma VehicleHealth()
    ensures forall i :: 0 <= i < |Vehicles| ==> IsPercentage(Vehicles[i].health)
  {
  }

  lemma ZoneUtilization()
    ensures forall i :: 0 <= i < |WarehouseZones| ==> IsPercentage(WarehouseZones[i].utilization)
  {
  }

  /** The ids of each table are pairwise distinct (they serve as list keys). */
  lemma UniqueIds()
    ensures forall i, j :: 0 <= i < j < |Shipments| ==> Shipments[i].id != Shipments[j].id
    ensures forall i, j :: 0 <= i < j < |Vehicles| ==> Vehicles[i].id != Vehicles[j].id
    ensures forall i, j :: 0 <= i < j < |WarehouseZones| ==> WarehouseZones[i].id != WarehouseZones[j].id
    ensures forall i, j :: 0 <= i < j < |Alerts| ==> Alerts[i].id != Alerts[j].id
  {
  }

  /** The customer dashboard lists the first three shipments. */
  function RecentShipments(): (ss: seq<Shipment>)
    ensures |ss| == 3
    ensures forall k :: 0 <= k < 3 ==> ss[k] == Shipments[k]
  {
    Shipments[..3]
  }

  /** The partner dashboard's fleet table shows vehicles 3 to 5: an active, a
      warning and a service vehicle, in that order. */
  function PartnerFleet(): (vs: seq<Vehicle>)
    ensures |vs| == 3 && forall k :: 0 <= k < 3 ==> vs[k] == Vehicles[3 + k]
    ensures vs[0].status == Active && vs[1].status == Warning && vs[2].status == Service
  {
    Vehicles[3..6]
  }

  /** The utilization above which the dispatcher dashboard draws a zone's bar in red. */
  const OverloadThreshold: int := 85

  predicate Overloaded(z: WarehouseZone) {
    z.utilization > OverloadThreshold
  }

  /** The dispatcher dashboard shows the first two zones; of them only
      ZONE-B-4 is drawn as overloaded. */
  function DispatcherZones(): (zs: seq<WarehouseZone>)
    ensures |zs| == 2 && zs[0] == WarehouseZones[0] && zs[1] == WarehouseZones[1]
    ensures forall k :: 0 <= k < 2 ==> (Overloaded(zs[k]) <==> zs[k].id == "ZONE-B-4")
    ensures !Overloaded(zs[0]) && zs[1].id == "ZONE-B-4" && Overloaded(zs[1])
  {
    WarehouseZones[..2]
  }
}
