/** The fixed seed the parcel store is copied from: four parcels with their histories. */
module MockData {
  import opened Text
  import opened Types

  const Pkg1001: Parcel :=
    Parcel(
      "PKG-1001", "TechMart Inc.", "Alice Johnson", "San Francisco, CA", "Austin, TX",
      InTransit, "2024-05-20T10:30:00Z", "2024-05-22T18:00:00Z",
      [ TrackingEvent(Ordered, "San Francisco, CA", "2024-05-18T09:00:00Z", "Order processed and package prepared."),
        TrackingEvent(Shipped, "San Francisco Sorting Facility", "2024-05-19T14:20:00Z", "Package left the warehouse."),
        TrackingEvent(InTransit, "Phoenix, AZ Hub", "2024-05-20T10:30:00Z", "Package arrived at regional hub.") ],
      "2.5 kg", "Electronics")

  const Pkg1002: Parcel :=
    Parcel(
      "PKG-1002", "Green Garden Co.", "Bob Smith", "Portland, OR", "Seattle, WA",
      Delivered, "2024-05-19T15:45:00Z", "2024-05-19T16:00:00Z",
      [ TrackingEvent(Ordered, "Portland, OR", "2024-05-17T11:00:00Z", "Order received."),
        TrackingEvent(Shipped, "Portland Warehouse", "2024-05-18T08:00:00Z", "Package dispatched."),
        TrackingEvent(OutForDelivery, "Seattle, WA", "2024-05-19T09:00:00Z", "Package is with the local courier."),
        TrackingEvent(Delivered, "Seattle, WA", "2024-05-19T15:45:00Z", "Delivered to front porch.") ],
      "5.0 kg", "Garden Supplies")

  const Pkg1003: Parcel :=
    Parcel(
      "PKG-1003", "Fashion Hub", "Charlie Davis", "New York, NY", "Miami, FL",
      Delayed, "2024-05-20T12:00:00Z", "2024-05-21T17:00:00Z",
      [ TrackingEvent(Ordered, "New York, NY", "2024-05-18T14:00:00Z", "Order placed."),
        TrackingEvent(Shipped, "NY Logistics Center", "2024-05-19T10:00:00Z", "In transit to destination."),
        TrackingEvent(Delayed, "Atlanta, GA", "2024-05-20T12:00:00Z", "Weather delay at major hub.") ],
      "1.2 kg", "Apparel")

  const Pkg1004: Parcel :=
    Parcel(
      "PKG-1004", "Book Worms", "Diana Prince", "Chicago, IL", "Denver, CO",
      OutForDelivery, "2024-05-20T08:15:00Z", "2024-05-20T18:00:00Z",
      [ TrackingEvent(Ordered, "Chicago, IL", "2024-05-17T16:00:00Z", "Processing order."),
        TrackingEvent(Shipped, "Chicago Hub", "2024-05-18T09:00:00Z", "Departed sorting center."),
        TrackingEvent(InTransit, "Denver, CO Hub", "2024-05-19T20:00:00Z", "Arrived at destination city."),
        TrackingEvent(OutForDelivery, "Denver, CO", "2024-05-20T08:15:00Z", "Courier is on the way.") ],
      "0.8 kg", "Books")

  const Parcels: seq<Parcel> := [Pkg1001, Pkg1002, Pkg1003, Pkg1004]

  /** Four parcels, PKG-1001 to PKG-1004 in that order, with distinct ids even ignoring case. */
  lemma SeedIds()
    ensures |Parcels| == 4
    ensures Parcels[0].id == "PKG-1001" && Parcels[1].id == "PKG-1002"
    ensures Parcels[2].id == "PKG-1003" && Parcels[3].id == "PKG-1004"
    ensures DistinctIds(Parcels)
  {
    forall i, j | 0 <= i < j < |Parcels|
      ensures Upper(Parcels[i].id) != Upper(Parcels[j].id)
    {
      assert Upper(Parcels[i].id)[7] == Parcels[i].id[7];
      assert Upper(Parcels[j].id)[7] == Parcels[j].id[7];
    }
  }

  lemma FirstParcelValid()
    ensures ValidParcel(Pkg1001)
  {
    var h := Pkg1001.history;
    LexLeqAtFirstDifference(h[0].timestamp, h[1].timestamp, 9);
    LexLeqAtFirstDifference(h[1].timestamp, h[2].timestamp, 8);
  }

  lemma SecondParcelValid()
    ensures ValidParcel(Pkg1002)
  {
    var h := Pkg1002.history;
    LexLeqAtFirstDifference(h[0].timestamp, h[1].timestamp, 9);
    LexLeqAtFirstDifference(h[1].timestamp, h[2].timestamp, 9);
    LexLeqAtFirstDifference(h[2].timestamp, h[3].timestamp, 11);
  }

  lemma ThirdParcelValid()
    ensures ValidParcel(Pkg1003)
  {
    var h := Pkg1003.history;
    LexLeqAtFirstDifference(h[0].timestamp, h[1].timestamp, 9);
    LexLeqAtFirstDifference(h[1].timestamp, h[2].timestamp, 8);
  }

  lemma FourthParcelValid()
    ensures ValidParcel(Pkg1004)
  {
    var h := Pkg1004.history;
    LexLeqAtFirstDifference(h[0].timestamp, h[1].timestamp, 9);
    LexLeqAtFirstDifference(h[1].timestamp, h[2].timestamp, 9);
    LexLeqAtFirstDifference(h[2].timestamp, h[3].timestamp, 8);
  }

  /** Every seeded parcel satisfies the history invariant. */
  lemma SeedValid()
    ensures forall p :: p in Parcels ==> ValidParcel(p)
  {
    FirstParcelValid();
    SecondParcelValid();
    ThirdParcelValid();
    FourthParcelValid();
  }

}
