/**
 The parcel store: a private copy of the seed, looked up case-insensitively
 by tracking id, listed whole, and summarised into status buckets. The
 simulated latency of each call is not modelled; every operation is a pure
 function of the store, so none of them changes it.
 */
module ParcelService {
  import opened Optional
  import opened Text
  import opened Arrays
  import opened Types
  import MockData

  datatype ParcelStore = ParcelStore(parcels: seq<Parcel>)

  /**
   The store as constructed: a copy of the seed, in seed order, so it starts
   with four valid parcels whose ids are distinct ignoring case.
   */
  function NewStore(): (s: ParcelStore)
    ensures s.parcels == MockData.Parcels
    ensures |s.parcels| == 4 && DistinctIds(s.parcels)
    ensures forall p :: p in s.parcels ==> ValidParcel(p)
  {
    MockData.SeedIds();
    MockData.SeedValid();
    ParcelStore(MockData.Parcels)
  }

  /** The lookup's comparison: both ids upper-cased, then compared exactly (no trimming). */
  predicate SameId(p: Parcel, id: string)
  {
    Upper(p.id) == Upper(id)
  }

  /** The first stored parcel whose id equals `id` ignoring case, or nothing. */
  function GetParcelById(store: ParcelStore, id: string): (r: Option<Parcel>)
    ensures r.Some? ==> r.value in store.parcels && SameId(r.value, id)
    ensures r.None? <==> forall p :: p in store.parcels ==> !SameId(p, id)
  {
    var key := Upper(id);
    Find(store.parcels, (p: Parcel) => Upper(p.id) == key)
  }

  /** Every stored parcel, unchanged and in stored order. */
  function GetAllParcels(store: ParcelStore): (r: seq<Parcel>)
    ensures r == store.parcels
  {
    store.parcels
  }

  /** Among several case-insensitive matches, the one stored first is returned. */
  lemma LookupReturnsFirstMatch(store: ParcelStore, id: string, i: nat)
    requires i < |store.parcels| && SameId(store.parcels[i], id)
    requires forall j :: 0 <= j < i ==> !SameId(store.parcels[j], id)
    ensures GetParcelById(store, id) == Some(store.parcels[i])
  {
  }

  /** A query, its lower-case form and its upper-case form find the same parcel. */
  lemma LookupIgnoresQueryCase(store: ParcelStore, id: string)
    ensures GetParcelById(store, Lower(id)) == GetParcelById(store, id)
    ensures GetParcelById(store, Upper(id)) == GetParcelById(store, id)
  {
  }

  /**
   The query is not trimmed: when no stored id starts with a space, a query
   that does matches nothing.
   */
  lemma PaddedQueryMisses(store: ParcelStore, id: string)
    requires forall p :: p in store.parcels ==> |p.id| > 0 && p.id[0] != ' '
    requires |id| > 0 && id[0] == ' '
    ensures GetParcelById(store, id) == None
  {
    forall p | p in store.parcels
      ensures !SameId(p, id)
    {
      assert Upper(id)[0] == ' ';
      assert Upper(p.id)[0] != ' ';
    }
  }

  /** With ids distinct ignoring case, every stored parcel is found by its own id, in any case. */
  lemma LookupFindsStored(store: ParcelStore, i: nat)
    requires DistinctIds(store.parcels)
    requires i < |store.parcels|
    ensures GetParcelById(store, store.parcels[i].id) == Some(store.parcels[i])
    ensures GetParcelById(store, Lower(store.parcels[i].id)) == Some(store.parcels[i])
  {
  }

  /** Listing returns the seed itself, in seed order. */
  lemma ListAllIsSeed()
    ensures GetAllParcels(NewStore()) == MockData.Parcels
    ensures |GetAllParcels(NewStore())| == 4
  {
  }

  datatype Stats = Stats(total: nat, delivered: nat, inTransit: nat, delayed: nat)

  predicate IsDelivered(p: Parcel) { p.status == Delivered }

  predicate IsMoving(p: Parcel) { p.status == InTransit || p.status == OutForDelivery }

  predicate IsDelayed(p: Parcel) { p.status == Delayed }

  /** The statuses of a list of parcels, in order. */
  function Statuses(ps: seq<Parcel>): seq<ParcelStatus>
  {
    seq(|ps|, i requires 0 <= i < |ps| => ps[i].status)
  }

  /**
   Counts of the listed parcels: all of them, the delivered ones, the ones in
   transit or out for delivery, and the delayed ones. The three buckets are
   disjoint, so together they never exceed the total.
   */
  function GetStats(store: ParcelStore): (st: Stats)
    ensures st.total == |GetAllParcels(store)|
    ensures st.delivered + st.inTransit + st.delayed <= st.total
  {
    var ps := GetAllParcels(store);
    BucketCounts(ps);
    StatusCountsSum(ps);
    Stats(|ps|, |Filter(ps, IsDelivered)|, |Filter(ps, IsMoving)|, |Filter(ps, IsDelayed)|)
  }

  /** Peeling the first parcel off: its status adds one to its own count. */
  lemma StatusCountStep(ps: seq<Parcel>, x: ParcelStatus)
    requires |ps| > 0
    ensures multiset(Statuses(ps))[x] == (if ps[0].status == x then 1 else 0) + multiset(Statuses(ps[1..]))[x]
  {
    assert Statuses(ps) == [ps[0].status] + Statuses(ps[1..]);
  }

  /** Peeling the first parcel off: it adds one to a bucket exactly when it belongs there. */
  lemma FilterLengthStep(ps: seq<Parcel>, keep: Parcel -> bool)
    requires |ps| > 0
    ensures |Filter(ps, keep)| == (if keep(ps[0]) then 1 else 0) + |Filter(ps[1..], keep)|
  {
  }

  /** Each bucket's size is a count in the multiset of statuses. */
  lemma {:induction false} BucketCounts(ps: seq<Parcel>)
    ensures |Filter(ps, IsDelivered)| == multiset(Statuses(ps))[Delivered]
    ensures |Filter(ps, IsMoving)| == multiset(Statuses(ps))[InTransit] + multiset(Statuses(ps))[OutForDelivery]
    ensures |Filter(ps, IsDelayed)| == multiset(Statuses(ps))[Delayed]
  {
    if |ps| > 0 {
      BucketCounts(ps[1..]);
      FilterLengthStep(ps, IsDelivered);
      FilterLengthStep(ps, IsMoving);
      FilterLengthStep(ps, IsDelayed);
      StatusCountStep(ps, Delivered);
      StatusCountStep(ps, InTransit);
      StatusCountStep(ps, OutForDelivery);
      StatusCountStep(ps, Delayed);
    }
  }

  /** The six status counts add up to the number of parcels. */
  lemma {:induction false} StatusCountsSum(ps: seq<Parcel>)
    ensures var m := multiset(Statuses(ps));
      m[Ordered] + m[Shipped] + m[InTransit] + m[OutForDelivery] + m[Delivered] + m[Delayed] == |ps|
  {
    if |ps| > 0 {
      StatusCountsSum(ps[1..]);
      StatusCountStep(ps, Ordered);
      StatusCountStep(ps, Shipped);
      StatusCountStep(ps, InTransit);
      StatusCountStep(ps, OutForDelivery);
      StatusCountStep(ps, Delivered);
      StatusCountStep(ps, Delayed);
    }
  }

  /**
   The statistics against an independent count over the multiset of statuses:
   each bucket is the count of its statuses, and what the buckets leave out is
   exactly the Ordered and Shipped parcels.
   */
  lemma StatsAreStatusCounts(store: ParcelStore)
    ensures var st := GetStats(store);
      var m := multiset(Statuses(GetAllParcels(store)));
      && st.delivered == m[Delivered]
      && st.inTransit == m[InTransit] + m[OutForDelivery]
      && st.delayed == m[Delayed]
      && st.total - (st.delivered + st.inTransit + st.delayed) == m[Ordered] + m[Shipped]
  {
    BucketCounts(GetAllParcels(store));
    StatusCountsSum(GetAllParcels(store));
  }

  /** The seed's statuses, in seed order. */
  lemma SeedStatuses()
    ensures Statuses(MockData.Parcels) == [InTransit, Delivered, Delayed, OutForDelivery]
  {
  }

  /** Over the seed: four parcels, one delivered, two moving, one delayed. */
  lemma SeedStats()
    ensures GetStats(NewStore()) == Stats(4, 1, 2, 1)
  {
    SeedStatuses();
    var m := multiset(Statuses(MockData.Parcels));
    assert m == multiset{InTransit, Delivered, Delayed, OutForDelivery};
    assert m[Delivered] == 1 && m[Delayed] == 1;
    assert m[InTransit] == 1 && m[OutForDelivery] == 1;
    StatsAreStatusCounts(NewStore());
  }

  /** Looking up "pkg-1002" finds the delivered parcel with its four-event history. */
  lemma LookupDeliveredScenario()
    ensures GetParcelById(NewStore(), "pkg-1002").Some?
    ensures var p := GetParcelById(NewStore(), "pkg-1002").value;
      && p.id == "PKG-1002"
      && p.status == Delivered
      && |p.history| == 4
      && p.history[3].status == Delivered
  {
    MockData.SeedIds();
    var store := NewStore();
    assert Lower("PKG-1002") == "pkg-1002";
    LookupFindsStored(store, 1);
  }

  /** A space-padded seed id finds nothing. */
  lemma PaddedSeedIdMisses()
    ensures GetParcelById(NewStore(), " PKG-1001") == None
  {
  }

}
