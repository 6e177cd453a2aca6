/** The vehicle owner's dashboard: the records of the logged-in vehicle, the
    status filter over them, the three amounts and the empty-state message. */
module UserDashboard {
  import opened Optional
  import opened Seqs
  import opened Text
  import opened Offences
  import opened Auth
  import AdminDashboard

  /** `user?.email || ""`: the logged-in identity's email field (for a vehicle
      owner, the vehicle number as typed), or the empty string without one. */
  function VehicleNumberOf(user: Option<User>): (v: string)
    ensures user.None? ==> v == ""
    ensures user.Some? ==> v == user.value.email
  {
    match user
    case None => ""
    case Some(u) => u.email
  }

  /** `userOffences`: the repository lookup for the logged-in vehicle number,
      so exactly the records whose plate matches it case-insensitively, in
      list order and with every copy kept; without a user only plates that
      are empty match. */
  function UserOffences(s: seq<Offence>, user: Option<User>): (r: seq<Offence>)
    ensures forall i :: 0 <= i < |r| ==> Lower(r[i].vehicleNumber) == Lower(VehicleNumberOf(user)) && r[i] in s
    ensures forall i :: 0 <= i < |s| && Lower(s[i].vehicleNumber) == Lower(VehicleNumberOf(user)) ==> s[i] in r
    ensures IsSubseq(r, s) && |r| == CountWhere(s, SameVehicle(VehicleNumberOf(user)))
    ensures user.None? ==> forall i :: 0 <= i < |r| ==> r[i].vehicleNumber == []
  {
    FilterByVehicle(s, VehicleNumberOf(user))
  }

  /** What the dashboard looks up is what the vehicle-owner login stored:
      an accepted input is looked up exactly as typed, untrimmed; an input
      the login rejects produces no user, and then only empty plates match. */
  lemma OwnerLookupIsLogin(s: seq<Offence>, v: string)
    ensures !AllWhitespace(v) ==> UserOffences(s, VehicleLogin(v)) == FilterByVehicle(s, v)
    ensures AllWhitespace(v) ==> UserOffences(s, VehicleLogin(v)) == FilterByVehicle(s, "")
  {
  }

  /** Because the login keeps the input untrimmed, an owner whose input
      starts with a blank finds no record whose plate is empty or starts
      with a character that is not whitespace. */
  lemma PaddedLoginMissesPlate(s: seq<Offence>, v: string, i: int)
    requires v != [] && IsWhitespace(v[0]) && !AllWhitespace(v)
    requires 0 <= i < |s|
    requires s[i].vehicleNumber == [] || !IsWhitespace(s[i].vehicleNumber[0])
    ensures s[i] !in UserOffences(s, VehicleLogin(v))
  {
    var p := s[i].vehicleNumber;
    assert Lower(v)[0] == v[0];
    if p != [] {
      assert Lower(p)[0] == LowerChar(p[0]);
      assert !IsWhitespace(LowerChar(p[0]));
    }
  }

  /** The selection of the status filter: `"all"`, `"Paid"` or `"Pending"`. */
  datatype StatusFilter = AllOffences | Only(status: PaymentStatus)

  /** The record test for one status of the filter. */
  function HasStatus(st: PaymentStatus): Offence -> bool
  {
    if st == Paid then AdminDashboard.IsPaid else AdminDashboard.IsPending
  }

  /** `filteredOffences`: "all" shows the vehicle's records unchanged; a
      status shows exactly the records with that status, in order. */
  function FilteredOffences(u: seq<Offence>, f: StatusFilter): (r: seq<Offence>)
    ensures f == AllOffences ==> r == u
    ensures f.Only? ==> forall i :: 0 <= i < |r| ==> r[i].paymentStatus == f.status && r[i] in u
    ensures f.Only? ==> forall i :: 0 <= i < |u| && u[i].paymentStatus == f.status ==> u[i] in r
    ensures f.Only? ==> |r| == CountWhere(u, HasStatus(f.status))
    ensures IsSubseq(r, u)
  {
    match f
    case AllOffences =>
      SubseqRefl(u);
      u
    case Only(st) => Filter(u, HasStatus(st))
  }

  /** The Paid and the Pending views split the vehicle's records between
      them: every record is in exactly one, so their lengths add up. */
  lemma StatusFiltersPartition(u: seq<Offence>)
    ensures |FilteredOffences(u, Only(Paid))| + |FilteredOffences(u, Only(Pending))| == |u|
    ensures forall i :: 0 <= i < |u| ==>
      (u[i] in FilteredOffences(u, Only(Paid)) || u[i] in FilteredOffences(u, Only(Pending)))
  {
    CountComplement(u, HasStatus(Paid), HasStatus(Pending));
  }

  /** Filtering by a status twice is filtering once. */
  lemma StatusFilterIdempotent(u: seq<Offence>, f: StatusFilter)
    ensures FilteredOffences(FilteredOffences(u, f), f) == FilteredOffences(u, f)
  {
    if f.Only? {
      FilterIdempotent(u, HasStatus(f.status));
    }
  }

  /** `totalFines`, `paidAmount` and `pendingAmount = totalFines - paidAmount`
      over the vehicle's records (not over the filtered view): the pending
      amount is the sum over its Pending records, and the two parts make up
      the total. */
  function Amounts(u: seq<Offence>): (t: AdminDashboard.FineTotals)
    ensures t.total == AdminDashboard.SumFines(u)
    ensures t.paid == AdminDashboard.SumFines(Filter(u, AdminDashboard.IsPaid))
    ensures t.pending == AdminDashboard.SumFines(Filter(u, AdminDashboard.IsPending))
    ensures t.paid + t.pending == t.total
    ensures AdminDashboard.NonNegativeFines(u) ==> 0 <= t.paid <= t.total && 0 <= t.pending <= t.total
  {
    AdminDashboard.Totals(u)
  }

  const NoOffencesText: string := "No offences found for this vehicle number"
  const NoMatchText: string := "No offences match your filter"

  /** The message shown instead of the list, or `None` when the list is
      shown: the first text exactly when the vehicle has no records, the
      second exactly when it has records but none passes the filter. */
  function EmptyStateMessage(u: seq<Offence>, f: StatusFilter): (m: Option<string>)
    ensures m == Some(NoOffencesText) <==> u == []
    ensures m == Some(NoMatchText) <==> FilteredOffences(u, f) == [] && u != []
    ensures m == None <==> FilteredOffences(u, f) != []
  {
    var view := FilteredOffences(u, f);
    if |view| == 0 then
      Some(if |u| == 0 then NoOffencesText else NoMatchText)
    else
      None
  }

  /** With the "all" filter the second message never appears. */
  lemma AllNeverUnmatched(u: seq<Offence>)
    ensures EmptyStateMessage(u, AllOffences) != Some(NoMatchText)
  {
  }

  /** On the seeded list, the owner of "nas-456-cd" (typed in any case) sees
      the one record OFF002, which is Paid, so the Pending view is empty and
      shows the no-match message. */
  lemma SeedOwnerView(plate: string)
    requires Lower(plate) == Lower("NAS-456-CD")
    ensures var u := UserOffences(SeedData(), Some(User(plate, VehicleOwner)));
      |u| == 1 && u[0].id == "OFF002" && u[0].paymentStatus == Paid
      && EmptyStateMessage(u, Only(Pending)) == Some(NoMatchText)
  {
    var seed := SeedData();
    SeedOwnerRecords(plate);
    FilterSingleton(seed[1], HasStatus(Pending));
  }

  /** The seed's lookup for that plate is its second record alone. */
  lemma SeedOwnerRecords(plate: string)
    requires Lower(plate) == Lower("NAS-456-CD")
    ensures FilterByVehicle(SeedData(), plate) == [SeedData()[1]]
  {
    var seed := SeedData();
    var p := SameVehicle(plate);
    assert Lower(seed[0].vehicleNumber)[0] == 'l';
    assert Lower(seed[2].vehicleNumber)[0] == 'l';
    assert Lower("NAS-456-CD")[0] == 'n';
    assert Lower(seed[1].vehicleNumber) == Lower("NAS-456-CD");
    FilterThree(seed[0], seed[1], seed[2], p);
    assert seed == [seed[0], seed[1], seed[2]];
  }
}
