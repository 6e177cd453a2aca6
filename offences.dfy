/** The offence repository: the `Offence` record, the three seed records,
    identifier assignment, and the list transformations behind add, update,
    delete, lookup by vehicle and fine payment, followed by the stateful
    provider that holds the list and its storage slot. */
module Offences {
  import opened Optional
  import opened Seqs
  import opened Text

  datatype PaymentStatus = Pending | Paid

  /** One recorded traffic violation. */
  datatype Offence = Offence(
    id: string,
    offenderName: string,
    vehicleNumber: string,
    offenceType: string,
    location: string,
    dateTime: string,
    fineAmount: int,
    paymentStatus: PaymentStatus)

  /** What a caller of add supplies: every field but the identifier. */
  datatype NewOffence = NewOffence(
    offenderName: string,
    vehicleNumber: string,
    offenceType: string,
    location: string,
    dateTime: string,
    fineAmount: int,
    paymentStatus: PaymentStatus)

  /** A partial record for update: `None` for a field the update object does
      not carry. The identifier may be among the fields updated. */
  datatype OffenceUpdate = OffenceUpdate(
    id: Option<string>,
    offenderName: Option<string>,
    vehicleNumber: Option<string>,
    offenceType: Option<string>,
    location: Option<string>,
    dateTime: Option<string>,
    fineAmount: Option<int>,
    paymentStatus: Option<PaymentStatus>)

  /** The records installed when the storage slot is empty. */
  function SeedData(): (r: seq<Offence>)
    ensures |r| == 3
    ensures forall i :: 0 <= i < |r| ==> r[i].fineAmount > 0
    ensures forall i, j :: 0 <= i < j < |r| ==> r[i].id != r[j].id && r[i].vehicleNumber != r[j].vehicleNumber
  {
    [ Offence("OFF001", "Adewale Johnson", "LAG-123-AB", "Speeding",
              "Lafia-Makurdi Road", "2025-01-10T14:30:00", 15000, Pending),
      Offence("OFF002", "Fatima Mohammed", "NAS-456-CD", "Seatbelt Violation",
              "Lafia Central Market", "2025-01-11T09:15:00", 5000, Paid),
      Offence("OFF003", "Chukwudi Okafor", "LAG-789-EF", "Dangerous Driving",
              "Shabu Junction", "2025-01-11T16:45:00", 25000, Pending) ]
  }

  // ---------------------------------------------------------------------
  // Identifiers

  /** The number part of an identifier: `String(n).padStart(3, "0")`. */
  function IdNumber(n: nat): string
  {
    PadStart(NatToString(n), 3, '0')
  }

  /** The identifier given to the `n`-th record:
      `OFF${String(n).padStart(3, "0")}`. */
  function OffenceId(n: nat): (r: string)
    ensures |r| >= 6 && r[..3] == "OFF"
  {
    "OFF" + IdNumber(n)
  }

  /** The identifier is "OFF", then the decimal digits of `n` left-padded
      with zeros to at least three characters: reading the digits back gives
      `n` again, and a number with more than three digits is kept whole, not
      truncated. */
  lemma OffenceIdShape(n: nat)
    ensures var r := OffenceId(n);
      && |r| >= 6 && r[..3] == "OFF"
      && |r| == 3 + (if |NatToString(n)| >= 3 then |NatToString(n)| else 3)
      && AllDigits(r[3..]) && DecimalValue(r[3..]) == n
  {
    IdNumberValue(n);
    assert OffenceId(n)[3..] == IdNumber(n);
  }

  /** The padded number denotes `n`. */
  lemma IdNumberValue(n: nat)
    ensures |IdNumber(n)| == if |NatToString(n)| >= 3 then |NatToString(n)| else 3
    ensures AllDigits(IdNumber(n)) && DecimalValue(IdNumber(n)) == n
  {
    var digits := NatToString(n);
    var padded := IdNumber(n);
    var k := |padded| - |digits|;
    assert padded == Repeat('0', k) + digits;
    DecimalValueLeadingZeros(k, digits);
    DecimalValueOfNatToString(n);
  }

  /** Different positions give different identifiers. */
  lemma OffenceIdInjective(n: nat, m: nat)
    ensures OffenceId(n) == OffenceId(m) ==> n == m
  {
    OffenceIdShape(n);
    OffenceIdShape(m);
  }

  /** A one-digit position is padded with two zeros. */
  lemma OneDigitOffenceId(n: nat)
    requires 1 <= n <= 9
    ensures OffenceId(n) == "OFF00" + [DigitChar(n)]
  {
    assert NatToString(n) == [DigitChar(n)];
    assert Repeat('0', 2) == "00";
  }

  /** A four-digit position is kept whole: padding never truncates. */
  lemma FourDigitOffenceId()
    ensures OffenceId(1000) == "OFF1000"
  {
    assert NatToString(10) == NatToString(1) + ['0'];
    assert NatToString(100) == NatToString(10) + ['0'];
    assert NatToString(1000) == NatToString(100) + ['0'];
  }

  /** The seed's three identifiers OFF001, OFF002 and OFF003 are the ones
      the rule gives positions 1, 2 and 3. */
  lemma FirstOffenceId()
    ensures OffenceId(1) == "OFF001"
  {
    OneDigitOffenceId(1);
  }

  lemma SecondOffenceId()
    ensures OffenceId(2) == "OFF002"
  {
    OneDigitOffenceId(2);
  }

  lemma ThirdOffenceId()
    ensures OffenceId(3) == "OFF003"
  {
    OneDigitOffenceId(3);
  }

  // ---------------------------------------------------------------------
  // Pure list transformations

  /** `{...offence, id}`: the caller's fields, with the identifier added. */
  function WithId(o: NewOffence, id: string): Offence
  {
    Offence(id, o.offenderName, o.vehicleNumber, o.offenceType, o.location,
            o.dateTime, o.fineAmount, o.paymentStatus)
  }

  /** `[...offences, newOffence]` with the identifier numbered by the new
      length: exactly one record is appended at the end, every earlier record
      stays where it was, and the new record carries every supplied field. */
  function AddRecord(s: seq<Offence>, o: NewOffence): (r: seq<Offence>)
    ensures |r| == |s| + 1 && r[..|s|] == s
    ensures r[|s|].id == OffenceId(|s| + 1)
    ensures r[|s|].offenderName == o.offenderName
    ensures r[|s|].vehicleNumber == o.vehicleNumber
    ensures r[|s|].offenceType == o.offenceType
    ensures r[|s|].location == o.location
    ensures r[|s|].dateTime == o.dateTime
    ensures r[|s|].fineAmount == o.fineAmount
    ensures r[|s|].paymentStatus == o.paymentStatus
  {
    s + [WithId(o, OffenceId(|s| + 1))]
  }

  /** `v` is the value the optional field `f` carries, if it carries one. */
  predicate Agrees<T(==)>(f: Option<T>, v: T)
  {
    f.Some? ==> v == f.value
  }

  /** Every field the update carries has the update's value in `r`. */
  predicate Carries(u: OffenceUpdate, r: Offence)
  {
    Agrees(u.id, r.id) && Agrees(u.offenderName, r.offenderName)
    && Agrees(u.vehicleNumber, r.vehicleNumber) && Agrees(u.offenceType, r.offenceType)
    && Agrees(u.location, r.location) && Agrees(u.dateTime, r.dateTime)
    && Agrees(u.fineAmount, r.fineAmount) && Agrees(u.paymentStatus, r.paymentStatus)
  }

  /** Every field the update does not carry is the same in `o` and `r`. */
  predicate KeepsUnset(o: Offence, u: OffenceUpdate, r: Offence)
  {
    (u.id.None? ==> r.id == o.id)
    && (u.offenderName.None? ==> r.offenderName == o.offenderName)
    && (u.vehicleNumber.None? ==> r.vehicleNumber == o.vehicleNumber)
    && (u.offenceType.None? ==> r.offenceType == o.offenceType)
    && (u.location.None? ==> r.location == o.location)
    && (u.dateTime.None? ==> r.dateTime == o.dateTime)
    && (u.fineAmount.None? ==> r.fineAmount == o.fineAmount)
    && (u.paymentStatus.None? ==> r.paymentStatus == o.paymentStatus)
  }

  /** `{...off, ...updates}`: the fields the update carries are taken from
      it and every other field from the record; an update that carries
      nothing leaves the record as it was. */
  function Merge(o: Offence, u: OffenceUpdate): (r: Offence)
    ensures Carries(u, r) && KeepsUnset(o, u, r)
    ensures u == OffenceUpdate(None, None, None, None, None, None, None, None) ==> r == o
  {
    Offence(
      u.id.GetOr(o.id),
      u.offenderName.GetOr(o.offenderName),
      u.vehicleNumber.GetOr(o.vehicleNumber),
      u.offenceType.GetOr(o.offenceType),
      u.location.GetOr(o.location),
      u.dateTime.GetOr(o.dateTime),
      u.fineAmount.GetOr(o.fineAmount),
      u.paymentStatus.GetOr(o.paymentStatus))
  }

  /** Merging the same update twice is merging it once. */
  lemma MergeIdempotent(o: Offence, u: OffenceUpdate)
    ensures Merge(Merge(o, u), u) == Merge(o, u)
  {
  }

  /** `offences.map(off => off.id === id ? {...off, ...updates} : off)`:
      length and order are kept, a record with the target identifier is
      merged with the update, every other record is left as it was. */
  function UpdateRecords(s: seq<Offence>, id: string, u: OffenceUpdate): (r: seq<Offence>)
    ensures |r| == |s|
    ensures forall i :: 0 <= i < |s| && s[i].id == id ==> r[i] == Merge(s[i], u)
    ensures forall i :: 0 <= i < |s| && s[i].id != id ==> r[i] == s[i]
  {
    if s == [] then []
    else [if s[0].id == id then Merge(s[0], u) else s[0]] + UpdateRecords(s[1..], id, u)
  }

  /** Updating an identifier no record carries leaves the list unchanged. */
  lemma UpdateAbsentId(s: seq<Offence>, id: string, u: OffenceUpdate)
    requires forall i :: 0 <= i < |s| ==> s[i].id != id
    ensures UpdateRecords(s, id, u) == s
  {
  }

  /** Applying the same update twice is applying it once, even when the
      update itself renames the records it touches. */
  lemma UpdateIdempotent(s: seq<Offence>, id: string, u: OffenceUpdate)
    ensures UpdateRecords(UpdateRecords(s, id, u), id, u) == UpdateRecords(s, id, u)
  {
    var once := UpdateRecords(s, id, u);
    var twice := UpdateRecords(once, id, u);
    forall i | 0 <= i < |s| ensures twice[i] == once[i] {
      if s[i].id == id {
        MergeIdempotent(s[i], u);
      }
    }
  }

  function HasId(id: string): Offence -> bool
  {
    (o: Offence) => o.id == id
  }

  function LacksId(id: string): Offence -> bool
  {
    (o: Offence) => o.id != id
  }

  /** The number of records carrying identifier `id`. */
  function IdCount(s: seq<Offence>, id: string): nat
  {
    CountWhere(s, HasId(id))
  }

  /** `offences.filter(off => off.id !== id)`: exactly the records with a
      different identifier are kept, in order, and the length drops by the
      number of records that had the identifier (0 for an unknown one). */
  function DeleteRecords(s: seq<Offence>, id: string): (r: seq<Offence>)
    ensures |r| == |s| - IdCount(s, id)
    ensures forall i :: 0 <= i < |r| ==> r[i].id != id && r[i] in s
    ensures forall i :: 0 <= i < |s| && s[i].id != id ==> s[i] in r
    ensures IsSubseq(r, s)
  {
    CountComplement(s, HasId(id), LacksId(id));
    Filter(s, LacksId(id))
  }

  /** Deleting an identifier no record carries leaves the list unchanged. */
  lemma DeleteAbsentId(s: seq<Offence>, id: string)
    requires forall i :: 0 <= i < |s| ==> s[i].id != id
    ensures DeleteRecords(s, id) == s
  {
    FilterKeepsAll(s, LacksId(id));
  }

  function SameVehicle(v: string): Offence -> bool
  {
    (o: Offence) => Lower(o.vehicleNumber) == Lower(v)
  }

  /** `getOffencesByVehicle`: exactly the records whose vehicle number equals
      `v` once both are lower-cased, in list order, each copy of a matching
      record kept (by Seqs.FilterUnique these facts determine the result). */
  function FilterByVehicle(s: seq<Offence>, v: string): (r: seq<Offence>)
    ensures forall i :: 0 <= i < |r| ==> Lower(r[i].vehicleNumber) == Lower(v) && r[i] in s
    ensures forall i :: 0 <= i < |s| && Lower(s[i].vehicleNumber) == Lower(v) ==> s[i] in r
    ensures IsSubseq(r, s)
    ensures |r| == CountWhere(s, SameVehicle(v))
  {
    Filter(s, SameVehicle(v))
  }

  /** The lookup does not depend on how the vehicle number is cased. */
  lemma VehicleLookupIgnoresCase(s: seq<Offence>, v: string, w: string)
    requires Lower(v) == Lower(w)
    ensures FilterByVehicle(s, v) == FilterByVehicle(s, w)
  {
    FilterAgree(s, SameVehicle(v), SameVehicle(w));
  }

  /** Any casing of a vehicle number finds the same records: two queries
      that differ only in the case of ASCII letters look up alike. */
  lemma MixedCaseLookup(s: seq<Offence>, v: string, w: string)
    requires |v| == |w|
    requires forall i :: 0 <= i < |v| ==> SameLetterUpToCase(v[i], w[i])
    ensures FilterByVehicle(s, v) == FilterByVehicle(s, w)
  {
    LowerUpToCase(v, w);
    VehicleLookupIgnoresCase(s, v, w);
  }

  /** The lower-case and the capitalised spelling of a Lagos plate find the
      same records (the plates are parameters so that the verifier does not
      unfold the lookup on literal strings). */
  lemma LagosPlateAnyCase(s: seq<Offence>, v: string, w: string)
    requires v == "lag-123-ab" && w == "LAG-123-AB"
    ensures FilterByVehicle(s, v) == FilterByVehicle(s, w)
  {
    assert forall i :: 0 <= i < |v| ==> SameLetterUpToCase(v[i], w[i]);
    MixedCaseLookup(s, v, w);
  }

  /** The update `payFine` applies: the payment status alone. */
  const MarkPaid := OffenceUpdate(None, None, None, None, None, None, None, Some(Paid))

  /** `payFine(id)`: every record with the identifier becomes paid and
      nothing else about the list changes. */
  function PayFineRecords(s: seq<Offence>, id: string): (r: seq<Offence>)
    ensures |r| == |s|
    ensures forall i :: 0 <= i < |s| ==>
      r[i] == s[i].(paymentStatus := if s[i].id == id then Paid else s[i].paymentStatus)
  {
    UpdateRecords(s, id, MarkPaid)
  }

  /** Paying twice is paying once. */
  lemma PayFineIdempotent(s: seq<Offence>, id: string)
    ensures PayFineRecords(PayFineRecords(s, id), id) == PayFineRecords(s, id)
  {
    UpdateIdempotent(s, id, MarkPaid);
  }

  // ---------------------------------------------------------------------
  // Identifier assignment over a history of adds

  /** The `i`-th record (from 0) carries the identifier of position `i + 1`. */
  predicate SequentialIds(s: seq<Offence>)
  {
    forall i :: 0 <= i < |s| ==> s[i].id == OffenceId(i + 1)
  }

  lemma ThreeSequential(a: Offence, b: Offence, c: Offence)
    requires a.id == OffenceId(1) && b.id == OffenceId(2) && c.id == OffenceId(3)
    ensures SequentialIds([a, b, c])
  {
  }

  lemma SeedSequential()
    ensures SequentialIds(SeedData())
  {
    var s := SeedData();
    FirstOffenceId();
    SecondOffenceId();
    ThirdOffenceId();
    ThreeSequential(s[0], s[1], s[2]);
  }

  /** Adding to a list numbered by position keeps it numbered by position. */
  lemma AddKeepsSequentialIds(s: seq<Offence>, o: NewOffence)
    requires SequentialIds(s)
    ensures SequentialIds(AddRecord(s, o))
  {
    var r := AddRecord(s, o);
    forall i | 0 <= i < |r| ensures r[i].id == OffenceId(i + 1) {
      if i < |s| {
        assert r[i] == r[..|s|][i];
      }
    }
  }

  /** In a list numbered by position, no two records share an identifier:
      so as long as only adds happen, identifiers are unique. */
  lemma SequentialIdsUnique(s: seq<Offence>, i: nat, j: nat)
    requires SequentialIds(s) && i < |s| && j < |s| && i != j
    ensures s[i].id != s[j].id
  {
    OffenceIdInjective(i + 1, j + 1);
  }

  /** The identifier rule counts records, not additions: starting from the
      seed, deleting OFF001 and adding a record yields a second OFF003. */
  lemma DeleteThenAddReusesId(o: NewOffence)
    ensures var r := AddRecord(DeleteRecords(SeedData(), "OFF001"), o);
      |r| == 3 && r[1].id == "OFF003" && r[2].id == "OFF003"
  {
    var seed := SeedData();
    FilterThree(seed[0], seed[1], seed[2], LacksId("OFF001"));
    assert seed == [seed[0], seed[1], seed[2]];
    assert DeleteRecords(seed, "OFF001") == [seed[1], seed[2]];
    ThirdOffenceId();
  }

  // ---------------------------------------------------------------------
  // The provider

  /** The repository state: the list the screens render and the storage slot
      that holds its persisted copy (`None` when nothing is stored). */
  class OffenceStore {
    var offences: seq<Offence>
    var storage: Option<seq<Offence>>

    /** The slot holds exactly the list in state. */
    ghost predicate Valid()
      reads this
    {
      storage == Some(offences)
    }

    /** Before the startup effect runs, the list is empty and the slot holds
        whatever an earlier session left. */
    constructor (slot: Option<seq<Offence>>)
      ensures offences == [] && storage == slot
    {
      offences := [];
      storage := slot;
    }

    /** The startup effect: a stored list is loaded as it is (an empty stored
        list included); an empty slot is filled with the seed records, in
        both the state and the slot. */
    method Load()
      modifies this
      ensures Valid()
      ensures old(storage).Some? ==> offences == old(storage).value && storage == old(storage)
      ensures old(storage).None? ==> offences == SeedData()
    {
      if storage.Some? {
        offences := storage.value;
      } else {
        offences := SeedData();
        storage := Some(SeedData());
      }
    }

    /** `saveToStorage`: slot and state are both replaced by `data`. */
    method Save(data: seq<Offence>)
      modifies this
      ensures offences == data && Valid()
    {
      storage := Some(data);
      offences := data;
    }

    method AddOffence(o: NewOffence)
      modifies this
      ensures offences == AddRecord(old(offences), o) && Valid()
    {
      Save(AddRecord(offences, o));
    }

    method UpdateOffence(id: string, u: OffenceUpdate)
      modifies this
      ensures offences == UpdateRecords(old(offences), id, u) && Valid()
    {
      Save(UpdateRecords(offences, id, u));
    }

    method DeleteOffence(id: string)
      modifies this
      ensures offences == DeleteRecords(old(offences), id) && Valid()
    {
      Save(DeleteRecords(offences, id));
    }

    /** `getOffencesByVehicle` reads the current list and changes nothing. */
    method GetOffencesByVehicle(v: string) returns (r: seq<Offence>)
      ensures r == FilterByVehicle(offences, v)
    {
      r := FilterByVehicle(offences, v);
    }

    /** `payFine` is an update carrying only the paid status. */
    method PayFine(id: string)
      modifies this
      ensures offences == PayFineRecords(old(offences), id) && Valid()
    {
      UpdateOffence(id, MarkPaid);
    }
  }
}
