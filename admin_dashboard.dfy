/** The administrator's dashboard: free-text search over the list, the fine
    totals, the most common offence type, the repeat offenders and the
    unpaid count, all derived from the repository's current list. */
module AdminDashboard {
  import opened Seqs
  import opened Text
  import opened Offences

  // ---------------------------------------------------------------------
  // Search

  /** The lower-cased search term occurs in the lower-cased vehicle number,
      identifier or offender name. */
  predicate MatchesSearch(o: Offence, term: string)
    ensures term == "" ==> MatchesSearch(o, term)
  {
    Contains(Lower(o.vehicleNumber), Lower(term))
    || Contains(Lower(o.id), Lower(term))
    || Contains(Lower(o.offenderName), Lower(term))
  }

  function SearchPredicate(term: string): Offence -> bool
  {
    (o: Offence) => MatchesSearch(o, term)
  }

  /** `filteredOffences`: exactly the records the term matches, in list
      order and with every copy kept; an empty term keeps every record. */
  function FilteredOffences(s: seq<Offence>, term: string): (r: seq<Offence>)
    ensures forall i :: 0 <= i < |r| ==> MatchesSearch(r[i], term) && r[i] in s
    ensures forall i :: 0 <= i < |s| && MatchesSearch(s[i], term) ==> s[i] in r
    ensures IsSubseq(r, s)
    ensures |r| == CountWhere(s, SearchPredicate(term))
    ensures term == "" ==> r == s
  {
    EmptyTermMatchesAll(s, term);
    Filter(s, SearchPredicate(term))
  }

  lemma EmptyTermMatchesAll(s: seq<Offence>, term: string)
    ensures term == "" ==> Filter(s, SearchPredicate(term)) == s
  {
    if term == "" {
      assert forall i :: 0 <= i < |s| ==> SearchPredicate(term)(s[i]);
      FilterKeepsAll(s, SearchPredicate(term));
    }
  }

  // ---------------------------------------------------------------------
  // Fine totals

  predicate IsPaid(o: Offence) { o.paymentStatus == Paid }
  predicate IsPending(o: Offence) { o.paymentStatus == Pending }

  /** `reduce((sum, off) => sum + off.fineAmount, 0)`, which adds the fines
      from the left: the sum over a list is the sum over all but its last
      record plus the last record's fine, and the empty list sums to 0. */
  function SumFines(s: seq<Offence>): (t: int)
    ensures s == [] ==> t == 0
    ensures s != [] ==> t == SumFines(s[..|s| - 1]) + s[|s| - 1].fineAmount
  {
    if s == [] then 0
    else
      assert |s| > 1 ==> s[1..][..|s| - 2] == s[..|s| - 1][1..];
      s[0].fineAmount + SumFines(s[1..])
  }

  /** The sum over a list is the sum over the records a predicate keeps plus
      the sum over the records its complement keeps. */
  lemma {:induction false} SumFinesSplit(s: seq<Offence>, p: Offence -> bool, q: Offence -> bool)
    requires forall i :: 0 <= i < |s| ==> q(s[i]) == !p(s[i])
    ensures SumFines(s) == SumFines(Filter(s, p)) + SumFines(Filter(s, q))
  {
    if s != [] {
      SumFinesSplit(s[1..], p, q);
    }
  }

  predicate NonNegativeFines(s: seq<Offence>)
  {
    forall i :: 0 <= i < |s| ==> s[i].fineAmount >= 0
  }

  lemma {:induction false} SumFinesNonNegative(s: seq<Offence>)
    ensures NonNegativeFines(s) ==> SumFines(s) >= 0
  {
    if s != [] {
      SumFinesNonNegative(s[1..]);
    }
  }

  lemma FilterKeepsNonNegative(s: seq<Offence>, p: Offence -> bool)
    ensures NonNegativeFines(s) ==> NonNegativeFines(Filter(s, p))
  {
  }

  /** The three amounts the dashboard shows. */
  datatype FineTotals = FineTotals(total: int, paid: int, pending: int)

  /** `totalFines`, `paidFines` and `pendingFines = totalFines - paidFines`.
      Since a status is either Paid or Pending, the pending amount is the sum
      over the Pending records; with non-negative fines both parts lie
      between 0 and the total. */
  function Totals(s: seq<Offence>): (t: FineTotals)
    ensures t.total == SumFines(s)
    ensures t.paid == SumFines(Filter(s, IsPaid))
    ensures t.pending == SumFines(Filter(s, IsPending))
    ensures t.paid + t.pending == t.total
    ensures NonNegativeFines(s) ==> 0 <= t.paid <= t.total && 0 <= t.pending <= t.total
  {
    var total := SumFines(s);
    var paid := SumFines(Filter(s, IsPaid));
    SumFinesSplit(s, IsPaid, IsPending);
    FilterKeepsNonNegative(s, IsPaid);
    FilterKeepsNonNegative(s, IsPending);
    SumFinesNonNegative(Filter(s, IsPaid));
    SumFinesNonNegative(Filter(s, IsPending));
    FineTotals(total, paid, total - paid)
  }

  /** The "unpaid" count: the number of Pending records; together with the
      Paid records they make up the whole list. */
  function UnpaidCount(s: seq<Offence>): (n: nat)
    ensures n == CountWhere(s, IsPending) <= |s|
    ensures n + |Filter(s, IsPaid)| == |s|
  {
    CountComplement(s, IsPending, IsPaid);
    |Filter(s, IsPending)|
  }

  // ---------------------------------------------------------------------
  // Counting by key

  /** A count map as `Object.entries` lists it: key and count, in the order
      the keys were first inserted. */
  type Tally = seq<(string, nat)>

  function KeysOf(m: Tally): (r: seq<string>)
    ensures |r| == |m| && forall i :: 0 <= i < |m| ==> r[i] == m[i].0
  {
    seq(|m|, i requires 0 <= i < |m| => m[i].0)
  }

  predicate DistinctKeys(m: Tally)
  {
    forall i, j :: 0 <= i < j < |m| ==> m[i].0 != m[j].0
  }

  /** `m` is the count map of `keys`: each key once, with its number of
      occurrences, every key of `keys` present, in first-occurrence order. */
  predicate IsTallyOf(m: Tally, keys: seq<string>)
  {
    && DistinctKeys(m)
    && (forall i :: 0 <= i < |m| ==> m[i].0 in keys && m[i].1 == Occurrences(keys, m[i].0))
    && (forall j :: 0 <= j < |keys| ==> keys[j] in KeysOf(m))
    && (forall i, j :: 0 <= i < j < |m| ==> Rank(keys, m[i].0) < Rank(keys, m[j].0))
  }

  /** `acc[k] = (acc[k] || 0) + 1` on a count map. */
  function Bump(m: Tally, k: string): (r: Tally)
    ensures |r| == if k in KeysOf(m) then |m| else |m| + 1
  {
    if m == [] then [(k, 1)]
    else if m[0].0 == k then [(k, m[0].1 + 1)] + m[1..]
    else
      assert m == [m[0]] + m[1..];
      KeysOfPrepend(m[0], m[1..]);
      [m[0]] + Bump(m[1..], k)
  }

  /** `r` is `m` with the count of `k` raised by one in place: the same keys
      in the same order, and every other count unchanged. */
  predicate RaisedInPlace(m: Tally, k: string, r: Tally)
  {
    |r| == |m| && forall i :: 0 <= i < |m| ==>
      r[i].0 == m[i].0 && r[i].1 == (if m[i].0 == k then m[i].1 + 1 else m[i].1)
  }

  /** An existing key's count goes up by one in place; a new key is inserted
      last with count 1. */
  lemma {:induction false} BumpShape(m: Tally, k: string)
    requires DistinctKeys(m)
    ensures k in KeysOf(m) ==> RaisedInPlace(m, k, Bump(m, k))
    ensures k !in KeysOf(m) ==> Bump(m, k) == m + [(k, 1)]
  {
    if m != [] {
      KeysOfTail(m);
      if m[0].0 == k {
        BumpHead(m, k);
      } else {
        BumpShape(m[1..], k);
        if k in KeysOf(m) {
          BumpTailPresent(m, k);
        } else {
          BumpTailAbsent(m, k);
        }
      }
    }
  }

  /** Bumping the first key. */
  lemma BumpHead(m: Tally, k: string)
    requires m != [] && DistinctKeys(m) && m[0].0 == k
    ensures RaisedInPlace(m, k, Bump(m, k))
  {
    var r := Bump(m, k);
    var t := m[1..];
    assert r == [(k, m[0].1 + 1)] + t;
    forall i | 1 <= i < |m| ensures r[i] == m[i] && m[i].0 != k {
      assert r[i] == t[i - 1] == m[i];
      assert m[0].0 != m[i].0;
    }
  }

  /** Bumping a present key other than the first: the first entry stays,
      the rest is bumped in place. */
  lemma BumpTailPresent(m: Tally, k: string)
    requires m != [] && m[0].0 != k
    requires RaisedInPlace(m[1..], k, Bump(m[1..], k))
    ensures RaisedInPlace(m, k, Bump(m, k))
  {
    var r := Bump(m, k);
    var b := Bump(m[1..], k);
    assert r == [m[0]] + b;
    forall i | 1 <= i < |m| ensures r[i] == b[i - 1] && m[i] == m[1..][i - 1] {
    }
  }

  /** Bumping an absent key appends it. */
  lemma BumpTailAbsent(m: Tally, k: string)
    requires m != [] && m[0].0 != k
    requires Bump(m[1..], k) == m[1..] + [(k, 1)]
    ensures Bump(m, k) == m + [(k, 1)]
  {
    assert [m[0]] + (m[1..] + [(k, 1)]) == m + [(k, 1)];
  }

  /** The keys of a non-empty count map are its first key, then the keys of
      the rest, which are still distinct. */
  lemma KeysOfTail(m: Tally)
    requires m != [] && DistinctKeys(m)
    ensures KeysOf(m) == [m[0].0] + KeysOf(m[1..])
    ensures DistinctKeys(m[1..])
  {
    assert forall i, j :: 0 <= i < j < |m| - 1 ==> m[1..][i] == m[i + 1] && m[1..][j] == m[j + 1];
  }

  lemma OccurrencesSnoc(init: seq<string>, k: string, x: string)
    ensures Occurrences(init + [k], x) == Occurrences(init, x) + (if x == k then 1 else 0)
  {
    assert (init + [k])[..|init|] == init;
  }

  lemma RankSnoc(init: seq<string>, k: string, x: string)
    requires x in init
    ensures Rank(init + [k], x) == Rank(init, x)
  {
    FirstIndexExtend(init, k, x);
  }

  lemma RankNew(init: seq<string>, k: string)
    requires k !in init
    ensures Rank(init + [k], k) == |init|
  {
    assert (init + [k])[|init|] == k;
  }

  /** Every key of a count map's input has an entry. */
  lemma EntryOf(m: Tally, keys: seq<string>, x: string) returns (i: nat)
    requires IsTallyOf(m, keys) && x in keys
    ensures i < |m| && m[i].0 == x
  {
    var j :| 0 <= j < |keys| && keys[j] == x;
    assert keys[j] in KeysOf(m);
    i :| 0 <= i < |m| && KeysOf(m)[i] == x;
  }

  lemma TallyStepOld(m: Tally, init: seq<string>, k: string)
    requires IsTallyOf(m, init) && k in KeysOf(m)
    ensures IsTallyOf(Bump(m, k), init + [k])
  {
    var keys := init + [k];
    var r := Bump(m, k);
    BumpShape(m, k);
    assert KeysOf(r) == KeysOf(m);
    forall i | 0 <= i < |r| ensures r[i].0 in keys && r[i].1 == Occurrences(keys, r[i].0) {
      OccurrencesSnoc(init, k, r[i].0);
    }
    forall j | 0 <= j < |keys| ensures keys[j] in KeysOf(r) {
      if j < |init| {
        assert keys[j] == init[j];
      }
    }
    forall i, j | 0 <= i < j < |r| ensures Rank(keys, r[i].0) < Rank(keys, r[j].0) {
      RankSnoc(init, k, m[i].0);
      RankSnoc(init, k, m[j].0);
    }
  }

  lemma TallyStepNew(m: Tally, init: seq<string>, k: string)
    requires IsTallyOf(m, init) && k !in KeysOf(m)
    ensures IsTallyOf(Bump(m, k), init + [k])
  {
    var keys := init + [k];
    var r := Bump(m, k);
    BumpShape(m, k);
    assert r == m + [(k, 1)];
    assert k !in init;
    forall i | 0 <= i < |r| ensures r[i].0 in keys && r[i].1 == Occurrences(keys, r[i].0) {
      OccurrencesSnoc(init, k, r[i].0);
      if i == |m| {
        OccurrencesPositive(init, k);
      }
    }
    assert KeysOf(r) == KeysOf(m) + [k];
    forall j | 0 <= j < |keys| ensures keys[j] in KeysOf(r) {
      if j < |init| {
        assert keys[j] == init[j];
      }
    }
    RankNew(init, k);
    forall i, j | 0 <= i < j < |r| ensures Rank(keys, r[i].0) < Rank(keys, r[j].0) {
      RankSnoc(init, k, m[i].0);
      if j < |m| {
        RankSnoc(init, k, m[j].0);
      }
    }
  }

  /** Bumping the count map of all but the last key by the last key gives
      the count map of all the keys. */
  lemma TallyStep(m: Tally, keys: seq<string>)
    requires keys != [] && IsTallyOf(m, keys[..|keys| - 1])
    ensures IsTallyOf(Bump(m, keys[|keys| - 1]), keys)
  {
    var init, k := keys[..|keys| - 1], keys[|keys| - 1];
    assert init + [k] == keys;
    if k in KeysOf(m) {
      TallyStepOld(m, init, k);
    } else {
      TallyStepNew(m, init, k);
    }
  }

  /** The reduce that builds the count map, one key at a time. */
  function TallyOf(keys: seq<string>): (m: Tally)
    ensures IsTallyOf(m, keys)
  {
    if keys == [] then []
    else
      var m := TallyOf(keys[..|keys| - 1]);
      TallyStep(m, keys);
      Bump(m, keys[|keys| - 1])
  }

  // ---------------------------------------------------------------------
  // Most common offence type

  function Types(s: seq<Offence>): (r: seq<string>)
    ensures |r| == |s| && forall i :: 0 <= i < |s| ==> r[i] == s[i].offenceType
  {
    seq(|s|, i requires 0 <= i < |s| => s[i].offenceType)
  }

  /** The first entry of the count map sorted by descending count with a
      stable sort: the entry with the greatest count that comes first. */
  function FirstMax(m: Tally): (k: nat)
    requires |m| > 0
    ensures k < |m|
    ensures forall i :: 0 <= i < |m| ==> m[i].1 <= m[k].1
    ensures forall i :: 0 <= i < k ==> m[i].1 < m[k].1
  {
    if |m| == 1 then 0
    else
      var k := FirstMax(m[..|m| - 1]);
      if m[|m| - 1].1 > m[k].1 then |m| - 1 else k
  }

  /** `w` occurs in `keys` as often as any key does, and every key that
      first occurs before `w` occurs strictly less often. */
  predicate IsModeOf(w: string, keys: seq<string>)
  {
    && w in keys
    && (forall j :: 0 <= j < |keys| ==> Occurrences(keys, keys[j]) <= Occurrences(keys, w))
    && (forall j :: 0 <= j < FirstIndex(keys, w) ==> Occurrences(keys, keys[j]) < Occurrences(keys, w))
  }

  /** At most one key is the mode in this sense: the tie-break is total. */
  lemma ModeUnique(keys: seq<string>, a: string, b: string)
    requires IsModeOf(a, keys) && IsModeOf(b, keys)
    ensures a == b
  {
  }

  /** No key occurs more often than the first maximal entry's. */
  lemma FirstMaxIsMaximal(m: Tally, keys: seq<string>, j: nat)
    requires IsTallyOf(m, keys) && j < |keys|
    ensures m != [] && Occurrences(keys, keys[j]) <= m[FirstMax(m)].1
  {
    var i := EntryOf(m, keys, keys[j]);
  }

  /** Every key first seen before the first maximal entry's key occurs
      strictly less often. */
  lemma FirstMaxIsFirst(m: Tally, keys: seq<string>, j: nat)
    requires IsTallyOf(m, keys) && m != []
    requires m[FirstMax(m)].0 in keys && j < FirstIndex(keys, m[FirstMax(m)].0)
    ensures Occurrences(keys, keys[j]) < m[FirstMax(m)].1
  {
    var k := FirstMax(m);
    var i := EntryOf(m, keys, keys[j]);
    assert Rank(keys, keys[j]) <= j < Rank(keys, m[k].0);
  }

  /** The first maximal entry of the count map is the mode. */
  lemma FirstMaxIsMode(keys: seq<string>)
    requires keys != []
    ensures TallyOf(keys) != [] && IsModeOf(TallyOf(keys)[FirstMax(TallyOf(keys))].0, keys)
  {
    var m := TallyOf(keys);
    FirstMaxIsMaximal(m, keys, 0);
    var w := m[FirstMax(m)].0;
    forall j | 0 <= j < |keys| ensures Occurrences(keys, keys[j]) <= Occurrences(keys, w) {
      FirstMaxIsMaximal(m, keys, j);
    }
    forall j | 0 <= j < FirstIndex(keys, w) ensures Occurrences(keys, keys[j]) < Occurrences(keys, w) {
      FirstMaxIsFirst(m, keys, j);
    }
  }

  /** The most frequent key, ties going to the key seen first. */
  function Mode(keys: seq<string>): (w: string)
    requires keys != []
    ensures IsModeOf(w, keys)
  {
    FirstMaxIsMode(keys);
    var m := TallyOf(keys);
    m[FirstMax(m)].0
  }

  /** `mostCommonOffence`: "None" for an empty list, otherwise the most
      common offence type with ties going to the type recorded first, except
      that a winning empty type also reads as "None". */
  function MostCommonOffence(s: seq<Offence>): (r: string)
    ensures s == [] ==> r == "None"
    ensures s != [] ==> exists w :: IsModeOf(w, Types(s)) && r == (if w == "" then "None" else w)
  {
    if s == [] then "None"
    else
      var w := Mode(Types(s));
      if w == "" then "None" else w
  }

  // ---------------------------------------------------------------------
  // Repeat offenders

  function Vehicles(s: seq<Offence>): (r: seq<string>)
    ensures |r| == |s| && forall i :: 0 <= i < |s| ==> r[i] == s[i].vehicleNumber
  {
    seq(|s|, i requires 0 <= i < |s| => s[i].vehicleNumber)
  }

  predicate IsRepeat(e: (string, nat)) { e.1 > 1 }

  function RepeatedIn(keys: seq<string>): string -> bool
  {
    (x: string) => Occurrences(keys, x) > 1
  }

  /** Keeping the entries with a count above one and listing their keys is
      keeping the keys that occur more than once. */
  lemma {:induction false} KeysOfRepeats(m: Tally, keys: seq<string>)
    requires forall i :: 0 <= i < |m| ==> m[i].1 == Occurrences(keys, m[i].0)
    ensures KeysOf(Filter(m, IsRepeat)) == Filter(KeysOf(m), RepeatedIn(keys))
  {
    if m != [] {
      KeysOfRepeats(m[1..], keys);
      var rest := Filter(m[1..], IsRepeat);
      assert m == [m[0]] + m[1..];
      KeysOfPrepend(m[0], m[1..]);
      KeysOfPrepend(m[0], rest);
      assert IsRepeat(m[0]) == RepeatedIn(keys)(m[0].0);
    }
  }

  lemma KeysOfPrepend(e: (string, nat), t: Tally)
    ensures KeysOf([e] + t) == [e.0] + KeysOf(t)
  {
  }

  /** The keys that occur more than once, in first-occurrence order. */
  lemma RepeatsInOrder(vs: seq<string>)
    ensures var r := KeysOf(Filter(TallyOf(vs), IsRepeat));
      && (forall i :: 0 <= i < |r| ==> Occurrences(vs, r[i]) > 1)
      && (forall j :: 0 <= j < |vs| && Occurrences(vs, vs[j]) > 1 ==> vs[j] in r)
      && (forall i, j :: 0 <= i < j < |r| ==> Rank(vs, r[i]) < Rank(vs, r[j]))
  {
    var m := TallyOf(vs);
    KeysOfRepeats(m, vs);
    var r := KeysOf(Filter(m, IsRepeat));
    assert r == Filter(KeysOf(m), RepeatedIn(vs));
    SubseqKeepsRankOrder(r, KeysOf(m), vs);
    forall j | 0 <= j < |vs| && Occurrences(vs, vs[j]) > 1 ensures vs[j] in r {
      var i := EntryOf(m, vs, vs[j]);
      assert KeysOf(m)[i] == vs[j];
      assert RepeatedIn(vs)(KeysOf(m)[i]);
    }
  }

  /** `repeatOffenders`: every vehicle number recorded more than once, each
      exactly once, in the order the vehicles were first recorded. Vehicle
      numbers are compared exactly, case included. */
  function RepeatOffenders(s: seq<Offence>): (r: seq<string>)
    ensures forall i :: 0 <= i < |r| ==> Occurrences(Vehicles(s), r[i]) > 1
    ensures forall j :: 0 <= j < |s| && Occurrences(Vehicles(s), s[j].vehicleNumber) > 1 ==>
      s[j].vehicleNumber in r
    ensures forall i, j :: 0 <= i < j < |r| ==>
      r[i] != r[j] && Rank(Vehicles(s), r[i]) < Rank(Vehicles(s), r[j])
  {
    RepeatsInOrder(Vehicles(s));
    KeysOf(Filter(TallyOf(Vehicles(s)), IsRepeat))
  }

  /** A string without the needle's first character does not contain it. */
  lemma {:induction false} MissingFirstChar(hay: string, needle: string)
    requires needle != [] && needle[0] !in hay
    ensures !Contains(hay, needle)
  {
    if hay != [] {
      MissingFirstChar(hay[1..], needle);
    }
  }

  lemma SeedLagplates()
    ensures MatchesSearch(SeedData()[0], "LAG") && MatchesSearch(SeedData()[2], "LAG")
  {
    assert Lower("LAG") == "lag";
    assert "lag" <= Lower(SeedData()[0].vehicleNumber);
    assert "lag" <= Lower(SeedData()[2].vehicleNumber);
  }

  lemma LowerWithoutL(s: string)
    requires 'l' !in s && 'L' !in s
    ensures 'l' !in Lower(s)
  {
  }

  lemma SeedOtherPlate()
    ensures !MatchesSearch(SeedData()[1], "LAG")
  {
    var o := SeedData()[1];
    assert Lower("LAG") == "lag";
    LowerWithoutL(o.vehicleNumber);
    LowerWithoutL(o.id);
    LowerWithoutL(o.offenderName);
    MissingFirstChar(Lower(o.vehicleNumber), "lag");
    MissingFirstChar(Lower(o.id), "lag");
    MissingFirstChar(Lower(o.offenderName), "lag");
  }

  /** The seeded list, searched for "LAG", shows the two Lagos plates. */
  lemma SeedSearchLag()
    ensures var r := FilteredOffences(SeedData(), "LAG");
      |r| == 2 && r[0].id == "OFF001" && r[1].id == "OFF003"
  {
    var seed := SeedData();
    SeedLagplates();
    SeedOtherPlate();
    FilterThree(seed[0], seed[1], seed[2], SearchPredicate("LAG"));
    assert seed == [seed[0], seed[1], seed[2]];
  }
}
