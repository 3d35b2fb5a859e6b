/**
 * The lead table (`LeadTable`): the connection filter, the connection-priority
 * sort, the connection counts, the replacement of one row after a single
 * enrich, and the guard of "enrich all".
 */
module LeadTable {
  import opened Wrappers
  import opened JsString
  import opened LeadStore

  // ---------------------------------------------------------------------------
  // filteredLeads

  /** Whether a lead passes the connection filter: `'all'` passes all, `'none'` the empty degrees, else exact matches. */
  predicate Passes(filter: string, l: Lead) {
    if filter == "all" then true
    else if filter == "none" then !Truthy(l.connectionDegree)
    else l.connectionDegree == Some(filter)
  }

  /** `leads.filter(...)` with the connection filter. */
  function Filtered(leads: seq<Lead>, filter: string): seq<Lead> {
    if leads == [] then []
    else (if Passes(filter, leads[0]) then [leads[0]] else []) + Filtered(leads[1..], filter)
  }

  /** `a` is `b` with some entries left out, the rest in their order. */
  predicate IsSubsequence(a: seq<Lead>, b: seq<Lead>)
    decreases |b|
  {
    if b == [] then a == []
    else (a != [] && a[0] == b[0] && IsSubsequence(a[1..], b[1..])) || IsSubsequence(a, b[1..])
  }

  /** The filter keeps the table's order: its result is a subsequence of the table. */
  lemma {:induction false} FilteredInOrder(leads: seq<Lead>, filter: string)
    ensures IsSubsequence(Filtered(leads, filter), leads)
  {
    if leads != [] {
      var rest := Filtered(leads[1..], filter);
      FilteredInOrder(leads[1..], filter);
      if Passes(filter, leads[0]) {
        assert ([leads[0]] + rest)[1..] == rest;
        assert Filtered(leads, filter) == [leads[0]] + rest;
      } else {
        assert Filtered(leads, filter) == rest;
      }
    }
  }

  /**
   * The filter keeps the leads that pass it and no others: every lead that
   * passes is kept as often as it occurs in the table, every other is dropped.
   */
  lemma {:induction false} FilteredCounts(leads: seq<Lead>, filter: string)
    ensures forall l :: multiset(Filtered(leads, filter))[l] == if Passes(filter, l) then multiset(leads)[l] else 0
  {
    if leads != [] {
      FilteredCounts(leads[1..], filter);
      assert leads == [leads[0]] + leads[1..];
    }
  }

  /** The three kinds of filter: `'all'` is the identity, `'none'` keeps the empty degrees, anything else exact matches. */
  lemma FilterKinds(leads: seq<Lead>, filter: string, l: Lead)
    ensures filter == "all" ==> Filtered(leads, filter) == leads
    ensures filter == "none" ==> (l in Filtered(leads, filter) <==> l in leads && !Truthy(l.connectionDegree))
    ensures filter != "all" && filter != "none" ==>
              (l in Filtered(leads, filter) <==> l in leads && l.connectionDegree == Some(filter))
  {
    FilteredCounts(leads, filter);
    assert multiset(Filtered(leads, filter))[l] == if Passes(filter, l) then multiset(leads)[l] else 0;
    if filter == "all" {
      AllKeepsEverything(leads);
    }
  }

  lemma {:induction false} AllKeepsEverything(leads: seq<Lead>)
    ensures Filtered(leads, "all") == leads
  {
    if leads != [] {
      AllKeepsEverything(leads[1..]);
      assert [leads[0]] + leads[1..] == leads;
    }
  }

  // ---------------------------------------------------------------------------
  // sortedLeads

  /** The sort choices of the model; the name and company orders are not part of it. */
  datatype SortBy = DefaultOrder | ByConnection

  /** `connectionOrder[degree || ''] || 4`: 1st, 2nd, 3rd, then everything else. */
  function Rank(l: Lead): (r: nat)
    ensures 1 <= r <= 4
  {
    match l.connectionDegree
    case Some(d) => if d == "1st" then 1 else if d == "2nd" then 2 else if d == "3rd" then 3 else 4
    case None => 4
  }

  /** A stable insertion: `l` goes before the first lead of a higher or equal rank. */
  function Insert(l: Lead, sorted: seq<Lead>): seq<Lead> {
    if sorted == [] || Rank(l) <= Rank(sorted[0]) then [l] + sorted
    else [sorted[0]] + Insert(l, sorted[1..])
  }

  /** The stable sort by rank (`Array.prototype.sort` is stable). */
  function SortByRank(leads: seq<Lead>): seq<Lead> {
    if leads == [] then [] else Insert(leads[0], SortByRank(leads[1..]))
  }

  /** `[...filteredLeads].sort(...)`: the default comparator is always 0, which keeps the order. */
  function Sorted(leads: seq<Lead>, sortBy: SortBy): seq<Lead> {
    match sortBy
    case DefaultOrder => leads
    case ByConnection => SortByRank(leads)
  }

  predicate NonDecreasingRank(s: seq<Lead>) {
    forall i, j :: 0 <= i < j < |s| ==> Rank(s[i]) <= Rank(s[j])
  }

  /** The leads of one rank, in order. */
  function OfRank(s: seq<Lead>, r: nat): seq<Lead> {
    if s == [] then [] else (if Rank(s[0]) == r then [s[0]] else []) + OfRank(s[1..], r)
  }

  lemma {:induction false} InsertPermutes(l: Lead, sorted: seq<Lead>)
    ensures multiset(Insert(l, sorted)) == multiset(sorted) + multiset{l}
  {
    if sorted != [] && Rank(l) > Rank(sorted[0]) {
      InsertPermutes(l, sorted[1..]);
      assert sorted == [sorted[0]] + sorted[1..];
    }
  }

  lemma {:induction false} InsertOrders(l: Lead, sorted: seq<Lead>)
    requires NonDecreasingRank(sorted)
    ensures NonDecreasingRank(Insert(l, sorted))
  {
    if sorted != [] && Rank(l) > Rank(sorted[0]) {
      var rest := Insert(l, sorted[1..]);
      InsertOrders(l, sorted[1..]);
      InsertKeepsFloor(l, sorted[1..], Rank(sorted[0]));
      var r := [sorted[0]] + rest;
      forall i, j | 0 <= i < j < |r| ensures Rank(r[i]) <= Rank(r[j]) {
        assert r[j] == rest[j - 1];
        if i > 0 {
          assert r[i] == rest[i - 1];
        }
      }
    }
  }

  /** Inserting a lead of rank at least `floor` among leads of rank at least `floor` keeps them so. */
  lemma {:induction false} InsertKeepsFloor(l: Lead, s: seq<Lead>, floor: nat)
    requires Rank(l) >= floor
    requires forall k :: 0 <= k < |s| ==> Rank(s[k]) >= floor
    ensures forall k :: 0 <= k < |Insert(l, s)| ==> Rank(Insert(l, s)[k]) >= floor
  {
    if s != [] && Rank(l) > Rank(s[0]) {
      InsertKeepsFloor(l, s[1..], floor);
      assert forall k :: 1 <= k < |Insert(l, s)| ==> Insert(l, s)[k] == Insert(l, s[1..])[k - 1];
    }
  }

  lemma {:induction false} InsertKeepsRanks(l: Lead, sorted: seq<Lead>, r: nat)
    ensures OfRank(Insert(l, sorted), r) == (if Rank(l) == r then [l] else []) + OfRank(sorted, r)
  {
    if sorted == [] || Rank(l) <= Rank(sorted[0]) {
      assert ([l] + sorted)[1..] == sorted;
    } else {
      var rest := Insert(l, sorted[1..]);
      InsertKeepsRanks(l, sorted[1..], r);
      assert ([sorted[0]] + rest)[1..] == rest;
    }
  }

  /** The connection sort returns the same leads: a permutation of its input. */
  lemma {:induction false} SortByRankPermutes(leads: seq<Lead>)
    ensures multiset(SortByRank(leads)) == multiset(leads)
  {
    if leads != [] {
      SortByRankPermutes(leads[1..]);
      InsertPermutes(leads[0], SortByRank(leads[1..]));
      assert leads == [leads[0]] + leads[1..];
    }
  }

  /** The connection sort puts 1st before 2nd before 3rd before the rest. */
  lemma {:induction false} SortByRankOrders(leads: seq<Lead>)
    ensures NonDecreasingRank(SortByRank(leads))
  {
    if leads != [] {
      SortByRankOrders(leads[1..]);
      InsertOrders(leads[0], SortByRank(leads[1..]));
    }
  }

  /** The connection sort is stable: the leads of each rank keep their relative order. */
  lemma {:induction false} SortByRankStable(leads: seq<Lead>, r: nat)
    ensures OfRank(SortByRank(leads), r) == OfRank(leads, r)
  {
    if leads != [] {
      SortByRankStable(leads[1..], r);
      InsertKeepsRanks(leads[0], SortByRank(leads[1..]), r);
    }
  }

  /**
   * The rows the table shows: the filtered leads, in their order by default,
   * and by connection a stable permutation of them in rank order.
   */
  lemma SortedLeadsSpec(leads: seq<Lead>, filter: string, sortBy: SortBy)
    ensures multiset(Sorted(Filtered(leads, filter), sortBy)) == multiset(Filtered(leads, filter))
    ensures sortBy == DefaultOrder ==> Sorted(Filtered(leads, filter), sortBy) == Filtered(leads, filter)
    ensures sortBy == ByConnection ==> NonDecreasingRank(Sorted(Filtered(leads, filter), sortBy))
    ensures forall r :: OfRank(Sorted(Filtered(leads, filter), sortBy), r) == OfRank(Filtered(leads, filter), r)
  {
    var shown := Filtered(leads, filter);
    SortByRankPermutes(shown);
    SortByRankOrders(shown);
    forall r ensures OfRank(Sorted(shown, sortBy), r) == OfRank(shown, r) {
      SortByRankStable(shown, r);
    }
  }

  // ---------------------------------------------------------------------------
  // connectionStats

  datatype ConnectionStats = ConnectionStats(first: nat, second: nat, third: nat, none: nat, total: nat)

  /** The number of leads with exactly this degree. */
  function CountDegree(leads: seq<Lead>, degree: string): nat {
    if leads == [] then 0 else (if leads[0].connectionDegree == Some(degree) then 1 else 0) + CountDegree(leads[1..], degree)
  }

  /** The number of leads with an empty or absent degree. */
  function CountNone(leads: seq<Lead>): nat {
    if leads == [] then 0 else (if !Truthy(leads[0].connectionDegree) then 1 else 0) + CountNone(leads[1..])
  }

  function Stats(leads: seq<Lead>): ConnectionStats {
    ConnectionStats(CountDegree(leads, "1st"), CountDegree(leads, "2nd"), CountDegree(leads, "3rd"),
                    CountNone(leads), |leads|)
  }

  /** A degree one of the four counts covers. */
  predicate Counted(l: Lead) {
    !Truthy(l.connectionDegree) || l.connectionDegree.value == "1st" || l.connectionDegree.value == "2nd" ||
    l.connectionDegree.value == "3rd"
  }

  /**
   * The four counts never exceed the total, and add up to it exactly when every
   * lead's degree is `1st`, `2nd`, `3rd` or empty.
   */
  lemma {:induction false} StatsSpec(leads: seq<Lead>)
    ensures var s := Stats(leads);
            && s.first + s.second + s.third + s.none <= s.total
            && (s.first + s.second + s.third + s.none == s.total <==> forall k :: 0 <= k < |leads| ==> Counted(leads[k]))
  {
    if leads != [] {
      StatsSpec(leads[1..]);
      assert forall k :: 1 <= k < |leads| ==> leads[k] == leads[1..][k - 1];
    }
  }

  // ---------------------------------------------------------------------------
  // handleEnrich, handleEnrichAll

  /** `prev.map(lead => lead.id === leadId ? data.lead : lead)`. */
  function ReplaceById(leads: seq<Lead>, id: Id, updated: Lead): (r: seq<Lead>)
    ensures |r| == |leads|
    ensures forall k :: 0 <= k < |leads| ==> r[k] == if leads[k].id == id then updated else leads[k]
  {
    if leads == [] then [] else [if leads[0].id == id then updated else leads[0]] + ReplaceById(leads[1..], id, updated)
  }

  /** The table shows the store: every row is the stored lead under its id. */
  predicate Mirrors(leads: seq<Lead>, rows: map<Id, Lead>) {
    forall k :: 0 <= k < |leads| ==> leads[k].id in rows && rows[leads[k].id] == leads[k]
  }

  /**
   * A table that shows the store keeps showing it after a single enrich: the
   * server writes one lead under its id and replies with it, and the table
   * replaces exactly the rows with that id.
   */
  lemma ReplaceKeepsMirror(leads: seq<Lead>, rows: map<Id, Lead>, updated: Lead)
    requires Mirrors(leads, rows)
    ensures Mirrors(ReplaceById(leads, updated.id, updated), rows[updated.id := updated])
  {
  }

  /** `handleEnrichAll` sends its request only when some lead is `pending`. */
  function EnrichAllSends(leads: seq<Lead>): bool {
    exists k :: 0 <= k < |leads| && leads[k].status == Pending
  }

  /** The number of pending leads the "enrich all" notice reports. */
  function CountPending(leads: seq<Lead>): nat {
    if leads == [] then 0 else (if leads[0].status == Pending then 1 else 0) + CountPending(leads[1..])
  }

  /** No request goes out exactly when the pending count is zero. */
  lemma {:induction false} EnrichAllGuard(leads: seq<Lead>)
    ensures !EnrichAllSends(leads) <==> CountPending(leads) == 0
  {
    if leads != [] {
      EnrichAllGuard(leads[1..]);
      assert forall k :: 1 <= k < |leads| ==> leads[k] == leads[1..][k - 1];
      if leads[0].status != Pending && EnrichAllSends(leads) {
        var k :| 0 <= k < |leads| && leads[k].status == Pending;
        assert leads[1..][k - 1].status == Pending;
      }
    }
  }
}
