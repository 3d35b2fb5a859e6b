/**
 * The record store the routes talk to: lead records keyed by id, in creation
 * order, with the four operations the routes use — `findUnique`, `create`,
 * `update` by id, and `findMany` of pending leads with a `take` limit.
 */
module LeadStore {
  import opened Wrappers

  type Id = nat

  /** The `enrichedAt` stamp; the clock that produces it is a parameter of the routes. */
  type Timestamp = nat

  /** `enrichmentStatus`. */
  datatype Status = Pending | Completed | Failed

  /** One lead record: profile fields, enrichment fields, status and stamp. */
  datatype Lead = Lead(
    id: Id,
    name: string,
    title: Option<string>,
    company: Option<string>,
    location: Option<string>,
    linkedinUrl: Option<string>,
    connectionDegree: Option<string>,
    email: Option<string>,
    phone: Option<string>,
    hierarchy: Option<string>,
    emailTemplate: Option<string>,
    status: Status,
    enrichedAt: Option<Timestamp>)

  /** The `data` of a `create`: every field of a lead but its id. */
  datatype Draft = Draft(
    name: string,
    title: Option<string>,
    company: Option<string>,
    location: Option<string>,
    linkedinUrl: Option<string>,
    connectionDegree: Option<string>,
    email: Option<string>,
    phone: Option<string>,
    hierarchy: Option<string>,
    emailTemplate: Option<string>,
    status: Status,
    enrichedAt: Option<Timestamp>)

  /** One field of the `data` of an `update`: left out (kept) or given a new value. */
  datatype Patch<T> = Keep | Put(value: T)

  /** The `data` of an `update`: the enrichment fields, the status and the stamp; profile fields are never updated. */
  datatype LeadPatch = LeadPatch(
    email: Patch<Option<string>>,
    phone: Patch<Option<string>>,
    hierarchy: Patch<Option<string>>,
    emailTemplate: Patch<Option<string>>,
    status: Patch<Status>,
    enrichedAt: Patch<Option<Timestamp>>)

  function Patched<T>(p: Patch<T>, current: T): T {
    match p
    case Keep => current
    case Put(v) => v
  }

  /** The lead a draft becomes under the id the store gives it. */
  function FromDraft(id: Id, d: Draft): (l: Lead)
    ensures l.id == id && l.name == d.name && l.status == d.status
    ensures l.email == d.email && l.phone == d.phone && l.hierarchy == d.hierarchy
    ensures l.emailTemplate == d.emailTemplate && l.enrichedAt == d.enrichedAt
    ensures l.title == d.title && l.company == d.company && l.location == d.location
    ensures l.linkedinUrl == d.linkedinUrl && l.connectionDegree == d.connectionDegree
  {
    Lead(id, d.name, d.title, d.company, d.location, d.linkedinUrl, d.connectionDegree,
         d.email, d.phone, d.hierarchy, d.emailTemplate, d.status, d.enrichedAt)
  }

  /** Same id and profile: the fields no update touches. */
  predicate SameProfile(a: Lead, b: Lead) {
    a.id == b.id && a.name == b.name && a.title == b.title && a.company == b.company &&
    a.location == b.location && a.linkedinUrl == b.linkedinUrl && a.connectionDegree == b.connectionDegree
  }

  /** An update applied to one lead: each given field takes its new value, every other field stays. */
  function ApplyPatch(l: Lead, p: LeadPatch): (r: Lead)
    ensures SameProfile(l, r)
    ensures p == LeadPatch(Keep, Keep, Keep, Keep, Keep, Keep) ==> r == l
    ensures p.status.Put? ==> r.status == p.status.value
    ensures p.status.Keep? ==> r.status == l.status
    ensures p.email.Put? ==> r.email == p.email.value
    ensures p.email.Keep? ==> r.email == l.email
    ensures p.emailTemplate.Put? ==> r.emailTemplate == p.emailTemplate.value
    ensures p.emailTemplate.Keep? ==> r.emailTemplate == l.emailTemplate
    ensures p.phone.Put? ==> r.phone == p.phone.value
    ensures p.phone.Keep? ==> r.phone == l.phone
    ensures p.hierarchy.Put? ==> r.hierarchy == p.hierarchy.value
    ensures p.hierarchy.Keep? ==> r.hierarchy == l.hierarchy
    ensures p.enrichedAt.Put? ==> r.enrichedAt == p.enrichedAt.value
    ensures p.enrichedAt.Keep? ==> r.enrichedAt == l.enrichedAt
  {
    l.(email := Patched(p.email, l.email),
       phone := Patched(p.phone, l.phone),
       hierarchy := Patched(p.hierarchy, l.hierarchy),
       emailTemplate := Patched(p.emailTemplate, l.emailTemplate),
       status := Patched(p.status, l.status),
       enrichedAt := Patched(p.enrichedAt, l.enrichedAt))
  }

  /** Ids listed once each. */
  predicate Distinct(ids: seq<Id>) {
    forall i, j :: 0 <= i < j < |ids| ==> ids[i] != ids[j]
  }

  /**
   * `findMany({ where: { enrichmentStatus: 'pending' }, take })` with the store's
   * default order, creation order: the first `take` pending leads.
   */
  function FirstPending(rows: map<Id, Lead>, order: seq<Id>, take: nat): seq<Lead>
    decreases |order|
  {
    if order == [] || take == 0 then []
    else if order[0] in rows && rows[order[0]].status == Pending then
      [rows[order[0]]] + FirstPending(rows, order[1..], take - 1)
    else FirstPending(rows, order[1..], take)
  }

  /**
   * The pending batch holds at most `take` leads, each pending and stored under
   * its own id, in creation order; it is short only when no other pending lead exists.
   */
  lemma {:induction false} FirstPendingSpec(rows: map<Id, Lead>, order: seq<Id>, take: nat)
    requires forall id :: id in rows ==> rows[id].id == id
    ensures var b := FirstPending(rows, order, take);
            && |b| <= take
            && (forall k :: 0 <= k < |b| ==> b[k].status == Pending && b[k].id in rows && rows[b[k].id] == b[k])
            && (forall k :: 0 <= k < |b| ==> b[k].id in order)
            && (|b| < take ==> forall i :: 0 <= i < |order| && order[i] in rows && rows[order[i]].status == Pending ==>
                                 rows[order[i]] in b)
    decreases |order|
  {
    if order != [] && take != 0 {
      FirstPendingSpec(rows, order[1..], if order[0] in rows && rows[order[0]].status == Pending then take - 1 else take);
      var b := FirstPending(rows, order, take);
      var rest := FirstPending(rows, order[1..], if order[0] in rows && rows[order[0]].status == Pending then take - 1 else take);
      forall k | 0 <= k < |b| ensures b[k].id in order {
        if order[0] in rows && rows[order[0]].status == Pending {
          if k > 0 {
            assert b[k] == rest[k - 1];
            assert b[k].id in order[1..];
          }
        } else {
          assert b[k].id in order[1..];
        }
      }
      if |b| < take {
        forall i | 0 <= i < |order| && order[i] in rows && rows[order[i]].status == Pending
          ensures rows[order[i]] in b
        {
          if i > 0 {
            assert order[i] == order[1..][i - 1];
          }
        }
      }
    }
  }

  /** The ids of a list of leads. */
  function Ids(leads: seq<Lead>): (ids: seq<Id>)
    ensures |ids| == |leads| && forall k :: 0 <= k < |leads| ==> ids[k] == leads[k].id
  {
    if leads == [] then [] else Ids(leads[..|leads| - 1]) + [leads[|leads| - 1].id]
  }

  /** The leads of a pending batch are distinct leads. */
  lemma {:induction false} FirstPendingDistinct(rows: map<Id, Lead>, order: seq<Id>, take: nat)
    requires forall id :: id in rows ==> rows[id].id == id
    requires Distinct(order)
    ensures Distinct(Ids(FirstPending(rows, order, take)))
    decreases |order|
  {
    if order != [] && take != 0 {
      var pick := order[0] in rows && rows[order[0]].status == Pending;
      var rest := FirstPending(rows, order[1..], if pick then take - 1 else take);
      assert Distinct(order[1..]);
      FirstPendingDistinct(rows, order[1..], if pick then take - 1 else take);
      if pick {
        FirstPendingSpec(rows, order[1..], take - 1);
        var x := rows[order[0]];
        DistinctCons(x, rest);
      }
    }
  }

  /** A lead whose id is not among those of a distinct list keeps it distinct when put in front. */
  lemma DistinctCons(x: Lead, rest: seq<Lead>)
    requires Distinct(Ids(rest)) && x.id !in Ids(rest)
    ensures Distinct(Ids([x] + rest))
  {
    var b := [x] + rest;
    forall i, j | 0 <= i < j < |b| ensures Ids(b)[i] != Ids(b)[j] {
      assert Ids(b)[j] == Ids(rest)[j - 1];
      if i > 0 {
        assert Ids(b)[i] == Ids(rest)[i - 1];
      }
    }
  }

  /** The lead store: lead records by id, the order they were created in, and the next id to give. */
  class Store {
    var rows: map<Id, Lead>
    var order: seq<Id>
    var nextId: Id

    /** Every stored lead sits under its own id, listed once in `order`, below `nextId`. */
    ghost predicate Valid()
      reads this
    {
      && (forall id :: id in rows <==> id in order)
      && Distinct(order)
      && (forall id :: id in rows ==> rows[id].id == id && id < nextId)
    }

    constructor ()
      ensures Valid() && rows == map[] && order == []
    {
      rows := map[];
      order := [];
      nextId := 0;
    }

    /** `findUnique({ where: { id } })`: the lead, or `null`. */
    method FindUnique(id: Id) returns (found: Option<Lead>)
      ensures found.Some? <==> id in rows
      ensures found.Some? ==> found.value == rows[id]
    {
      if id in rows {
        found := Some(rows[id]);
      } else {
        found := None;
      }
    }

    /** `create({ data })`: a new lead under a fresh id, last in creation order. */
    method Create(d: Draft) returns (l: Lead)
      requires Valid()
      modifies this
      ensures Valid()
      ensures l == FromDraft(old(nextId), d) && l.id !in old(rows)
      ensures rows == old(rows)[l.id := l] && order == old(order) + [l.id]
      ensures nextId == old(nextId) + 1
    {
      l := FromDraft(nextId, d);
      assert nextId !in order;
      rows := rows[nextId := l];
      order := order + [nextId];
      nextId := nextId + 1;
    }

    /**
     * `update({ where: { id }, data })`: the patched lead, or `None` when no lead
     * has that id (the store throws and nothing changes).
     */
    method Update(id: Id, p: LeadPatch) returns (updated: Option<Lead>)
      requires Valid()
      modifies this
      ensures Valid() && order == old(order) && nextId == old(nextId)
      ensures id !in old(rows) ==> updated == None && rows == old(rows)
      ensures id in old(rows) ==> updated == Some(ApplyPatch(old(rows)[id], p)) &&
                                  rows == old(rows)[id := updated.value]
    {
      if id in rows {
        var l := ApplyPatch(rows[id], p);
        assert l.id == id;
        rows := rows[id := l];
        updated := Some(l);
      } else {
        updated := None;
      }
    }

    /** `findMany({ where: { enrichmentStatus: 'pending' }, take })`. */
    method FindManyPending(take: nat) returns (batch: seq<Lead>)
      ensures batch == FirstPending(rows, order, take)
    {
      batch := [];
      var i: nat, left: nat := 0, take;
      while i < |order| && left > 0
        invariant 0 <= i <= |order| && left <= take
        invariant batch + FirstPending(rows, order[i..], left) == FirstPending(rows, order, take)
      {
        assert order[i..][1..] == order[i + 1..];
        var id := order[i];
        if id in rows && rows[id].status == Pending {
          batch := batch + [rows[id]];
          left := left - 1;
        }
        i := i + 1;
      }
    }
  }
}
