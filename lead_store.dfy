/**
 * Id handling, request bodies, responses, and the grouping and ordering
 * helpers used by the lead handlers of
 * `backend/controllers/leadController.js`.
 */
module LeadStoreBasics {
  import opened Wrappers
  import opened Text
  import opened Sorting
  import opened LeadSchema

  predicate IsHexDigit(c: char) { '0' <= c <= '9' || 'a' <= c <= 'f' || 'A' <= c <= 'F' }

  /** The shape of a database identifier: 24 hexadecimal digits. A route
      parameter of any other shape makes the lookup fail with a cast error. */
  predicate WellFormedId(id: string) {
    |id| == 24 && forall k :: 0 <= k < |id| ==> IsHexDigit(id[k])
  }

  /** A request body: each of the eight lead fields may be absent. */
  datatype Body = Body(
    fullName: Option<string>,
    phoneNumber: Option<string>,
    email: Option<string>,
    linkedinProfile: Option<string>,
    projectType: Option<string>,
    requirement: Option<string>,
    notes: Option<string>,
    status: Option<string>)

  /** One entry of a grouping: a field value and how many leads carry it. */
  datatype Group = Group(id: string, count: nat)

  /** The statistics payload: the total and the two groupings. */
  datatype Stats = Stats(total: nat, byStatus: seq<Group>, byProjectType: seq<Group>)

  /** What a response's `data` (or `error`) field carries. */
  datatype Payload =
    | NoData
    | EmptyObject
    | OneLead(lead: Lead)
    | LeadList(count: nat, leads: seq<Lead>)
    | StatsData(stats: Stats)
    | ErrorDetail(messages: seq<string>)

  /** An HTTP response: status code, `success` flag, optional `message` and the payload. */
  datatype Response = Response(code: int, success: bool, message: Option<string>, payload: Payload)

  /** JavaScript's `value || fallback` on an optional string: an absent or
      empty value gives the fallback. */
  function OrElse(v: Option<string>, fallback: string): string {
    if v.Some? && v.value != [] then v.value else fallback
  }

  /** The record `createLead` hands to the database: every text field
      defaults to `''`, the project type to `'App'`, the status to `'New'`. */
  function CreateFields(b: Body): LeadFields {
    LeadFields(
      OrElse(b.fullName, ""), OrElse(b.phoneNumber, ""), OrElse(b.email, ""),
      OrElse(b.linkedinProfile, ""), OrElse(b.projectType, "App"), OrElse(b.requirement, ""),
      OrElse(b.notes, ""), OrElse(b.status, "New"))
  }

  /** A body value JavaScript treats as false: absent or empty. */
  predicate Falsy(v: Option<string>) {
    v == None || v == Some("")
  }

  /** Falsy body fields take their defaults; the others are kept. A text
      field given as `''` keeps it, since its default is `''` as well. */
  lemma CreateFieldsDefaults(b: Body)
    ensures Falsy(b.fullName) ==> CreateFields(b).fullName == ""
    ensures Falsy(b.phoneNumber) ==> CreateFields(b).phoneNumber == ""
    ensures Falsy(b.email) ==> CreateFields(b).email == ""
    ensures Falsy(b.linkedinProfile) ==> CreateFields(b).linkedinProfile == ""
    ensures Falsy(b.projectType) ==> CreateFields(b).projectType == "App"
    ensures Falsy(b.requirement) ==> CreateFields(b).requirement == ""
    ensures Falsy(b.notes) ==> CreateFields(b).notes == ""
    ensures Falsy(b.status) ==> CreateFields(b).status == "New"
    ensures b.fullName.Some? ==> CreateFields(b).fullName == b.fullName.value
    ensures b.phoneNumber.Some? ==> CreateFields(b).phoneNumber == b.phoneNumber.value
    ensures b.email.Some? ==> CreateFields(b).email == b.email.value
    ensures b.linkedinProfile.Some? ==> CreateFields(b).linkedinProfile == b.linkedinProfile.value
    ensures !Falsy(b.projectType) ==> CreateFields(b).projectType == b.projectType.value
    ensures b.requirement.Some? ==> CreateFields(b).requirement == b.requirement.value
    ensures b.notes.Some? ==> CreateFields(b).notes == b.notes.value
    ensures !Falsy(b.status) ==> CreateFields(b).status == b.status.value
    ensures CreateFields(b).projectType != "" && CreateFields(b).status != ""
  {
  }

  /** What the database stores on a successful create: the cast record with
      the pre-save hook's title-cased name. */
  function StoredOnCreate(b: Body): LeadFields {
    var f := Cast(CreateFields(b));
    f.(fullName := TitleCase(f.fullName))
  }

  /** `findByIdAndUpdate` with the eight body fields and validators off.
      An absent key leaves the stored value (undefined keys are dropped from
      the update); a present one is stored after the field's setter (trim,
      and lower-case for the email). Validators and the pre-save hook do not
      run. */
  function Overwrite(f: LeadFields, b: Body): (r: LeadFields)
    ensures b.fullName.Some? ==> r.fullName == Trim(b.fullName.value)
    ensures b.phoneNumber.Some? ==> r.phoneNumber == Trim(b.phoneNumber.value)
    ensures b.email.Some? ==> r.email == Lower(Trim(b.email.value))
    ensures b.linkedinProfile.Some? ==> r.linkedinProfile == Trim(b.linkedinProfile.value)
    ensures b.projectType.Some? ==> r.projectType == b.projectType.value
    ensures b.requirement.Some? ==> r.requirement == Trim(b.requirement.value)
    ensures b.notes.Some? ==> r.notes == Trim(b.notes.value)
    ensures b.status.Some? ==> r.status == b.status.value
    ensures b.fullName.None? ==> r.fullName == f.fullName
    ensures b.phoneNumber.None? ==> r.phoneNumber == f.phoneNumber
    ensures b.email.None? ==> r.email == f.email
    ensures b.linkedinProfile.None? ==> r.linkedinProfile == f.linkedinProfile
    ensures b.projectType.None? ==> r.projectType == f.projectType
    ensures b.requirement.None? ==> r.requirement == f.requirement
    ensures b.notes.None? ==> r.notes == f.notes
    ensures b.status.None? ==> r.status == f.status
  {
    LeadFields(
      SetText(b.fullName, f.fullName), SetText(b.phoneNumber, f.phoneNumber),
      SetEmail(b.email, f.email), SetText(b.linkedinProfile, f.linkedinProfile),
      SetPlain(b.projectType, f.projectType), SetText(b.requirement, f.requirement),
      SetText(b.notes, f.notes), SetPlain(b.status, f.status))
  }

  /** One text field of an update: a given value is trimmed, an absent one
      keeps the stored value. */
  function SetText(v: Option<string>, current: string): (r: string)
    ensures v.Some? ==> r == Trim(v.value)
    ensures v.None? ==> r == current
  {
    if v.Some? then Trim(v.value) else current
  }

  /** The email of an update: trimmed and lower-cased. */
  function SetEmail(v: Option<string>, current: string): (r: string)
    ensures v.Some? ==> r == Lower(Trim(v.value))
    ensures v.None? ==> r == current
  {
    if v.Some? then Lower(Trim(v.value)) else current
  }

  /** An enumeration field of an update, which has no setter. */
  function SetPlain(v: Option<string>, current: string): (r: string)
    ensures v.Some? ==> r == v.value
    ensures v.None? ==> r == current
  {
    if v.Some? then v.value else current
  }

  /** Because validators are off, an update that sets a status or a project
      type outside its enumeration, or a name shorter than two characters,
      stores a record that breaks the schema. */
  lemma OverwriteBypassesValidators(f: LeadFields, b: Body)
    requires || (b.status.Some? && b.status.value !in Statuses)
             || (b.projectType.Some? && b.projectType.value !in ProjectTypes)
             || (b.fullName.Some? && |Trim(b.fullName.value)| < 2)
    ensures !Conforms(Overwrite(f, b))
    ensures Validate(Overwrite(f, b)) != []
  {
  }

  // ---------------------------------------------------------------------
  // Listing: the query and the sort option
  // ---------------------------------------------------------------------

  /** The database query `getAllLeads` builds. */
  datatype Query = Query(status: Option<string>, search: Option<string>)

  /** The sort option chosen by the `sort` parameter. */
  datatype SortKey = Oldest | ByName | ByCompany | Newest

  /** The `switch (sort)`. */
  function SortKeyOf(sort: Option<string>): (k: SortKey)
    ensures sort == Some("oldest") <==> k == Oldest
    ensures sort == Some("name") <==> k == ByName
    ensures sort == Some("company") <==> k == ByCompany
  {
    match sort
    case Some("oldest") => Oldest
    case Some("name") => ByName
    case Some("company") => ByCompany
    case _ => Newest
  }

  /** The "comes no later than" relation each sort option imposes.
      `companyName` is in no document, so under it every pair compares equal. */
  function SortLe(k: SortKey): (Lead, Lead) -> bool {
    match k
    case Oldest => (a: Lead, b: Lead) => a.createdAt <= b.createdAt
    case ByName => (a: Lead, b: Lead) => !LexLess(b.fields.fullName, a.fields.fullName)
    case ByCompany => (a: Lead, b: Lead) => true
    case Newest => (a: Lead, b: Lead) => a.createdAt >= b.createdAt
  }

  /** Every sort option orders any two leads one way or the other. */
  lemma SortLeTotal(k: SortKey)
    ensures Total(SortLe(k))
  {
    if k == ByName {
      forall a: Lead, b: Lead ensures SortLe(k)(a, b) || SortLe(k)(b, a) {
        LexLessTrichotomy(a.fields.fullName, b.fields.fullName);
      }
    }
  }

  /** A case-insensitive search hit in one of the five searched fields. */
  predicate SearchHit(f: LeadFields, search: string) {
    var q := Lower(search);
    || Contains(Lower(f.fullName), q)
    || Contains(Lower(f.email), q)
    || Contains(Lower(f.phoneNumber), q)
    || Contains(Lower(f.linkedinProfile), q)
    || Contains(Lower(f.requirement), q)
  }

  /** Does a lead satisfy the query? */
  predicate Matches(q: Query, l: Lead) {
    && (q.status.None? || l.fields.status == q.status.value)
    && (q.search.None? || SearchHit(l.fields, q.search.value))
  }

  /** The listing condition stated on the raw request parameters: the status
      is absent, empty or `'All'`, or equals the lead's; and the search is
      absent or empty, or hits one of the five fields. */
  predicate Listed(status: Option<string>, search: Option<string>, l: Lead) {
    && (status == None || status == Some("") || status == Some("All") || l.fields.status == status.value)
    && (search == None || search == Some("") || SearchHit(l.fields, search.value))
  }

  function Filter(docs: seq<Lead>, q: Query): (r: seq<Lead>)
    ensures forall l :: l in r <==> l in docs && Matches(q, l)
    ensures |r| <= |docs|
  {
    if docs == [] then []
    else (if Matches(q, docs[0]) then [docs[0]] else []) + Filter(docs[1..], q)
  }

  // ---------------------------------------------------------------------
  // Statistics: `$group` with `$sum: 1`
  // ---------------------------------------------------------------------

  datatype GroupField = ByStatus | ByProjectType

  function GroupValue(l: Lead, g: GroupField): string {
    if g == ByStatus then l.fields.status else l.fields.projectType
  }

  /** The grouped field of every lead, in collection order. */
  function ValuesOf(docs: seq<Lead>, g: GroupField): (r: seq<string>)
    ensures |r| == |docs|
    ensures forall i :: 0 <= i < |docs| ==> r[i] == GroupValue(docs[i], g)
  {
    if docs == [] then [] else [GroupValue(docs[0], g)] + ValuesOf(docs[1..], g)
  }

  /** How many times `v` occurs in `vals`. */
  function Occurrences(vals: seq<string>, v: string): nat {
    if vals == [] then 0
    else Occurrences(vals[..|vals| - 1], v) + (if vals[|vals| - 1] == v then 1 else 0)
  }

  /** The count of the first entry with id `v`, or 0 when there is none. */
  function CountFor(gs: seq<Group>, v: string): (r: nat)
    ensures (forall i :: 0 <= i < |gs| ==> gs[i].id != v) ==> r == 0
    ensures forall i :: 0 <= i < |gs| && gs[i].id == v && (forall j :: 0 <= j < i ==> gs[j].id != v) ==> r == gs[i].count
  {
    if gs == [] then 0 else if gs[0].id == v then gs[0].count else CountFor(gs[1..], v)
  }

  function SumCounts(gs: seq<Group>): nat {
    if gs == [] then 0 else gs[0].count + SumCounts(gs[1..])
  }

  predicate DistinctIds(gs: seq<Group>) {
    forall i, j :: 0 <= i < j < |gs| ==> gs[i].id != gs[j].id
  }

  function Ids(gs: seq<Group>): (r: set<string>)
    ensures forall v :: v in r <==> exists i :: 0 <= i < |gs| && gs[i].id == v
  {
    if gs == [] then {}
    else
      var rest := Ids(gs[1..]);
      assert forall v :: v in rest <==> exists i :: 0 <= i < |gs| - 1 && gs[1..][i].id == v;
      {gs[0].id} + rest
  }

  /** Counts one more lead carrying `v`: its entry grows by one, or a new
      entry is appended. */
  function AddOne(gs: seq<Group>, v: string): (r: seq<Group>)
    ensures Ids(r) == Ids(gs) + {v}
    ensures SumCounts(r) == SumCounts(gs) + 1
  {
    if gs == [] then [Group(v, 1)]
    else if gs[0].id == v then
      var r := [gs[0].(count := gs[0].count + 1)] + gs[1..];
      assert r[1..] == gs[1..];
      r
    else
      var r := [gs[0]] + AddOne(gs[1..], v);
      assert r[1..] == AddOne(gs[1..], v);
      r
  }

  lemma {:induction false} AddOneCounts(gs: seq<Group>, v: string, w: string)
    requires DistinctIds(gs)
    ensures CountFor(AddOne(gs, v), w) == CountFor(gs, w) + (if w == v then 1 else 0)
  {
    if gs != [] && gs[0].id != v {
      var r := AddOne(gs, v);
      assert r[1..] == AddOne(gs[1..], v);
      if gs[0].id != w {
        AddOneCounts(gs[1..], v, w);
      } else {
        assert w != v;
      }
    } else if gs != [] && gs[0].id != w {
      var r := AddOne(gs, v);
      assert r[1..] == gs[1..];
      if v != w {
        assert CountFor(r, w) == CountFor(r[1..], w);
      }
    }
  }

  lemma {:induction false} AddOneDistinct(gs: seq<Group>, v: string)
    requires DistinctIds(gs)
    ensures DistinctIds(AddOne(gs, v))
  {
    if gs != [] && gs[0].id == v {
      BumpHeadDistinct(gs);
    } else if gs != [] {
      var rest := AddOne(gs[1..], v);
      AddOneDistinct(gs[1..], v);
      HeadNotInTail(gs);
      ConsDistinct(gs[0], rest);
    }
  }

  /** Raising the first entry's count keeps the ids as they were. */
  lemma BumpHeadDistinct(gs: seq<Group>)
    requires DistinctIds(gs) && gs != []
    ensures DistinctIds([gs[0].(count := gs[0].count + 1)] + gs[1..])
  {
    var r := [gs[0].(count := gs[0].count + 1)] + gs[1..];
    forall i, j | 0 <= i < j < |r| ensures r[i].id != r[j].id {
      assert r[j] == gs[j];
      if i > 0 { assert r[i] == gs[i]; }
    }
  }

  /** An entry whose id the rest lacks can be put in front. */
  lemma ConsDistinct(g: Group, rest: seq<Group>)
    requires DistinctIds(rest) && g.id !in Ids(rest)
    ensures DistinctIds([g] + rest)
  {
    var r := [g] + rest;
    forall i, j | 0 <= i < j < |r| ensures r[i].id != r[j].id {
      if i == 0 {
        assert r[j] == rest[j - 1];
      } else {
        assert r[i] == rest[i - 1] && r[j] == rest[j - 1];
      }
    }
  }

  lemma HeadNotInTail(gs: seq<Group>)
    requires DistinctIds(gs) && gs != []
    ensures DistinctIds(gs[1..]) && gs[0].id !in Ids(gs[1..])
  {
    forall i | 0 <= i < |gs| - 1 ensures gs[1..][i].id != gs[0].id {
      assert gs[1..][i] == gs[i + 1];
    }
  }

  lemma {:induction false} AddOnePositive(gs: seq<Group>, v: string)
    requires forall i :: 0 <= i < |gs| ==> gs[i].count >= 1
    ensures forall i :: 0 <= i < |AddOne(gs, v)| ==> AddOne(gs, v)[i].count >= 1
  {
    if gs != [] && gs[0].id != v {
      var rest := AddOne(gs[1..], v);
      AddOnePositive(gs[1..], v);
      assert AddOne(gs, v) == [gs[0]] + rest;
    }
  }

  /** `$group` over a field: one entry per distinct value, in order of first
      appearance. */
  function GroupCounts(vals: seq<string>): seq<Group> {
    if vals == [] then [] else AddOne(GroupCounts(vals[..|vals| - 1]), vals[|vals| - 1])
  }

  /** The grouping's ids are distinct, each entry counts at least one, and
      the counts add up to the number of values. */
  lemma {:induction false} GroupCountsDistinct(vals: seq<string>)
    ensures DistinctIds(GroupCounts(vals))
    ensures SumCounts(GroupCounts(vals)) == |vals|
    ensures forall i :: 0 <= i < |GroupCounts(vals)| ==> GroupCounts(vals)[i].count >= 1
  {
    if vals != [] {
      var prev := GroupCounts(vals[..|vals| - 1]);
      GroupCountsDistinct(vals[..|vals| - 1]);
      AddOneDistinct(prev, vals[|vals| - 1]);
      AddOnePositive(prev, vals[|vals| - 1]);
    }
  }

  /** A value has an entry exactly when it occurs. */
  lemma {:induction false} GroupCountsIds(vals: seq<string>)
    ensures forall v :: v in Ids(GroupCounts(vals)) <==> v in vals
  {
    if vals != [] {
      var init := vals[..|vals| - 1];
      var last := vals[|vals| - 1];
      GroupCountsIds(init);
      assert Ids(GroupCounts(vals)) == Ids(GroupCounts(init)) + {last};
      LastMembers(vals);
    }
  }

  /** A value occurs in a non-empty list exactly when it occurs before the
      last position or is the last value. */
  lemma LastMembers(vals: seq<string>)
    requires vals != []
    ensures forall v :: v in vals <==> v in vals[..|vals| - 1] || v == vals[|vals| - 1]
  {
    assert vals == vals[..|vals| - 1] + [vals[|vals| - 1]];
  }

  /** The grouping has one entry per distinct value, each counting at least
      one, and its counts add up to the number of values. */
  lemma GroupCountsShape(vals: seq<string>)
    ensures DistinctIds(GroupCounts(vals))
    ensures SumCounts(GroupCounts(vals)) == |vals|
    ensures forall v :: v in Ids(GroupCounts(vals)) <==> v in vals
    ensures forall i :: 0 <= i < |GroupCounts(vals)| ==> GroupCounts(vals)[i].count >= 1
  {
    GroupCountsDistinct(vals);
    GroupCountsIds(vals);
  }

  /** Each entry counts the occurrences of its value; an absent value reads 0. */
  lemma {:induction false} GroupCountsCount(vals: seq<string>, w: string)
    ensures CountFor(GroupCounts(vals), w) == Occurrences(vals, w)
  {
    if vals != [] {
      var init := vals[..|vals| - 1];
      GroupCountsShape(init);
      GroupCountsCount(init, w);
      AddOneCounts(GroupCounts(init), vals[|vals| - 1], w);
    }
  }

  /** The statistics over a snapshot of the collection. */
  function ComputeStats(docs: seq<Lead>): Stats {
    Stats(|docs|, GroupCounts(ValuesOf(docs, ByStatus)), GroupCounts(ValuesOf(docs, ByProjectType)))
  }

  /** Each grouping's counts add up to the total, each distinct value present
      has exactly one entry, an absent value has none, and each entry counts
      the leads carrying its value. */
  lemma ComputeStatsCounts(docs: seq<Lead>, g: GroupField, v: string)
    ensures var gs := GroupCounts(ValuesOf(docs, g));
      && SumCounts(gs) == |docs|
      && DistinctIds(gs)
      && (v in Ids(gs) <==> exists i :: 0 <= i < |docs| && GroupValue(docs[i], g) == v)
      && CountFor(gs, v) == Occurrences(ValuesOf(docs, g), v)
  {
    var vals := ValuesOf(docs, g);
    GroupCountsShape(vals);
    GroupCountsCount(vals, v);
    if v in vals {
      var i :| 0 <= i < |vals| && vals[i] == v;
      assert GroupValue(docs[i], g) == v;
    }
    if exists i :: 0 <= i < |docs| && GroupValue(docs[i], g) == v {
      var i :| 0 <= i < |docs| && GroupValue(docs[i], g) == v;
      assert vals[i] == v;
    }
  }

  // ---------------------------------------------------------------------
  // Sequence helpers for the collection's natural order
  // ---------------------------------------------------------------------

  predicate Distinct(s: seq<string>) {
    forall i, j :: 0 <= i < j < |s| ==> s[i] != s[j]
  }

  /** `ids` with `x` removed. */
  function Without(ids: seq<string>, x: string): (r: seq<string>)
    ensures forall y :: y in r <==> y in ids && y != x
    ensures Distinct(ids) ==> Distinct(r)
  {
    if ids == [] then []
    else
      var rest := Without(ids[1..], x);
      var r := if ids[0] == x then rest else [ids[0]] + rest;
      assert Distinct(ids) ==> Distinct(r) by {
        if Distinct(ids) && ids[0] != x {
          assert ids[0] !in ids[1..];
          forall i, j | 0 <= i < j < |r| ensures r[i] != r[j] {
            if i == 0 {
              assert r[j] in rest;
            } else {
              assert r[i] == rest[i - 1] && r[j] == rest[j - 1];
            }
          }
        }
      }
      r
  }

  /** The documents of `m` listed in the order `ids` gives. */
  function DocsOf(ids: seq<string>, m: map<string, Lead>): (r: seq<Lead>)
    requires forall i :: 0 <= i < |ids| ==> ids[i] in m
    ensures |r| == |ids|
    ensures forall i :: 0 <= i < |ids| ==> r[i] == m[ids[i]]
  {
    if ids == [] then [] else [m[ids[0]]] + DocsOf(ids[1..], m)
  }

  /** A sequence of distinct elements has as many elements as its set. */
  lemma {:induction false} DistinctCardinality(s: seq<string>, keys: set<string>)
    requires Distinct(s)
    requires forall x :: x in s <==> x in keys
    ensures |s| == |keys|
  {
    if s != [] {
      var x := s[|s| - 1];
      var init := s[..|s| - 1];
      assert forall y :: y in init <==> y in keys - {x} by {
        assert s == init + [x];
        forall y | y in init ensures y != x {
          var i :| 0 <= i < |init| && init[i] == y;
          assert s[i] == y;
        }
      }
      DistinctCardinality(init, keys - {x});
    }
  }
}

/**
 * The lead collection and the seven request handlers of
 * `backend/controllers/leadController.js`.
 */
module LeadController {
  import opened Wrappers
  import opened Text
  import opened Sorting
  import opened LeadSchema
  import opened LeadStoreBasics

  const InvalidStatusMessage: string :=
    "Invalid status. Must be one of: New, Contacted, Followed Up, On Hold, Dropped, Meeting, Done"

  /** Every stored id is well formed and keys its own document, each
      document was last written no earlier than it was created and before the
      clock's current reading, and the natural order lists each id once. */
  ghost predicate CollectionInvariant(leads: map<string, Lead>, order: seq<string>, clock: nat) {
    && (forall id :: id in leads ==>
          && WellFormedId(id) && leads[id].id == id
          && leads[id].createdAt <= leads[id].updatedAt < clock)
    && (forall id :: id in leads <==> id in order)
    && Distinct(order)
  }

  lemma InsertKeepsInvariant(leads: map<string, Lead>, order: seq<string>, clock: nat, lead: Lead)
    requires CollectionInvariant(leads, order, clock)
    requires WellFormedId(lead.id) && lead.id !in leads && lead.createdAt == lead.updatedAt == clock
    ensures CollectionInvariant(leads[lead.id := lead], order + [lead.id], clock + 1)
  {
    var order' := order + [lead.id];
    forall i, j | 0 <= i < j < |order'| ensures order'[i] != order'[j] {
      if j == |order| {
        assert order'[i] == order[i];
      } else {
        assert order'[i] == order[i] && order'[j] == order[j];
      }
    }
  }

  /** The `Lead` collection: documents by id, the collection's natural
      (insertion) order, and a clock that stamps every create and update. */
  class LeadStore {
    var leads: map<string, Lead>
    var order: seq<string>
    var clock: nat

    ghost predicate Valid()
      reads this
    {
      CollectionInvariant(leads, order, clock)
    }

    /** Every document, in natural order. */
    function Docs(): (r: seq<Lead>)
      reads this
      requires Valid()
      ensures |r| == |leads|
      ensures forall l :: l in r <==> l in leads.Values
    {
      DistinctCardinality(order, leads.Keys);
      var r := DocsOf(order, leads);
      assert forall l :: l in leads.Values ==> l in r by {
        forall l | l in leads.Values ensures l in r {
          var id :| id in leads && leads[id] == l;
          var i :| 0 <= i < |order| && order[i] == id;
          assert r[i] == l;
        }
      }
      r
    }

    /** An empty collection. */
    constructor ()
      ensures Valid() && leads == map[] && order == [] && clock == 0
    {
      leads, order, clock := map[], [], 0;
    }

    /** Inserts a new document, stamped with the current time, at the end of
        the natural order. */
    method Insert(lead: Lead)
      requires Valid()
      requires WellFormedId(lead.id) && lead.id !in leads
      requires lead.createdAt == lead.updatedAt == clock
      modifies this
      ensures Valid()
      ensures leads == old(leads)[lead.id := lead] && order == old(order) + [lead.id]
      ensures clock == old(clock) + 1
    {
      InsertKeepsInvariant(leads, order, clock, lead);
      leads := leads[lead.id := lead];
      order := order + [lead.id];
      clock := clock + 1;
    }

    /** `POST /` (createLead): defaults, casting, validation, the pre-save
        hook, then insertion. Any failure answers 500, not 400. The new id
        comes from the database's id generator. */
    method Create(body: Body, newId: string) returns (resp: Response)
      requires Valid()
      requires WellFormedId(newId) && newId !in leads
      modifies this
      ensures Valid()
      ensures resp.code == 201 || resp.code == 500
      ensures resp.code == 201 <==> Conforms(Cast(CreateFields(body)))
      ensures resp.code == 201 ==>
        && resp == Response(201, true, Some("Lead created successfully"),
                            OneLead(Lead(newId, StoredOnCreate(body), old(clock), old(clock))))
        && leads == old(leads)[newId := Lead(newId, StoredOnCreate(body), old(clock), old(clock))]
        && order == old(order) + [newId] && clock == old(clock) + 1
      ensures resp.code == 500 ==>
        && resp == Response(500, false, Some("Failed to create lead"), ErrorDetail(Validate(Cast(CreateFields(body)))))
        && leads == old(leads) && order == old(order) && clock == old(clock)
    {
      var f := Cast(CreateFields(body));
      var errors := Validate(f);
      if errors != [] {
        return Response(500, false, Some("Failed to create lead"), ErrorDetail(errors));
      }
      var stored := SaveNew(f);
      var lead := Lead(newId, stored, clock, clock);
      Insert(lead);
      resp := Response(201, true, Some("Lead created successfully"), OneLead(lead));
    }

    /** `GET /` (getAllLeads): builds the query and the sort option, then
        returns the matching documents in that order with their count. */
    method GetAll(status: Option<string>, search: Option<string>, sort: Option<string>) returns (resp: Response)
      requires Valid()
      ensures resp.code == 200 && resp.success && resp.payload.LeadList?
      ensures resp.payload.count == |resp.payload.leads|
      ensures forall l :: l in resp.payload.leads <==> l in leads.Values && Listed(status, search, l)
      ensures SortedBy(resp.payload.leads, SortLe(SortKeyOf(sort)))
      ensures multiset(resp.payload.leads) == multiset(Filter(Docs(), QueryOf(status, search)))
      ensures resp.payload.leads == SortBy(Filter(Docs(), QueryOf(status, search)), SortLe(SortKeyOf(sort)))
      ensures resp.payload.count <= |leads|
    {
      var query := BuildQuery(status, search);
      var key := SortKeyOf(sort);
      var docs := Docs();
      var found := Filter(docs, query);
      var sorted := SortBy(found, SortLe(key));
      SortLeTotal(key);
      SortBySorted(found, SortLe(key));
      assert forall l :: l in sorted <==> l in found by {
        assert multiset(sorted) == multiset(found);
        forall l ensures l in sorted <==> l in found {
          assert l in sorted <==> l in multiset(sorted);
          assert l in found <==> l in multiset(found);
        }
      }
      resp := Response(200, true, None, LeadList(|sorted|, sorted));
    }

    /** `GET /:id` (getLeadById). */
    method GetById(id: string) returns (resp: Response)
      requires Valid()
      ensures !WellFormedId(id) ==> resp == Response(400, false, Some("Invalid lead ID format"), NoData)
      ensures WellFormedId(id) && id !in leads ==> resp == Response(404, false, Some("Lead not found"), NoData)
      ensures id in leads ==> resp == Response(200, true, None, OneLead(leads[id]))
    {
      if !WellFormedId(id) {
        return Response(400, false, Some("Invalid lead ID format"), NoData);
      }
      if id !in leads {
        return Response(404, false, Some("Lead not found"), NoData);
      }
      resp := Response(200, true, None, OneLead(leads[id]));
    }

    /** `PUT /:id` (updateLead): lookup, then an overwrite of the eight body
        fields with validators off. */
    method Update(id: string, body: Body) returns (resp: Response)
      requires Valid()
      modifies this
      ensures Valid() && order == old(order)
      ensures !WellFormedId(id) ==>
        resp == Response(400, false, Some("Invalid lead ID format"), NoData) && leads == old(leads) && clock == old(clock)
      ensures WellFormedId(id) && id !in old(leads) ==>
        resp == Response(404, false, Some("Lead not found"), NoData) && leads == old(leads) && clock == old(clock)
      ensures id in old(leads) ==>
        var updated := old(leads)[id].(fields := Overwrite(old(leads)[id].fields, body), updatedAt := old(clock));
        && resp == Response(200, true, Some("Lead updated successfully"), OneLead(updated))
        && leads == old(leads)[id := updated]
        && clock == old(clock) + 1
    {
      if !WellFormedId(id) {
        return Response(400, false, Some("Invalid lead ID format"), NoData);
      }
      if id !in leads {
        return Response(404, false, Some("Lead not found"), NoData);
      }
      var updated := leads[id].(fields := Overwrite(leads[id].fields, body), updatedAt := clock);
      leads := leads[id := updated];
      clock := clock + 1;
      resp := Response(200, true, Some("Lead updated successfully"), OneLead(updated));
    }

    /** `DELETE /:id` (deleteLead): lookup, then removal of that one document. */
    method Delete(id: string) returns (resp: Response)
      requires Valid()
      modifies this
      ensures Valid() && clock == old(clock)
      ensures !WellFormedId(id) ==>
        resp == Response(400, false, Some("Invalid lead ID format"), NoData) && leads == old(leads) && order == old(order)
      ensures WellFormedId(id) && id !in old(leads) ==>
        resp == Response(404, false, Some("Lead not found"), NoData) && leads == old(leads) && order == old(order)
      ensures id in old(leads) ==>
        && resp == Response(200, true, Some("Lead deleted successfully"), EmptyObject)
        && leads == old(leads) - {id}
        && order == Without(old(order), id)
    {
      if !WellFormedId(id) {
        return Response(400, false, Some("Invalid lead ID format"), NoData);
      }
      if id !in leads {
        return Response(404, false, Some("Lead not found"), NoData);
      }
      leads := leads - {id};
      order := Without(order, id);
      resp := Response(200, true, Some("Lead deleted successfully"), EmptyObject);
    }

    /** `PATCH /:id/status` (updateLeadStatus): the status is checked against
        the seven values before the id is looked at. */
    method UpdateStatus(id: string, status: Option<string>) returns (resp: Response)
      requires Valid()
      modifies this
      ensures Valid() && order == old(order)
      ensures (status == None || status.value !in Statuses) ==>
        resp == Response(400, false, Some(InvalidStatusMessage), NoData) && leads == old(leads) && clock == old(clock)
      ensures status.Some? && status.value in Statuses && !WellFormedId(id) ==>
        resp == Response(400, false, Some("Invalid lead ID format"), NoData) && leads == old(leads) && clock == old(clock)
      ensures status.Some? && status.value in Statuses && WellFormedId(id) && id !in old(leads) ==>
        resp == Response(404, false, Some("Lead not found"), NoData) && leads == old(leads) && clock == old(clock)
      ensures status.Some? && status.value in Statuses && id in old(leads) ==>
        var updated := old(leads)[id].(fields := old(leads)[id].fields.(status := status.value), updatedAt := old(clock));
        && resp == Response(200, true, Some("Lead status updated successfully"), OneLead(updated))
        && leads == old(leads)[id := updated]
        && clock == old(clock) + 1
    {
      if status == None || status.value == "" || status.value !in Statuses {
        return Response(400, false, Some(InvalidStatusMessage), NoData);
      }
      if !WellFormedId(id) {
        return Response(400, false, Some("Invalid lead ID format"), NoData);
      }
      if id !in leads {
        return Response(404, false, Some("Lead not found"), NoData);
      }
      var updated := leads[id].(fields := leads[id].fields.(status := status.value), updatedAt := clock);
      leads := leads[id := updated];
      clock := clock + 1;
      resp := Response(200, true, Some("Lead status updated successfully"), OneLead(updated));
    }

    /** `GET /stats` (getLeadStats): the total and the two groupings, from
        the collection as it is now. */
    method GetStats() returns (resp: Response)
      requires Valid()
      ensures resp.code == 200 && resp.success && resp.payload.StatsData?
      ensures resp.payload.stats.total == |leads|
      ensures SumCounts(resp.payload.stats.byStatus) == |leads|
      ensures SumCounts(resp.payload.stats.byProjectType) == |leads|
      ensures DistinctIds(resp.payload.stats.byStatus) && DistinctIds(resp.payload.stats.byProjectType)
      ensures forall v :: v in Ids(resp.payload.stats.byStatus) <==> exists l :: l in leads.Values && l.fields.status == v
      ensures forall v :: v in Ids(resp.payload.stats.byProjectType) <==> exists l :: l in leads.Values && l.fields.projectType == v
      ensures forall v :: CountFor(resp.payload.stats.byStatus, v) == Occurrences(ValuesOf(Docs(), ByStatus), v)
      ensures forall v :: CountFor(resp.payload.stats.byProjectType, v) == Occurrences(ValuesOf(Docs(), ByProjectType), v)
      ensures resp.payload.stats == ComputeStats(Docs())
    {
      var docs := Docs();
      var stats := ComputeStats(docs);
      GroupCountsDistinct(ValuesOf(docs, ByStatus));
      GroupCountsDistinct(ValuesOf(docs, ByProjectType));
      forall v ensures CountFor(stats.byStatus, v) == Occurrences(ValuesOf(docs, ByStatus), v) {
        GroupCountsCount(ValuesOf(docs, ByStatus), v);
      }
      forall v ensures CountFor(stats.byProjectType, v) == Occurrences(ValuesOf(docs, ByProjectType), v) {
        GroupCountsCount(ValuesOf(docs, ByProjectType), v);
      }
      GroupsPresent(docs, leads, ByStatus);
      GroupsPresent(docs, leads, ByProjectType);
      resp := Response(200, true, None, StatsData(stats));
    }
  }

  /** A value has an entry in a grouping of a snapshot exactly when some
      document of the collection carries it. */
  lemma GroupsPresent(docs: seq<Lead>, m: map<string, Lead>, g: GroupField)
    requires forall l :: l in docs <==> l in m.Values
    ensures forall v :: v in Ids(GroupCounts(ValuesOf(docs, g))) <==> exists l :: l in m.Values && GroupValue(l, g) == v
  {
    forall v ensures v in Ids(GroupCounts(ValuesOf(docs, g))) <==> exists l :: l in m.Values && GroupValue(l, g) == v {
      ComputeStatsCounts(docs, g, v);
      if exists l :: l in m.Values && GroupValue(l, g) == v {
        var l :| l in m.Values && GroupValue(l, g) == v;
        var i :| 0 <= i < |docs| && docs[i] == l;
      }
    }
  }

  /** The query `getAllLeads` assembles: the status is kept unless it is
      absent, empty or `'All'`; the search unless it is absent or empty. A
      lead matches it exactly when it is listed. */
  function QueryOf(status: Option<string>, search: Option<string>): (q: Query)
    ensures forall l :: Matches(q, l) <==> Listed(status, search, l)
  {
    Query(if status.Some? && status.value != "" && status.value != "All" then status else None,
          if search.Some? && search.value != "" then search else None)
  }

  /** The same query, assembled step by step as `getAllLeads` does. */
  method BuildQuery(status: Option<string>, search: Option<string>) returns (query: Query)
    ensures query == QueryOf(status, search)
    ensures forall l :: Matches(query, l) <==> Listed(status, search, l)
  {
    query := Query(None, None);
    if status.Some? && status.value != "" && status.value != "All" {
      query := query.(status := status);
    }
    if search.Some? && search.value != "" {
      query := query.(search := search);
    }
  }
}
