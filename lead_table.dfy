/**
 * `frontend/src/components/LeadTable.js`: the column sort and its header
 * toggle, the status badge colour and the shortened requirement text.
 */
module LeadTable {
  import opened Text
  import opened Sorting
  import opened LeadSchema

  datatype SortField = FullNameField | CreatedAtField | UpdatedAtField
  datatype SortOrder = Asc | Desc

  // ---------------------------------------------------------------------
  // The comparator behind `sortedLeads`
  // ---------------------------------------------------------------------

  /** `aVal < bVal` on the sort field: string order for the name, time order
      for the two dates. */
  predicate KeyLess(a: Lead, b: Lead, field: SortField) {
    match field
    case FullNameField => LexLess(a.fields.fullName, b.fields.fullName)
    case CreatedAtField => a.createdAt < b.createdAt
    case UpdatedAtField => a.updatedAt < b.updatedAt
  }

  predicate SameKey(a: Lead, b: Lead, field: SortField) {
    match field
    case FullNameField => a.fields.fullName == b.fields.fullName
    case CreatedAtField => a.createdAt == b.createdAt
    case UpdatedAtField => a.updatedAt == b.updatedAt
  }

  /** The comparator passed to `sort`: `-1`, `1` or `0`. */
  function Compare(a: Lead, b: Lead, field: SortField, order: SortOrder): (r: int)
    ensures r == -1 || r == 0 || r == 1
  {
    if KeyLess(a, b, field) then (if order == Asc then -1 else 1)
    else if KeyLess(b, a, field) then (if order == Asc then 1 else -1)
    else 0
  }

  /** Exactly one of "less", "greater" and "same key" holds. */
  lemma KeyTrichotomy(a: Lead, b: Lead, field: SortField)
    ensures SameKey(a, b, field) <==> !KeyLess(a, b, field) && !KeyLess(b, a, field)
    ensures !(KeyLess(a, b, field) && KeyLess(b, a, field))
  {
    if field == FullNameField {
      LexLessTrichotomy(a.fields.fullName, b.fields.fullName);
      if a.fields.fullName == b.fields.fullName {
        LexLessIrreflexive(a.fields.fullName);
      }
    }
  }

  /** The comparator answers 0 exactly for equal keys, and swapping the
      arguments negates it. */
  lemma CompareLaws(a: Lead, b: Lead, field: SortField, order: SortOrder)
    ensures Compare(a, b, field, order) == 0 <==> SameKey(a, b, field)
    ensures Compare(a, b, field, order) == -Compare(b, a, field, order)
    ensures Compare(a, b, field, order) < 0 <==>
      (if order == Asc then KeyLess(a, b, field) else KeyLess(b, a, field))
  {
    KeyTrichotomy(a, b, field);
  }

  function CompareLe(field: SortField, order: SortOrder): (Lead, Lead) -> bool {
    (a: Lead, b: Lead) => Compare(a, b, field, order) <= 0
  }

  lemma CompareLeTotal(field: SortField, order: SortOrder)
    ensures Total(CompareLe(field, order))
  {
    forall a: Lead, b: Lead ensures CompareLe(field, order)(a, b) || CompareLe(field, order)(b, a) {
      CompareLaws(a, b, field, order);
    }
  }

  /** `[...leads].sort(comparator)`: a sorted copy; `leads` itself is a value
      and stays as it was. */
  function SortedLeads(leads: seq<Lead>, field: SortField, order: SortOrder): seq<Lead> {
    SortBy(leads, CompareLe(field, order))
  }

  /** The copy is a permutation of the list in which no element's key is
      beaten by its successor's in the chosen direction. */
  lemma SortedLeadsCorrect(leads: seq<Lead>, field: SortField, order: SortOrder)
    ensures multiset(SortedLeads(leads, field, order)) == multiset(leads)
    ensures var r := SortedLeads(leads, field, order);
      forall i :: 0 <= i < |r| - 1 ==>
        if order == Asc then !KeyLess(r[i + 1], r[i], field) else !KeyLess(r[i], r[i + 1], field)
  {
    var le := CompareLe(field, order);
    CompareLeTotal(field, order);
    SortBySorted(leads, le);
    var r := SortedLeads(leads, field, order);
    forall i | 0 <= i < |r| - 1
      ensures if order == Asc then !KeyLess(r[i + 1], r[i], field) else !KeyLess(r[i], r[i + 1], field)
    {
      assert le(r[i], r[i + 1]);
      CompareLaws(r[i], r[i + 1], field, order);
      KeyTrichotomy(r[i], r[i + 1], field);
    }
  }

  // ---------------------------------------------------------------------
  // The header toggle
  // ---------------------------------------------------------------------

  function Flip(o: SortOrder): (r: SortOrder)
    ensures r != o
  {
    if o == Asc then Desc else Asc
  }

  /** The sort state after a click on a header: the same column flips the
      direction, another column is selected ascending. */
  function AfterClick(field: SortField, order: SortOrder, clicked: SortField): (r: (SortField, SortOrder))
    ensures r.0 == clicked
    ensures field == clicked ==> r.1 != order
    ensures field != clicked ==> r.1 == Asc
  {
    if field == clicked then (field, Flip(order)) else (clicked, Asc)
  }

  /** Two clicks on the column already sorted by restore its direction; two
      clicks on another column leave it sorted descending. */
  lemma ClickTwice(field: SortField, order: SortOrder, clicked: SortField)
    ensures var s := AfterClick(field, order, clicked);
      AfterClick(s.0, s.1, clicked) == if field == clicked then (field, order) else (clicked, Desc)
  {
  }

  class SortState {
    var sortField: SortField
    var sortOrder: SortOrder

    /** The table opens sorted by creation time, newest first. */
    constructor()
      ensures sortField == CreatedAtField && sortOrder == Desc
    {
      sortField := CreatedAtField;
      sortOrder := Desc;
    }

    /** `handleSort(field)`. */
    method HandleSort(field: SortField)
      modifies this
      ensures (sortField, sortOrder) == AfterClick(old(sortField), old(sortOrder), field)
    {
      if sortField == field {
        sortOrder := if sortOrder == Asc then Desc else Asc;
      } else {
        sortField := field;
        sortOrder := Asc;
      }
    }
  }

  // ---------------------------------------------------------------------
  // Status badge colour and requirement cell
  // ---------------------------------------------------------------------

  const DefaultColor := "#718096"

  const StatusColors: map<string, string> := map[
    "New" := "#718096", "Contacted" := "#3182ce", "Followed Up" := "#805ad5",
    "On Hold" := "#d69e2e", "Dropped" := "#e53e3e", "Meeting" := "#319795",
    "Done" := "#38a169"]

  predicate IsHexColor(c: string) {
    |c| == 7 && c[0] == '#' &&
    forall k :: 1 <= k < 7 ==> ('0' <= c[k] <= '9' || 'a' <= c[k] <= 'f')
  }

  /** `colors[status] || '#718096'`. */
  function StatusColor(status: string): (r: string)
    ensures status !in Statuses ==> r == DefaultColor
    ensures IsHexColor(r)
  {
    if status in StatusColors then StatusColors[status] else DefaultColor
  }

  /** The seven statuses have seven keys in the colour table, and only `New`
      shares the fallback colour. */
  lemma StatusColorsDistinct(s: string, t: string)
    requires s in Statuses && t in Statuses && s != t
    ensures StatusColor(s) != StatusColor(t)
    ensures StatusColor(s) == DefaultColor <==> s == "New"
  {
  }

  /** `req.length > 50 ? req.substring(0, 50) + '...' : req`. */
  function Truncate(req: string): (r: string)
    ensures |req| <= 50 ==> r == req
    ensures |req| > 50 ==> |r| == 53 && r[..50] == req[..50] && r[50..] == "..."
  {
    if |req| > 50 then req[..50] + "..." else req
  }

  /** Shortening an already shortened text changes nothing. */
  lemma TruncateIdempotent(req: string)
    ensures Truncate(Truncate(req)) == Truncate(req)
  {
    if |req| > 50 {
      var t := Truncate(req);
      assert t[..50] == req[..50];
    }
  }

  /** The requirement cell: a placeholder for an empty requirement, the
      shortened text otherwise; never longer than 53 characters. */
  function RequirementCell(req: string): (r: string)
    ensures req == "" ==> r == "No requirement"
    ensures req != "" ==> r == Truncate(req)
    ensures |r| <= 53
  {
    if req == "" then "No requirement" else Truncate(req)
  }
}
