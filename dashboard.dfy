/**
 * `frontend/src/pages/Dashboard.js`: the browser-side filter applied to the
 * leads last fetched. It is separate from the server's filter and differs
 * from it: it searches the name, the email and a `companyName` field that
 * lead records do not have.
 */
module Dashboard {
  import opened Wrappers
  import opened Text
  import opened LeadSchema

  /** Reading `lead.companyName.toLowerCase()` on a record without that
      field throws a `TypeError`. */
  datatype FilterError = CompanyNameUndefined

  /** `a` can be obtained from `b` by dropping elements, keeping the order. */
  predicate Subsequence<T(==)>(a: seq<T>, b: seq<T>)
    decreases |b|
  {
    if a == [] then true
    else if b == [] then false
    else (a[0] == b[0] && Subsequence(a[1..], b[1..])) || Subsequence(a, b[1..])
  }

  lemma {:induction false} SubsequenceRefl<T>(a: seq<T>)
    ensures Subsequence(a, a)
  {
    if a != [] {
      SubsequenceRefl(a[1..]);
    }
  }

  /** `filter(lead => lead.status === statusFilter)`. */
  function KeepStatus(leads: seq<Lead>, statusFilter: string): (r: seq<Lead>)
    ensures forall l :: l in r <==> l in leads && l.fields.status == statusFilter
  {
    if leads == [] then []
    else (if leads[0].fields.status == statusFilter then [leads[0]] else []) + KeepStatus(leads[1..], statusFilter)
  }

  lemma {:induction false} KeepStatusSubsequence(leads: seq<Lead>, statusFilter: string)
    ensures Subsequence(KeepStatus(leads, statusFilter), leads)
  {
    if leads != [] {
      KeepStatusSubsequence(leads[1..], statusFilter);
      var rest := KeepStatus(leads[1..], statusFilter);
      var r := KeepStatus(leads, statusFilter);
      if leads[0].fields.status == statusFilter {
        assert r == [leads[0]] + rest;
        assert r[0] == leads[0] && r[1..] == rest;
      } else {
        assert r == rest;
        if r != [] {
          assert Subsequence(r, leads[1..]);
        }
      }
    }
  }

  /** The first two search disjuncts: the lower-cased name or email holds
      the query. */
  predicate NameOrEmailHit(l: Lead, query: string) {
    Contains(Lower(l.fields.fullName), query) || Contains(Lower(l.fields.email), query)
  }

  /** The search `filter`: a lead that the first two disjuncts miss reaches
      the third, which throws. */
  function KeepSearch(leads: seq<Lead>, query: string): (r: Result<seq<Lead>, FilterError>)
    ensures r.Ok? <==> forall i :: 0 <= i < |leads| ==> NameOrEmailHit(leads[i], query)
    ensures r.Ok? ==> r.value == leads
  {
    if leads == [] then Ok([])
    else if !NameOrEmailHit(leads[0], query) then Err(CompanyNameUndefined)
    else
      match KeepSearch(leads[1..], query)
      case Err(e) => Err(e)
      case Ok(rest) =>
        assert leads == [leads[0]] + leads[1..];
        Ok([leads[0]] + rest)
  }

  /** The search throws exactly when some lead misses on name and email. */
  lemma KeepSearchFails(leads: seq<Lead>, query: string)
    ensures KeepSearch(leads, query).Err? <==> exists l :: l in leads && !NameOrEmailHit(l, query)
  {
    if KeepSearch(leads, query).Err? {
      var i :| 0 <= i < |leads| && !NameOrEmailHit(leads[i], query);
      assert leads[i] in leads;
    }
  }

  /** `filterLeads`: a copy of the list, narrowed by status unless the filter
      is `'All'`, then by the lower-cased query unless it is blank. */
  method FilterLeads(leads: seq<Lead>, statusFilter: string, searchQuery: string)
    returns (outcome: Result<seq<Lead>, FilterError>)
    ensures outcome.Ok? ==> Subsequence(outcome.value, leads)
    ensures outcome.Ok? && statusFilter != "All" ==>
      forall l :: l in outcome.value ==> l.fields.status == statusFilter
    ensures statusFilter == "All" && (forall k :: 0 <= k < |searchQuery| ==> IsWhiteSpace(searchQuery[k])) ==>
      outcome == Ok(leads)
    ensures outcome.Err? <==>
      (exists k :: 0 <= k < |searchQuery| && !IsWhiteSpace(searchQuery[k])) &&
      exists l :: l in leads && (statusFilter == "All" || l.fields.status == statusFilter) &&
        !NameOrEmailHit(l, Lower(searchQuery))
    ensures outcome.Ok? ==> forall l :: l in outcome.value <==>
      l in leads && (statusFilter == "All" || l.fields.status == statusFilter)
  {
    var filtered := leads;
    SubsequenceRefl(leads);
    if statusFilter != "All" {
      filtered := KeepStatus(filtered, statusFilter);
      KeepStatusSubsequence(leads, statusFilter);
    }
    assert Subsequence(filtered, leads);
    assert forall l :: l in filtered <==> l in leads && (statusFilter == "All" || l.fields.status == statusFilter);
    TrimEmptyIff(searchQuery);
    if Trim(searchQuery) != [] {
      var query := Lower(searchQuery);
      outcome := KeepSearch(filtered, query);
      KeepSearchFails(filtered, query);
    } else {
      outcome := Ok(filtered);
    }
  }
}
