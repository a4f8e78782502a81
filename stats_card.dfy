/**
 * `frontend/src/components/StatsCard.js`: the seven numbers shown on the
 * statistics cards, looked up in whatever statistics object the dashboard
 * holds.
 */
module StatsCard {
  import opened Wrappers
  import opened LeadSchema
  import opened LeadStoreBasics

  /** The statistics object as the browser holds it: any part may be
      missing (the dashboard starts with `{ total: 0, byStatus: [] }`). */
  datatype StatsView = StatsView(total: Option<nat>, byStatus: Option<seq<Group>>, byProjectType: Option<seq<Group>>)

  /** The dashboard's initial statistics, before the first fetch answers. */
  const InitialView := StatsView(Some(0), Some([]), None)

  /** The payload of `GET /stats` once it has arrived. */
  function ViewOf(s: Stats): StatsView {
    StatsView(Some(s.total), Some(s.byStatus), Some(s.byProjectType))
  }

  /** The seven displayed counts. */
  datatype Cards = Cards(
    total: nat, newLeads: nat, wonDeals: nat, lostDeals: nat,
    appProjects: nat, websiteProjects: nat, iotProjects: nat)

  /** No entry before position `i` has id `id`. */
  predicate FirstWith(gs: seq<Group>, id: string, i: nat) {
    forall j :: 0 <= j < i && j < |gs| ==> gs[j].id != id
  }

  /** `list?.find(s => s._id === id)?.count || 0`. */
  function Lookup(groups: Option<seq<Group>>, id: string): (r: nat)
    ensures groups == None ==> r == 0
    ensures groups.Some? ==> (forall i :: 0 <= i < |groups.value| ==> groups.value[i].id != id) ==> r == 0
    ensures groups.Some? ==>
      forall i :: 0 <= i < |groups.value| && groups.value[i].id == id && FirstWith(groups.value, id, i) ==>
        r == groups.value[i].count
  {
    if groups == None then 0 else CountFor(groups.value, id)
  }

  function CardsOf(s: StatsView): (r: Cards)
    ensures r.total == (if s.total == None then 0 else s.total.value)
    ensures s.byStatus == None ==> r.newLeads == r.wonDeals == r.lostDeals == 0
    ensures s.byProjectType == None ==> r.appProjects == r.websiteProjects == r.iotProjects == 0
  {
    Cards(
      if s.total == None then 0 else s.total.value,
      Lookup(s.byStatus, "New"), Lookup(s.byStatus, "Done"), Lookup(s.byStatus, "Dropped"),
      Lookup(s.byProjectType, "App"), Lookup(s.byProjectType, "Website"), Lookup(s.byProjectType, "IOT"))
  }

  /** Before the first fetch every card reads 0. */
  lemma InitialCardsZero()
    ensures CardsOf(InitialView) == Cards(0, 0, 0, 0, 0, 0, 0)
  {
  }

  /** On the server's statistics each card counts the leads carrying its
      value, the total card counts every lead, and the three status cards and
      the three project-type cards each add up to at most the total. */
  lemma CardsOfServerStats(docs: seq<Lead>)
    ensures var c := CardsOf(ViewOf(ComputeStats(docs)));
      && c.total == |docs|
      && c.newLeads == Occurrences(ValuesOf(docs, ByStatus), "New")
      && c.wonDeals == Occurrences(ValuesOf(docs, ByStatus), "Done")
      && c.lostDeals == Occurrences(ValuesOf(docs, ByStatus), "Dropped")
      && c.appProjects == Occurrences(ValuesOf(docs, ByProjectType), "App")
      && c.websiteProjects == Occurrences(ValuesOf(docs, ByProjectType), "Website")
      && c.iotProjects == Occurrences(ValuesOf(docs, ByProjectType), "IOT")
      && c.newLeads + c.wonDeals + c.lostDeals <= c.total
      && c.appProjects + c.websiteProjects + c.iotProjects <= c.total
  {
    var st := ValuesOf(docs, ByStatus);
    var pt := ValuesOf(docs, ByProjectType);
    GroupCountsCount(st, "New");
    GroupCountsCount(st, "Done");
    GroupCountsCount(st, "Dropped");
    GroupCountsCount(pt, "App");
    GroupCountsCount(pt, "Website");
    GroupCountsCount(pt, "IOT");
    ThreeOccurrences(st, "New", "Done", "Dropped");
    ThreeOccurrences(pt, "App", "Website", "IOT");
  }

  /** Three different values occur no more often together than there are values. */
  lemma {:induction false} ThreeOccurrences(vals: seq<string>, a: string, b: string, c: string)
    requires a != b && b != c && a != c
    ensures Occurrences(vals, a) + Occurrences(vals, b) + Occurrences(vals, c) <= |vals|
  {
    if vals != [] {
      ThreeOccurrences(vals[..|vals| - 1], a, b, c);
    }
  }
}
