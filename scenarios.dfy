/**
 * Sequences of requests against the lead store, and concrete inputs on
 * which the server's and the browser's rules are compared.
 */
module Scenarios {
  import opened Wrappers
  import opened Text
  import opened LeadSchema
  import opened LeadStoreBasics
  import opened LeadController
  import Dashboard

  /** Deleting the same lead twice answers 200 and then 404, and removes
      that lead alone. */
  method DeleteTwice(store: LeadStore, id: string) returns (first: Response, second: Response)
    requires store.Valid() && id in store.leads
    modifies store
    ensures first.code == 200 && second.code == 404
    ensures store.leads == old(store.leads) - {id}
  {
    first := store.Delete(id);
    second := store.Delete(id);
  }

  /** Setting the same status twice leaves the same record as setting it
      once; only the timestamp moves on. */
  method StatusTwice(store: LeadStore, id: string, status: string) returns (first: Response, second: Response)
    requires store.Valid() && id in store.leads && status in Statuses
    modifies store
    ensures first.code == 200 && second.code == 200
    ensures first.payload.OneLead? && second.payload.OneLead? && first.payload.lead.fields == second.payload.lead.fields
    ensures store.leads.Keys == old(store.leads).Keys
    ensures store.leads[id].fields == old(store.leads)[id].fields.(status := status)
  {
    first := store.UpdateStatus(id, Some(status));
    second := store.UpdateStatus(id, Some(status));
  }

  /** A status outside the seven is refused before the id is looked at,
      so even a malformed id gets the status message. */
  method BogusStatusFirst(store: LeadStore) returns (resp: Response)
    requires store.Valid()
    modifies store
    ensures resp == Response(400, false, Some(InvalidStatusMessage), NoData)
    ensures store.leads == old(store.leads)
  {
    resp := store.UpdateStatus("not-a-valid-id-format", Some("Bogus"));
  }

  /** The name a create stores for `"ana li"` is `"Ana Li"`. */
  lemma TitleCaseExample()
    ensures TitleCase("ana li") == "Ana Li"
  {
    TitleCaseCharwise("ana li");
    assert TitleCaseFrom("ana li", true) == "Ana Li";
  }

  /** Letters after the first of a word are lowered: `"jo LEE"` is stored
      as `"Jo Lee"`. */
  lemma TitleCaseLowersRest()
    ensures TitleCase("jo LEE") == "Jo Lee"
  {
    TitleCaseCharwise("jo LEE");
    assert TitleCaseFrom("jo LEE", true) == "Jo Lee";
  }

  /** A create with a padded, lower-case name and a requirement only: the
      record conforms, and the stored name is trimmed and title-cased while
      the project type and the status take their defaults. */
  lemma PaddedNameCreate()
    ensures var b := Body(Some("  ana li "), None, None, None, None, Some("Site"), None, None);
      && Conforms(Cast(CreateFields(b)))
      && StoredOnCreate(b) == LeadFields("Ana Li", "", "", "", "App", "Site", "", "New")
  {
    var b := Body(Some("  ana li "), None, None, None, None, Some("Site"), None, None);
    var c := LeadFields("ana li", "", "", "", "App", "Site", "", "New");
    PaddedNameCast(b, c);
    PaddedNameConforms(c);
    TitleCaseExample();
  }

  lemma PaddedNameCast(b: Body, c: LeadFields)
    requires b == Body(Some("  ana li "), None, None, None, None, Some("Site"), None, None)
    requires c == LeadFields("ana li", "", "", "", "App", "Site", "", "New")
    ensures Cast(CreateFields(b)) == c
  {
    var d := LeadFields("  ana li ", "", "", "", "App", "Site", "", "New");
    PaddedNameDefaults(b, d);
    PaddedNameTrims();
    SiteTrims();
    assert Trim("") == "" && Lower("") == "";
    assert Cast(d) == c;
  }

  lemma PaddedNameDefaults(b: Body, d: LeadFields)
    requires b == Body(Some("  ana li "), None, None, None, None, Some("Site"), None, None)
    requires d == LeadFields("  ana li ", "", "", "", "App", "Site", "", "New")
    ensures CreateFields(b) == d
  {
  }

  lemma SiteTrims()
    ensures Trim("Site") == "Site"
  {
    assert !IsWhiteSpace('S') && !IsWhiteSpace('e');
    assert TrimStart("Site") == "Site";
  }

  lemma PaddedNameConforms(c: LeadFields)
    requires c == LeadFields("ana li", "", "", "", "App", "Site", "", "New")
    ensures Conforms(c)
  {
    assert ProjectTypes[0] == "App" && Statuses[0] == "New";
  }

  lemma PaddedNameTrims()
    ensures Trim("  ana li ") == "ana li"
  {
    assert IsWhiteSpace(' ') && !IsWhiteSpace('a') && !IsWhiteSpace('i');
    assert "  ana li "[1..] == " ana li " && " ana li "[1..] == "ana li ";
    assert TrimStart("ana li ") == "ana li ";
    assert TrimStart("  ana li ") == "ana li ";
    assert "ana li "[..6] == "ana li";
    assert TrimEnd("ana li") == "ana li";
  }

  /** The same create against the store answers 201 with that record. */
  method CreatePaddedName(store: LeadStore, newId: string) returns (resp: Response)
    requires store.Valid() && WellFormedId(newId) && newId !in store.leads
    modifies store
    ensures resp.code == 201 && resp.payload.OneLead?
    ensures resp.payload.lead.fields == LeadFields("Ana Li", "", "", "", "App", "Site", "", "New")
    ensures resp.payload.lead.id == newId
  {
    PaddedNameCreate();
    resp := store.Create(Body(Some("  ana li "), None, None, None, None, Some("Site"), None, None), newId);
  }

  /** A document read back and saved again without touching its name keeps
      the name as stored, title-cased or not. */
  method ResaveLoaded(f: LeadFields) returns (stored: LeadFields)
    ensures stored == f
  {
    var doc := new LeadDocument.Loaded(f);
    doc.PreSave();
    stored := doc.fields;
  }

  /** A lookup with a malformed id is a bad request, not a missing lead. */
  method MalformedIdLookup(store: LeadStore) returns (resp: Response)
    requires store.Valid()
    ensures resp == Response(400, false, Some("Invalid lead ID format"), NoData)
  {
    resp := store.GetById("not-a-valid-id-format");
  }

  /** A lead found by the phone number on the server is not found by the
      browser: the search reaches `companyName` and throws. */
  lemma PhoneSearchDisagrees()
    ensures var l := Lead("0123456789abcdef01234567",
                          LeadFields("Ana", "555", "", "", "App", "Site", "", "New"), 0, 0);
      && Listed(None, Some("555"), l)
      && Dashboard.KeepSearch([l], Lower("555")).Err?
  {
    var l := Lead("0123456789abcdef01234567", LeadFields("Ana", "555", "", "", "App", "Site", "", "New"), 0, 0);
    assert Lower("555") == "555";
    assert Contains(Lower("555"), "555") by { assert OccursAt("555", "555", 0); }
    assert !Contains(Lower("Ana"), "555") by {
      assert Lower("Ana") == "ana";
      assert !OccursAt("ana", "555", 0);
    }
    assert !Contains(Lower(""), "555");
  }
}
