/** The customer-support tab of the call centre (`CustomerSupportPanel`): its
    search over the support cases it shows, and the priority and status colour
    lookups. */
module CustomerSupport {
  import opened Common

  /** A support case as the panel holds it (the panel keeps its own fixed list;
      it does not read the database). */
  datatype SupportCase = SupportCase(
    id: string,
    customerName: string,
    phone: string,
    subject: string,
    category: string,
    priority: string,
    status: string)

  /** The name or the subject holds the term, ignoring case. */
  predicate TextMatches(c: SupportCase, term: string) {
    ContainsIgnoreCase(c.customerName, term) || ContainsIgnoreCase(c.subject, term)
  }

  /** The filter: the name or the subject holds the term ignoring case, or the
      phone holds it exactly. */
  predicate Matches(c: SupportCase, term: string) {
    TextMatches(c, term) || Contains(c.phone, term)
  }

  /** `filteredTickets` */
  function FilteredCases(cases: seq<SupportCase>, term: string): seq<SupportCase> {
    Filter(cases, (c: SupportCase) => Matches(c, term))
  }

  /** A case is shown exactly when it matches; the shown cases keep their
      order; an empty term shows every case. */
  lemma FilteredCasesSelection(cases: seq<SupportCase>, term: string, c: SupportCase)
    ensures c in FilteredCases(cases, term) <==> c in cases && Matches(c, term)
    ensures IsSubsequence(FilteredCases(cases, term), cases)
    ensures term == "" ==> FilteredCases(cases, term) == cases
  {
    var m := (c: SupportCase) => Matches(c, term);
    if c in cases && m(c) {
      var k :| 0 <= k < |cases| && cases[k] == c;
      assert cases[k] in Filter(cases, m);
    }
    if term == "" {
      forall i | 0 <= i < |cases|
        ensures m(cases[i])
      {
        ContainsEmptyAndSelf(cases[i].phone);
      }
      FilterAll(cases, m);
    }
  }

  /** Case does not matter for the name and the subject: a term and its
      lower-case form find the same cases there. The phone is compared as
      typed. */
  lemma TextMatchIgnoresCase(c: SupportCase, term: string)
    ensures TextMatches(c, term) <==> TextMatches(c, ToLower(term))
    ensures Contains(c.phone, term) ==> Matches(c, term)
  {
    assert ToLower(ToLower(term)) == ToLower(term);
  }

  /** `getPriorityColor` */
  function PriorityColour(priority: string): (r: string)
    ensures r == "bg-gray-100 text-gray-800" <==> priority !in {"high", "normal", "low"}
  {
    match priority
    case "high" => "bg-red-100 text-red-800"
    case "normal" => "bg-blue-100 text-blue-800"
    case "low" => "bg-green-100 text-green-800"
    case _ => "bg-gray-100 text-gray-800"
  }

  /** `getStatusColor` */
  function StatusColour(status: string): (r: string)
    ensures r == "bg-gray-100 text-gray-800" <==> status !in {"open", "in_progress", "waiting_customer", "resolved"}
  {
    match status
    case "open" => "bg-red-100 text-red-800"
    case "in_progress" => "bg-yellow-100 text-yellow-800"
    case "waiting_customer" => "bg-blue-100 text-blue-800"
    case "resolved" => "bg-green-100 text-green-800"
    case _ => "bg-gray-100 text-gray-800"
  }

  /** The four known statuses get four different colours, and the three known
      priorities three different colours. */
  lemma ColoursDistinct(a: string, b: string)
    ensures a in {"open", "in_progress", "waiting_customer", "resolved"}
            && b in {"open", "in_progress", "waiting_customer", "resolved"} ==>
              (StatusColour(a) == StatusColour(b) <==> a == b)
    ensures a in {"high", "normal", "low"} && b in {"high", "normal", "low"} ==>
              (PriorityColour(a) == PriorityColour(b) <==> a == b)
  {
  }
}
