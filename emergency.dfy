/**
 * The emergency-services page: a directory of local services searched by
 * name or type, shown under four tabs, each with an icon and colour chosen
 * by its type.
 */
module Emergency {
  import opened Text
  import opened Seqs

  /** A directory entry; `serviceType` is "police", "hospital" or "ngo" in the directory. */
  datatype Service = Service(id: int, name: string, serviceType: string, phone: string, available24x7: bool)

  const Directory: seq<Service> := [
    Service(1, "City Police Station", "police", "(555) 123-4567", true),
    Service(2, "General Hospital", "hospital", "(555) 234-5678", true),
    Service(3, "Women's Support Center", "ngo", "(555) 345-6789", false),
    Service(4, "Community Police Outpost", "police", "(555) 456-7890", true)
  ]

  datatype Icon = PoliceIcon | HospitalIcon | HeartIcon | MapPinIcon

  /** The text colour classes the icons are drawn in. */
  datatype Tone = TextPrimary | TextAccent | TextSecondary | TextForeground

  /** `getServiceIcon`: one icon per known type, a map pin for anything else. */
  function ServiceIcon(t: string): (i: Icon)
    ensures i == PoliceIcon <==> t == "police"
    ensures i == HospitalIcon <==> t == "hospital"
    ensures i == HeartIcon <==> t == "ngo"
    ensures i == MapPinIcon <==> t !in {"police", "hospital", "ngo"}
  {
    match t
    case "police" => PoliceIcon
    case "hospital" => HospitalIcon
    case "ngo" => HeartIcon
    case _ => MapPinIcon
  }

  /** `getServiceColor`: one colour per known type, the foreground colour for anything else. */
  function ServiceTone(t: string): (c: Tone)
    ensures c == TextPrimary <==> t == "police"
    ensures c == TextAccent <==> t == "hospital"
    ensures c == TextSecondary <==> t == "ngo"
    ensures c == TextForeground <==> t !in {"police", "hospital", "ngo"}
  {
    match t
    case "police" => TextPrimary
    case "hospital" => TextAccent
    case "ngo" => TextSecondary
    case _ => TextForeground
  }

  /** Icon and colour go together: the map pin exactly when the foreground colour. */
  lemma IconAndToneAgree(t: string)
    ensures ServiceIcon(t) == MapPinIcon <==> ServiceTone(t) == TextForeground
  {
  }

  /** Every service in the directory has a type of its own icon. */
  lemma DirectoryHasKnownTypes()
    ensures forall k :: 0 <= k < |Directory| ==> ServiceIcon(Directory[k].serviceType) != MapPinIcon
  {
  }

  /** The search, case-insensitive, on the name or on the type. */
  predicate Matches(s: Service, query: string) {
    Contains(Lower(s.name), Lower(query)) || Contains(Lower(s.serviceType), Lower(query))
  }

  function SearchTest(query: string): Service -> bool {
    (s: Service) => Matches(s, query)
  }

  function TabTest(tab: string): Service -> bool {
    (s: Service) => tab == "all" || s.serviceType == tab
  }

  /** `filteredServices`. */
  function Filtered(services: seq<Service>, query: string): (r: seq<Service>)
    ensures |r| <= |services|
  {
    Filter(services, SearchTest(query))
  }

  /** What a tab shows: every match under "all", the matches of its type under the others. */
  function Shown(services: seq<Service>, query: string, tab: string): (r: seq<Service>)
    ensures |r| <= |services|
  {
    Filter(Filtered(services, query), TabTest(tab))
  }

  /** A service is shown exactly when it is listed, matches the search and belongs to the tab. */
  lemma ShownMeaning(services: seq<Service>, query: string, tab: string, s: Service)
    ensures s in Shown(services, query, tab) <==> s in services && Matches(s, query) && (tab == "all" || s.serviceType == tab)
  {
    FilterMember(services, SearchTest(query), s);
    FilterMember(Filtered(services, query), TabTest(tab), s);
  }

  /** The shown services keep the directory's order. */
  lemma ShownKeepsOrder(services: seq<Service>, query: string, tab: string)
    ensures SubsequenceOf(Shown(services, query, tab), services)
  {
    var both := (s: Service) => Matches(s, query) && (tab == "all" || s.serviceType == tab);
    FilterFilter(services, SearchTest(query), TabTest(tab), both);
    FilterIsSubsequence(services, both);
  }

  /** An empty search on the "all" tab shows the whole directory. */
  lemma EmptySearchShowsAll(services: seq<Service>)
    ensures Filtered(services, "") == services
    ensures Shown(services, "", "all") == services
  {
    forall k | 0 <= k < |services|
      ensures Matches(services[k], "")
    {
      ContainsEmpty(Lower(services[k].name));
    }
    FilterKeepsAll(services, SearchTest(""));
    FilterKeepsAll(services, TabTest("all"));
  }

  /** The case of the search text does not matter. */
  lemma SearchIgnoresCase(s: Service, query: string)
    ensures Matches(s, Upper(query)) <==> Matches(s, query)
  {
    assert Lower(Upper(query)) == Lower(query);
  }
}
