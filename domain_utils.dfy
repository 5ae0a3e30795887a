/** Domain helpers of the UI: searching a domain hierarchy, turning it into
    tree-select options, the search filters that scope assets to a domain,
    the domain menu and the lookup of the active domain. */
module DomainUtils {
  import opened Wrappers

  /** A domain or a reference to one; `children` is [] when the list is
      absent, `hasParent` whether a parent is set. */
  datatype Domain = Domain(id: string, name: string, fullyQualifiedName: Option<string>,
                           hasParent: bool, children: seq<Domain>)

  // ---------------------------------------------------------------------
  // isDomainExist

  /** `isDomainExist`: the domain itself or, when it has children, one of
      them (recursively) has the searched FQN. */
  predicate IsDomainExist(domain: Domain, searchDomainFqn: string)
    decreases domain, 1
  {
    domain.fullyQualifiedName == Some(searchDomainFqn) || SomeChildHas(domain.children, searchDomainFqn)
  }

  predicate SomeChildHas(children: seq<Domain>, searchDomainFqn: string)
    decreases children, 0
  {
    exists i :: 0 <= i < |children| && IsDomainExist(children[i], searchDomainFqn)
  }

  /** Every node of the hierarchy, parents before their children. */
  function Nodes(domain: Domain): (ns: seq<Domain>)
    decreases domain, 1
    ensures |ns| >= 1 && ns[0] == domain
  {
    [domain] + ForestNodes(domain.children)
  }

  function ForestNodes(domains: seq<Domain>): seq<Domain>
    decreases domains, 0
  {
    if domains == [] then [] else Nodes(domains[0]) + ForestNodes(domains[1..])
  }

  predicate HasFqn(d: Domain, fqn: string)
  {
    d.fullyQualifiedName == Some(fqn)
  }

  /** The search finds an FQN exactly when some node of the hierarchy has
      it. */
  lemma {:induction false} IsDomainExistIffSomeNode(domain: Domain, fqn: string)
    decreases domain, 1
    ensures IsDomainExist(domain, fqn) <==> exists n :: n in Nodes(domain) && HasFqn(n, fqn)
  {
    ForestSearch(domain.children, fqn);
    var ns := Nodes(domain);
    assert ns == [domain] + ForestNodes(domain.children);
    if IsDomainExist(domain, fqn) {
      if HasFqn(domain, fqn) {
        assert domain in ns;
      } else {
        var n :| n in ForestNodes(domain.children) && HasFqn(n, fqn);
        assert n in ns;
      }
    }
    if exists n :: n in ns && HasFqn(n, fqn) {
      var n :| n in ns && HasFqn(n, fqn);
      if n != domain {
        assert n in ForestNodes(domain.children);
      }
    }
  }

  lemma {:induction false} ForestSearch(domains: seq<Domain>, fqn: string)
    decreases domains, 0
    ensures SomeChildHas(domains, fqn) <==> exists n :: n in ForestNodes(domains) && HasFqn(n, fqn)
  {
    if domains != [] {
      IsDomainExistIffSomeNode(domains[0], fqn);
      ForestSearch(domains[1..], fqn);
      var fs := ForestNodes(domains);
      assert fs == Nodes(domains[0]) + ForestNodes(domains[1..]);
      if SomeChildHas(domains, fqn) {
        var i :| 0 <= i < |domains| && IsDomainExist(domains[i], fqn);
        if i > 0 {
          assert domains[1..][i - 1] == domains[i];
        }
      }
      if SomeChildHas(domains[1..], fqn) {
        var i :| 0 <= i < |domains[1..]| && IsDomainExist(domains[1..][i], fqn);
        assert domains[i + 1] == domains[1..][i];
      }
    }
  }

  // ---------------------------------------------------------------------
  // convertDomainsToTreeOptions

  /** A tree-select option; `domainIcon` says whether the top-level icon is
      shown (otherwise the subdomain icon). A leaf's children are undefined,
      written [] here. */
  datatype TreeListItem = TreeListItem(
    id: string, value: Option<string>, name: string, labelText: string, key: Option<string>,
    domainIcon: bool, isLeaf: bool, selectable: bool, children: seq<TreeListItem>)

  /** `convertDomainsToTreeOptions(options, level, multiple)`. */
  function ConvertDomainsToTreeOptions(options: seq<Domain>, level: nat, multiple: bool): (items: seq<TreeListItem>)
    decreases options, 0
    ensures |items| == |options|
    ensures forall i :: 0 <= i < |items| ==>
      items[i].key == options[i].fullyQualifiedName && items[i].value == options[i].fullyQualifiedName
      && items[i].id == options[i].id && items[i].name == options[i].name && items[i].labelText == options[i].name
      && items[i].selectable == !multiple && items[i].domainIcon == (level == 0)
      && (items[i].isLeaf <==> options[i].children == [])
      && (items[i].isLeaf ==> items[i].children == [])
  {
    if options == [] then []
    else [ConvertDomain(options[0], level, multiple)] + ConvertDomainsToTreeOptions(options[1..], level, multiple)
  }

  function ConvertDomain(option: Domain, level: nat, multiple: bool): (item: TreeListItem)
    decreases option, 1
    ensures item.key == option.fullyQualifiedName && item.id == option.id && item.name == option.name
    ensures |item.children| == |option.children|
  {
    var hasChildren := option.children != [];
    TreeListItem(option.id, option.fullyQualifiedName, option.name, option.name, option.fullyQualifiedName,
                 level == 0, !hasChildren, !multiple,
                 if hasChildren then ConvertDomainsToTreeOptions(option.children, level + 1, multiple) else [])
  }

  /** The keys of a converted forest, parents before children. */
  function TreeKeys(items: seq<TreeListItem>): seq<Option<string>>
    decreases items, 0
  {
    if items == [] then [] else ItemKeys(items[0]) + TreeKeys(items[1..])
  }

  function ItemKeys(item: TreeListItem): seq<Option<string>>
    decreases item, 1
  {
    [item.key] + TreeKeys(item.children)
  }

  function DomainFqns(domains: seq<Domain>): seq<Option<string>>
  {
    if domains == [] then []
    else [domains[0].fullyQualifiedName] + DomainFqns(domains[0].children) + DomainFqns(domains[1..])
  }

  /** The converted tree lists the same FQNs in the same order at every
      depth: the conversion keeps the whole shape. */
  lemma {:induction false} TreeKeepsShape(options: seq<Domain>, level: nat, multiple: bool)
    ensures TreeKeys(ConvertDomainsToTreeOptions(options, level, multiple)) == DomainFqns(options)
  {
    if options != [] {
      var items := ConvertDomainsToTreeOptions(options, level, multiple);
      assert items[1..] == ConvertDomainsToTreeOptions(options[1..], level, multiple);
      TreeKeepsShape(options[1..], level, multiple);
      TreeKeepsShape(options[0].children, level + 1, multiple);
    }
  }

  /** Every option anywhere in the tree is selectable exactly when the
      selection is single. */
  predicate AllSelectable(items: seq<TreeListItem>, selectable: bool)
    decreases items, 0
  {
    forall i :: 0 <= i < |items| ==> ItemSelectable(items[i], selectable)
  }

  predicate ItemSelectable(item: TreeListItem, selectable: bool)
    decreases item, 1
  {
    item.selectable == selectable && AllSelectable(item.children, selectable)
  }

  lemma {:induction false} SelectableEverywhere(options: seq<Domain>, level: nat, multiple: bool)
    ensures AllSelectable(ConvertDomainsToTreeOptions(options, level, multiple), !multiple)
  {
    var items := ConvertDomainsToTreeOptions(options, level, multiple);
    forall i | 0 <= i < |items|
      ensures ItemSelectable(items[i], !multiple)
    {
      ConvertAt(options, level, multiple, i);
      SelectableEverywhere(options[i].children, level + 1, multiple);
    }
  }

  /** The i-th option is the conversion of the i-th domain. */
  lemma {:induction false} ConvertAt(options: seq<Domain>, level: nat, multiple: bool, i: nat)
    requires i < |options|
    ensures ConvertDomainsToTreeOptions(options, level, multiple)[i] == ConvertDomain(options[i], level, multiple)
  {
    if i > 0 {
      ConvertAt(options[1..], level, multiple, i - 1);
    }
  }

  // ---------------------------------------------------------------------
  // getDomainFieldFromEntityType

  const TEAM := "team"
  const USER := "user"

  /** Teams and users carry a list of domains, every other entity one. */
  function GetDomainFieldFromEntityType(entityType: string): (field: string)
    ensures field == "domains" <==> entityType == TEAM || entityType == USER
    ensures field != "domains" ==> field == "domain"
  {
    if entityType == TEAM || entityType == USER then "domains" else "domain"
  }

  // ---------------------------------------------------------------------
  // query filters

  const DOMAIN_FQN_FIELD := "domain.fullyQualifiedName"

  datatype Clause = Term(field: string, value: string) | Prefix(field: string, value: string) | MustNot(clauses: seq<Clause>)

  /** `{ query: { bool: { must, must_not? } } }`. */
  datatype QueryFilter = QueryFilter(must: seq<Clause>, mustNot: Option<seq<Clause>>)

  /** A string is truthy when it is present and not empty. */
  predicate Truthy(s: Option<string>) { s.Some? && s.value != "" }

  /** `getQueryFilterToExcludeDomainTerms`: assets outside `fqn`'s domain,
      inside `parentFqn`'s when that is given. */
  function GetQueryFilterToExcludeDomainTerms(fqn: string, parentFqn: Option<string>): (q: QueryFilter)
    ensures q.mustNot.None?
    ensures |q.must| == if Truthy(parentFqn) then 2 else 1
    ensures q.must[|q.must| - 1] == MustNot([Term(DOMAIN_FQN_FIELD, fqn)])
    ensures Truthy(parentFqn) ==> q.must[0] == Term(DOMAIN_FQN_FIELD, parentFqn.value)
  {
    var mustTerm := if Truthy(parentFqn) then [Term(DOMAIN_FQN_FIELD, parentFqn.value)] else [];
    QueryFilter(mustTerm + [MustNot([Term(DOMAIN_FQN_FIELD, fqn)])], None)
  }

  /** `getQueryFilterForDomain`: assets under the domain's FQN prefix,
      without data products. */
  function GetQueryFilterForDomain(domainFqn: string): (q: QueryFilter)
    ensures q.must == [Prefix(DOMAIN_FQN_FIELD, domainFqn)]
    ensures q.mustNot == Some([Term("entityType", "dataProduct")])
  {
    QueryFilter([Prefix(DOMAIN_FQN_FIELD, domainFqn)], Some([Term("entityType", "dataProduct")]))
  }

  // ---------------------------------------------------------------------
  // getDomainOptions

  datatype Icon = DomainIcon | SubDomainIcon

  datatype MenuItem = MenuItem(labelText: string, key: string, icon: Option<Icon>)

  function DomainOption(domain: Domain, getEntityName: Domain -> string): (item: MenuItem)
  {
    MenuItem(getEntityName(domain), domain.fullyQualifiedName.GetOr(""),
             Some(if domain.hasParent then SubDomainIcon else DomainIcon))
  }

  /** The menu: "all domains" first, then one item per domain in order. */
  function DomainOptions(domains: seq<Domain>, allLabel: string, defaultDomainValue: string,
                         getEntityName: Domain -> string): seq<MenuItem>
  {
    if domains == [] then [MenuItem(allLabel, defaultDomainValue, None)]
    else
      DomainOptions(domains[..|domains| - 1], allLabel, defaultDomainValue, getEntityName)
      + [DomainOption(domains[|domains| - 1], getEntityName)]
  }

  /** The menu has one more item than there are domains, keyed by FQN. */
  lemma {:induction false} DomainOptionsKeys(domains: seq<Domain>, allLabel: string, defaultDomainValue: string,
                                            getEntityName: Domain -> string)
    ensures var items := DomainOptions(domains, allLabel, defaultDomainValue, getEntityName);
      |items| == |domains| + 1 && items[0].key == defaultDomainValue
      && forall i :: 0 <= i < |domains| ==> items[i + 1].key == domains[i].fullyQualifiedName.GetOr("")
  {
    if domains != [] {
      DomainOptionsKeys(domains[..|domains| - 1], allLabel, defaultDomainValue, getEntityName);
    }
  }

  /** `getDomainOptions`: `allLabel` is the translated "all domains" label
      and `defaultDomainValue` its key. */
  method GetDomainOptions(domains: seq<Domain>, allLabel: string, defaultDomainValue: string,
                          getEntityName: Domain -> string) returns (options: seq<MenuItem>)
    ensures options == DomainOptions(domains, allLabel, defaultDomainValue, getEntityName)
  {
    options := [MenuItem(allLabel, defaultDomainValue, None)];
    var i := 0;
    while i < |domains|
      invariant 0 <= i <= |domains|
      invariant options == DomainOptions(domains[..i], allLabel, defaultDomainValue, getEntityName)
    {
      assert domains[..i + 1][..i] == domains[..i];
      options := options + [DomainOption(domains[i], getEntityName)];
      i := i + 1;
    }
    assert domains[..i] == domains;
  }

  // ---------------------------------------------------------------------
  // initializeDomainEntityRef

  /** The index of the first domain with the given FQN. */
  function FindIndex(domains: seq<Domain>, activeDomainKey: string): (r: Option<nat>)
    ensures r.None? <==> forall i :: 0 <= i < |domains| ==> !HasFqn(domains[i], activeDomainKey)
    ensures r.Some? ==>
      r.value < |domains| && HasFqn(domains[r.value], activeDomainKey)
      && forall i :: 0 <= i < r.value ==> !HasFqn(domains[i], activeDomainKey)
  {
    if domains == [] then None
    else if HasFqn(domains[0], activeDomainKey) then Some(0)
    else match FindIndex(domains[1..], activeDomainKey)
      case None => None
      case Some(j) => Some(j + 1)
  }

  /** Domain `i` is the first with the given FQN. */
  predicate FirstMatch(domains: seq<Domain>, activeDomainKey: string, i: int)
    requires 0 <= i < |domains|
  {
    HasFqn(domains[i], activeDomainKey) && forall j :: 0 <= j < i ==> !HasFqn(domains[j], activeDomainKey)
  }

  /** `initializeDomainEntityRef`: the reference (`toReference`) to the
      first domain whose FQN is the active key, or undefined. */
  function InitializeDomainEntityRef<R>(domains: seq<Domain>, activeDomainKey: string, toReference: Domain -> R): (r: Option<R>)
    ensures r.None? <==> forall i :: 0 <= i < |domains| ==> !HasFqn(domains[i], activeDomainKey)
    ensures r.Some? ==>
      exists i :: 0 <= i < |domains| && FirstMatch(domains, activeDomainKey, i) && r.value == toReference(domains[i])
  {
    match FindIndex(domains, activeDomainKey)
    case None => None
    case Some(i) => Some(toReference(domains[i]))
  }
}
