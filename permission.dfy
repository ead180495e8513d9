/**
 * The permission engine: membership tests for menu, api and action
 * resources, and the recursive prune that derives the visible navigation
 * tree from the full menu definition and the granted menu names.
 *
 * The configuration flag and the menu definition are parameters; the
 * granted resources are read from a snapshot of the session store.
 */
module Permission {
  import opened Wrappers
  import opened Store

  /** A menu entry: `name` is the only attribute matched; `children` is
      empty both for a node without a children list and for an empty one. */
  datatype Menu = Menu(name: string, children: seq<Menu>)

  /** Entry points every visitor may open: home and login, as top-level
      names and as their default sub-route. */
  const PublicMenus: seq<string> := ["welcome", "welcome.index", "login", "login.index"]

  /** `config.needPermission === false` switches enforcement off; any other
      value, an absent flag included, leaves it on. */
  predicate Enforced(needPermission: Option<bool>) {
    needPermission != Some(false)
  }

  /** Every node of the forest, at every depth, is named in `auth`. */
  predicate AllAuthorized(ms: seq<Menu>, auth: seq<string>)
    decreases ms
  {
    forall i | 0 <= i < |ms| :: ms[i].name in auth && AllAuthorized(ms[i].children, auth)
  }

  /** `out` is obtained from `inp` by deleting siblings, keeping the order of
      the rest, matching each kept node to one input node of the same name,
      and recursively doing the same to its children. */
  predicate Embeds(out: seq<Menu>, inp: seq<Menu>)
    decreases inp
  {
    if out == [] then true
    else if inp == [] then false
    else
      (out[0].name == inp[0].name && Embeds(out[0].children, inp[0].children) && Embeds(out[1..], inp[1..]))
      || Embeds(out, inp[1..])
  }

  /** `p` spells the names on a path from a root of `ms` down to a leaf. */
  predicate LeafPath(ms: seq<Menu>, p: seq<string>)
    decreases |p|
  {
    |p| > 0 &&
    exists m | m in ms ::
      m.name == p[0] && (if m.children == [] then |p| == 1 else LeafPath(m.children, p[1..]))
  }

  function AsSeq(o: Option<Menu>): seq<Menu> {
    match o
    case Some(x) => [x]
    case None => []
  }

  /** The decision `filterMenu` takes for one node: a denied node goes with
      its whole subtree; an authorised group goes when none of its children
      survive; an authorised leaf stays as it is. */
  function Prune(m: Menu, auth: seq<string>): (r: Option<Menu>)
    decreases m
    ensures r.Some? ==> r.value.name == m.name && m.name in auth
    ensures r.Some? ==> AllAuthorized(r.value.children, auth)
    ensures r.Some? ==> (r.value.children == [] <==> m.children == [])
  {
    if m.name !in auth then None
    else if |m.children| > 0 then
      var kids := FilterMenu(m.children, auth);
      if |kids| == 0 then None else Some(m.(children := kids))
    else Some(m)
  }

  /** `filterMenu(menus, auth)`: the surviving siblings, in order. */
  function FilterMenu(menus: seq<Menu>, auth: seq<string>): (r: seq<Menu>)
    decreases menus
    ensures |r| <= |menus|
    ensures AllAuthorized(r, auth)
  {
    if menus == [] then []
    else
      var head := AsSeq(Prune(menus[0], auth));
      var rest := FilterMenu(menus[1..], auth);
      assert forall i | 0 <= i < |rest| :: (head + rest)[|head| + i] == rest[i];
      head + rest
  }

  /** `filteredMenu()`: the whole definition when enforcement is off,
      otherwise the definition pruned against the granted menu names. */
  function FilteredMenu(definition: seq<Menu>, needPermission: Option<bool>, s: Session): (r: seq<Menu>)
    ensures !Enforced(needPermission) ==> r == definition
    ensures Enforced(needPermission) ==> AllAuthorized(r, s.MenuNames()) && Embeds(r, definition)
  {
    if !Enforced(needPermission) then definition
    else
      FilterEmbeds(definition, s.MenuNames());
      FilterMenu(definition, s.MenuNames())
  }

  /** `isAuthMenu(name)`: public names and the empty name always pass,
      whatever is stored and whatever the flag; otherwise granted when
      enforcement is off or a menu entry of that name is stored. */
  function IsAuthMenu(name: string, needPermission: Option<bool>, s: Session): (r: bool)
    ensures r <==> name == "" || name in PublicMenus || !Enforced(needPermission) ||
                   exists i | 0 <= i < |s.Resources()| ::
                     s.Resources()[i].kind == MenuKind && s.Resources()[i].name == name
  {
    if name == "" || name in PublicMenus then true
    else !Enforced(needPermission) || name in s.MenuNames()
  }

  /** `isAuthApi(name)`: granted when enforcement is off or an api entry of
      that name is stored. */
  function IsAuthApi(name: string, needPermission: Option<bool>, s: Session): (r: bool)
    ensures r <==> !Enforced(needPermission) ||
                   exists i | 0 <= i < |s.Resources()| ::
                     s.Resources()[i].kind == ApiKind && s.Resources()[i].name == name
  {
    !Enforced(needPermission) || name in s.ApiNames()
  }

  /** `isAuthAction(name)`: granted when enforcement is off or an action
      entry of that name is stored. */
  function IsAuthAction(name: string, needPermission: Option<bool>, s: Session): (r: bool)
    ensures r <==> !Enforced(needPermission) ||
                   exists i | 0 <= i < |s.Resources()| ::
                     s.Resources()[i].kind == ActionKind && s.Resources()[i].name == name
  {
    !Enforced(needPermission) || name in s.ActionNames()
  }

  /** With enforcement off every query passes and the menu is shown whole. */
  lemma EnforcementOff(definition: seq<Menu>, needPermission: Option<bool>, s: Session, name: string)
    requires needPermission == Some(false)
    ensures IsAuthMenu(name, needPermission, s)
    ensures IsAuthApi(name, needPermission, s)
    ensures IsAuthAction(name, needPermission, s)
    ensures FilteredMenu(definition, needPermission, s) == definition
  {
  }

  /** With enforcement on the queries are membership in the store's views
      and the menu is the pruned definition. */
  lemma EnforcementOn(definition: seq<Menu>, needPermission: Option<bool>, s: Session, name: string)
    requires Enforced(needPermission)
    ensures name != "" && name !in PublicMenus ==> (IsAuthMenu(name, needPermission, s) <==> name in s.MenuNames())
    ensures IsAuthApi(name, needPermission, s) <==> name in s.ApiNames()
    ensures IsAuthAction(name, needPermission, s) <==> name in s.ActionNames()
    ensures FilteredMenu(definition, needPermission, s) == FilterMenu(definition, s.MenuNames())
  {
  }

  /** The filter of one node is that node's decision. */
  lemma FilterSingleton(m: Menu, auth: seq<string>)
    ensures FilterMenu([m], auth) == AsSeq(Prune(m, auth))
  {
  }

  /** A denied node is dropped with its whole subtree. */
  lemma DeniedDropped(m: Menu, auth: seq<string>)
    requires m.name !in auth
    ensures FilterMenu([m], auth) == []
  {
  }

  /** An authorised node without children is kept unchanged. */
  lemma LeafKept(m: Menu, auth: seq<string>)
    requires m.name in auth && m.children == []
    ensures FilterMenu([m], auth) == [m]
  {
  }

  /** A node that has children is kept exactly when it is authorised and
      some child survives, and then it carries the surviving children. */
  lemma GroupKeptIffChildSurvives(m: Menu, auth: seq<string>)
    requires m.children != []
    ensures FilterMenu([m], auth) != [] <==> m.name in auth && FilterMenu(m.children, auth) != []
    ensures FilterMenu([m], auth) != [] ==>
              FilterMenu([m], auth) == [Menu(m.name, FilterMenu(m.children, auth))]
  {
  }

  /** The two worked examples: a group with one granted child keeps that
      child only; a group with no granted child disappears. */
  lemma ReportsExamples()
    ensures var reports := Menu("reports", [Menu("sales", []), Menu("audit", [])]);
            FilterMenu([reports], ["reports", "sales"]) == [Menu("reports", [Menu("sales", [])])] &&
            FilterMenu([reports], ["reports"]) == []
  {
    var sales, audit := Menu("sales", []), Menu("audit", []);
    var reports := Menu("reports", [sales, audit]);
    FilterSingleton(sales, ["reports", "sales"]);
    FilterSingleton(audit, ["reports", "sales"]);
    FilterAppend([sales], [audit], ["reports", "sales"]);
    assert [sales, audit] == [sales] + [audit];
    FilterSingleton(reports, ["reports", "sales"]);
    FilterSingleton(sales, ["reports"]);
    FilterSingleton(audit, ["reports"]);
    FilterAppend([sales], [audit], ["reports"]);
    FilterSingleton(reports, ["reports"]);
  }

  /** Filtering distributes over concatenation of sibling lists. */
  lemma {:induction false} FilterAppend(a: seq<Menu>, b: seq<Menu>, auth: seq<string>)
    ensures FilterMenu(a + b, auth) == FilterMenu(a, auth) + FilterMenu(b, auth)
  {
    if a == [] {
      assert a + b == b;
    } else {
      assert (a + b)[0] == a[0];
      assert (a + b)[1..] == a[1..] + b;
      FilterAppend(a[1..], b, auth);
    }
  }

  /** The nodes of the filtered forest are exactly the surviving decisions
      on its roots. */
  lemma {:induction false} FilterMembers(ms: seq<Menu>, auth: seq<string>, x: Menu)
    ensures x in FilterMenu(ms, auth) <==> exists m | m in ms :: Prune(m, auth) == Some(x)
  {
    if ms != [] {
      FilterMembers(ms[1..], auth, x);
      assert forall m :: m in ms <==> m == ms[0] || m in ms[1..];
    }
  }

  /** The result is the input with siblings deleted and subtrees pruned:
      order is kept, nothing is duplicated or invented. */
  lemma {:induction false} FilterEmbeds(ms: seq<Menu>, auth: seq<string>)
    ensures Embeds(FilterMenu(ms, auth), ms)
    decreases ms
  {
    if ms != [] {
      var out := FilterMenu(ms, auth);
      FilterEmbeds(ms[1..], auth);
      match Prune(ms[0], auth)
      case None =>
        assert out == FilterMenu(ms[1..], auth);
      case Some(x) =>
        assert out[0] == x && out[1..] == FilterMenu(ms[1..], auth);
        if ms[0].children != [] {
          FilterEmbeds(ms[0].children, auth);
        }
    }
  }

  /** Exact characterisation: the root-to-leaf name paths of the filtered
      menu are the root-to-leaf paths of the definition whose every name is
      authorised. A group whose leaves are all denied thus leaves no trace,
      and every fully authorised leaf stays reachable. */
  lemma {:induction false} LeafPathsOfFilter(ms: seq<Menu>, auth: seq<string>, p: seq<string>)
    ensures LeafPath(FilterMenu(ms, auth), p) <==>
            LeafPath(ms, p) && forall k | 0 <= k < |p| :: p[k] in auth
    decreases |p|
  {
    var out := FilterMenu(ms, auth);
    if LeafPath(out, p) {
      var x :| x in out && x.name == p[0] &&
               (if x.children == [] then |p| == 1 else LeafPath(x.children, p[1..]));
      FilterMembers(ms, auth, x);
      var m :| m in ms && Prune(m, auth) == Some(x);
      if x.children != [] {
        LeafPathsOfFilter(m.children, auth, p[1..]);
        forall k | 0 < k < |p| ensures p[k] in auth {
          assert p[k] == p[1..][k - 1];
        }
      }
      assert LeafPath(ms, p);
    }
    if LeafPath(ms, p) && forall k | 0 <= k < |p| :: p[k] in auth {
      var m :| m in ms && m.name == p[0] &&
               (if m.children == [] then |p| == 1 else LeafPath(m.children, p[1..]));
      if m.children == [] {
        FilterMembers(ms, auth, m);
        assert m in out;
      } else {
        LeafPathsOfFilter(m.children, auth, p[1..]);
        var kids := FilterMenu(m.children, auth);
        assert kids != [];
        FilterMembers(ms, auth, m.(children := kids));
        assert m.(children := kids) in out;
      }
    }
  }

  /** A surviving node survives a second filter unchanged. */
  lemma {:induction false} PruneStable(m: Menu, auth: seq<string>)
    requires Prune(m, auth).Some?
    ensures Prune(Prune(m, auth).value, auth) == Prune(m, auth)
    decreases m
  {
    if m.children != [] {
      FilterIdempotent(m.children, auth);
    }
  }

  /** Filtering twice is filtering once. */
  lemma {:induction false} FilterIdempotent(ms: seq<Menu>, auth: seq<string>)
    ensures FilterMenu(FilterMenu(ms, auth), auth) == FilterMenu(ms, auth)
    decreases ms
  {
    if ms != [] {
      var head := AsSeq(Prune(ms[0], auth));
      var rest := FilterMenu(ms[1..], auth);
      FilterAppend(head, rest, auth);
      FilterIdempotent(ms[1..], auth);
      match Prune(ms[0], auth)
      case None =>
      case Some(x) =>
        PruneStable(ms[0], auth);
        FilterSingleton(x, auth);
    }
  }
}
