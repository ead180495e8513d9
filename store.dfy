/**
 * The session store: five namespaced keys of durable browser storage
 * (config, token, user, role, resource), each with get / set / remove, and a
 * notification published on a topic of its own for every set and remove.
 *
 * The durable medium is held in the fields of `SessionStore`, one per key;
 * `None` is a key that holds nothing. Publishing is an append to `events`.
 * Readers work on a `Session` snapshot, a plain value.
 */
module Store {
  import opened Wrappers

  /** A granted capability. `kind` is the stored `type` string, compared
      verbatim: anything but "menu", "api" or "action" is malformed. */
  datatype Resource = Resource(kind: string, name: string)

  const MenuKind := "menu"
  const ApiKind := "api"
  const ActionKind := "action"

  /** The stored user profile. A field that is absent or empty reads as "";
      further profile keys are kept as opaque serialized values. */
  datatype UserInfo = UserInfo(
    id: Option<string>,
    userName: Option<string>,
    displayName: Option<string>,
    others: map<string, string>)

  /** The `{}` a missing profile reads as. */
  const EmptyUser := UserInfo(None, None, None, map[])

  /** The display configuration; `others` are further keys, opaque here. */
  datatype Config = Config(sidebarCollapse: Option<bool>, others: map<string, string>)

  /** What initialisation writes when the flag is missing: `{sidebarCollapse: false}`. */
  const DefaultConfig := Config(Some(false), map[])

  /** The test at the head of `getSidebarCollapse` and of the module's
      initialisation: no config stored, or one without the flag. */
  predicate LacksSidebarCollapse(c: Option<Config>) {
    c.None? || c.value.sidebarCollapse.None?
  }

  /** The config after one toggle: `!flag`, where an absent flag is falsy,
      merged over the stored keys. */
  function Toggled(c: Config): Config {
    c.(sidebarCollapse := Some(c.sidebarCollapse != Some(true)))
  }

  /** The notification topics, one per kind of mutation. */
  datatype Topic =
    | ToggleSidebarCollapse
    | SetToken | RemoveToken
    | SetUserInfo | RemoveUserInfo
    | SetRole | RemoveRole
    | SetResource | RemoveResource

  /** What a notification carries: the new value for a set, nothing otherwise. */
  datatype Payload =
    | NoPayload
    | TokenValue(token: string)
    | UserValue(user: UserInfo)
    | RoleValue(roles: seq<string>)
    | ResourceValue(resources: seq<Resource>)

  datatype Event = Event(topic: Topic, payload: Payload)

  /** The names of the entries of `rs` whose type is `kind`, in stored order:
      `rs.filter(d => d.type === kind).map(d => d.name)`. */
  function Names(rs: seq<Resource>, kind: string): (r: seq<string>)
    ensures |r| <= |rs|
    ensures forall n :: n in r <==> exists i | 0 <= i < |rs| :: rs[i].kind == kind && rs[i].name == n
  {
    if rs == [] then []
    else
      var rest := Names(rs[1..], kind);
      assert forall n :: n in rest <==> exists i | 1 <= i < |rs| :: rs[i].kind == kind && rs[i].name == n by {
        forall n ensures n in rest <==> exists i | 1 <= i < |rs| :: rs[i].kind == kind && rs[i].name == n {
          if n in rest {
            var j :| 0 <= j < |rs[1..]| && rs[1..][j].kind == kind && rs[1..][j].name == n;
            assert rs[j + 1] == rs[1..][j];
          }
          if exists i | 1 <= i < |rs| :: rs[i].kind == kind && rs[i].name == n {
            var j :| 1 <= j < |rs| && rs[j].kind == kind && rs[j].name == n;
            assert rs[1..][j - 1] == rs[j];
          }
        }
      }
      (if rs[0].kind == kind then [rs[0].name] else []) + rest
  }

  /** Filtering distributes over concatenation: the view keeps stored order. */
  lemma {:induction false} NamesAppend(a: seq<Resource>, b: seq<Resource>, kind: string)
    ensures Names(a + b, kind) == Names(a, kind) + Names(b, kind)
  {
    if a == [] {
      assert a + b == b;
    } else {
      assert (a + b)[1..] == a[1..] + b;
      NamesAppend(a[1..], b, kind);
    }
  }

  /** The three views see only well-typed entries: together they are exactly
      as long as the list when every entry is typed menu, api or action, and
      shorter otherwise. */
  lemma {:induction false} ViewsPartition(rs: seq<Resource>)
    ensures |Names(rs, MenuKind)| + |Names(rs, ApiKind)| + |Names(rs, ActionKind)| <= |rs|
    ensures |Names(rs, MenuKind)| + |Names(rs, ApiKind)| + |Names(rs, ActionKind)| == |rs|
            <==> forall i | 0 <= i < |rs| :: rs[i].kind in [MenuKind, ApiKind, ActionKind]
  {
    if rs != [] {
      ViewsPartition(rs[1..]);
      assert forall i | 1 <= i < |rs| :: rs[i] == rs[1..][i - 1];
    }
  }

  /** An entry of any other type is invisible to all three views, wherever it
      stands in the list. */
  lemma MalformedEntryIgnored(a: seq<Resource>, x: Resource, b: seq<Resource>)
    requires x.kind !in [MenuKind, ApiKind, ActionKind]
    ensures Names(a + [x] + b, MenuKind) == Names(a + b, MenuKind)
    ensures Names(a + [x] + b, ApiKind) == Names(a + b, ApiKind)
    ensures Names(a + [x] + b, ActionKind) == Names(a + b, ActionKind)
  {
    forall kind | kind in [MenuKind, ApiKind, ActionKind]
      ensures Names(a + [x] + b, kind) == Names(a + b, kind)
    {
      NamesAppend(a + [x], b, kind);
      NamesAppend(a, [x], kind);
      NamesAppend(a, b, kind);
    }
  }

  /** A snapshot of the five keys, as every reader sees them. */
  datatype Session = Session(
    config: Option<Config>,
    token: Option<string>,
    user: Option<UserInfo>,
    role: Option<seq<string>>,
    resource: Option<seq<Resource>>)
  {
    /** `token.get()`: the stored token, "" when there is none. */
    function Token(): (r: string)
      ensures r != "" ==> token == Some(r)
      ensures r == "" <==> token.None? || token == Some("")
    {
      token.GetOr("")
    }

    /** `userInfo.get()`: the stored profile, `{}` when there is none. */
    function User(): (r: UserInfo)
      ensures r != EmptyUser ==> user == Some(r)
      ensures r == EmptyUser <==> user.None? || user == Some(EmptyUser)
    {
      user.GetOr(EmptyUser)
    }

    /** `userInfo.getId()`: "" with no profile or no id. */
    function UserId(): (r: string)
      ensures r != "" ==> user.Some? && user.value.id == Some(r)
      ensures r == "" <==> user.None? || user.value.id in {None, Some("")}
    {
      if user.Some? then user.value.id.GetOr("") else ""
    }

    /** `userInfo.getUserName()`: "" with no profile or no user name. */
    function UserName(): (r: string)
      ensures r != "" ==> user.Some? && user.value.userName == Some(r)
      ensures r == "" <==> user.None? || user.value.userName in {None, Some("")}
    {
      if user.Some? then user.value.userName.GetOr("") else ""
    }

    /** `userInfo.getDisplayName()`: "" with no profile or no display name. */
    function DisplayName(): (r: string)
      ensures r != "" ==> user.Some? && user.value.displayName == Some(r)
      ensures r == "" <==> user.None? || user.value.displayName in {None, Some("")}
    {
      if user.Some? then user.value.displayName.GetOr("") else ""
    }

    /** `role.get()`: the stored role list, [] when there is none. */
    function Roles(): (r: seq<string>)
      ensures r != [] ==> role == Some(r)
      ensures r == [] <==> role.None? || role == Some([])
    {
      role.GetOr([])
    }

    /** `resource.get()`: the stored resource list, [] when there is none. */
    function Resources(): (r: seq<Resource>)
      ensures r != [] ==> resource == Some(r)
      ensures r == [] <==> resource.None? || resource == Some([])
    {
      resource.GetOr([])
    }

    /** `resource.getMenu()`: the names of the stored entries of that type, in
        stored order; [] when no list is stored. */
    function MenuNames(): (r: seq<string>)
      ensures resource.None? ==> r == []
      ensures |r| <= |Resources()|
      ensures forall n :: n in r <==>
                exists i | 0 <= i < |Resources()| :: Resources()[i].kind == MenuKind && Resources()[i].name == n
    {
      Names(Resources(), MenuKind)
    }

    /** `resource.getApi()`: the names of the stored entries of that type, in
        stored order; [] when no list is stored. */
    function ApiNames(): (r: seq<string>)
      ensures resource.None? ==> r == []
      ensures |r| <= |Resources()|
      ensures forall n :: n in r <==>
                exists i | 0 <= i < |Resources()| :: Resources()[i].kind == ApiKind && Resources()[i].name == n
    {
      Names(Resources(), ApiKind)
    }

    /** `resource.getAction()`: the names of the stored entries of that type, in
        stored order; [] when no list is stored. */
    function ActionNames(): (r: seq<string>)
      ensures resource.None? ==> r == []
      ensures |r| <= |Resources()|
      ensures forall n :: n in r <==>
                exists i | 0 <= i < |Resources()| :: Resources()[i].kind == ActionKind && Resources()[i].name == n
    {
      Names(Resources(), ActionKind)
    }
  }

  /** Storing one api entry and nothing else: the api view holds its name,
      the menu and action views are empty. */
  lemma ApiOnlyViews(s: Session)
    ensures var t := s.(resource := Some([Resource(ApiKind, "/users")]));
            t.ApiNames() == ["/users"] && t.MenuNames() == [] && t.ActionNames() == []
  {
  }

  /** Toggling twice restores a config that holds the flag. */
  lemma ToggledTwice(c: Config)
    requires c.sidebarCollapse.Some?
    ensures Toggled(Toggled(c)) == c
    ensures Toggled(c).others == c.others && Toggled(c).sidebarCollapse == Some(!c.sidebarCollapse.value)
  {
    if c.sidebarCollapse.value {
      assert Toggled(c).sidebarCollapse == Some(false);
    } else {
      assert c.sidebarCollapse == Some(false);
      assert Toggled(c).sidebarCollapse == Some(true);
    }
    assert Toggled(Toggled(c)).sidebarCollapse == c.sidebarCollapse;
  }

  /** The durable store and its notification log. */
  class SessionStore {
    var config: Option<Config>
    var token: Option<string>
    var user: Option<UserInfo>
    var role: Option<seq<string>>
    var resource: Option<seq<Resource>>
    /** Every notification published so far, oldest first. */
    var events: seq<Event>

    /** The five keys as a value. */
    function Snapshot(): Session
      reads this
    {
      Session(config, token, user, role, resource)
    }

    /** What initialisation establishes and every operation keeps: the config
        holds the sidebar flag. The two config operations ensure it outright;
        the others leave the config alone and state that they keep it. */
    ghost predicate Valid()
      reads this
    {
      !LacksSidebarCollapse(config)
    }

    /** Module initialisation over what earlier sessions left in storage:
        writes `{sidebarCollapse: false}` when the flag is missing, and
        publishes nothing. */
    constructor (persisted: Session)
      ensures Valid()
      ensures events == []
      ensures Snapshot() == if LacksSidebarCollapse(persisted.config)
                            then persisted.(config := Some(DefaultConfig))
                            else persisted
    {
      config := if LacksSidebarCollapse(persisted.config) then Some(DefaultConfig) else persisted.config;
      token := persisted.token;
      user := persisted.user;
      role := persisted.role;
      resource := persisted.resource;
      events := [];
    }

    /** `config.getSidebarCollapse()`: lazily writes the default config when
        the flag is missing, then reads the flag; publishes nothing. */
    method GetSidebarCollapse() returns (collapsed: bool)
      modifies this`config
      ensures Valid()
      ensures old(LacksSidebarCollapse(config)) ==> config == Some(DefaultConfig) && !collapsed
      ensures !old(LacksSidebarCollapse(config)) ==>
                config == old(config) && collapsed == config.value.sidebarCollapse.value
    {
      if LacksSidebarCollapse(config) {
        config := Some(DefaultConfig);
      }
      collapsed := config.value.sidebarCollapse.value;
    }

    /** `config.toggleSidebarCollapse()`: negates the flag, keeps the other
        config keys, and publishes on TOGGLE_SIDEBAR_COLLAPSE with no payload.
        The source reads the flag of the stored config unguarded, so a config
        must be stored. The clauses on `config.value` spell out, for the
        reader, what the `Snapshot()` clause below them already fixes. */
    method ToggleSidebarCollapse()
      requires config.Some?
      modifies this`config, this`events
      ensures Valid()
      ensures config.value.others == old(config.value.others)
      ensures config.value.sidebarCollapse == Some(old(config.value.sidebarCollapse) != Some(true))
      ensures Snapshot() == old(Snapshot()).(config := Some(Toggled(old(config.value))))
      ensures events == old(events) + [Event(Topic.ToggleSidebarCollapse, NoPayload)]
    {
      config := Some(Toggled(config.value));
      events := events + [Event(Topic.ToggleSidebarCollapse, NoPayload)];
    }

    /** `token.set(t)`. */
    method SetToken(t: string)
      modifies this`token, this`events
      ensures Valid() == old(Valid())
      ensures Snapshot() == old(Snapshot()).(token := Some(t))
      ensures Snapshot().Token() == t
      ensures events == old(events) + [Event(Topic.SetToken, TokenValue(t))]
    {
      token := Some(t);
      events := events + [Event(Topic.SetToken, TokenValue(t))];
    }

    /** `token.remove()`. */
    method RemoveToken()
      modifies this`token, this`events
      ensures Valid() == old(Valid())
      ensures Snapshot() == old(Snapshot()).(token := None)
      ensures Snapshot().Token() == ""
      ensures events == old(events) + [Event(Topic.RemoveToken, NoPayload)]
    {
      token := None;
      events := events + [Event(Topic.RemoveToken, NoPayload)];
    }

    /** `userInfo.set(u)`. */
    method SetUserInfo(u: UserInfo)
      modifies this`user, this`events
      ensures Valid() == old(Valid())
      ensures Snapshot() == old(Snapshot()).(user := Some(u))
      ensures Snapshot().User() == u
      ensures Snapshot().UserId() == u.id.GetOr("")
      ensures Snapshot().UserName() == u.userName.GetOr("")
      ensures Snapshot().DisplayName() == u.displayName.GetOr("")
      ensures events == old(events) + [Event(Topic.SetUserInfo, UserValue(u))]
    {
      user := Some(u);
      events := events + [Event(Topic.SetUserInfo, UserValue(u))];
    }

    /** `userInfo.remove()`. */
    method RemoveUserInfo()
      modifies this`user, this`events
      ensures Valid() == old(Valid())
      ensures Snapshot() == old(Snapshot()).(user := None)
      ensures Snapshot().User() == EmptyUser
      ensures Snapshot().UserId() == "" && Snapshot().UserName() == "" && Snapshot().DisplayName() == ""
      ensures events == old(events) + [Event(Topic.RemoveUserInfo, NoPayload)]
    {
      user := None;
      events := events + [Event(Topic.RemoveUserInfo, NoPayload)];
    }

    /** `role.set(rs)`. */
    method SetRole(roles: seq<string>)
      modifies this`role, this`events
      ensures Valid() == old(Valid())
      ensures Snapshot() == old(Snapshot()).(role := Some(roles))
      ensures Snapshot().Roles() == roles
      ensures events == old(events) + [Event(Topic.SetRole, RoleValue(roles))]
    {
      role := Some(roles);
      events := events + [Event(Topic.SetRole, RoleValue(roles))];
    }

    /** `role.remove()`. */
    method RemoveRole()
      modifies this`role, this`events
      ensures Valid() == old(Valid())
      ensures Snapshot() == old(Snapshot()).(role := None)
      ensures Snapshot().Roles() == []
      ensures events == old(events) + [Event(Topic.RemoveRole, NoPayload)]
    {
      role := None;
      events := events + [Event(Topic.RemoveRole, NoPayload)];
    }

    /** `resource.set(rs)`: the list is replaced wholesale. */
    method SetResource(rs: seq<Resource>)
      modifies this`resource, this`events
      ensures Valid() == old(Valid())
      ensures Snapshot() == old(Snapshot()).(resource := Some(rs))
      ensures Snapshot().Resources() == rs
      ensures Snapshot().MenuNames() == Names(rs, MenuKind)
      ensures Snapshot().ApiNames() == Names(rs, ApiKind)
      ensures Snapshot().ActionNames() == Names(rs, ActionKind)
      ensures events == old(events) + [Event(Topic.SetResource, ResourceValue(rs))]
    {
      resource := Some(rs);
      events := events + [Event(Topic.SetResource, ResourceValue(rs))];
    }

    /** `resource.remove()`. */
    method RemoveResource()
      modifies this`resource, this`events
      ensures Valid() == old(Valid())
      ensures Snapshot() == old(Snapshot()).(resource := None)
      ensures Snapshot().Resources() == []
      ensures Snapshot().MenuNames() == [] && Snapshot().ApiNames() == [] && Snapshot().ActionNames() == []
      ensures events == old(events) + [Event(Topic.RemoveResource, NoPayload)]
    {
      resource := None;
      events := events + [Event(Topic.RemoveResource, NoPayload)];
    }

    /** `clear()`: deletes the four session keys straight from storage, keeps
        the config, and publishes nothing. */
    method Clear()
      modifies this`token, this`user, this`role, this`resource
      ensures Valid() == old(Valid())
      ensures Snapshot() == old(Snapshot()).(token := None, user := None, role := None, resource := None)
      ensures config == old(config) && events == old(events)
      ensures var s := Snapshot();
              s.Token() == "" && s.User() == EmptyUser && s.Roles() == [] && s.Resources() == []
    {
      token := None;
      user := None;
      role := None;
      resource := None;
    }
  }
}
