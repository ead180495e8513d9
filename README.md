# Session store and permission engine

A Dafny model of the client-side authorization layer of a Vue admin starter.
It has two parts.

- **Session store** (`store.dfy`, module `Store`): five namespaced keys of
  durable storage: `config`, `token`, `user`, `role` and `resource`.
  - Every session key (token, user, role, resource) has a getter with a typed empty default (`''`, `{}`, `[]`). The config has no plain getter: `getSidebarCollapse` defaults the flag to `false` and writes that default, and `toggleSidebarCollapse` reads the config to negate the flag.
  - Every `set` and `remove` publishes one notification on its own topic.
  - The class `SessionStore` holds one field per key (`None` = nothing stored)
    and an `events` log that stands for PubSub publishing.
  - The getters and the three resource views (`getMenu`, `getApi`, `getAction`)
    are pure functions of a `Session` snapshot of the five keys.
  - The constructor is the module's initialisation over what earlier sessions left in storage.
- **Permission engine** (`permission.dfy`, module `Permission`): the recursive
  menu prune `filterMenu`, `filteredMenu`, and the `isAuthMenu`, `isAuthApi`
  and `isAuthAction` queries.
  - The `needPermission` flag and the menu definition are parameters.
  - The granted resources come from a `Session` snapshot.
- `wrappers.dfy` holds the `Option` type.

The flag `needPermission` is an `Option<bool>`. The source tests
`config.needPermission === false`, so only `Some(false)` switches enforcement
off. An absent flag leaves it on.

`clear()` deletes the four session keys straight from storage and publishes
nothing (store.js:138-144), unlike the per-field `remove()` methods, which
each publish one notification.

## Model

| member | source | states |
|---|---|---|
| Store.Names | src/utils/store.js:104-112 | a resource view is no longer than the list, and a name is in it exactly when some stored entry of that type carries it |
| Store.NamesAppend | src/utils/store.js:104-112 | the view of a concatenation is the concatenation of the views, so stored order is kept |
| Store.ViewsPartition | src/utils/store.js:104-112 | the three views together are at most as long as the list, and exactly as long iff every entry is typed menu, api or action |
| Store.MalformedEntryIgnored | src/utils/store.js:104-112 | an entry of any other type, inserted anywhere, changes none of the three views |
| Store.Session.MenuNames | src/utils/store.js:104-106 | getMenu is `[]` with no list stored, no longer than the stored list, and holds a name exactly when a stored entry of type menu carries it |
| Store.Session.ApiNames | src/utils/store.js:107-109 | getApi is `[]` with no list stored, no longer than the stored list, and holds a name exactly when a stored entry of type api carries it |
| Store.Session.ActionNames | src/utils/store.js:110-112 | getAction is `[]` with no list stored, no longer than the stored list, and holds a name exactly when a stored entry of type action carries it |
| Store.ApiOnlyViews | src/utils/store.js:104-112 | storing `[{type:'api', name:'/users'}]` gives getApi `['/users']` and empty menu and action views |
| Store.Session.Token | src/utils/store.js:42-44 | the token read is non-empty only when that token is stored, and is `''` when nothing or `''` is stored |
| Store.Session.User | src/utils/store.js:57-59 | the profile read is the stored profile, or `{}` when none is stored |
| Store.Session.UserId | src/utils/store.js:60-62 | a non-empty id is the stored profile's id; `''` when no profile is stored or its id is absent or empty |
| Store.Session.UserName | src/utils/store.js:63-65 | a non-empty user name is the stored profile's; `''` when no profile is stored or the field is absent or empty |
| Store.Session.DisplayName | src/utils/store.js:66-68 | a non-empty display name is the stored profile's; `''` when no profile is stored or the field is absent or empty |
| Store.Session.Roles | src/utils/store.js:83-85 | the role list read is the stored list, `[]` when none is stored |
| Store.Session.Resources | src/utils/store.js:101-103 | the resource list read is the stored list, `[]` when none is stored |
| Store.ToggledTwice | src/utils/store.js:31-36 | one toggle negates a present flag and keeps the other config keys; two toggles restore the config |
| Store.SessionStore.constructor | src/utils/store.js:124-128 | when the config or its flag is missing, initialisation replaces the whole config with `{sidebarCollapse: false}`; it keeps the four other store keys, publishes nothing, and leaves the flag present |
| Store.SessionStore.GetSidebarCollapse | src/utils/store.js:23-30 | with the flag missing, the whole config becomes `{sidebarCollapse: false}` and false is returned; otherwise the stored flag is returned and nothing changes; no event |
| Store.SessionStore.ToggleSidebarCollapse | src/utils/store.js:31-36 | the flag becomes the negation of the stored one (absent counts as false), other config keys and other store keys are kept, one TOGGLE_SIDEBAR_COLLAPSE event without payload is appended |
| Store.SessionStore.SetToken | src/utils/store.js:45-48 | only the token key changes, the token then reads back as the value set, one SET_TOKEN event carrying it is appended |
| Store.SessionStore.RemoveToken | src/utils/store.js:49-52 | only the token key is deleted, the token then reads `''`, one REMOVE_TOKEN event without payload is appended |
| Store.SessionStore.SetUserInfo | src/utils/store.js:69-72 | only the user key changes, the profile and its id, user name and display name read back from the value set, one SET_USERINFO event carrying it is appended |
| Store.SessionStore.RemoveUserInfo | src/utils/store.js:73-76 | only the user key is deleted, the profile reads `{}` and its fields `''`, one REMOVE_USERINFO event without payload is appended |
| Store.SessionStore.SetRole | src/utils/store.js:86-89 | only the role key changes, the roles read back as the list set, one SET_ROLE event carrying it is appended |
| Store.SessionStore.RemoveRole | src/utils/store.js:90-93 | only the role key is deleted, the roles read `[]`, one REMOVE_ROLE event without payload is appended |
| Store.SessionStore.SetResource | src/utils/store.js:113-116 | only the resource key changes, the list and its three views read back from the list set, one SET_RESOURCE event carrying it is appended |
| Store.SessionStore.RemoveResource | src/utils/store.js:117-120 | only the resource key is deleted, the list and all three views read `[]`, one REMOVE_RESOURCE event without payload is appended |
| Store.SessionStore.Clear | src/utils/store.js:138-144 | token, user, role and resource are deleted and read back as their defaults, config is kept, no event is published |
| Permission.Prune | src/utils/permission.js:14-29 | a surviving node keeps its name, is authorised, has only authorised descendants, and is a leaf exactly when it was one |
| Permission.FilterMenu | src/utils/permission.js:12-30 | the pruned forest has no more roots than the input, and every node at every depth is authorised |
| Permission.FilteredMenu | src/utils/permission.js:33-38 | enforcement off gives the definition unchanged; enforcement on gives an authorised forest embedded in the definition |
| Permission.IsAuthMenu | src/utils/permission.js:41-49 | true exactly for the empty name, the four public names, enforcement off, or a stored menu entry of that name |
| Permission.IsAuthApi | src/utils/permission.js:52-55 | true exactly when enforcement is off or an api entry of that name is stored |
| Permission.IsAuthAction | src/utils/permission.js:58-61 | true exactly when enforcement is off or an action entry of that name is stored |
| Permission.EnforcementOff | src/utils/permission.js:33-60 | with `needPermission === false` all three queries are true for every name and the menu is returned unfiltered |
| Permission.EnforcementOn | src/utils/permission.js:33-60 | otherwise the queries are membership in getMenu, getApi and getAction (past the public names) and filteredMenu is filterMenu over getMenu |
| Permission.FilterSingleton | src/utils/permission.js:14-29 | filtering one node yields exactly that node's keep-or-drop decision |
| Permission.DeniedDropped | src/utils/permission.js:15-28 | a node whose name is not granted is dropped with its whole subtree |
| Permission.LeafKept | src/utils/permission.js:15-25 | a granted node without children is kept unchanged |
| Permission.GroupKeptIffChildSurvives | src/utils/permission.js:17-23 | a node with children is kept iff it is granted and some child survives, and then it carries exactly its pruned children |
| Permission.ReportsExamples | src/utils/permission.js:12-30 | `reports[sales, audit]` keeps `reports[sales]` under `[reports, sales]` and vanishes under `[reports]` |
| Permission.FilterAppend | src/utils/permission.js:14 | filtering distributes over concatenation of sibling lists |
| Permission.FilterMembers | src/utils/permission.js:14 | the roots of the result are exactly the surviving decisions on the input roots |
| Permission.FilterEmbeds | src/utils/permission.js:12-30 | at every level the result is a subsequence of the input siblings with the same names, in order, without duplicates |
| Permission.LeafPathsOfFilter | src/utils/permission.js:12-30 | the root-to-leaf name paths of the result are exactly the input's root-to-leaf paths whose every name is granted |
| Permission.PruneStable | src/utils/permission.js:14-29 | a node that survives the prune survives a second prune unchanged |
| Permission.FilterIdempotent | src/utils/permission.js:12-30 | filtering a filtered menu again changes nothing |

## Left out

- Persistence: the `store` library and JSON serialisation are replaced by one in-memory field per key. Storage is assumed always available.
- Publishing: PubSub delivery to subscribers is not modelled. A publish appends an `Event(topic, payload)` to `events`. Subscriber handlers, their order and their exceptions are outside this code.
- Topics: the constants of `./topic` are not part of this model. They are an enumeration with one value per topic.
- Framework wiring: the registration of the three queries on `Vue.prototype` has no behaviour and is left out.
- Menu and config contents: the menu definition and `needPermission` come from `@/resources/menu` and `@/config`, which are not part of this model. Both are parameters.
- Deep copy: `_.cloneDeep` is implicit because menu trees are immutable values. The input tree cannot be modified, so no member states it.
- Menu attributes: a menu node keeps only `name` and `children`. Display attributes are not modelled, although the source keeps them on surviving nodes.
- Children: a missing `children` field and an empty one are both an empty sequence, and the source treats them alike.
- JS truthiness: stored values are typed. A falsy non-string token, a non-boolean `sidebarCollapse`, a numeric id or a stored `null` are not modelled. "Falsy" means absent or empty.
- Missing names: an `undefined` name passed to `isAuthMenu` is modelled as `""`. For `isAuthApi` and `isAuthAction`, a missing name is not distinguished from `""`.
- Store.SessionStore.ToggleSidebarCollapse: requires a stored config. The source reads that config's flag without a guard and would throw otherwise, and initialisation always stores one.
- Concurrency and outside writes: the store is mutated only through the class's methods. Writes by other tabs or code paths are not modelled.
