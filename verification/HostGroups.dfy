// A user's hosts in groups, and the operations of the host service on them.
//
// A JavaScript object used as a map is a sequence of key-value pairs in insertion order. The
// objects are plain ones, so a lookup also finds the names inherited from Object.prototype; what
// the source stores on such a built-in value is no part of the user record. A request that names
// __proto__ as a group adds names to Object.prototype itself; of the operations that follow in
// the process only the update of a group is modelled with such `added` names.
module HostGroups {
  import opened Common
  import opened Strings

  type Dict<V> = seq<(string, V)>

  function Find<V>(d: Dict<V>, k: string): (i: nat)
    ensures i <= |d|
    ensures i < |d| ==> d[i].0 == k
    ensures forall j :: 0 <= j < i ==> d[j].0 != k
  {
    if d == [] || d[0].0 == k then 0 else 1 + Find(d[1..], k)
  }

  predicate Has<V>(d: Dict<V>, k: string) {
    Find(d, k) < |d|
  }

  const PROTO: string := "__proto__"

  const INHERITED: set<string> :=
    {PROTO, "constructor", "hasOwnProperty", "isPrototypeOf", "propertyIsEnumerable", "toLocaleString", "toString",
     "valueOf", "__defineGetter__", "__defineSetter__", "__lookupGetter__", "__lookupSetter__"}

  // The test `!object[k]` of the source: an own key or an inherited name.
  predicate Found<V>(d: Dict<V>, k: string) {
    Has(d, k) || k in INHERITED
  }

  function Put<V>(d: Dict<V>, k: string, v: V): Dict<V> {
    if Has(d, k) then d[Find(d, k) := (k, v)] else d + [(k, v)]
  }

  function Drop<V>(d: Dict<V>, k: string): Dict<V> {
    if Has(d, k) then d[..Find(d, k)] + d[Find(d, k) + 1..] else d
  }

  // `object[k] = v`: assigning to __proto__ makes no key.
  function Assigned<V>(d: Dict<V>, k: string, v: V): Dict<V> {
    if k == PROTO && !Has(d, k) then d else Put(d, k, v)
  }

  const UNGROUPED: string := "__ungrouped__"
  const MAX_HOSTS: nat := 400
  const MAX_ALIAS_LENGTH: nat := 100

  // An undefined string is "" and an undefined port 0, neither of which a request can give.
  datatype Host = Host(
    uid: string, id: string, address: string, port: int, password: string, alias: string, token: string)

  datatype Group = Group(name: string, defaultHostUid: string, hosts: Dict<Host>)

  type User = Dict<Group>

  function Values<V>(d: Dict<V>): (vs: seq<V>)
    ensures |vs| == |d|
  {
    seq(|d|, i requires 0 <= i < |d| => d[i].1)
  }

  // Every host, group by group: what forEachHost visits.
  function AllHosts(u: User): seq<Host> {
    if u == [] then [] else Values(u[0].1.hosts) + AllHosts(u[1..])
  }

  predicate SameConnection(a: Host, b: Host) {
    a.address == b.address && a.port == b.port && a.id == b.id
  }

  predicate SameAlias(a: string, b: string) {
    Trim(a) != "" && Trim(a) == Trim(b)
  }

  // The first host but the excluded one with the same connection, or with the same alias.
  function DuplicateHost(hosts: seq<Host>, candidate: Host, exclude: string): Option<Host> {
    if hosts == [] then None
    else if (exclude == "" || hosts[0].uid != exclude) && SameConnection(hosts[0], candidate) then Some(hosts[0])
    else DuplicateHost(hosts[1..], candidate, exclude)
  }

  function DuplicateAlias(hosts: seq<Host>, alias: string, exclude: string): Option<Host> {
    if hosts == [] then None
    else if (exclude == "" || hosts[0].uid != exclude) && SameAlias(hosts[0].alias, alias) then Some(hosts[0])
    else DuplicateAlias(hosts[1..], alias, exclude)
  }

  // The group a host is found in: the first whose hosts have the uid, or inherit the name.
  function GroupOf(u: User, uid: string): (g: nat)
    ensures g <= |u|
    ensures g < |u| ==> Found(u[g].1.hosts, uid)
    ensures forall j :: 0 <= j < g ==> !Found(u[j].1.hosts, uid)
  {
    if u == [] || Found(u[0].1.hosts, uid) then 0 else 1 + GroupOf(u[1..], uid)
  }

  // A built-in value has none of the fields of a host.
  const BUILT_IN: Host := Host("", "", "", 0, "", "", "")

  function HostIn(u: User, g: nat, uid: string): Host
    requires g < |u|
  {
    var i := Find(u[g].1.hosts, uid);
    if i < |u[g].1.hosts| then u[g].1.hosts[i].1 else BUILT_IN
  }

  function WithGroup(u: User, g: nat, group: Group): User
    requires g < |u|
  {
    u[g := (u[g].0, group)]
  }

  // Taking a host out of its group; another becomes the default in its place.
  function Without(g: Group, uid: string): Group {
    var hosts := Drop(g.hosts, uid);
    var next := if hosts != [] then hosts[0].1.uid else "";
    g.(hosts := hosts, defaultHostUid := if g.defaultHostUid == uid then next else g.defaultHostUid)
  }

  function WithDefault(g: Group, uid: string): Group {
    if g.defaultHostUid == "" then g.(defaultHostUid := uid) else g
  }

  function With(g: Group, uid: string, host: Host): Group {
    WithDefault(g.(hosts := Put(g.hosts, uid, host)), uid)
  }

  function EnsureUngrouped(u: User): (r: User)
    ensures |u| <= |r|
  {
    if Has(u, UNGROUPED) then u else u + [(UNGROUPED, Group("Ungrouped", "", []))]
  }

  datatype Refusal =
    | ExceedMaxHosts
    | BlankAlias
    | AliasTooLong
    | DuplicatedHost(uid: string)
    | DuplicatedAlias(uid: string)
    | GroupNotFound
    | BlankGroupName
    | InvalidGroupName
    | DefaultHostNotInGroup
    | CannotRenameUngrouped
    | CannotDeleteUngrouped
    | ReadOnlyField
    | NoSuchHost

  // A refusal throws out of atomicUpdateUser, which then saves nothing.
  datatype Outcome = Saved(user: User) | Refused(why: Refusal)

  // The `\p{L}` and `\p{N}` of ASCII.
  predicate ValidGroupNameStart(name: string) {
    name != "" && ('a' <= name[0] <= 'z' || 'A' <= name[0] <= 'Z' || '0' <= name[0] <= '9')
  }

  // An absent field of an update is None; `Some(None)` is null.
  datatype HostPatch = HostPatch(
    id: Option<string>, address: Option<string>, port: Option<int>, password: Option<string>, alias: Option<string>,
    token: Option<string>)

  datatype GroupPatch = GroupPatch(name: Option<string>, defaultHostUid: Option<Option<string>>)

  // `uid` is the fresh uuid; groupId "" is none.
  function AddHost(u: User, request: Host, groupId: string): Outcome {
    var alias := Trim(request.alias);
    var host := request.(alias := alias, token := "");
    if |AllHosts(u)| >= MAX_HOSTS then Refused(ExceedMaxHosts)
    else if alias == "" then Refused(BlankAlias)
    else if |alias| > MAX_ALIAS_LENGTH then Refused(AliasTooLong)
    else if DuplicateHost(AllHosts(u), host, "").Some? then
      Refused(DuplicatedHost(DuplicateHost(AllHosts(u), host, "").value.uid))
    else if DuplicateAlias(AllHosts(u), alias, "").Some? then
      Refused(DuplicatedAlias(DuplicateAlias(AllHosts(u), alias, "").value.uid))
    else if groupId != "" && !Found(u, groupId) then Refused(GroupNotFound)
    else
      var u1 := if groupId != "" then u else EnsureUngrouped(u);
      var g := Find(u1, if groupId != "" then groupId else UNGROUPED);
      Saved(if g < |u1| then WithGroup(u1, g, With(u1[g].1, host.uid, host)) else u1)
  }

  function CreateHostGroup(u: User, groupId: string, name: string): Outcome {
    var trimmed := Trim(name);
    if trimmed == "" then Refused(BlankGroupName)
    else if !ValidGroupNameStart(trimmed) then Refused(InvalidGroupName)
    else Saved(Put(u, groupId, Group(trimmed, "", [])))
  }

  function NewName(groupId: string, name: string): Option<Refusal> {
    if groupId == UNGROUPED then Some(CannotRenameUngrouped)
    else if Trim(name) == "" then Some(BlankGroupName)
    else if !ValidGroupNameStart(Trim(name)) then Some(InvalidGroupName)
    else None
  }

  // The names a request can add to Object.prototype: the fields of a group. The value of `hosts`
  // is an object, those of the other two are strings.
  const HOSTS: string := "hosts"
  const DEFAULT: string := "defaultHostUid"
  const NAME: string := "name"

  // A group id that is an inherited name updates a built-in value, not the user: the name of a
  // function and the fields of a string cannot be assigned. `strays` are the uids earlier
  // requests left on the value.
  function UpdateBuiltIn(u: User, groupId: string, patch: GroupPatch, strays: set<string>, added: set<string>): Outcome
  {
    var next := OrElse(OrElse(patch.defaultHostUid, None), "");
    var names := strays + INHERITED + added + if patch.name.Some? then {NAME} else {};
    if patch.name.Some? && NewName(groupId, patch.name.value).Some? then
      Refused(NewName(groupId, patch.name.value).value)
    else if patch.name.Some? && groupId !in {PROTO, HOSTS} then Refused(ReadOnlyField)
    else if next != "" && next !in names then Refused(DefaultHostNotInGroup)
    else if patch.defaultHostUid.Some? && groupId in {DEFAULT, NAME} then Refused(ReadOnlyField)
    else Saved(u)
  }

  function UpdateHostGroup(
    u: User, groupId: string, patch: GroupPatch, strays: set<string>, added: set<string>): Outcome
  {
    var g := Find(u, groupId);
    if !Found(u, groupId) && groupId !in added then Refused(GroupNotFound)
    else if g == |u| then UpdateBuiltIn(u, groupId, patch, strays, added)
    else if patch.name.Some? && NewName(groupId, patch.name.value).Some? then
      Refused(NewName(groupId, patch.name.value).value)
    else
      var named := if patch.name.Some? then u[g].1.(name := Trim(patch.name.value)) else u[g].1;
      if patch.defaultHostUid.None? then Saved(WithGroup(u, g, named))
      else
        var next := OrElse(patch.defaultHostUid.value, "");
        if next != "" && !Found(named.hosts, next) && next !in added then Refused(DefaultHostNotInGroup)
        else Saved(WithGroup(u, g, named.(defaultHostUid := next)))
  }

  // What is on Object.prototype after a group update: the name is assigned before the default
  // host is checked, and a default of null hides one that was there.
  function AddedByUpdate(
    u: User, groupId: string, patch: GroupPatch, strays: set<string>, added: set<string>): set<string>
  {
    if groupId != PROTO || Has(u, PROTO) then added
    else if patch.name.Some? && NewName(groupId, patch.name.value).Some? then added
    else
      var named := if patch.name.Some? then added + {NAME} else added;
      if patch.defaultHostUid.None? || UpdateHostGroup(u, groupId, patch, strays, added).Refused? then named
      else if OrElse(patch.defaultHostUid.value, "") == "" then named - {DEFAULT}
      else named + {DEFAULT}
  }

  // Deleting a group deletes the hosts in it.
  function DeleteHostGroup(u: User, groupId: string): Outcome {
    if groupId == UNGROUPED then Refused(CannotDeleteUngrouped) else Saved(Drop(u, groupId))
  }

  function UpdateHost(u: User, uid: string, patch: HostPatch): Outcome {
    var g := GroupOf(u, uid);
    if g == |u| then Refused(NoSuchHost)
    else
      var existing := HostIn(u, g, uid);
      var alias := if patch.alias.Some? then Trim(patch.alias.value) else existing.alias;
      var host := Host(uid, OrElse(patch.id, existing.id), OrElse(patch.address, existing.address),
                       OrElse(patch.port, existing.port),
                       OrElse(patch.password, existing.password), alias, OrElse(patch.token, existing.token));
      if patch.alias.Some? && alias == "" then Refused(BlankAlias)
      else if patch.alias.Some? && |alias| > MAX_ALIAS_LENGTH then Refused(AliasTooLong)
      else if DuplicateHost(AllHosts(u), host, uid).Some? then
        Refused(DuplicatedHost(DuplicateHost(AllHosts(u), host, uid).value.uid))
      else if DuplicateAlias(AllHosts(u), alias, uid).Some? then
        Refused(DuplicatedAlias(DuplicateAlias(AllHosts(u), alias, uid).value.uid))
      else Saved(WithGroup(u, g, u[g].1.(hosts := Assigned(u[g].1.hosts, uid, host))))
  }

  // A target that is an inherited name takes the host out of the user. A host that is one is a
  // function, which is not saved; only the default hosts notice.
  function MoveHost(u: User, uid: string, target: string): Outcome {
    var g := GroupOf(u, uid);
    if g == |u| then Refused(NoSuchHost)
    else if u[g].0 == target then Saved(u)
    else
      var u1 := if target == UNGROUPED then EnsureUngrouped(u) else u;
      if !Found(u1, target) then Refused(GroupNotFound)
      else
        var host := if Has(u[g].1.hosts, uid) then Some(HostIn(u, g, uid)) else None;
        Saved(Arrived(WithGroup(u1, g, Without(u1[g].1, uid)), target, uid, host))
  }

  function Arrived(u: User, target: string, uid: string, host: Option<Host>): User {
    var t := Find(u, target);
    if t == |u| then u
    else WithGroup(u, t, if host.Some? then With(u[t].1, uid, host.value) else WithDefault(u[t].1, uid))
  }

  function DeleteHost(u: User, uid: string): Outcome {
    var g := GroupOf(u, uid);
    if g == |u| then Refused(NoSuchHost) else Saved(WithGroup(u, g, Without(u[g].1, uid)))
  }

  function MarkGroupHa(u: User, uid: string, name: string): Outcome {
    var g := GroupOf(u, uid);
    if g == |u| then Refused(NoSuchHost)
    else if Trim(name) == "" then Saved(u)
    else Saved(WithGroup(u, g, u[g].1.(name := Trim(name))))
  }
}
