// The invariant over every sequence of host service operations, and what each conserves.
module HostGroupRuns {
  import opened Common
  import opened Strings
  import opened HostGroups
  import opened HostGroupInvariant

  datatype Request =
    | Add(host: Host, groupId: string)
    | CreateGroup(groupId: string, name: string)
    | UpdateGroup(groupId: string, patch: GroupPatch, strays: set<string>)
    | DeleteGroup(groupId: string)
    | Update(uid: string, hostPatch: HostPatch)
    | Move(uid: string, target: string)
    | Delete(uid: string)
    | MarkHa(uid: string, groupName: string)

  // A user, and the names requests have put on Object.prototype since the process started.
  datatype Process = Process(user: User, added: set<string>)

  function Apply(p: Process, r: Request): Outcome {
    match r
    case Add(host, groupId) => AddHost(p.user, host, groupId)
    case CreateGroup(groupId, name) => CreateHostGroup(p.user, groupId, name)
    case UpdateGroup(groupId, patch, strays) => UpdateHostGroup(p.user, groupId, patch, strays, p.added)
    case DeleteGroup(groupId) => DeleteHostGroup(p.user, groupId)
    case Update(uid, patch) => UpdateHost(p.user, uid, patch)
    case Move(uid, target) => MoveHost(p.user, uid, target)
    case Delete(uid) => DeleteHost(p.user, uid)
    case MarkHa(uid, name) => MarkGroupHa(p.user, uid, name)
  }

  // A host added or moved to __proto__ leaves a map of hosts and a default host there.
  function AddedBy(p: Process, r: Request): set<string> {
    var host := if Apply(p, r).Saved? && !Has(p.user, PROTO) then {HOSTS, DEFAULT} else {};
    match r
    case Add(_, groupId) => if groupId == PROTO then p.added + host else p.added
    case Move(_, target) => if target == PROTO then p.added + host else p.added
    case UpdateGroup(groupId, patch, strays) => AddedByUpdate(p.user, groupId, patch, strays, p.added)
    case _ => p.added
  }

  // Once a name is on Object.prototype, only updates of groups are modelled.
  predicate Modelled(p: Process, r: Request) {
    p.added == {} || r.UpdateGroup?
  }

  // uuidv4 gives ids not in use, and not the reserved one.
  ghost predicate Fresh(u: User, r: Request) {
    match r
    case Add(host, _) => host.uid != "" && forall h :: h in AllHosts(u) ==> h.uid != host.uid
    case CreateGroup(groupId, _) => !Has(u, groupId) && groupId != UNGROUPED
    case _ => true
  }

  function Persisted(u: User, o: Outcome): User {
    if o.Saved? then o.user else u
  }

  function Next(p: Process, r: Request): Process {
    Process(Persisted(p.user, Apply(p, r)), AddedBy(p, r))
  }

  function Run(p: Process, requests: seq<Request>): Process
    decreases |requests|
  {
    if requests == [] then p else Run(Next(p, requests[0]), requests[1..])
  }

  const START: Process := Process([], {})

  ghost predicate AllFresh(p: Process, requests: seq<Request>)
    decreases |requests|
  {
    requests == [] || (Fresh(p.user, requests[0]) && AllFresh(Next(p, requests[0]), requests[1..]))
  }

  // The duplicate checks find a duplicate exactly when there is one.
  lemma {:induction false} DuplicateHostFindsAll(hosts: seq<Host>, candidate: Host, exclude: string)
    ensures DuplicateHost(hosts, candidate, exclude).None? <==>
      forall h :: h in hosts && (exclude == "" || h.uid != exclude) ==>
        !(h.address == candidate.address && h.port == candidate.port && h.id == candidate.id)
  {
    if hosts != [] {
      DuplicateHostFindsAll(hosts[1..], candidate, exclude);
      assert hosts == [hosts[0]] + hosts[1..];
    }
  }

  lemma {:induction false} DuplicateAliasFindsAll(hosts: seq<Host>, alias: string, exclude: string)
    ensures DuplicateAlias(hosts, alias, exclude).None? <==>
      forall h :: h in hosts && (exclude == "" || h.uid != exclude) ==>
        Trim(h.alias) == "" || Trim(h.alias) != Trim(alias)
  {
    if hosts != [] {
      DuplicateAliasFindsAll(hosts[1..], alias, exclude);
      assert hosts == [hosts[0]] + hosts[1..];
    }
  }

  lemma EmptyGroupKeepsInv(u: User, k: string, name: string)
    requires Inv(u) && !Has(u, k)
    ensures Inv(u + [(k, Group(name, "", []))]) && AllHosts(u + [(k, Group(name, "", []))]) == AllHosts(u)
  {
    AllHostsOfConcat(u, [(k, Group(name, "", []))]);
    assert AllHosts([(k, Group(name, "", []))]) == [];
  }

  lemma EnsureKeepsInv(u: User)
    requires Inv(u)
    ensures Inv(EnsureUngrouped(u)) && AllHosts(EnsureUngrouped(u)) == AllHosts(u)
    ensures u <= EnsureUngrouped(u) && Has(EnsureUngrouped(u), UNGROUPED)
  {
    if !Has(u, UNGROUPED) {
      EmptyGroupKeepsInv(u, UNGROUPED, "Ungrouped");
      assert EnsureUngrouped(u)[|u|].0 == UNGROUPED;
    }
  }

  lemma NewIsApart(hosts: seq<Host>, h: Host)
    requires DuplicateHost(hosts, h, "").None? && DuplicateAlias(hosts, h.alias, "").None?
    requires forall x :: x in hosts ==> x.uid != h.uid
    ensures ApartFromAll(h, hosts)
  {
    DuplicateHostFindsAll(hosts, h, "");
    DuplicateAliasFindsAll(hosts, h.alias, "");
    forall i | 0 <= i < |hosts| ensures Apart(hosts[i], h) {
      assert hosts[i] in hosts;
    }
  }

  // A saved addition adds just the new host; but when the group id is an inherited name and no
  // group, it adds nothing.
  lemma AddKeepsInv(u: User, host: Host, groupId: string, u': User)
    requires Inv(u) && Fresh(u, Add(host, groupId)) && AddHost(u, host, groupId) == Saved(u')
    ensures Inv(u')
    ensures multiset(AllHosts(u')) == multiset(AllHosts(u))
      + if groupId == "" || Has(u, groupId) then multiset{host.(alias := Trim(host.alias), token := "")} else multiset{}
  {
    var added := host.(alias := Trim(host.alias), token := "");
    var u1 := if groupId != "" then u else EnsureUngrouped(u);
    var g := Find(u1, if groupId != "" then groupId else UNGROUPED);
    EnsureKeepsInv(u);
    if g < |u1| {
      NewIsApart(AllHosts(u), added);
      AdditionKeepsInv(u1, g, added, u');
    }
  }

  // An addition succeeds exactly when there is room, the trimmed alias is neither blank nor too
  // long, no host has its connection or alias, and the group asked for is found.
  lemma AddSavedIff(u: User, host: Host, groupId: string)
    ensures AddHost(u, host, groupId).Saved? <==>
      && |AllHosts(u)| < 400 && 0 < |Trim(host.alias)| <= 100
      && (groupId == "" || Has(u, groupId) || groupId in INHERITED)
      && forall h :: h in AllHosts(u) ==> !SameConnection(h, host) && !SameAlias(h.alias, Trim(host.alias))
  {
    var added := host.(alias := Trim(host.alias), token := "");
    DuplicateHostFindsAll(AllHosts(u), added, "");
    DuplicateAliasFindsAll(AllHosts(u), added.alias, "");
    assert forall h :: SameConnection(h, host) == SameConnection(h, added);
  }

  // A move succeeds exactly when the host and the target are found, or the target is the
  // reserved group, which is then created.
  lemma MoveSavedIff(u: User, uid: string, target: string)
    ensures MoveHost(u, uid, target).Saved? <==>
      GroupOf(u, uid) < |u| && (Has(u, target) || target in INHERITED || target == UNGROUPED)
  {
    var g := GroupOf(u, uid);
    if g < |u| && u[g].0 == target { assert Find(u, target) <= g; }
    if !Has(u, UNGROUPED) { assert EnsureUngrouped(u)[|u|].0 == UNGROUPED; }
  }

  // Changing a group but not its hosts.
  lemma RelabelKeepsInv(u: User, g: nat, group: Group)
    requires Inv(u) && g < |u| && group.hosts == u[g].1.hosts && GroupSound(group)
    ensures Inv(WithGroup(u, g, group)) && AllHosts(WithGroup(u, g, group)) == AllHosts(u)
  {
    var a, b := AllHostsAround(u, g, group);
    WithGroupKeepsShape(u, g, group);
  }

  // A default host that is found only as an inherited name.
  predicate StrayDefault(u: User, groupId: string, patch: GroupPatch, added: set<string>) {
    && Has(u, groupId) && patch.defaultHostUid.Some? && patch.defaultHostUid.value.Some?
    && var next := patch.defaultHostUid.value.value;
       next != "" && next in INHERITED + added && !Has(u[Find(u, groupId)].1.hosts, next)
  }

  // What a saved update makes of a group of the user.
  lemma UpdateGroupShape(
    u: User, groupId: string, patch: GroupPatch, strays: set<string>, added: set<string>, u': User)
    requires UpdateHostGroup(u, groupId, patch, strays, added) == Saved(u')
    ensures !Has(u, groupId) ==> u' == u
    ensures var g := Find(u, groupId);
      g < |u| ==>
        && g < |u'| && u' == WithGroup(u, g, u'[g].1) && u'[g].1.hosts == u[g].1.hosts
        && u'[g].1.defaultHostUid ==
             if patch.defaultHostUid.None? then u[g].1.defaultHostUid else OrElse(patch.defaultHostUid.value, "")
    ensures Has(u, groupId) && patch.defaultHostUid.Some? ==>
      var next := OrElse(patch.defaultHostUid.value, "");
      next == "" || next in added || Found(u[Find(u, groupId)].1.hosts, next)
    ensures groupId == UNGROUPED ==> patch.name.None?
    ensures Has(u, groupId) && patch.name.None? ==> u'[Find(u, groupId)].1.name == u[Find(u, groupId)].1.name
  {
  }

  // A saved group update leaves a default that is no member exactly when the name asked for is
  // an inherited one, at the start or by an earlier request, and no host's.
  lemma UpdateGroupKeepsInvIff(
    u: User, groupId: string, patch: GroupPatch, strays: set<string>, added: set<string>, u': User)
    requires Inv(u) && UpdateHostGroup(u, groupId, patch, strays, added) == Saved(u')
    ensures AllHosts(u') == AllHosts(u)
    ensures Inv(u') <==> !StrayDefault(u, groupId, patch, added)
  {
    UpdateGroupShape(u, groupId, patch, strays, added, u');
    if Has(u, groupId) { RegroupIff(u, Find(u, groupId), u'[Find(u, groupId)].1, u'); }
  }

  lemma RegroupIff(u: User, g: nat, group: Group, u': User)
    requires Inv(u) && g < |u| && u' == WithGroup(u, g, group) && group.hosts == u[g].1.hosts
    ensures AllHosts(u') == AllHosts(u)
    ensures Inv(u') <==> group.defaultHostUid == "" || Has(group.hosts, group.defaultHostUid)
  {
    var a, b := AllHostsAround(u, g, group);
    assert GroupSound(u[g].1);
    if GroupSound(group) { RelabelKeepsInv(u, g, group); } else { assert u'[g].1 == group; }
  }

  lemma MarkKeepsInv(u: User, uid: string, name: string)
    requires Inv(u) && MarkGroupHa(u, uid, name).Saved?
    ensures Inv(MarkGroupHa(u, uid, name).user) && AllHosts(MarkGroupHa(u, uid, name).user) == AllHosts(u)
  {
    var g := GroupOf(u, uid);
    assert GroupSound(u[g].1);
    RelabelKeepsInv(u, g, u[g].1.(name := Trim(name)));
  }

  lemma ApartInStretch(a: seq<Host>, mid: seq<Host>, b: seq<Host>)
    requires AllApart(a + mid + b)
    ensures AllApart(a + b)
  {
    var s, t := a + b, a + mid + b;
    forall i, j | 0 <= i < j < |s| ensures Apart(s[i], s[j]) {
      var i' := if i < |a| then i else i + |mid|;
      var j' := if j < |a| then j else j + |mid|;
      assert s[i] == t[i'] && s[j] == t[j'] && Apart(t[i'], t[j']);
    }
  }

  lemma AllHostsAroundDrop(u: User, g: nat)
    requires g < |u|
    ensures AllHosts(u) == AllHosts(u[..g]) + Values(u[g].1.hosts) + AllHosts(u[g + 1..])
    ensures AllHosts(u[..g] + u[g + 1..]) == AllHosts(u[..g]) + AllHosts(u[g + 1..])
  {
    SplitAtGroup(u, g);
    AroundDrop(u, u[..g], u[g..], u[g], u[g + 1..]);
  }

  lemma AroundDrop(u: User, before: User, from: User, one: (string, Group), after: User)
    requires u == before + from && from != [] && from[0] == one && from[1..] == after
    ensures AllHosts(u) == AllHosts(before) + Values(one.1.hosts) + AllHosts(after)
    ensures AllHosts(before + after) == AllHosts(before) + AllHosts(after)
  {
    AllHostsOfConcat(before, from);
    AllHostsOfConcat(before, after);
    FirstGroup(from, one.1, after);
    Regroup(AllHosts(before), Values(one.1.hosts), AllHosts(after), AllHosts(u));
  }

  lemma DropsStretch(all: seq<Host>, rest: seq<Host>, a: seq<Host>, mid: seq<Host>, b: seq<Host>)
    requires AllApart(all) && all == a + mid + b && rest == a + b
    ensures AllApart(rest) && multiset(all) == multiset(rest) + multiset(mid) && |rest| <= |all|
  {
    ApartInStretch(a, mid, b);
  }

  lemma DropKeepsShape(u: User, g: nat, u': User)
    requires DistinctKeys(u) && (forall i :: 0 <= i < |u| ==> GroupSound(u[i].1))
    requires g < |u| && u' == u[..g] + u[g + 1..]
    ensures DistinctKeys(u') && (forall i :: 0 <= i < |u'| ==> GroupSound(u'[i].1) && u'[i].0 != u[g].0)
  {
    forall i | 0 <= i < |u'| ensures GroupSound(u'[i].1) && u'[i].0 != u[g].0 {
      var i' := if i < g then i else i + 1;
      assert u'[i] == u[i'];
    }
    forall i, j | 0 <= i < j < |u'| ensures u'[i].0 != u'[j].0 {
      var i' := if i < g then i else i + 1;
      var j' := if j < g then j else j + 1;
      assert u'[i] == u[i'] && u'[j] == u[j'];
    }
  }

  // Deleting a group deletes the hosts in it and no other.
  lemma DeleteGroupRemovesItsHosts(u: User, groupId: string, u': User)
    requires Inv(u) && Has(u, groupId) && u' == Drop(u, groupId)
    ensures Inv(u') && !Has(u', groupId)
    ensures multiset(AllHosts(u)) == multiset(AllHosts(u')) + multiset(Values(u[Find(u, groupId)].1.hosts))
  {
    DropRemovesHosts(u, Find(u, groupId), u');
  }

  lemma DropRemovesHosts(u: User, g: nat, u': User)
    requires Inv(u) && g < |u| && u' == u[..g] + u[g + 1..]
    ensures Inv(u') && forall i :: 0 <= i < |u'| ==> u'[i].0 != u[g].0
    ensures multiset(AllHosts(u)) == multiset(AllHosts(u')) + multiset(Values(u[g].1.hosts))
  {
    var a, mid, b := AllHosts(u[..g]), Values(u[g].1.hosts), AllHosts(u[g + 1..]);
    AllHostsAroundDrop(u, g);
    DropsStretch(AllHosts(u), AllHosts(u'), a, mid, b);
    DropKeepsShape(u, g, u');
  }

  // Putting a changed host in the place of the old one.
  lemma ReplaceIsOneLess(u: User, g: nat, h: Host) returns (rest: seq<Host>)
    requires g < |u| && Has(u[g].1.hosts, h.uid)
    ensures OneLess(rest, AllHosts(u), HostIn(u, g, h.uid))
    ensures OneLess(rest, AllHosts(WithGroup(u, g, u[g].1.(hosts := Put(u[g].1.hosts, h.uid, h)))), h)
  {
    var hosts, i := u[g].1.hosts, Find(u[g].1.hosts, h.uid);
    var hosts' := Put(hosts, h.uid, h);
    var a, b := AllHostsAround(u, g, u[g].1.(hosts := hosts'));
    ValuesSplit(hosts, i);
    ValuesSplit(hosts', i);
    assert hosts'[..i] == hosts[..i] && hosts'[i + 1..] == hosts[i + 1..];
    OneLessInside(a, Values(hosts[..i]), hosts[i].1, Values(hosts[i + 1..]), b);
    OneLessInside(a, Values(hosts[..i]), h, Values(hosts[i + 1..]), b);
    rest := a + (Values(hosts[..i]) + Values(hosts[i + 1..])) + b;
  }

  lemma ReplacementSound(g: Group, h: Host)
    requires GroupSound(g) && Has(g.hosts, h.uid) && h.uid != ""
    ensures GroupSound(g.(hosts := Put(g.hosts, h.uid, h)))
  {
    var hosts := Put(g.hosts, h.uid, h);
    assert forall k :: 0 <= k < |hosts| ==> hosts[k].0 == g.hosts[k].0;
    assert g.defaultHostUid != "" ==> hosts[Find(g.hosts, g.defaultHostUid)].0 == g.defaultHostUid;
  }

  lemma ReplacementKeepsInv(u: User, g: nat, h: Host, u': User)
    requires Inv(u) && g < |u| && Has(u[g].1.hosts, h.uid) && h.uid != ""
    requires u' == WithGroup(u, g, u[g].1.(hosts := Put(u[g].1.hosts, h.uid, h)))
    requires forall x :: x in AllHosts(u) && x.uid != h.uid ==> Apart(x, h)
    ensures Inv(u')
    ensures multiset(AllHosts(u')) + multiset{HostIn(u, g, h.uid)} == multiset(AllHosts(u)) + multiset{h}
  {
    var was := HostIn(u, g, h.uid);
    assert GroupSound(u[g].1);
    var rest := ReplaceIsOneLess(u, g, h);
    OneLessCounts(rest, AllHosts(u), was);
    forall i | 0 <= i < |rest| ensures Apart(rest[i], h) {
      assert rest[i] in multiset(AllHosts(u)) && Apart(rest[i], was);
    }
    OneLessCounts(rest, AllHosts(u'), h);
    ReplacementSound(u[g].1, h);
    WithGroupKeepsShape(u, g, u[g].1.(hosts := Put(u[g].1.hosts, h.uid, h)));
  }

  // An update changes the one host and keeps its place and group.
  lemma UpdateKeepsInv(u: User, uid: string, patch: HostPatch, u': User)
    requires Inv(u) && UpdateHost(u, uid, patch) == Saved(u') && Has(u[GroupOf(u, uid)].1.hosts, uid)
    ensures Inv(u')
    ensures var g := GroupOf(u, uid);
      && Has(u'[g].1.hosts, uid)
      && multiset(AllHosts(u')) + multiset{HostIn(u, g, uid)} == multiset(AllHosts(u)) + multiset{HostIn(u', g, uid)}
  {
    var g := GroupOf(u, uid);
    var i := Find(u[g].1.hosts, uid);
    var host := u'[g].1.hosts[i].1;
    assert GroupSound(u[g].1);
    DuplicateHostFindsAll(AllHosts(u), host, uid);
    DuplicateAliasFindsAll(AllHosts(u), host.alias, uid);
    ReplacementKeepsInv(u, g, host, u');
    assert forall k :: 0 <= k < |u[g].1.hosts| ==> u'[g].1.hosts[k].0 == u[g].1.hosts[k].0;
    assert Find(u'[g].1.hosts, uid) == i;
  }

  // The uid is found as an inherited name, and the group it is found in has no such host.
  predicate Stray(u: User, uid: string) {
    GroupOf(u, uid) < |u| && !Has(u[GroupOf(u, uid)].1.hosts, uid)
  }

  lemma PutIsOneMore(u: User, g: nat, h: Host, u': User)
    requires g < |u| && !Has(u[g].1.hosts, h.uid)
    requires u' == WithGroup(u, g, u[g].1.(hosts := Put(u[g].1.hosts, h.uid, h)))
    ensures OneLess(AllHosts(u), AllHosts(u'), h)
  {
    var hosts := u[g].1.hosts;
    var a, b := AllHostsAround(u, g, u'[g].1);
    ValuesAppend(hosts, h);
    OneLessInside(a, Values(hosts), h, [], b);
    assert Values(hosts) + [] == Values(hosts) && Values(hosts) + [h] + [] == Values(hosts) + [h];
  }

  lemma PutSound(g: Group, h: Host)
    requires GroupSound(g) && h.uid != "" && !Has(g.hosts, h.uid)
    ensures GroupSound(g.(hosts := Put(g.hosts, h.uid, h)))
  {
    var hosts := Put(g.hosts, h.uid, h);
    assert g.defaultHostUid != "" ==> hosts[Find(g.hosts, g.defaultHostUid)].0 == g.defaultHostUid;
  }

  // Updating such a uid writes a new host into that group (__proto__ makes no key), past the
  // limit and beside another host of the uid, if any.
  lemma StrayUpdateAddsHost(u: User, uid: string, patch: HostPatch, u': User)
    requires Inv(u) && UpdateHost(u, uid, patch) == Saved(u') && Stray(u, uid)
    ensures uid == PROTO ==> u' == u
    ensures uid != PROTO ==> |AllHosts(u')| == |AllHosts(u)| + 1
    ensures uid != PROTO ==>
      (Inv(u') <==> |AllHosts(u)| < MAX_HOSTS && forall h :: h in AllHosts(u) ==> h.uid != uid)
  {
    var g := GroupOf(u, uid);
    if uid != PROTO {
      var host := u'[g].1.hosts[|u[g].1.hosts|].1;
      assert host.uid == uid;
      StrayHostApart(u, uid, host);
      assert GroupSound(u[g].1);
      StrayPut(u, g, host, u');
    }
  }

  lemma StrayHostApart(u: User, uid: string, host: Host)
    requires host.uid == uid != ""
    requires DuplicateHost(AllHosts(u), host, uid).None? && DuplicateAlias(AllHosts(u), host.alias, uid).None?
    ensures ApartFromAll(host, AllHosts(u)) <==> forall h :: h in AllHosts(u) ==> h.uid != uid
  {
    DuplicateHostFindsAll(AllHosts(u), host, uid);
    DuplicateAliasFindsAll(AllHosts(u), host.alias, uid);
    var all := AllHosts(u);
    if ApartFromAll(host, all) {
      forall h | h in all ensures h.uid != uid {
        var i :| 0 <= i < |all| && all[i] == h;
        assert Apart(all[i], host);
      }
    }
  }

  lemma StrayPut(u: User, g: nat, h: Host, u': User)
    requires Inv(u) && g < |u| && !Has(u[g].1.hosts, h.uid) && h.uid != ""
    requires u' == WithGroup(u, g, u[g].1.(hosts := Put(u[g].1.hosts, h.uid, h)))
    ensures |AllHosts(u')| == |AllHosts(u)| + 1
    ensures Inv(u') <==> |AllHosts(u)| < MAX_HOSTS && ApartFromAll(h, AllHosts(u))
  {
    PutIsOneMore(u, g, h, u');
    OneLessCounts(AllHosts(u), AllHosts(u'), h);
    PutSound(u[g].1, h);
    WithGroupKeepsShape(u, g, u[g].1.(hosts := Put(u[g].1.hosts, h.uid, h)));
  }

  // A move that changes groups takes the host out of its own and has it arrive in the other.
  lemma MoveGoes(u: User, uid: string, target: string, u': User) returns (u1: User, u2: User)
    requires Inv(u) && MoveHost(u, uid, target) == Saved(u') && u[GroupOf(u, uid)].0 != target
    ensures var g := GroupOf(u, uid);
      && g < |u1| && u1[g] == u[g] && u2 == WithGroup(u1, g, Without(u1[g].1, uid))
      && u' == Arrived(u2, target, uid, if Stray(u, uid) then None else Some(HostIn(u, g, uid)))
    ensures Inv(u1) && AllHosts(u1) == AllHosts(u) && Find(u2, target) == Find(u1, target)
    ensures Has(u1, target) <==> Has(u, target) || target == UNGROUPED
    ensures u1 == if target == UNGROUPED then EnsureUngrouped(u) else u
  {
    var g := GroupOf(u, uid);
    u1 := if target == UNGROUPED then EnsureUngrouped(u) else u;
    u2 := WithGroup(u1, g, Without(u1[g].1, uid));
    EnsureKeepsInv(u);
    FindInWithGroup(u1, g, Without(u1[g].1, uid), target);
  }

  lemma OwnHostArrives(u: User, target: string, h: Host, u': User)
    requires Inv(u) && ApartFromAll(h, AllHosts(u)) && h.uid != "" && |AllHosts(u)| < MAX_HOSTS
    requires u' == Arrived(u, target, h.uid, Some(h))
    ensures Inv(u')
    ensures if Has(u, target) then
        && multiset(AllHosts(u')) == multiset(AllHosts(u)) + multiset{h}
        && var t := Find(u', target); t < |u'| && Has(u'[t].1.hosts, h.uid) && HostIn(u', t, h.uid) == h
      else u' == u
  {
    var t := Find(u, target);
    if t < |u| {
      AdditionKeepsInv(u, t, h, u');
      FindInWithGroup(u, t, With(u[t].1, h.uid, h), target);
    }
  }

  // A move conserves the hosts, this one then being in the target group, exactly when the target
  // is a group or the reserved one; a target found only as an inherited name loses the host.
  lemma MoveConservesHostsIff(u: User, uid: string, target: string, u': User)
    requires Inv(u) && MoveHost(u, uid, target) == Saved(u') && !Stray(u, uid)
    ensures Inv(u')
    ensures var h, t := HostIn(u, GroupOf(u, uid), uid), Find(u', target);
      if Has(u, target) || target == UNGROUPED then
        && multiset(AllHosts(u')) == multiset(AllHosts(u))
        && t < |u'| && Has(u'[t].1.hosts, uid) && HostIn(u', t, uid) == h
      else
        multiset(AllHosts(u)) == multiset(AllHosts(u')) + multiset{h} && forall x :: x in AllHosts(u') ==> x.uid != uid
  {
    var g := GroupOf(u, uid);
    if u[g].0 != target {
      var u1, u2 := MoveGoes(u, uid, target, u');
      var h := HostIn(u, g, uid);
      RemovalKeepsInv(u1, g, uid, u2, h);
      OwnHostArrives(u2, target, h, u');
    } else {
      assert Find(u, target) == g;
    }
  }

  lemma StrayStays(u: User, uid: string)
    requires Inv(u) && Stray(u, uid)
    ensures var g := GroupOf(u, uid); Without(u[g].1, uid) == u[g].1 && WithGroup(u, g, u[g].1) == u
  {
    assert GroupSound(u[GroupOf(u, uid)].1);
  }

  // Moving a uid that is found only as an inherited name moves nothing, but it becomes the
  // default of a target that has none.
  predicate StrayMove(u: User, uid: string, target: string) {
    && Stray(u, uid) && u[GroupOf(u, uid)].0 != target
    && if Has(u, target) then
         var group := u[Find(u, target)].1; group.defaultHostUid == "" && !Has(group.hosts, uid)
       else target == UNGROUPED
  }

  lemma StrayMoveIff(u: User, uid: string, target: string, u': User)
    requires Inv(u) && MoveHost(u, uid, target) == Saved(u') && Stray(u, uid)
    ensures AllHosts(u') == AllHosts(u)
    ensures Inv(u') <==> !StrayMove(u, uid, target)
  {
    var g := GroupOf(u, uid);
    if u[g].0 != target {
      var u1, u2 := MoveGoes(u, uid, target, u');
      StrayStays(u, uid);
      assert u2 == u1;
      UngroupedIsNew(u);
      StrayArrives(u1, target, uid, u');
    }
  }

  lemma StrayArrives(u: User, target: string, uid: string, u': User)
    requires Inv(u) && uid != "" && u' == Arrived(u, target, uid, None)
    ensures AllHosts(u') == AllHosts(u)
    ensures Inv(u') <==>
      var t := Find(u, target);
      t == |u| || u[t].1.defaultHostUid != "" || Has(u[t].1.hosts, uid)
  {
    var t := Find(u, target);
    if t < |u| {
      assert GroupSound(u[t].1);
      var group := WithDefault(u[t].1, uid);
      var a, b := AllHostsAround(u, t, group);
      if GroupSound(group) { RelabelKeepsInv(u, t, group); } else { assert u'[t].1 == group; }
    }
  }

  lemma UngroupedIsNew(u: User)
    ensures var u1 := EnsureUngrouped(u); if Has(u, UNGROUPED) then u1 == u else
      Find(u1, UNGROUPED) == |u| && u1[|u|].1 == Group("Ungrouped", "", []) && !Has(u1[|u|].1.hosts, "")
    ensures forall k :: k != UNGROUPED ==> (Has(EnsureUngrouped(u), k) <==> Has(u, k))
  {
    var u1 := EnsureUngrouped(u);
    if !Has(u, UNGROUPED) {
      assert u1[|u|].0 == UNGROUPED;
      forall k | k != UNGROUPED ensures Has(u1, k) <==> Has(u, k) {
        if Has(u, k) { assert u1[Find(u, k)].0 == k; }
      }
    }
  }

  // Deleting a host removes it, once and for all, and no other; a uid found only as an inherited
  // name removes nothing.
  lemma DeleteRemovesExactlyOne(u: User, uid: string, u': User)
    requires Inv(u) && DeleteHost(u, uid) == Saved(u')
    ensures Inv(u')
    ensures if Stray(u, uid) then u' == u else
      && multiset(AllHosts(u)) == multiset(AllHosts(u')) + multiset{HostIn(u, GroupOf(u, uid), uid)}
      && forall h :: h in AllHosts(u') ==> h.uid != uid
  {
    if Stray(u, uid) { StrayStays(u, uid); }
    else { RemovalKeepsInv(u, GroupOf(u, uid), uid, u', HostIn(u, GroupOf(u, uid), uid)); }
  }

  // The requests that break the invariant, each with a name a caller could look at.
  ghost predicate Breaks(p: Process, r: Request) {
    var u := p.user;
    && Apply(p, r).Saved?
    && match r
       case UpdateGroup(groupId, patch, _) => StrayDefault(u, groupId, patch, p.added)
       case Move(uid, target) => StrayMove(u, uid, target)
       case Update(uid, _) =>
         && Stray(u, uid) && uid != PROTO
         && (|AllHosts(u)| == MAX_HOSTS || exists h :: h in AllHosts(u) && h.uid == uid)
       case _ => false
  }

  lemma StepKeepsInvIff(p: Process, r: Request)
    requires Inv(p.user) && Fresh(p.user, r) && Modelled(p, r)
    ensures Inv(Next(p, r).user) <==> !Breaks(p, r)
  {
    var u, o := p.user, Apply(p, r);
    if o.Saved? {
      match r
      case Add(host, groupId) => AddKeepsInv(u, host, groupId, o.user);
      case CreateGroup(groupId, name) => EmptyGroupKeepsInv(u, groupId, Trim(name));
      case UpdateGroup(groupId, patch, strays) =>
        UpdateGroupKeepsInvIff(u, groupId, patch, strays, p.added, o.user);
      case DeleteGroup(groupId) => if Has(u, groupId) { DeleteGroupRemovesItsHosts(u, groupId, o.user); }
      case Update(uid, patch) =>
        if Stray(u, uid) { StrayUpdateAddsHost(u, uid, patch, o.user); } else { UpdateKeepsInv(u, uid, patch, o.user); }
      case Move(uid, target) =>
        if Stray(u, uid) { StrayMoveIff(u, uid, target, o.user); }
        else { MoveConservesHostsIff(u, uid, target, o.user); }
      case Delete(uid) => DeleteRemovesExactlyOne(u, uid, o.user);
      case MarkHa(uid, name) => MarkKeepsInv(u, uid, name);
    }
  }

  // No request breaks the state it meets; only groups are updated once a name has been added.
  ghost predicate NoneBreaks(p: Process, requests: seq<Request>)
    decreases |requests|
  {
    requests == [] ||
    (Modelled(p, requests[0]) && !Breaks(p, requests[0]) && NoneBreaks(Next(p, requests[0]), requests[1..]))
  }

  // The names a request looks up as hosts are not inherited ones, and __proto__ is not the group
  // it asks for.
  predicate Ordinary(r: Request) {
    match r
    case Add(_, groupId) => groupId != PROTO
    case UpdateGroup(groupId, patch, _) =>
      && groupId != PROTO
      && (patch.defaultHostUid.Some? && patch.defaultHostUid.value.Some? ==>
            patch.defaultHostUid.value.value !in INHERITED)
    case Update(uid, _) => uid !in INHERITED
    case Move(uid, target) => uid !in INHERITED && target != PROTO
    case _ => true
  }

  // Along every sequence of operations none of which breaks the state it meets: each host is in
  // exactly one group, under its own uid; a set default is a host of its group; connections and
  // non-blank aliases are distinct; and there are at most 400 hosts.
  lemma {:induction false} RunKeepsInv(p: Process, requests: seq<Request>)
    requires Inv(p.user) && AllFresh(p, requests) && NoneBreaks(p, requests)
    ensures Inv(Run(p, requests).user)
    decreases |requests|
  {
    if requests != [] {
      StepKeepsInvIff(p, requests[0]);
      RunKeepsInv(Next(p, requests[0]), requests[1..]);
    }
  }

  lemma {:induction false} OrdinaryNeverBreaks(p: Process, requests: seq<Request>)
    requires p.added == {} && forall r :: r in requests ==> Ordinary(r)
    ensures NoneBreaks(p, requests) && Run(p, requests).added == {}
    decreases |requests|
  {
    if requests != [] {
      assert Ordinary(requests[0]);
      OrdinaryNeverBreaks(Next(p, requests[0]), requests[1..]);
    }
  }

  // The same of every sequence whose host uids and default hosts are no inherited names and
  // whose group ids and targets are any but __proto__; it adds no name to Object.prototype.
  lemma EveryUserIsSound(requests: seq<Request>)
    requires AllFresh(START, requests) && forall r :: r in requests ==> Ordinary(r)
    ensures Inv(Run(START, requests).user) && Run(START, requests).added == {}
    ensures |AllHosts(Run(START, requests).user)| <= 400
  {
    OrdinaryNeverBreaks(START, requests);
    RunKeepsInv(START, requests);
  }

  function NameOf(u: User, groupId: string): string {
    if Has(u, groupId) then u[Find(u, groupId)].1.name else ""
  }

  lemma FindInWithGroup(u: User, g: nat, group: Group, k: string)
    requires g < |u|
    ensures Find(WithGroup(u, g, group), k) == Find(u, k)
  {
    var u' := WithGroup(u, g, group);
    assert forall j :: 0 <= j < |u| ==> u'[j].0 == u[j].0;
  }

  lemma FindInDrop(u: User, k: string, kept: string)
    requires Has(u, kept) && k != kept
    ensures Has(Drop(u, k), kept) && Drop(u, k)[Find(Drop(u, k), kept)] == u[Find(u, kept)]
  {
    var i, j, u' := Find(u, k), Find(u, kept), Drop(u, k);
    if i < |u| {
      assert forall n :: 0 <= n < |u'| ==> u'[n] == u[if n < i then n else n + 1];
      assert u'[if j < i then j else j - 1] == u[j];
    }
  }

  lemma FindInAppended(u: User, k: string, group: Group, kept: string)
    requires Has(u, kept)
    ensures Find(u + [(k, group)], kept) == Find(u, kept)
  {
    var u' := u + [(k, group)];
    assert u'[Find(u, kept)].0 == kept;
  }

  lemma NameInWithGroup(u: User, g: nat, group: Group, k: string, u': User)
    requires g < |u| && Has(u, k) && u' == WithGroup(u, g, group)
    ensures Has(u', k) && NameOf(u', k) == if g == Find(u, k) then group.name else NameOf(u, k)
  {
    FindInWithGroup(u, g, group, k);
  }

  lemma ArrivalKeepsNames(u: User, target: string, uid: string, host: Option<Host>, k: string)
    requires Has(u, k)
    ensures var u' := Arrived(u, target, uid, host); Has(u', k) && NameOf(u', k) == NameOf(u, k)
  {
    var t, u' := Find(u, target), Arrived(u, target, uid, host);
    if t < |u| { NameInWithGroup(u, t, u'[t].1, k, u'); }
  }

  lemma EnsureKeepsNames(u: User, k: string)
    requires Has(u, k)
    ensures Has(EnsureUngrouped(u), k) && NameOf(EnsureUngrouped(u), k) == NameOf(u, k)
  {
    FindInAppended(u, UNGROUPED, Group("Ungrouped", "", []), k);
  }

  lemma MovesKeepNames(u: User, uid: string, target: string, k: string, u': User)
    requires MoveHost(u, uid, target) == Saved(u') && Has(u, k)
    ensures Has(u', k) && NameOf(u', k) == NameOf(u, k)
  {
    var g := GroupOf(u, uid);
    if u[g].0 != target {
      var u1 := if target == UNGROUPED then EnsureUngrouped(u) else u;
      EnsureKeepsNames(u, k);
      var u2 := WithGroup(u1, g, Without(u1[g].1, uid));
      NameInWithGroup(u1, g, Without(u1[g].1, uid), k, u2);
      ArrivalKeepsNames(u2, target, uid, if Stray(u, uid) then None else Some(HostIn(u, g, uid)), k);
    }
  }

  lemma UpdateGroupKeepsUngrouped(
    u: User, groupId: string, patch: GroupPatch, strays: set<string>, added: set<string>, u': User)
    requires Has(u, UNGROUPED) && UpdateHostGroup(u, groupId, patch, strays, added) == Saved(u')
    ensures Has(u', UNGROUPED) && NameOf(u', UNGROUPED) == NameOf(u, UNGROUPED)
  {
    UpdateGroupShape(u, groupId, patch, strays, added, u');
    var g := Find(u, groupId);
    if g < |u| { NameInWithGroup(u, g, u'[g].1, UNGROUPED, u'); }
  }

  lemma HostChangesKeepUngrouped(p: Process, r: Request, u': User)
    requires Has(p.user, UNGROUPED) && Apply(p, r) == Saved(u') && (r.Add? || r.Update? || r.Delete?)
    ensures Has(u', UNGROUPED) && NameOf(u', UNGROUPED) == NameOf(p.user, UNGROUPED)
  {
    var u := p.user;
    var g := if r.Add? then Find(u, if r.groupId != "" then r.groupId else UNGROUPED) else GroupOf(u, r.uid);
    if g < |u| { NameInWithGroup(u, g, u'[g].1, UNGROUPED, u'); }
  }

  // Only MarkHa renames the reserved group; nothing removes it.
  lemma OthersKeepUngrouped(p: Process, r: Request, u': User)
    requires Has(p.user, UNGROUPED) && Fresh(p.user, r) && Apply(p, r) == Saved(u') && !r.MarkHa?
    ensures Has(u', UNGROUPED) && NameOf(u', UNGROUPED) == NameOf(p.user, UNGROUPED)
  {
    var u := p.user;
    if r.UpdateGroup? { UpdateGroupKeepsUngrouped(u, r.groupId, r.patch, r.strays, p.added, u'); }
    else if r.CreateGroup? { FindInAppended(u, r.groupId, Group(Trim(r.name), "", []), UNGROUPED); }
    else if r.DeleteGroup? { FindInDrop(u, r.groupId, UNGROUPED); }
    else if r.Move? { MovesKeepNames(u, r.uid, r.target, UNGROUPED, u'); }
    else { HostChangesKeepUngrouped(p, r, u'); }
  }

  // The reserved group is never removed. It is never renamed by the two group operations, as
  // they promise; but marking a group as an HA cluster does rename it, exactly when the marked
  // host is found there, be it as an inherited name, and the name given is another one.
  lemma UngroupedRenamedIff(p: Process, r: Request, u': User)
    requires Has(p.user, UNGROUPED) && Fresh(p.user, r) && Modelled(p, r) && u' == Next(p, r).user
    ensures Has(u', UNGROUPED)
    ensures NameOf(u', UNGROUPED) != NameOf(p.user, UNGROUPED) <==>
      (r.MarkHa? && GroupOf(p.user, r.uid) == Find(p.user, UNGROUPED)
       && Trim(r.groupName) != "" && Trim(r.groupName) != NameOf(p.user, UNGROUPED))
  {
    var u := p.user;
    if Apply(p, r).Saved? {
      if r.MarkHa? {
        var g := GroupOf(u, r.uid);
        var group := u[g].1.(name := Trim(r.groupName));
        NameInWithGroup(u, g, group, UNGROUPED, WithGroup(u, g, group));
      } else {
        OthersKeepUngrouped(p, r, u');
      }
    }
  }

  // One host, added without a group.
  const ONE: Host := Host("a", "admin", "db1", 8001, "", "x", "")

  const ADD_ONE: Request := Add(ONE, "")

  const WITH_ONE: User := [(UNGROUPED, Group("Ungrouped", "a", [("a", ONE)]))]

  lemma AddOneRuns()
    ensures Fresh([], ADD_ONE) && Next(START, ADD_ONE) == Process(WITH_ONE, {}) && Inv(WITH_ONE)
    ensures AllHosts(WITH_ONE) == [ONE]
  {
    var u1: User := EnsureUngrouped([]);
    assert Trim("x") == "x" && AllHosts([]) == [];
    assert Find(u1, UNGROUPED) == 0;
    assert ONE.(alias := Trim(ONE.alias), token := "") == ONE;
    assert With(u1[0].1, "a", ONE) == WITH_ONE[0].1;
    assert Values(WITH_ONE[0].1.hosts) == [ONE] && AllHosts(WITH_ONE) == [ONE];
  }

  function DefaultTo(uid: string): Request {
    UpdateGroup(UNGROUPED, GroupPatch(None, Some(Some(uid))), {})
  }

  lemma DefaultIsSaved(uid: string, added: set<string>)
    requires uid in INHERITED + added && uid !in {"", "a"}
    ensures var u: User := [(UNGROUPED, Group("Ungrouped", uid, [("a", ONE)]))];
      Next(Process(WITH_ONE, added), DefaultTo(uid)) == Process(u, added) && !Inv(u)
  {
    var u: User := [(UNGROUPED, Group("Ungrouped", uid, [("a", ONE)]))];
    assert Persisted(WITH_ONE, Apply(Process(WITH_ONE, added), DefaultTo(uid))) == u;
    assert !Has(u[0].1.hosts[1..], uid);
    assert !GroupSound(u[0].1);
  }

  // A default host that is an inherited name is saved, and is no member of its group.
  lemma InheritedDefaultIsSaved()
    ensures var requests := [ADD_ONE, DefaultTo("constructor")];
      && AllFresh(START, requests)
      && Run(START, requests).user == [(UNGROUPED, Group("Ungrouped", "constructor", [("a", ONE)]))]
      && !Inv(Run(START, requests).user)
  {
    var p := Process(WITH_ONE, {});
    AddOneRuns();
    DefaultIsSaved("constructor", {});
    assert [ADD_ONE, DefaultTo("constructor")][1..] == [DefaultTo("constructor")];
    assert Run(p, [DefaultTo("constructor")]) == Run(Next(p, DefaultTo("constructor")), []);
  }

  const TWO: Host := Host("b", "admin", "db2", 8001, "", "y", "")

  lemma AddTwoToPrototype()
    ensures Fresh(WITH_ONE, Add(TWO, PROTO))
    ensures Next(Process(WITH_ONE, {}), Add(TWO, PROTO)) == Process(WITH_ONE, {HOSTS, DEFAULT})
  {
    AddOneRuns();
    assert Trim("y") == "y" && Trim("x") == "x";
    AddSavedIff(WITH_ONE, TWO, PROTO);
    assert !Has(WITH_ONE, PROTO);
  }

  lemma RunOfThree(p: Process, requests: seq<Request>, p1: Process, p2: Process)
    requires |requests| == 3 && p1 == Next(p, requests[0]) && p2 == Next(p1, requests[1])
    requires Fresh(p.user, requests[0]) && Fresh(p1.user, requests[1]) && Fresh(p2.user, requests[2])
    ensures AllFresh(p, requests) && Run(p, requests) == Next(p2, requests[2])
  {
    var rest := requests[1..];
    assert rest[1..] == [requests[2]];
    assert AllFresh(p2, [requests[2]]) && Run(p2, [requests[2]]) == Next(p2, requests[2]);
    assert AllFresh(p1, rest) && Run(p1, rest) == Next(p2, requests[2]);
  }

  // So is a default host that is a name an earlier request has put on Object.prototype: after a
  // host was added to the group __proto__, `hosts` is one, for every user of the process.
  lemma AddedDefaultIsSaved()
    ensures var requests := [ADD_ONE, Add(TWO, PROTO), DefaultTo(HOSTS)];
      && AllFresh(START, requests)
      && Run(START, requests).user == [(UNGROUPED, Group("Ungrouped", HOSTS, [("a", ONE)]))]
      && !Inv(Run(START, requests).user)
  {
    AddOneRuns();
    AddTwoToPrototype();
    DefaultIsSaved(HOSTS, {HOSTS, DEFAULT});
    RunOfThree(START, [ADD_ONE, Add(TWO, PROTO), DefaultTo(HOSTS)],
               Process(WITH_ONE, {}), Process(WITH_ONE, {HOSTS, DEFAULT}));
  }

  // A host moved to a target that is an inherited name is gone from the user.
  lemma InheritedTargetLosesHost()
    ensures var requests := [ADD_ONE, Move("a", "constructor")];
      AllFresh(START, requests) && AllHosts(Run(START, requests).user) == []
  {
    var move := Move("a", "constructor");
    AddOneRuns();
    var p := Process(WITH_ONE, {});
    var u := Persisted(WITH_ONE, Apply(p, move));
    assert Without(WITH_ONE[0].1, "a") == Group("Ungrouped", "", []);
    assert u == [(UNGROUPED, Group("Ungrouped", "", []))];
    assert [ADD_ONE, move][1..] == [move];
    assert Run(p, [move]) == Run(Next(p, move), []);
  }
}
