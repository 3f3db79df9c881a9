// The host service as the source writes it: helpers that change the loaded user in place, and
// operations that save it or, by throwing, leave the saved one as it was.
module HostGroupServices {
  import opened Common
  import opened Strings
  import opened HostGroups

  lemma DuplicateHostRest(h: Host, rest: seq<Host>, candidate: Host, exclude: string)
    ensures DuplicateHost([h] + rest, candidate, exclude) ==
      if (exclude == "" || h.uid != exclude) && SameConnection(h, candidate) then Some(h)
      else DuplicateHost(rest, candidate, exclude)
  {
    assert ([h] + rest)[1..] == rest;
  }

  lemma DuplicateAliasRest(h: Host, rest: seq<Host>, alias: string, exclude: string)
    ensures DuplicateAlias([h] + rest, alias, exclude) ==
      if (exclude == "" || h.uid != exclude) && SameAlias(h.alias, alias) then Some(h)
      else DuplicateAlias(rest, alias, exclude)
  {
    assert ([h] + rest)[1..] == rest;
  }

  // The hosts from host j of group i on.
  function HostsFrom(u: User, i: nat, j: nat): seq<Host>
    requires i < |u| && j <= |u[i].1.hosts|
  {
    Values(u[i].1.hosts[j..]) + AllHosts(u[i + 1..])
  }

  lemma HostsFromNext(u: User, i: nat, j: nat)
    requires i < |u| && j <= |u[i].1.hosts|
    ensures j == 0 ==> HostsFrom(u, i, j) == AllHosts(u[i..])
    ensures j < |u[i].1.hosts| ==> HostsFrom(u, i, j) == [u[i].1.hosts[j].1] + HostsFrom(u, i, j + 1)
    ensures j == |u[i].1.hosts| ==> HostsFrom(u, i, j) == AllHosts(u[i + 1..])
  {
    var hosts := u[i].1.hosts;
    assert u[i..][1..] == u[i + 1..];
    if j == 0 { assert hosts[0..] == hosts; }
    if j < |hosts| { assert Values(hosts[j..]) == [hosts[j].1] + Values(hosts[j + 1..]); }
  }

  class UserRecord {
    var groups: User

    constructor (groups: User)
      ensures this.groups == groups
    {
      this.groups := groups;
    }

    method CountAllHosts() returns (n: nat)
      ensures n == |AllHosts(groups)|
    {
      n := 0;
      for i := 0 to |groups|
        invariant n + |AllHosts(groups[i..])| == |AllHosts(groups)|
      {
        n := n + |groups[i].1.hosts|;
        assert groups[i..][1..] == groups[i + 1..];
      }
    }

    method FindDuplicateHost(candidate: Host, exclude: string) returns (found: Option<Host>)
      ensures found == DuplicateHost(AllHosts(groups), candidate, exclude)
    {
      found := None;
      ghost var answer := DuplicateHost(AllHosts(groups), candidate, exclude);
      for i := 0 to |groups|
        invariant answer == if found.Some? then found else DuplicateHost(AllHosts(groups[i..]), candidate, exclude)
      {
        var hosts := groups[i].1.hosts;
        HostsFromNext(groups, i, 0);
        for j := 0 to |hosts|
          invariant answer == if found.Some? then found else DuplicateHost(HostsFrom(groups, i, j), candidate, exclude)
        {
          var host := hosts[j].1;
          HostsFromNext(groups, i, j);
          DuplicateHostRest(host, HostsFrom(groups, i, j + 1), candidate, exclude);
          if found.None? && !(exclude != "" && host.uid == exclude) && SameConnection(host, candidate) {
            found := Some(host);
          }
        }
        HostsFromNext(groups, i, |hosts|);
      }
    }

    method FindDuplicateAlias(alias: string, exclude: string) returns (found: Option<Host>)
      ensures found == DuplicateAlias(AllHosts(groups), alias, exclude)
    {
      found := None;
      ghost var answer := DuplicateAlias(AllHosts(groups), alias, exclude);
      for i := 0 to |groups|
        invariant answer == if found.Some? then found else DuplicateAlias(AllHosts(groups[i..]), alias, exclude)
      {
        var hosts := groups[i].1.hosts;
        HostsFromNext(groups, i, 0);
        for j := 0 to |hosts|
          invariant answer == if found.Some? then found else DuplicateAlias(HostsFrom(groups, i, j), alias, exclude)
        {
          var host := hosts[j].1;
          HostsFromNext(groups, i, j);
          DuplicateAliasRest(host, HostsFrom(groups, i, j + 1), alias, exclude);
          if found.None? && !(exclude != "" && host.uid == exclude) && SameAlias(host.alias, alias) {
            found := Some(host);
          }
        }
        HostsFromNext(groups, i, |hosts|);
      }
    }

    method EnsureUngroupedGroup()
      modifies this
      ensures groups == EnsureUngrouped(old(groups))
    {
      if !Has(groups, UNGROUPED) { groups := groups + [(UNGROUPED, Group("Ungrouped", "", []))]; }
    }

    // A built-in value takes the host out of the user's sight.
    method AddHostToGroup(groupId: string, host: Host)
      requires Found(groups, groupId)
      modifies this
      ensures var g := Find(old(groups), groupId);
        groups ==
          if g < |old(groups)| then WithGroup(old(groups), g, With(old(groups)[g].1, host.uid, host)) else old(groups)
    {
      var g := Find(groups, groupId);
      if g == |groups| { return; }
      var group := groups[g].1;
      group := group.(hosts := Put(group.hosts, host.uid, host));
      if group.defaultHostUid == "" { group := group.(defaultHostUid := host.uid); }
      groups := groups[g := (groups[g].0, group)];
    }

    method TakeHost(g: nat, uid: string)
      requires g < |groups|
      modifies this
      ensures groups == WithGroup(old(groups), g, Without(old(groups)[g].1, uid))
    {
      var group := groups[g].1;
      group := group.(hosts := Drop(group.hosts, uid));
      if group.defaultHostUid == uid {
        group := group.(defaultHostUid := if group.hosts != [] then group.hosts[0].1.uid else "");
      }
      groups := groups[g := (groups[g].0, group)];
    }

    // The host arrives at the target; at a built-in value it leaves the user.
    method Arrive(target: string, uid: string, host: Option<Host>)
      modifies this
      ensures groups == Arrived(old(groups), target, uid, host)
    {
      var t := Find(groups, target);
      if t == |groups| { return; }
      var group := groups[t].1;
      if host.Some? { group := group.(hosts := Put(group.hosts, uid, host.value)); }
      if group.defaultHostUid == "" { group := group.(defaultHostUid := uid); }
      groups := groups[t := (groups[t].0, group)];
    }

    // False when there is no such host or group; the reserved group may then have been created.
    method MoveHostToGroup(uid: string, target: string) returns (ok: bool)
      modifies this
      ensures ok <==> MoveHost(old(groups), uid, target).Saved?
      ensures ok ==> groups == MoveHost(old(groups), uid, target).user
    {
      var g := GroupOf(groups, uid);
      if g == |groups| { return false; }
      if groups[g].0 == target { return true; }
      var host := if Has(groups[g].1.hosts, uid) then Some(HostIn(groups, g, uid)) else None;
      if target == UNGROUPED { EnsureUngroupedGroup(); }
      if !Found(groups, target) { return false; }
      TakeHost(g, uid);
      Arrive(target, uid, host);
      return true;
    }

    method RemoveHostFromUser(uid: string) returns (ok: bool)
      modifies this
      ensures ok <==> DeleteHost(old(groups), uid).Saved?
      ensures groups == if ok then DeleteHost(old(groups), uid).user else old(groups)
    {
      var g := GroupOf(groups, uid);
      if g == |groups| { return false; }
      TakeHost(g, uid);
      return true;
    }

    // Renames first and checks the default host after: on an error the record, or
    // Object.prototype, may already carry the new name. `added` is what requests have put there.
    method UpdateGroup(groupId: string, patch: GroupPatch, strays: set<string>, added: set<string>)
      returns (error: Option<Refusal>, added': set<string>)
      modifies this
      ensures error.None? <==> UpdateHostGroup(old(groups), groupId, patch, strays, added).Saved?
      ensures error.Some? ==> UpdateHostGroup(old(groups), groupId, patch, strays, added) == Refused(error.value)
      ensures error.None? ==> groups == UpdateHostGroup(old(groups), groupId, patch, strays, added).user
      ensures added' == AddedByUpdate(old(groups), groupId, patch, strays, added)
    {
      added' := added;
      if !Found(groups, groupId) && groupId !in added { return Some(GroupNotFound), added'; }
      var g := Find(groups, groupId);
      if patch.name.Some? {
        if groupId == UNGROUPED { return Some(CannotRenameUngrouped), added'; }
        var trimmed := Trim(patch.name.value);
        if trimmed == "" { return Some(BlankGroupName), added'; }
        if !ValidGroupNameStart(trimmed) { return Some(InvalidGroupName), added'; }
        if g < |groups| { groups := WithGroup(groups, g, groups[g].1.(name := trimmed)); }
        else if groupId !in {PROTO, HOSTS} { return Some(ReadOnlyField), added'; }
        else if groupId == PROTO { added' := added' + {NAME}; }
      }
      if patch.defaultHostUid.Some? {
        var next := OrElse(patch.defaultHostUid.value, "");
        var names := INHERITED + added;
        if g == |groups| { names := names + strays + if patch.name.Some? then {NAME} else {}; }
        var member := next in names || (g < |groups| && Has(groups[g].1.hosts, next));
        if next != "" && !member { return Some(DefaultHostNotInGroup), added'; }
        if g < |groups| { groups := WithGroup(groups, g, groups[g].1.(defaultHostUid := next)); }
        else if groupId in {DEFAULT, NAME} { return Some(ReadOnlyField), added'; }
        else if groupId == PROTO { added' := if next == "" then added' - {DEFAULT} else added' + {DEFAULT}; }
      }
      error := None;
    }
  }

  function After(u: User, o: Outcome): User {
    if o.Saved? then o.user else u
  }

  function ErrorOf(o: Outcome): Option<Refusal> {
    if o.Refused? then Some(o.why) else None
  }

  // `user` is the record on disk; each operation works on a record loaded from it.
  class HostService {
    var user: User

    constructor ()
      ensures user == []
    {
      user := [];
    }

    // `request.uid` is the fresh uuid.
    method AddHost(request: Host, groupId: string) returns (error: Option<Refusal>)
      modifies this
      ensures error == ErrorOf(HostGroups.AddHost(old(user), request, groupId))
      ensures user == After(old(user), HostGroups.AddHost(old(user), request, groupId))
    {
      var record := new UserRecord(user);
      var count := record.CountAllHosts();
      if count >= MAX_HOSTS { return Some(ExceedMaxHosts); }
      var alias := Trim(request.alias);
      if alias == "" { return Some(BlankAlias); }
      if |alias| > MAX_ALIAS_LENGTH { return Some(AliasTooLong); }
      var host := request.(alias := alias, token := "");
      var duplicate := record.FindDuplicateHost(host, "");
      if duplicate.Some? { return Some(DuplicatedHost(duplicate.value.uid)); }
      var duplicateAlias := record.FindDuplicateAlias(alias, "");
      if duplicateAlias.Some? { return Some(DuplicatedAlias(duplicateAlias.value.uid)); }
      if groupId != "" {
        if !Found(record.groups, groupId) { return Some(GroupNotFound); }
        record.AddHostToGroup(groupId, host);
      } else {
        record.EnsureUngroupedGroup();
        UngroupedFound(user);
        record.AddHostToGroup(UNGROUPED, host);
      }
      user := record.groups;
      return None;
    }

    method CreateHostGroup(groupId: string, name: string) returns (error: Option<Refusal>)
      modifies this
      ensures error == ErrorOf(HostGroups.CreateHostGroup(old(user), groupId, name))
      ensures user == After(old(user), HostGroups.CreateHostGroup(old(user), groupId, name))
    {
      var record := new UserRecord(user);
      var trimmed := Trim(name);
      if trimmed == "" { return Some(BlankGroupName); }
      if !ValidGroupNameStart(trimmed) { return Some(InvalidGroupName); }
      record.groups := Put(record.groups, groupId, Group(trimmed, "", []));
      user := record.groups;
      return None;
    }

    method DeleteHostGroup(groupId: string) returns (error: Option<Refusal>)
      modifies this
      ensures error == ErrorOf(HostGroups.DeleteHostGroup(old(user), groupId))
      ensures user == After(old(user), HostGroups.DeleteHostGroup(old(user), groupId))
    {
      if groupId == UNGROUPED { return Some(CannotDeleteUngrouped); }
      var record := new UserRecord(user);
      if Has(record.groups, groupId) { record.groups := Drop(record.groups, groupId); }
      user := record.groups;
      return None;
    }

    method MarkGroupHa(uid: string, name: string) returns (error: Option<Refusal>)
      modifies this
      ensures error == ErrorOf(HostGroups.MarkGroupHa(old(user), uid, name))
      ensures user == After(old(user), HostGroups.MarkGroupHa(old(user), uid, name))
    {
      var record := new UserRecord(user);
      var g := GroupOf(record.groups, uid);
      if g == |record.groups| { return Some(NoSuchHost); }
      var trimmed := Trim(name);
      if trimmed != "" { record.groups := WithGroup(record.groups, g, record.groups[g].1.(name := trimmed)); }
      user := record.groups;
      return None;
    }

    method UpdateHostGroup(groupId: string, patch: GroupPatch, strays: set<string>, added: set<string>)
      returns (error: Option<Refusal>, added': set<string>)
      modifies this
      ensures error == ErrorOf(HostGroups.UpdateHostGroup(old(user), groupId, patch, strays, added))
      ensures user == After(old(user), HostGroups.UpdateHostGroup(old(user), groupId, patch, strays, added))
      ensures added' == AddedByUpdate(old(user), groupId, patch, strays, added)
    {
      var record := new UserRecord(user);
      error, added' := record.UpdateGroup(groupId, patch, strays, added);
      if error.None? { user := record.groups; }
    }

    method UpdateHost(uid: string, patch: HostPatch) returns (error: Option<Refusal>)
      modifies this
      ensures error == ErrorOf(HostGroups.UpdateHost(old(user), uid, patch))
      ensures user == After(old(user), HostGroups.UpdateHost(old(user), uid, patch))
    {
      var record := new UserRecord(user);
      var g := GroupOf(record.groups, uid);
      if g == |record.groups| { return Some(NoSuchHost); }
      var existing := HostIn(record.groups, g, uid);
      var alias := existing.alias;
      if patch.alias.Some? {
        alias := Trim(patch.alias.value);
        if alias == "" { return Some(BlankAlias); }
        if |alias| > MAX_ALIAS_LENGTH { return Some(AliasTooLong); }
      }
      var host := Host(uid, OrElse(patch.id, existing.id), OrElse(patch.address, existing.address),
                       OrElse(patch.port, existing.port), OrElse(patch.password, existing.password), alias,
                       OrElse(patch.token, existing.token));
      var duplicate := record.FindDuplicateHost(host, uid);
      if duplicate.Some? { return Some(DuplicatedHost(duplicate.value.uid)); }
      var duplicateAlias := record.FindDuplicateAlias(alias, uid);
      if duplicateAlias.Some? { return Some(DuplicatedAlias(duplicateAlias.value.uid)); }
      var group := record.groups[g].1;
      record.groups := WithGroup(record.groups, g, group.(hosts := Assigned(group.hosts, uid, host)));
      user := record.groups;
      return None;
    }

    method MoveHost(uid: string, target: string) returns (error: Option<Refusal>)
      modifies this
      ensures error == ErrorOf(HostGroups.MoveHost(old(user), uid, target))
      ensures user == After(old(user), HostGroups.MoveHost(old(user), uid, target))
    {
      var record := new UserRecord(user);
      var ok := record.MoveHostToGroup(uid, target);
      if !ok { return Some(if GroupOf(user, uid) == |user| then NoSuchHost else GroupNotFound); }
      user := record.groups;
      return None;
    }

    method DeleteHost(uid: string) returns (error: Option<Refusal>)
      modifies this
      ensures error == ErrorOf(HostGroups.DeleteHost(old(user), uid))
      ensures user == After(old(user), HostGroups.DeleteHost(old(user), uid))
    {
      var record := new UserRecord(user);
      var ok := record.RemoveHostFromUser(uid);
      if !ok { return Some(NoSuchHost); }
      user := record.groups;
      return None;
    }
  }

  lemma UngroupedFound(u: User)
    ensures Has(EnsureUngrouped(u), UNGROUPED)
  {
    if !Has(u, UNGROUPED) { assert EnsureUngrouped(u)[|u|].0 == UNGROUPED; }
  }
}
