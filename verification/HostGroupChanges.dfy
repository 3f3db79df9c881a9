// What each operation of the host service writes, field by field: hosts, names and default hosts.
module HostGroupChanges {
  import opened Common
  import opened Strings
  import opened HostGroups
  import opened HostGroupInvariant
  import opened HostGroupRuns

  // Only group g differs.
  predicate OnlyGroup(u: User, u': User, g: nat) {
    && g < |u| <= |u'| && u'[g].0 == u[g].0
    && forall i :: 0 <= i < |u| && i != g ==> u'[i] == u[i]
  }

  // A saved update gives the host each field of the patch, the alias trimmed, and leaves it every
  // other, its place and its uid; the group keeps its name, its default and its other hosts.
  lemma UpdateTakesThePatch(u: User, uid: string, patch: HostPatch, u': User)
    requires UpdateHost(u, uid, patch) == Saved(u') && !Stray(u, uid)
    ensures var g := GroupOf(u, uid); OnlyGroup(u, u', g) && |u'| == |u|
    ensures var g := GroupOf(u, uid); var i := Find(u[g].1.hosts, uid);
      && u'[g].1.name == u[g].1.name && u'[g].1.defaultHostUid == u[g].1.defaultHostUid
      && |u'[g].1.hosts| == |u[g].1.hosts| && i < |u[g].1.hosts| && u'[g].1.hosts[i].0 == uid
      && forall j :: 0 <= j < |u[g].1.hosts| && j != i ==> u'[g].1.hosts[j] == u[g].1.hosts[j]
    ensures var g := GroupOf(u, uid); var i := Find(u[g].1.hosts, uid);
      var was, now := u[g].1.hosts[i].1, u'[g].1.hosts[i].1;
      && now.uid == uid
      && now.id == (match patch.id case Some(id) => id case None => was.id)
      && now.address == (match patch.address case Some(address) => address case None => was.address)
      && now.port == (match patch.port case Some(port) => port case None => was.port)
      && now.password == (match patch.password case Some(password) => password case None => was.password)
      && now.token == (match patch.token case Some(token) => token case None => was.token)
      && now.alias == (match patch.alias case Some(alias) => Trim(alias) case None => was.alias)
  {
  }

  lemma AdditionWrites(u: User, host: Host, groupId: string, u': User, u1: User, g: nat)
    requires AddHost(u, host, groupId) == Saved(u') && (groupId == "" || Has(u, groupId))
    requires u1 == (if groupId == "" then EnsureUngrouped(u) else u)
    requires g == Find(u1, if groupId == "" then UNGROUPED else groupId) && g < |u1|
    ensures u' == WithGroup(u1, g, With(u1[g].1, host.uid, host.(alias := Trim(host.alias), token := "")))
  {
  }

  // Group g has the host under its uid, and as its default if it had none.
  ghost predicate Joined(was: Group, now: Group, host: Host) {
    && now.name == was.name
    && now.defaultHostUid == (if was.defaultHostUid == "" then host.uid else was.defaultHostUid)
    && Has(now.hosts, host.uid) && now.hosts[Find(now.hosts, host.uid)].1 == host
  }

  lemma WithJoins(g: Group, host: Host)
    ensures Joined(g, With(g, host.uid, host), host)
  {
    PutFinds(g.hosts, host.uid, host);
  }

  // A saved addition gives the new host the fields asked for, the alias trimmed, and no token; it goes
  // to the group asked for, or to the reserved one, which is created for it if need be, and becomes
  // the default of a group that has none. Nothing else changes.
  lemma AddedHostIsAsked(u: User, host: Host, groupId: string, u': User, target: string)
    requires AddHost(u, host, groupId) == Saved(u') && (groupId == "" || Has(u, groupId))
    requires target == if groupId == "" then "__ungrouped__" else groupId
    ensures Has(u', target) && Find(u', target) == Find(u, target)
    ensures var was := if Has(u, target) then u[Find(u, target)].1 else Group("Ungrouped", "", []);
      Joined(was, u'[Find(u', target)].1,
             Host(host.uid, host.id, host.address, host.port, host.password, Trim(host.alias), ""))
    ensures forall i :: 0 <= i < |u| && i != Find(u, target) ==> i < |u'| && u'[i] == u[i]
  {
    var u1 := WithTarget(u, target);
    TargetIsThere(u, target);
    assert groupId == "" ==> u1 == EnsureUngrouped(u);
    AdditionWrites(u, host, groupId, u', u1, Find(u1, target));
    JoinsTarget(u, target, host.(alias := Trim(host.alias), token := ""), u');
  }

  function WithTarget(u: User, target: string): User {
    if Has(u, target) then u else u + [(target, Group("Ungrouped", "", []))]
  }

  lemma TargetIsThere(u: User, target: string)
    ensures var u1 := WithTarget(u, target);
      && Has(u1, target) && Find(u1, target) == Find(u, target) && u <= u1
      && u1[Find(u, target)].1 == if Has(u, target) then u[Find(u, target)].1 else Group("Ungrouped", "", [])
  {
    if !Has(u, target) {
      var u1 := u + [(target, Group("Ungrouped", "", []))];
      assert u1[|u|].0 == target && forall j :: 0 <= j < |u| ==> u1[j].0 == u[j].0;
    }
  }

  lemma JoinsTarget(u: User, target: string, added: Host, u': User)
    requires var u1, g := WithTarget(u, target), Find(u, target);
      g < |u1| && u' == WithGroup(u1, g, With(u1[g].1, added.uid, added))
    ensures Has(u', target) && Find(u', target) == Find(u, target)
    ensures var was := if Has(u, target) then u[Find(u, target)].1 else Group("Ungrouped", "", []);
      Joined(was, u'[Find(u', target)].1, added)
    ensures forall i :: 0 <= i < |u| && i != Find(u, target) ==> i < |u'| && u'[i] == u[i]
  {
    var u1, g := WithTarget(u, target), Find(u, target);
    TargetIsThere(u, target);
    FindInWithGroup(u1, g, With(u1[g].1, added.uid, added), target);
    WithJoins(u1[g].1, added);
  }

  lemma PutFinds(d: Dict<Host>, k: string, h: Host)
    ensures Has(Put(d, k, h), k) && Put(d, k, h)[Find(Put(d, k, h), k)] == (k, h)
  {
    if Has(d, k) {
      var d' := Put(d, k, h);
      assert forall j :: 0 <= j < |d| ==> d'[j].0 == d[j].0;
    } else {
      assert Put(d, k, h)[|d|].0 == k;
      assert forall j :: 0 <= j < |d| ==> d[j].0 != k;
    }
  }

  // The default host of a group that loses one of its hosts: another if that was the default, namely
  // the first one left, or none.
  ghost predicate DefaultAfterLoss(was: Group, now: Group, uid: string) {
    now.defaultHostUid ==
      if was.defaultHostUid != uid then was.defaultHostUid
      else if now.hosts == [] then "" else now.hosts[0].1.uid
  }

  // The hosts of a group without this one, in the same order.
  ghost predicate LosesHost(was: Group, now: Group, uid: string) {
    var i := Find(was.hosts, uid);
    i < |was.hosts| && now.hosts == was.hosts[..i] + was.hosts[i + 1..] && now.name == was.name
  }

  // A removal takes the host out of its group alone, and sees to the default there.
  lemma DeletionSeesToTheDefault(u: User, uid: string, u': User)
    requires DeleteHost(u, uid) == Saved(u') && !Stray(u, uid)
    ensures var g := GroupOf(u, uid);
      OnlyGroup(u, u', g) && LosesHost(u[g].1, u'[g].1, uid) && DefaultAfterLoss(u[g].1, u'[g].1, uid)
  {
  }

  // So does a move for the group it leaves; in the group it goes to, the host becomes the default if
  // there is none. All other groups are as they were.
  lemma MoveSeesToTheDefaults(u: User, uid: string, target: string, u': User)
    requires Inv(u) && MoveHost(u, uid, target) == Saved(u') && !Stray(u, uid) && Has(u, target)
    requires u[GroupOf(u, uid)].0 != target
    ensures var g, t := GroupOf(u, uid), Find(u, target);
      && g < |u'| == |u| && t < |u| && t != g
      && LosesHost(u[g].1, u'[g].1, uid) && DefaultAfterLoss(u[g].1, u'[g].1, uid)
      && u'[t].1.name == u[t].1.name
      && u'[t].1.defaultHostUid == (if u[t].1.defaultHostUid == "" then uid else u[t].1.defaultHostUid)
      && forall i :: 0 <= i < |u| && i != g && i != t ==> u'[i] == u[i]
  {
    var g, t := GroupOf(u, uid), Find(u, target);
    if target == UNGROUPED { assert EnsureUngrouped(u) == u; }
    FindInWithGroup(u, g, Without(u[g].1, uid), target);
  }

  // A group is created exactly when its name, trimmed, starts with a letter or digit; it has that
  // name, no host and no default.
  lemma CreatedGroupIsEmpty(u: User, groupId: string, name: string)
    ensures CreateHostGroup(u, groupId, name).Saved? <==>
      Trim(name) != "" && var c := Trim(name)[0]; ('a' <= c <= 'z') || ('A' <= c <= 'Z') || ('0' <= c <= '9')
    ensures CreateHostGroup(u, groupId, name).Saved? && !Has(u, groupId) ==>
      CreateHostGroup(u, groupId, name).user == u + [(groupId, Group(Trim(name), "", []))]
  {
  }

  // A saved group update gives the group the trimmed name and the default asked for, null being none.
  lemma UpdatedGroupIsAsked(
    u: User, groupId: string, patch: GroupPatch, strays: set<string>, added: set<string>, u': User)
    requires UpdateHostGroup(u, groupId, patch, strays, added) == Saved(u') && Has(u, groupId)
    ensures var g := Find(u, groupId);
      && OnlyGroup(u, u', g) && |u'| == |u| && u'[g].1.hosts == u[g].1.hosts
      && u'[g].1.name == (match patch.name case Some(name) => Trim(name) case None => u[g].1.name)
      && u'[g].1.defaultHostUid ==
           (match patch.defaultHostUid
            case Some(Some(uid)) => uid
            case Some(None) => ""
            case None => u[g].1.defaultHostUid)
  {
  }
}
