// What every operation of the host service keeps, and what it moves, adds or removes.
module HostGroupInvariant {
  import opened Common
  import opened Strings
  import opened HostGroups

  // Two hosts that may stand side by side.
  predicate Apart(a: Host, b: Host) {
    a.uid != b.uid && !SameConnection(a, b) && !SameAlias(a.alias, b.alias)
  }

  ghost predicate AllApart(hosts: seq<Host>) {
    forall i, j :: 0 <= i < j < |hosts| ==> Apart(hosts[i], hosts[j])
  }

  ghost predicate ApartFromAll(h: Host, hosts: seq<Host>) {
    forall i :: 0 <= i < |hosts| ==> Apart(hosts[i], h)
  }

  // Hosts under their own keys, and a default that is one of them.
  ghost predicate GroupSound(g: Group) {
    && (forall i :: 0 <= i < |g.hosts| ==> g.hosts[i].0 == g.hosts[i].1.uid != "")
    && (g.defaultHostUid != "" ==> Has(g.hosts, g.defaultHostUid))
  }

  ghost predicate DistinctKeys(u: User) {
    forall i, j :: 0 <= i < j < |u| ==> u[i].0 != u[j].0
  }

  ghost predicate Inv(u: User) {
    && DistinctKeys(u) && (forall i :: 0 <= i < |u| ==> GroupSound(u[i].1))
    && AllApart(AllHosts(u)) && |AllHosts(u)| <= MAX_HOSTS
  }

  // Replacing one group replaces its stretch of the hosts and nothing else.
  lemma {:induction false} AllHostsAround(u: User, g: nat, group: Group) returns (a: seq<Host>, b: seq<Host>)
    requires g < |u|
    ensures AllHosts(u) == a + Values(u[g].1.hosts) + b
    ensures AllHosts(WithGroup(u, g, group)) == a + Values(group.hosts) + b
    decreases g
  {
    var u' := WithGroup(u, g, group);
    if g == 0 {
      a, b := [], AllHosts(u[1..]);
      assert u'[1..] == u[1..];
    } else {
      a, b := AllHostsAround(u[1..], g - 1, group);
      assert u'[1..] == WithGroup(u[1..], g - 1, group);
      a := Values(u[0].1.hosts) + a;
    }
  }

  lemma InsertKeepsApart(a: seq<Host>, h: Host, b: seq<Host>)
    requires AllApart(a + b) && ApartFromAll(h, a + b)
    ensures AllApart(a + [h] + b)
  {
    var s, t := a + b, a + [h] + b;
    forall i, j | 0 <= i < j < |t| ensures Apart(t[i], t[j]) {
      var i' := if i < |a| then i else i - 1;
      var j' := if j < |a| then j else j - 1;
      if i == |a| { assert t[j] == s[j'] && Apart(s[j'], h); }
      else if j == |a| { assert t[i] == s[i'] && Apart(s[i'], h); }
      else { assert t[i] == s[i'] && t[j] == s[j'] && Apart(s[i'], s[j']); }
    }
  }

  lemma RemoveKeepsApart(a: seq<Host>, h: Host, b: seq<Host>)
    requires AllApart(a + [h] + b)
    ensures AllApart(a + b) && ApartFromAll(h, a + b)
  {
    var s, t := a + b, a + [h] + b;
    forall i, j | 0 <= i < j < |s| ensures Apart(s[i], s[j]) {
      var i' := if i < |a| then i else i + 1;
      var j' := if j < |a| then j else j + 1;
      assert s[i] == t[i'] && s[j] == t[j'] && Apart(t[i'], t[j']);
    }
    forall i | 0 <= i < |s| ensures Apart(s[i], h) {
      var i' := if i < |a| then i else i + 1;
      assert s[i] == t[i'] && t[|a|] == h;
      assert i' < |a| ==> Apart(t[i'], t[|a|]);
      assert i' > |a| ==> Apart(t[|a|], t[i']);
    }
  }

  lemma ValuesSplit(d: Dict<Host>, i: nat)
    requires i < |d|
    ensures Values(d) == Values(d[..i]) + [d[i].1] + Values(d[i + 1..])
    ensures Values(d[..i] + d[i + 1..]) == Values(d[..i]) + Values(d[i + 1..])
  {
  }

  lemma {:induction false} HostStandsIn(u: User, g: nat, i: nat) returns (p: nat)
    requires g < |u| && i < |u[g].1.hosts|
    ensures p < |AllHosts(u)| && AllHosts(u)[p] == u[g].1.hosts[i].1
    decreases g
  {
    if g == 0 {
      p := i;
    } else {
      p := HostStandsIn(u[1..], g - 1, i);
      p := |u[0].1.hosts| + p;
    }
  }

  lemma {:induction false} AllHostsOfConcat(a: User, b: User)
    ensures AllHosts(a + b) == AllHosts(a) + AllHosts(b)
    decreases |a|
  {
    if a == [] {
      assert a + b == b;
    } else {
      assert (a + b)[1..] == a[1..] + b;
      AllHostsOfConcat(a[1..], b);
    }
  }

  lemma SplitAtGroup(u: User, g: nat)
    requires g < |u|
    ensures u == u[..g] + u[g..] && u[g..][0] == u[g] && u[g..][1..] == u[g + 1..]
  {
  }

  lemma FirstGroup(u: User, group: Group, rest: User)
    requires u != [] && u[0].1 == group && u[1..] == rest
    ensures AllHosts(u) == Values(group.hosts) + AllHosts(rest)
  {
  }

  lemma Regroup(a: seq<Host>, b: seq<Host>, c: seq<Host>, all: seq<Host>)
    requires all == a + (b + c)
    ensures all == a + b + c
  {
  }

  // The hosts of a group stand behind those of the groups before it.
  lemma HostStandsBehind(u: User, g: nat, j: nat)
    requires g < |u| && j < |u[g].1.hosts|
    ensures AllHosts(u[..g]) <= AllHosts(u) && |AllHosts(u[..g])| + j < |AllHosts(u)|
    ensures AllHosts(u)[|AllHosts(u[..g])| + j] == u[g].1.hosts[j].1
  {
    var before, values := AllHosts(u[..g]), Values(u[g].1.hosts);
    SplitAtGroup(u, g);
    AllHostsOfConcat(u[..g], u[g..]);
    FirstGroup(u[g..], u[g].1, u[g + 1..]);
    Regroup(before, values, AllHosts(u[g + 1..]), AllHosts(u));
    assert (before + values)[|before| + j] == values[j];
  }

  lemma HostsOfGroupsApart(u: User, f: nat, i: nat, g: nat, j: nat)
    requires AllApart(AllHosts(u)) && f < g < |u| && i < |u[f].1.hosts| && j < |u[g].1.hosts|
    ensures Apart(u[f].1.hosts[i].1, u[g].1.hosts[j].1)
  {
    HostStandsBehind(u, g, j);
    var p := HostStandsIn(u[..g], f, i);
    assert AllHosts(u)[p] == AllHosts(u[..g])[p];
  }

  // A uid is in one group at most, and that is the group it is found in; but a uid that is an
  // inherited name is found in the first group, whichever has it.
  lemma FoundOnce(u: User, g: nat, uid: string)
    requires Inv(u) && g < |u| && Has(u[g].1.hosts, uid)
    ensures GroupOf(u, uid) == g <==> uid !in INHERITED || g == 0
  {
    var f := GroupOf(u, uid);
    if f < g && Has(u[f].1.hosts, uid) {
      assert GroupSound(u[f].1) && GroupSound(u[g].1);
      HostsOfGroupsApart(u, f, Find(u[f].1.hosts, uid), g, Find(u[g].1.hosts, uid));
    }
  }

  lemma WithoutSound(g: Group, uid: string)
    requires GroupSound(g) && Has(g.hosts, uid)
    requires forall i, j :: 0 <= i < j < |g.hosts| ==> g.hosts[i].0 != g.hosts[j].0
    ensures GroupSound(Without(g, uid))
  {
    var i, hosts := Find(g.hosts, uid), Drop(g.hosts, uid);
    forall k | 0 <= k < |hosts| ensures hosts[k].0 == hosts[k].1.uid != "" {
      assert hosts[k] == g.hosts[if k < i then k else k + 1];
    }
    if g.defaultHostUid != uid && g.defaultHostUid != "" {
      var j := Find(g.hosts, g.defaultHostUid);
      assert hosts[if j < i then j else j - 1] == g.hosts[j];
    }
    assert hosts != [] ==> hosts[0].0 == hosts[0].1.uid;
  }

  lemma KeysInGroupDistinct(u: User, g: nat)
    requires Inv(u) && g < |u|
    ensures forall i, j :: 0 <= i < j < |u[g].1.hosts| ==> u[g].1.hosts[i].0 != u[g].1.hosts[j].0
  {
    var hosts, all := u[g].1.hosts, AllHosts(u);
    var a, b := AllHostsAround(u, g, u[g].1);
    assert GroupSound(u[g].1);
    forall i, j | 0 <= i < j < |hosts| ensures hosts[i].0 != hosts[j].0 {
      assert all[|a| + i] == Values(hosts)[i] && all[|a| + j] == Values(hosts)[j];
    }
  }

  // Taking one host out of all.
  ghost predicate OneLess(less: seq<Host>, more: seq<Host>, h: Host) {
    exists a, b :: less == a + b && more == a + [h] + b
  }

  lemma OneLessCounts(less: seq<Host>, more: seq<Host>, h: Host)
    requires OneLess(less, more, h)
    ensures multiset(more) == multiset(less) + multiset{h} && |more| == |less| + 1
    ensures AllApart(more) <==> AllApart(less) && ApartFromAll(h, less)
  {
    var a, b :| less == a + b && more == a + [h] + b;
    assert multiset(a + [h] + b) == multiset(a) + multiset{h} + multiset(b);
    if AllApart(more) { RemoveKeepsApart(a, h, b); }
    if AllApart(less) && ApartFromAll(h, less) { InsertKeepsApart(a, h, b); }
  }

  lemma OneLessInside(a: seq<Host>, p: seq<Host>, h: Host, q: seq<Host>, b: seq<Host>)
    ensures OneLess(a + (p + q) + b, a + (p + [h] + q) + b, h)
  {
    assert a + (p + q) + b == (a + p) + (q + b);
    assert a + (p + [h] + q) + b == (a + p) + [h] + (q + b);
  }

  lemma ValuesAppend(d: Dict<Host>, h: Host)
    ensures Values(d + [(h.uid, h)]) == Values(d) + [h]
  {
  }

  lemma DroppedValues(g: Group, uid: string) returns (p: seq<Host>, q: seq<Host>)
    requires Has(g.hosts, uid)
    ensures Values(g.hosts) == p + [g.hosts[Find(g.hosts, uid)].1] + q && Values(Without(g, uid).hosts) == p + q
  {
    var i := Find(g.hosts, uid);
    ValuesSplit(g.hosts, i);
    p, q := Values(g.hosts[..i]), Values(g.hosts[i + 1..]);
    assert Without(g, uid).hosts == g.hosts[..i] + g.hosts[i + 1..];
  }

  lemma WithoutIsOneLess(u: User, g: nat, uid: string)
    requires g < |u| && Has(u[g].1.hosts, uid)
    ensures OneLess(AllHosts(WithGroup(u, g, Without(u[g].1, uid))), AllHosts(u), HostIn(u, g, uid))
  {
    var a, b := AllHostsAround(u, g, Without(u[g].1, uid));
    var p, q := DroppedValues(u[g].1, uid);
    OneLessInside(a, p, HostIn(u, g, uid), q, b);
  }

  lemma WithIsOneMore(u: User, g: nat, h: Host)
    requires g < |u| && !Has(u[g].1.hosts, h.uid)
    ensures OneLess(AllHosts(u), AllHosts(WithGroup(u, g, With(u[g].1, h.uid, h))), h)
  {
    var hosts := u[g].1.hosts;
    var a, b := AllHostsAround(u, g, With(u[g].1, h.uid, h));
    ValuesAppend(hosts, h);
    OneLessInside(a, Values(hosts), h, [], b);
    assert Values(hosts) + [] == Values(hosts) && Values(hosts) + [h] + [] == Values(hosts) + [h];
  }

  lemma WithGroupKeepsShape(u: User, g: nat, group: Group)
    requires g < |u| && DistinctKeys(u) && (forall i :: 0 <= i < |u| ==> GroupSound(u[i].1)) && GroupSound(group)
    ensures var u' := WithGroup(u, g, group);
      DistinctKeys(u') && (forall i :: 0 <= i < |u'| ==> GroupSound(u'[i].1))
  {
  }

  // Removing a host removes exactly that one.
  lemma RemovalKeepsInv(u: User, g: nat, uid: string, u': User, h: Host)
    requires Inv(u) && g < |u| && Has(u[g].1.hosts, uid)
    requires u' == WithGroup(u, g, Without(u[g].1, uid)) && h == HostIn(u, g, uid)
    ensures Inv(u') && ApartFromAll(h, AllHosts(u')) && h.uid == uid != ""
    ensures multiset(AllHosts(u)) == multiset(AllHosts(u')) + multiset{h} && |AllHosts(u)| == |AllHosts(u')| + 1
  {
    assert GroupSound(u[g].1);
    WithoutIsOneLess(u, g, uid);
    OneLessCounts(AllHosts(u'), AllHosts(u), h);
    KeysInGroupDistinct(u, g);
    WithoutSound(u[g].1, uid);
    WithGroupKeepsShape(u, g, Without(u[g].1, uid));
  }

  lemma NewInGroup(u: User, g: nat, h: Host)
    requires Inv(u) && g < |u| && ApartFromAll(h, AllHosts(u))
    ensures !Has(u[g].1.hosts, h.uid)
  {
    if Has(u[g].1.hosts, h.uid) {
      assert GroupSound(u[g].1);
      var p := HostStandsIn(u, g, Find(u[g].1.hosts, h.uid));
    }
  }

  lemma WithSound(g: Group, h: Host)
    requires GroupSound(g) && h.uid != "" && !Has(g.hosts, h.uid)
    ensures GroupSound(With(g, h.uid, h))
  {
    var hosts := Put(g.hosts, h.uid, h);
    assert hosts[|g.hosts|].0 == h.uid;
    assert g.defaultHostUid != "" ==> hosts[Find(g.hosts, g.defaultHostUid)].0 == g.defaultHostUid;
  }

  // Adding a host that is apart from all others adds exactly that one.
  lemma AdditionKeepsInv(u: User, g: nat, h: Host, u': User)
    requires Inv(u) && g < |u| && ApartFromAll(h, AllHosts(u)) && h.uid != "" && |AllHosts(u)| < MAX_HOSTS
    requires u' == WithGroup(u, g, With(u[g].1, h.uid, h))
    ensures Inv(u') && multiset(AllHosts(u')) == multiset(AllHosts(u)) + multiset{h}
    ensures Has(u'[g].1.hosts, h.uid) && HostIn(u', g, h.uid) == h
  {
    NewInGroup(u, g, h);
    WithIsOneMore(u, g, h);
    OneLessCounts(AllHosts(u), AllHosts(u'), h);
    WithSound(u[g].1, h);
    WithGroupKeepsShape(u, g, With(u[g].1, h.uid, h));
    assert With(u[g].1, h.uid, h).hosts[|u[g].1.hosts|].0 == h.uid;
  }
}
