/** What the two operations of the service do to the zone, as functions of the
    players' state when the operation starts: the ungroup pass shared by
    `ungroup_all` and `activate_vinyl`, the grouping under one main player and
    the turntable input selection. The methods of module Vinyl are proved to
    behave exactly as these functions say; the lemmas here state what the
    functions promise. */
module Topology {
  import opened Bluos
  import opened Speakers

  /** Where a sequence of device calls leaves the zone, the calls it issued in
      order, and whether every call reached its player (a call that does not
      ends the operation there). */
  datatype Run = Run(net: map<Addr, Player>, calls: seq<Call>, ok: bool)

  /** `first`, then `rest` started from the state `first` ended in. */
  function Then(first: Run, rest: Run): Run {
    Run(rest.net, first.calls + rest.calls, rest.ok)
  }

  /** One SyncStatus read per address, in order. */
  function Probes(ips: seq<Addr>): (r: seq<Call>)
    ensures forall c :: c in r ==> c.GetSyncStatus?
  {
    if ips == [] then [] else [GetSyncStatus(ips[0])] + Probes(ips[1..])
  }

  /** A RemoveSlave sent to `host` for each of `ids`, in order. */
  function Releases(host: Addr, ids: seq<Addr>): (r: seq<Call>)
    ensures forall c :: c in r ==> c.RemoveSlave? && c.host == host
  {
    if ids == [] then [] else [RemoveSlave(host, ids[0])] + Releases(host, ids[1..])
  }

  /** An AddSlave sent to `main` for each of `fs`, in order. */
  function Adds(main: Addr, fs: seq<Addr>): (r: seq<Call>)
    ensures forall c :: c in r ==> c.AddSlave? && c.host == main
  {
    if fs == [] then [] else [AddSlave(main, fs[0])] + Adds(main, fs[1..])
  }

  /** The RemoveSlave that asks the master a snapshot names to let `ip` go. */
  function MasterRelease(snap: SyncStatus, ip: Addr): seq<Call> {
    if HasMaster(snap) then [RemoveSlave(snap.master.value, ip)] else []
  }

  lemma NoneOf(calls: seq<Call>, e: Endpoint)
    requires forall c :: c in calls ==> EndpointOf(c) != e
    ensures Only(calls, e) == []
  {
    HeadIsMember(Only(calls, e));
  }

  lemma WithinStandalone(now: Player, was: Player)
    requires Within(now, was) && Standalone(was.sync)
    ensures Standalone(now.sync)
  {
    HeadIsMember(Ids(now.sync.slaves));
  }

  // ---------------------------------------------------------------- ungroup

  /** The inner loop of the ungroup pass: for each `slave` entry of a snapshot
      that has an id, `host` is told to release that follower. Entries without
      an id cause no call. */
  function Release(net: map<Addr, Player>, host: Addr, entries: seq<Option<string>>): (r: Run)
    requires host in net
    ensures r.ok && Shrinks(net, r.net)
    ensures r.calls == Releases(host, Ids(entries))
    decreases |entries|
  {
    if entries == [] then Run(net, [], true)
    else
      var e := entries[0];
      var n1 := if IsId(e) then Unlink(net, host, e.value) else net;
      var rest := Release(n1, host, entries[1..]);
      ShrinksTransitive(net, n1, rest.net);
      var first := if IsId(e) then [RemoveSlave(host, e.value)] else [];
      var ids := Ids(entries);
      assert ids == (if IsId(e) then [e.value] else []) + Ids(entries[1..]);
      assert IsId(e) ==> ids[0] == e.value && ids[1..] == Ids(entries[1..]);
      assert !IsId(e) ==> ids == Ids(entries[1..]);
      assert first + rest.calls == Releases(host, ids);
      Run(rest.net, first + rest.calls, true)
  }

  /** Taking one more step of a run already under way. */
  lemma ThenStep(net: map<Addr, Player>, done: seq<Call>, next: map<Addr, Player>, step: seq<Call>, rest: Run)
    ensures Then(Run(net, done, true), Then(Run(next, step, true), rest)) == Then(Run(next, done + step, true), rest)
  {
    assert done + (step + rest.calls) == (done + step) + rest.calls;
  }

  /** A run with nothing left to do; called where a loop ends, to close its
      invariant with `done + [] == done`. */
  lemma ThenDone(net: map<Addr, Player>, done: seq<Call>)
    ensures Then(Run(net, done, true), Run(net, [], true)) == Run(net, done, true)
  {
    assert done + [] == done;
  }

  /** The inner loop, one entry at a time. */
  lemma ReleaseStep(net: map<Addr, Player>, host: Addr, entries: seq<Option<string>>, i: nat)
    requires host in net && i < |entries|
    ensures var e := entries[i];
            var next := if IsId(e) then Unlink(net, host, e.value) else net;
            && host in next
            && Release(net, host, entries[i..]) ==
                 Then(Run(next, if IsId(e) then [RemoveSlave(host, e.value)] else [], true),
                      Release(next, host, entries[i + 1..]))
  {
    assert entries[i..][0] == entries[i] && entries[i..][1..] == entries[i + 1..];
  }

  /** After the inner loop, `host` lists none of the followers the snapshot
      named; with nothing named, nothing changed. */
  lemma {:induction false} ReleaseClears(net: map<Addr, Player>, host: Addr, entries: seq<Option<string>>)
    requires host in net
    ensures forall x :: x in Ids(entries) ==> x !in Ids(Release(net, host, entries).net[host].sync.slaves)
    ensures Ids(entries) == [] ==> Release(net, host, entries).net == net
  {
    if entries != [] {
      var e := entries[0];
      var n1 := if IsId(e) then Unlink(net, host, e.value) else net;
      ReleaseClears(n1, host, entries[1..]);
      var r := Release(n1, host, entries[1..]);
      assert Within(r.net[host], n1[host]);
    }
  }

  /** One iteration of the ungroup loop, for the player at `ip`: its SyncStatus
      is read fresh; the master it names (if any) is told to release it; then
      `ip` is told to release each follower that snapshot lists. A call to a
      host that does not answer ends the pass. */
  function UngroupSpeaker(net: map<Addr, Player>, ip: Addr): (r: Run)
    ensures Shrinks(net, r.net)
    ensures r.ok <==> ip in net && (HasMaster(net[ip].sync) ==> net[ip].sync.master.value in net)
  {
    if ip !in net then Run(net, [GetSyncStatus(ip)], false)
    else
      var snap := net[ip].sync;
      if HasMaster(snap) && snap.master.value !in net then
        Run(net, [GetSyncStatus(ip), RemoveSlave(snap.master.value, ip)], false)
      else
        var n1 := if HasMaster(snap) then Unlink(net, snap.master.value, ip) else net;
        var rel := Release(n1, ip, snap.slaves);
        ShrinksTransitive(net, n1, rel.net);
        Then(Run(n1, [GetSyncStatus(ip)] + MasterRelease(snap, ip), true), rel)
  }

  /** The calls of one iteration depend on the fresh snapshot alone: the read,
      then a RemoveSlave to the master it names (sent even when that master no
      longer lists `ip`), then, once that went through, one RemoveSlave to
      `ip` per follower id it lists, in document order. */
  lemma UngroupSpeakerCalls(net: map<Addr, Player>, ip: Addr)
    ensures var r := UngroupSpeaker(net, ip);
            r.calls == [GetSyncStatus(ip)] +
              if ip !in net then []
              else MasterRelease(net[ip].sync, ip) + (if r.ok then Releases(ip, Ids(net[ip].sync.slaves)) else [])
  {
    if ip in net {
      var snap := net[ip].sync;
      if HasMaster(snap) && snap.master.value !in net {
        assert MasterRelease(snap, ip) + [] == MasterRelease(snap, ip);
      } else {
        var n1 := if HasMaster(snap) then Unlink(net, snap.master.value, ip) else net;
        var rel := Release(n1, ip, snap.slaves);
        assert UngroupSpeaker(net, ip).calls == ([GetSyncStatus(ip)] + MasterRelease(snap, ip)) + rel.calls;
        assert rel.calls == Releases(ip, Ids(snap.slaves));
      }
    }
  }

  /** The releases of an iteration are all RemoveSlave calls; called to have
      the prover unfold the membership of their concatenation. */
  lemma RemovalsOnly(snap: SyncStatus, ip: Addr, ids: seq<Addr>)
    ensures forall c :: c in MasterRelease(snap, ip) + Releases(ip, ids) ==> c.RemoveSlave?
  {
  }

  /** Whether it completes or not, an iteration starts with the fresh read and,
      when the snapshot names a master, asks that master (not `ip`) to release
      `ip` next; it sends nothing but SyncStatus reads and RemoveSlave. */
  lemma UngroupSpeakerAsksMaster(net: map<Addr, Player>, ip: Addr)
    ensures var r := UngroupSpeaker(net, ip);
            && r.calls != [] && r.calls[0] == GetSyncStatus(ip)
            && (ip in net && HasMaster(net[ip].sync) ==>
                  |r.calls| >= 2 && r.calls[1] == RemoveSlave(net[ip].sync.master.value, ip))
            && (forall c :: c in r.calls ==> c.GetSyncStatus? || c.RemoveSlave?)
  {
    var r := UngroupSpeaker(net, ip);
    UngroupSpeakerCalls(net, ip);
    if ip in net {
      var head := MasterRelease(net[ip].sync, ip);
      var rest := head + (if r.ok then Releases(ip, Ids(net[ip].sync.slaves)) else []);
      RemovalsOnly(net[ip].sync, ip, if r.ok then Ids(net[ip].sync.slaves) else []);
      assert r.calls == [GetSyncStatus(ip)] + rest;
      assert forall c :: c in r.calls ==> c == GetSyncStatus(ip) || c in rest;
      assert HasMaster(net[ip].sync) ==> r.calls[1] == rest[0] == head[0];
    }
  }

  /** A completed iteration leaves `ip` standalone, whatever it reported. */
  lemma UngroupSpeakerIsolates(net: map<Addr, Player>, ip: Addr)
    requires UngroupSpeaker(net, ip).ok
    ensures Standalone(UngroupSpeaker(net, ip).net[ip].sync)
  {
    var snap := net[ip].sync;
    var n1 := if HasMaster(snap) then Unlink(net, snap.master.value, ip) else net;
    assert !HasMaster(n1[ip].sync);
    ReleaseClears(n1, ip, snap.slaves);
    var rel := Release(n1, ip, snap.slaves);
    assert Within(rel.net[ip], n1[ip]);
    assert Within(n1[ip], net[ip]);
    HeadIsMember(Ids(rel.net[ip].sync.slaves));
  }

  /** The ungroup pass over the players at `ips`, in order. */
  function Ungroup(net: map<Addr, Player>, ips: seq<Addr>): (r: Run)
    ensures Shrinks(net, r.net)
    ensures r.ok ==> forall ip :: ip in ips ==> ip in net
    decreases |ips|
  {
    if ips == [] then Run(net, [], true)
    else
      var s := UngroupSpeaker(net, ips[0]);
      if !s.ok then s
      else
        var rest := Ungroup(s.net, ips[1..]);
        ShrinksTransitive(net, s.net, rest.net);
        Then(s, rest)
  }

  /** The ungroup loop, one player at a time. */
  lemma UngroupStep(net: map<Addr, Player>, ips: seq<Addr>, i: nat)
    requires i < |ips|
    ensures var s := UngroupSpeaker(net, ips[i]);
            Ungroup(net, ips[i..]) == if s.ok then Then(s, Ungroup(s.net, ips[i + 1..])) else s
  {
    assert ips[i..][0] == ips[i] && ips[i..][1..] == ips[i + 1..];
  }

  /** The pass only reads SyncStatus and sends RemoveSlave. */
  lemma {:induction false} UngroupOnlyRemoves(net: map<Addr, Player>, ips: seq<Addr>)
    ensures forall c :: c in Ungroup(net, ips).calls ==> c.GetSyncStatus? || c.RemoveSlave?
  {
    if ips != [] {
      UngroupSpeakerAsksMaster(net, ips[0]);
      var s := UngroupSpeaker(net, ips[0]);
      if s.ok {
        UngroupOnlyRemoves(s.net, ips[1..]);
      }
    }
  }

  /** A pass that completes leaves every player it visited standalone, whatever
      the relations were before, including a relation only one end records. */
  lemma {:induction false} UngroupConverges(net: map<Addr, Player>, ips: seq<Addr>)
    requires Ungroup(net, ips).ok
    ensures forall ip :: ip in ips ==> Standalone(Ungroup(net, ips).net[ip].sync)
  {
    if ips != [] {
      var s := UngroupSpeaker(net, ips[0]);
      var r := Ungroup(s.net, ips[1..]);
      UngroupSpeakerIsolates(net, ips[0]);
      UngroupConverges(s.net, ips[1..]);
      WithinStandalone(r.net[ips[0]], s.net[ips[0]]);
      forall ip | ip in ips ensures Standalone(r.net[ip].sync) {
        if ip != ips[0] {
          assert ip in ips[1..];
        }
      }
    }
  }

  /** Every player of `ips` answers, and so does every master it names. */
  predicate Reachable(net: map<Addr, Player>, ips: seq<Addr>) {
    forall ip :: ip in ips ==> ip in net && (HasMaster(net[ip].sync) ==> net[ip].sync.master.value in net)
  }

  lemma {:induction false} UngroupCompletesIfReachable(net: map<Addr, Player>, ips: seq<Addr>)
    requires Reachable(net, ips)
    ensures Ungroup(net, ips).ok
  {
    if ips != [] {
      var s := UngroupSpeaker(net, ips[0]);
      forall ip | ip in ips[1..]
        ensures ip in s.net && (HasMaster(s.net[ip].sync) ==> s.net[ip].sync.master.value in s.net)
      {
        assert Within(s.net[ip], net[ip]);
      }
      UngroupCompletesIfReachable(s.net, ips[1..]);
    }
  }

  /** A player naming a master that does not answer still names it in
      `after`: only a RemoveSlave that reaches the master clears the name. */
  predicate KeepsDeadMasters(before: map<Addr, Player>, after: map<Addr, Player>) {
    forall a :: a in before && HasMaster(before[a].sync) && before[a].sync.master.value !in before ==>
      a in after && after[a].sync.master == before[a].sync.master
  }

  lemma KeepsDeadMastersTransitive(a: map<Addr, Player>, b: map<Addr, Player>, c: map<Addr, Player>)
    requires Shrinks(a, b) && KeepsDeadMasters(a, b) && KeepsDeadMasters(b, c)
    ensures KeepsDeadMasters(a, c)
  {
    forall x | x in a && HasMaster(a[x].sync) && a[x].sync.master.value !in a
      ensures x in c && c[x].sync.master == a[x].sync.master
    {
      assert b[x].sync.master == a[x].sync.master;
    }
  }

  lemma {:induction false} ReleaseKeepsDeadMasters(net: map<Addr, Player>, host: Addr, entries: seq<Option<string>>)
    requires host in net
    ensures KeepsDeadMasters(net, Release(net, host, entries).net)
  {
    if entries != [] {
      var e := entries[0];
      var n1 := if IsId(e) then Unlink(net, host, e.value) else net;
      ReleaseKeepsDeadMasters(n1, host, entries[1..]);
      KeepsDeadMastersTransitive(net, n1, Release(n1, host, entries[1..]).net);
    }
  }

  lemma UngroupSpeakerKeepsDeadMasters(net: map<Addr, Player>, ip: Addr)
    ensures KeepsDeadMasters(net, UngroupSpeaker(net, ip).net)
  {
    if ip in net {
      var snap := net[ip].sync;
      if !(HasMaster(snap) && snap.master.value !in net) {
        var n1 := if HasMaster(snap) then Unlink(net, snap.master.value, ip) else net;
        ReleaseKeepsDeadMasters(n1, ip, snap.slaves);
        KeepsDeadMastersTransitive(net, n1, Release(n1, ip, snap.slaves).net);
      }
    }
  }

  lemma {:induction false} UngroupCompletesOnlyIfReachable(net: map<Addr, Player>, ips: seq<Addr>)
    requires Ungroup(net, ips).ok
    ensures Reachable(net, ips)
  {
    if ips != [] {
      var s := UngroupSpeaker(net, ips[0]);
      UngroupCompletesOnlyIfReachable(s.net, ips[1..]);
      UngroupSpeakerKeepsDeadMasters(net, ips[0]);
      forall ip | ip in ips
        ensures ip in net && (HasMaster(net[ip].sync) ==> net[ip].sync.master.value in net)
      {
        if ip != ips[0] {
          assert ip in ips[1..];
        }
      }
    }
  }

  /** The pass completes exactly when every player it visits answers and so
      does every master those players name at the start. */
  lemma UngroupSucceeds(net: map<Addr, Player>, ips: seq<Addr>)
    ensures Ungroup(net, ips).ok <==>
              forall ip :: ip in ips ==> ip in net && (HasMaster(net[ip].sync) ==> net[ip].sync.master.value in net)
  {
    if Reachable(net, ips) {
      UngroupCompletesIfReachable(net, ips);
    }
    if Ungroup(net, ips).ok {
      UngroupCompletesOnlyIfReachable(net, ips);
    }
  }

  /** On players that are all standalone already, the pass only reads: every
      player's SyncStatus once, in order, and nothing changes. */
  lemma {:induction false} UngroupStandaloneIsNoop(net: map<Addr, Player>, ips: seq<Addr>)
    requires forall ip :: ip in ips ==> ip in net && Standalone(net[ip].sync)
    ensures Ungroup(net, ips) == Run(net, Probes(ips), true)
  {
    if ips != [] {
      var ip := ips[0];
      ReleaseClears(net, ip, net[ip].sync.slaves);
      assert UngroupSpeaker(net, ip) == Run(net, [GetSyncStatus(ip)], true);
      UngroupStandaloneIsNoop(net, ips[1..]);
    }
  }

  /** Running the pass again right after it completed reads every player once
      and issues no mutation. */
  lemma UngroupIdempotent(net: map<Addr, Player>, ips: seq<Addr>)
    requires Ungroup(net, ips).ok
    ensures var after := Ungroup(net, ips).net;
            Ungroup(after, ips) == Run(after, Probes(ips), true)
  {
    UngroupConverges(net, ips);
    UngroupStandaloneIsNoop(Ungroup(net, ips).net, ips);
  }

  /** A relation only one end records, `a` naming `b` as its master while `b`
      does not list `a`, is cleared at both ends by a pass over both. */
  lemma UngroupClearsOneSidedRelation(net: map<Addr, Player>, ips: seq<Addr>, a: Addr, b: Addr)
    requires a in ips && b in ips && a in net && b in net
    requires net[a].sync.master == Some(b) && b != "" && a !in Ids(net[b].sync.slaves)
    requires forall ip :: ip in ips ==> ip in net && (HasMaster(net[ip].sync) ==> net[ip].sync.master.value in net)
    ensures Ungroup(net, ips).ok
    ensures Standalone(Ungroup(net, ips).net[a].sync) && Standalone(Ungroup(net, ips).net[b].sync)
  {
    UngroupSucceeds(net, ips);
    UngroupConverges(net, ips);
  }

  lemma UngroupSpeakerReadsOnce(net: map<Addr, Player>, ip: Addr)
    requires UngroupSpeaker(net, ip).ok
    ensures Only(UngroupSpeaker(net, ip).calls, SyncStatusEndpoint) == [GetSyncStatus(ip)]
  {
    UngroupSpeakerCalls(net, ip);
    var ids := Ids(net[ip].sync.slaves);
    var rest := MasterRelease(net[ip].sync, ip) + Releases(ip, ids);
    RemovalsOnly(net[ip].sync, ip, ids);
    NoneOf(rest, SyncStatusEndpoint);
    OnlyConcat([GetSyncStatus(ip)], rest, SyncStatusEndpoint);
    assert [GetSyncStatus(ip)][1..] == [];
  }

  /** Every player's SyncStatus is read once per completed pass, in order. */
  lemma {:induction false} UngroupReadsEachOnce(net: map<Addr, Player>, ips: seq<Addr>)
    requires Ungroup(net, ips).ok
    ensures Only(Ungroup(net, ips).calls, SyncStatusEndpoint) == Probes(ips)
  {
    if ips != [] {
      var ip := ips[0];
      var s := UngroupSpeaker(net, ip);
      var rest := Ungroup(s.net, ips[1..]);
      assert Ungroup(net, ips).calls == s.calls + rest.calls;
      UngroupReadsEachOnce(s.net, ips[1..]);
      UngroupSpeakerReadsOnce(net, ip);
      OnlyConcat(s.calls, rest.calls, SyncStatusEndpoint);
    }
  }

  // ------------------------------------------------------------------ group

  /** The players to group under `main`: every address of `all` except
      `main`, in order. */
  function FollowerIps(all: seq<Addr>, main: Addr): (r: seq<Addr>)
    ensures forall x :: x in r <==> x in all && x != main
    ensures |r| <= |all|
  {
    if all == [] then []
    else
      assert forall x :: x in all <==> x == all[0] || x in all[1..];
      (if all[0] != main then [all[0]] else []) + FollowerIps(all[1..], main)
  }

  lemma {:induction false} FollowerIpsWithoutMain(all: seq<Addr>, main: Addr)
    requires main !in all
    ensures FollowerIps(all, main) == all
  {
    if all != [] {
      FollowerIpsWithoutMain(all[1..], main);
      assert [all[0]] + all[1..] == all;
    }
  }

  /** With distinct addresses and `main` at index `k`, the followers are the
      table with that one entry taken out: N - 1 addresses, in table order. */
  lemma {:induction false} FollowerIpsInOrder(all: seq<Addr>, main: Addr, k: nat)
    requires Distinct(all) && k < |all| && all[k] == main
    ensures FollowerIps(all, main) == all[..k] + all[k + 1..]
    ensures |FollowerIps(all, main)| == |all| - 1
  {
    if k == 0 {
      assert main !in all[1..];
      FollowerIpsWithoutMain(all[1..], main);
    } else {
      FollowerIpsInOrder(all[1..], main, k - 1);
      assert all[1..][..k - 1] + all[1..][k..] == all[1..k] + all[k + 1..];
      assert [all[0]] + all[1..k] == all[..k];
    }
  }

  lemma DistinctTail(s: seq<Addr>)
    requires Distinct(s) && s != []
    ensures s[0] !in s[1..] && Distinct(s[1..])
  {
    forall j | 0 <= j < |s[1..]| ensures s[1..][j] != s[0] {
      assert s[1..][j] == s[j + 1];
    }
    forall i, j | 0 <= i < j < |s[1..]| ensures s[1..][i] != s[1..][j] {
      assert s[1..][i] == s[i + 1] && s[1..][j] == s[j + 1];
    }
  }

  lemma {:induction false} FollowerIpsDistinct(all: seq<Addr>, main: Addr)
    requires Distinct(all)
    ensures Distinct(FollowerIps(all, main))
  {
    if all != [] {
      DistinctTail(all);
      FollowerIpsDistinct(all[1..], main);
      var rest := FollowerIps(all[1..], main);
      var r := FollowerIps(all, main);
      if all[0] != main {
        assert r == [all[0]] + rest;
        forall i, j | 0 <= i < j < |r| ensures r[i] != r[j] {
          if i == 0 {
            assert r[j] == rest[j - 1];
          } else {
            assert r[i] == rest[i - 1] && r[j] == rest[j - 1];
          }
        }
      } else {
        assert r == rest;
      }
    }
  }

  /** The grouping loop: `main` is sent one AddSlave per follower, in order. */
  function Group(net: map<Addr, Player>, main: Addr, fs: seq<Addr>): (r: Run)
    requires main in net
    ensures r.ok && r.net.Keys == net.Keys
    ensures r.calls == Adds(main, fs)
    ensures forall a :: a in net ==>
              r.net[a].inputs == net[a].inputs && r.net[a].state == net[a].state
    decreases |fs|
  {
    if fs == [] then Run(net, [], true)
    else
      var n1 := Link(net, main, fs[0]);
      var rest := Group(n1, main, fs[1..]);
      Then(Run(n1, [AddSlave(main, fs[0])], true), rest)
  }

  /** The grouping loop, one follower at a time. */
  lemma GroupStep(net: map<Addr, Player>, main: Addr, fs: seq<Addr>, i: nat)
    requires main in net && i < |fs|
    ensures var next := Link(net, main, fs[i]);
            && main in next
            && Group(net, main, fs[i..]) == Then(Run(next, [AddSlave(main, fs[i])], true), Group(next, main, fs[i + 1..]))
  {
    assert fs[i..][0] == fs[i] && fs[i..][1..] == fs[i + 1..];
  }

  /** Grouping touches only `main` and the players it adds. */
  lemma {:induction false} GroupLeavesOthers(net: map<Addr, Player>, main: Addr, fs: seq<Addr>)
    requires main in net
    ensures forall a :: a in net && a != main && a !in fs ==> Group(net, main, fs).net[a] == net[a]
  {
    if fs != [] {
      var n1 := Link(net, main, fs[0]);
      GroupLeavesOthers(n1, main, fs[1..]);
      forall a | a in net && a != main && a !in fs ensures Group(net, main, fs).net[a] == net[a] {
        assert a != fs[0];
        assert a !in fs[1..];
      }
    }
  }

  /** A `main` that follows nobody still follows nobody afterwards, and lists
      the players added, after what it listed before, in order. */
  lemma {:induction false} GroupListsFollowers(net: map<Addr, Player>, main: Addr, fs: seq<Addr>)
    requires main in net && !HasMaster(net[main].sync) && Distinct(fs)
    requires forall f :: f in fs ==> f != main && f != "" && f !in Ids(net[main].sync.slaves)
    ensures var n := Group(net, main, fs).net;
            !HasMaster(n[main].sync) && Ids(n[main].sync.slaves) == Ids(net[main].sync.slaves) + fs
  {
    if fs != [] {
      var before := Ids(net[main].sync.slaves);
      var n1 := Link(net, main, fs[0]);
      DistinctTail(fs);
      assert fs[0] in fs;
      assert Ids(n1[main].sync.slaves) == before + [fs[0]];
      assert n1[main].sync.master == net[main].sync.master;
      forall f | f in fs[1..] ensures f != main && f != "" && f !in Ids(n1[main].sync.slaves) {
        assert f in fs && f != fs[0];
      }
      GroupListsFollowers(n1, main, fs[1..]);
      AppendHeadTail(before, fs);
    } else {
      assert Ids(net[main].sync.slaves) + fs == Ids(net[main].sync.slaves);
    }
  }

  /** Every player added ends with `main` as its master, and leads nobody if it
      led nobody before. */
  lemma {:induction false} GroupSetsMaster(net: map<Addr, Player>, main: Addr, fs: seq<Addr>)
    requires main in net
    requires forall f :: f in fs ==> f != main && f in net && Ids(net[f].sync.slaves) == []
    ensures var n := Group(net, main, fs).net;
            forall f :: f in fs ==> n[f].sync.master == Some(main) && Ids(n[f].sync.slaves) == []
  {
    if fs != [] {
      var f0 := fs[0];
      var n1 := Link(net, main, f0);
      assert forall f :: f in fs[1..] ==> f in fs;
      GroupSetsMaster(n1, main, fs[1..]);
      GroupLeavesOthers(n1, main, fs[1..]);
      forall f | f in fs ensures Group(net, main, fs).net[f].sync.master == Some(main) {
        if f !in fs[1..] {
          assert f == f0;
        }
      }
    }
  }

  // ------------------------------------------------------------ input choice

  const RecordPlayer: string := "Record Player"

  /** The index of the first input labelled exactly "Record Player", if any. */
  function FirstRecordPlayer(items: seq<InputItem>): (r: Option<nat>)
    ensures r.Some? ==> r.value < |items| && items[r.value].text == Some(RecordPlayer)
    ensures r.Some? ==> forall j :: 0 <= j < r.value ==> items[j].text != Some(RecordPlayer)
    ensures r.None? ==> forall j :: 0 <= j < |items| ==> items[j].text != Some(RecordPlayer)
  {
    if items == [] then None
    else if items[0].text == Some(RecordPlayer) then Some(0)
    else
      match FirstRecordPlayer(items[1..])
      case None => None
      case Some(k) => Some(k + 1)
  }

  /** The `url` query parameter as the request is formatted: a missing `URL`
      attribute is written as the text "None". */
  function UrlParam(url: Option<string>): (r: string)
    ensures url.Some? ==> r == url.value
    ensures url.None? ==> r == "None"
  {
    if url.Some? then url.value else "None"
  }

  /** The turntable step: only when `main` is the `turntable` player, list its
      capture inputs and play the first one labelled "Record Player". */
  function SelectInput(net: map<Addr, Player>, main: Addr, turntable: Addr): (r: seq<Call>)
    requires main in net
    ensures main != turntable ==> r == []
    ensures main == turntable ==> 1 <= |r| <= 2 && r[0] == RadioBrowse(main)
    ensures main == turntable ==> (|r| == 2 <==> FirstRecordPlayer(net[main].inputs).Some?)
    ensures forall k :: 1 <= k < |r| ==> r[k].Play? && r[k].host == main
  {
    if main != turntable then []
    else
      var items := net[main].inputs;
      [RadioBrowse(main)] +
      match FirstRecordPlayer(items)
      case None => []
      case Some(k) => [Play(main, UrlParam(items[k].url))]
  }

  // --------------------------------------------------------------- activate

  /** The playback state and group name `main` reports at the end. */
  datatype GroupResult = GroupResult(state: Option<string>, group: Option<string>)

  datatype Outcome = Outcome(net: map<Addr, Player>, calls: seq<Call>, result: Option<GroupResult>)

  /** The first call `activate_vinyl(main)` sends to `main` itself once the
      ungroup pass is over: the first AddSlave, else the input listing when
      `main` is the `turntable` player, else the Status read. */
  function FirstCallTo(all: seq<Addr>, main: Addr, turntable: Addr): (c: Call)
    ensures c.host == main
  {
    var fs := FollowerIps(all, main);
    if fs != [] then AddSlave(main, fs[0])
    else if main == turntable then RadioBrowse(main)
    else GetStatus(main)
  }

  /** `activate_vinyl(main)` over the configured players `all`: ungroup them
      all, group the others under `main`, select the turntable input when
      `main` is the `turntable` player, and read `main`'s Status and
      SyncStatus. No result when a call failed: a player of the pass that does
      not answer, or `main` itself not answering its first call. */
  function Activate(net: map<Addr, Player>, all: seq<Addr>, main: Addr, turntable: Addr): (o: Outcome)
    ensures o.result.Some? <==> Ungroup(net, all).ok && main in net
    ensures o.result.Some? ==> main in o.net
  {
    var u := Ungroup(net, all);
    if !u.ok then Outcome(u.net, u.calls, None)
    else if main !in u.net then Outcome(u.net, u.calls + [FirstCallTo(all, main, turntable)], None)
    else
      var g := Group(u.net, main, FollowerIps(all, main));
      var calls := u.calls + g.calls + SelectInput(g.net, main, turntable) + [GetStatus(main), GetSyncStatus(main)];
      Outcome(g.net, calls, Some(GroupResult(g.net[main].state, g.net[main].sync.group)))
  }

  lemma ActivateStopsInPass(net: map<Addr, Player>, all: seq<Addr>, main: Addr, turntable: Addr)
    requires !Ungroup(net, all).ok
    ensures Activate(net, all, main, turntable) == Outcome(Ungroup(net, all).net, Ungroup(net, all).calls, None)
  {
  }

  lemma ActivateStopsAtMain(net: map<Addr, Player>, all: seq<Addr>, main: Addr, turntable: Addr)
    requires Ungroup(net, all).ok && main !in Ungroup(net, all).net
    ensures var u := Ungroup(net, all);
            Activate(net, all, main, turntable) == Outcome(u.net, u.calls + [FirstCallTo(all, main, turntable)], None)
  {
  }

  lemma ActivateCompletes(net: map<Addr, Player>, all: seq<Addr>, main: Addr, turntable: Addr)
    requires Ungroup(net, all).ok && main in Ungroup(net, all).net
    ensures var u := Ungroup(net, all);
            var g := Group(u.net, main, FollowerIps(all, main));
            && main in g.net
            && Activate(net, all, main, turntable) ==
                 Outcome(g.net, u.calls + g.calls + SelectInput(g.net, main, turntable) + [GetStatus(main), GetSyncStatus(main)],
                         Some(GroupResult(g.net[main].state, g.net[main].sync.group)))
  {
  }

  /** After `activate_vinyl(main)` completes over distinct, non-empty
      addresses, the configured players form a one-level star under `main`:
      `main` follows nobody and lists the other N - 1 players in table order,
      each of which follows `main` and leads nobody. */
  lemma ActivateBuildsStar(net: map<Addr, Player>, all: seq<Addr>, main: Addr, turntable: Addr)
    requires main in all && Distinct(all) && forall a :: a in all ==> a != ""
    requires Activate(net, all, main, turntable).result.Some?
    ensures var n := Activate(net, all, main, turntable).net;
            && !HasMaster(n[main].sync)
            && Ids(n[main].sync.slaves) == FollowerIps(all, main)
            && |Ids(n[main].sync.slaves)| == |all| - 1
            && forall f :: f in all && f != main ==>
                 n[f].sync.master == Some(main) && Ids(n[f].sync.slaves) == []
  {
    var u := Ungroup(net, all);
    UngroupConverges(net, all);
    var fs := FollowerIps(all, main);
    FollowerIpsDistinct(all, main);
    GroupListsFollowers(u.net, main, fs);
    GroupSetsMaster(u.net, main, fs);
    var k :| 0 <= k < |all| && all[k] == main;
    FollowerIpsInOrder(all, main, k);
  }

  lemma {:induction false} OnlyAdds(main: Addr, fs: seq<Addr>, e: Endpoint)
    ensures Only(Adds(main, fs), e) == if e == AddSlaveEndpoint then Adds(main, fs) else []
  {
    if fs != [] {
      OnlyAdds(main, fs[1..], e);
    }
  }

  lemma UngroupOnlyCalls(net: map<Addr, Player>, ips: seq<Addr>, e: Endpoint)
    requires e != SyncStatusEndpoint && e != RemoveSlaveEndpoint
    ensures Only(Ungroup(net, ips).calls, e) == []
  {
    UngroupOnlyRemoves(net, ips);
    NoneOf(Ungroup(net, ips).calls, e);
  }

  /** The turntable step sends RadioBrowse once and Play at most once, both
      to `main`, and only when `main` is the turntable's player. */
  lemma SelectInputCalls(net: map<Addr, Player>, main: Addr, turntable: Addr, e: Endpoint)
    requires main in net
    ensures var items := net[main].inputs;
            Only(SelectInput(net, main, turntable), e) ==
              if main != turntable then []
              else if e == RadioBrowseEndpoint then [RadioBrowse(main)]
              else if e == PlayEndpoint && FirstRecordPlayer(items).Some? then
                [Play(main, UrlParam(items[FirstRecordPlayer(items).value].url))]
              else []
  {
    if main == turntable {
      var items := net[main].inputs;
      var play := match FirstRecordPlayer(items) case None => [] case Some(k) => [Play(main, UrlParam(items[k].url))];
      assert SelectInput(net, main, turntable) == [RadioBrowse(main)] + play;
      OnlyConcat([RadioBrowse(main)], play, e);
      assert [RadioBrowse(main)][1..] == [];
      if play != [] {
        assert play[1..] == [];
      }
    }
  }

  lemma FinalReadsCalls(main: Addr, e: Endpoint)
    requires e != SyncStatusEndpoint && e != StatusEndpoint
    ensures Only([GetStatus(main), GetSyncStatus(main)], e) == []
  {
    NoneOf([GetStatus(main), GetSyncStatus(main)], e);
  }

  /** The calls of a completed `activate_vinyl`, phase by phase. */
  lemma ActivatePhases(net: map<Addr, Player>, all: seq<Addr>, main: Addr, turntable: Addr)
    requires main in all && Ungroup(net, all).ok
    ensures var u := Ungroup(net, all);
            var g := Group(u.net, main, FollowerIps(all, main));
            && main in g.net
            && Activate(net, all, main, turntable).calls ==
                 u.calls + g.calls + SelectInput(g.net, main, turntable) + [GetStatus(main), GetSyncStatus(main)]
            && Activate(net, all, main, turntable).result ==
                 Some(GroupResult(g.net[main].state, g.net[main].sync.group))
  {
  }

  /** The grouping phase issues exactly one AddSlave per configured player
      other than `main`, in table order, every one of them sent to `main`;
      nothing else in the operation adds a follower. */
  lemma ActivateAddsEachFollowerOnce(net: map<Addr, Player>, all: seq<Addr>, main: Addr, turntable: Addr)
    requires main in all && Activate(net, all, main, turntable).result.Some?
    ensures Only(Activate(net, all, main, turntable).calls, AddSlaveEndpoint) == Adds(main, FollowerIps(all, main))
  {
    ActivatePhases(net, all, main, turntable);
    var u := Ungroup(net, all);
    var fs := FollowerIps(all, main);
    var g := Group(u.net, main, fs);
    var sel := SelectInput(g.net, main, turntable);
    var finalReads := [GetStatus(main), GetSyncStatus(main)];
    UngroupOnlyCalls(net, all, AddSlaveEndpoint);
    OnlyAdds(main, fs, AddSlaveEndpoint);
    SelectInputCalls(g.net, main, turntable, AddSlaveEndpoint);
    FinalReadsCalls(main, AddSlaveEndpoint);
    OnlySecondPhase(u.calls, g.calls, sel, finalReads, AddSlaveEndpoint);
  }

  /** The calls of a completed `activate_vinyl` sent to `e`, when only the
      input step can send to `e`. */
  lemma ActivateInputStepCalls(net: map<Addr, Player>, all: seq<Addr>, main: Addr, turntable: Addr, e: Endpoint)
    requires main in all && Ungroup(net, all).ok
    requires e == RadioBrowseEndpoint || e == PlayEndpoint
    ensures var u := Ungroup(net, all);
            var g := Group(u.net, main, FollowerIps(all, main));
            && main in g.net && g.net[main].inputs == net[main].inputs
            && Only(Activate(net, all, main, turntable).calls, e) == Only(SelectInput(g.net, main, turntable), e)
  {
    ActivatePhases(net, all, main, turntable);
    var u := Ungroup(net, all);
    var fs := FollowerIps(all, main);
    var g := Group(u.net, main, fs);
    assert Within(u.net[main], net[main]);
    UngroupOnlyCalls(net, all, e);
    OnlyAdds(main, fs, e);
    FinalReadsCalls(main, e);
    OnlyThirdPhase(u.calls, g.calls, SelectInput(g.net, main, turntable), [GetStatus(main), GetSyncStatus(main)], e);
  }

  /** The input step runs only on the turntable's player, and lists that
      player's capture inputs exactly once. */
  lemma ActivateBrowsesTurntableOnce(net: map<Addr, Player>, all: seq<Addr>, main: Addr, turntable: Addr)
    requires main in all && Activate(net, all, main, turntable).result.Some?
    ensures Only(Activate(net, all, main, turntable).calls, RadioBrowseEndpoint) ==
              if main == turntable then [RadioBrowse(main)] else []
  {
    ActivateInputStepCalls(net, all, main, turntable, RadioBrowseEndpoint);
    var g := Group(Ungroup(net, all).net, main, FollowerIps(all, main));
    SelectInputCalls(g.net, main, turntable, RadioBrowseEndpoint);
  }

  /** On the turntable's player the operation issues at most one Play, for
      the first input labelled exactly "Record Player", and none when no input
      is; on any other player it issues none. */
  lemma ActivateSelectsRecordPlayer(net: map<Addr, Player>, all: seq<Addr>, main: Addr, turntable: Addr)
    requires main in all && Activate(net, all, main, turntable).result.Some?
    ensures var items := net[main].inputs;
            Only(Activate(net, all, main, turntable).calls, PlayEndpoint) ==
              if main == turntable && FirstRecordPlayer(items).Some? then
                [Play(main, UrlParam(items[FirstRecordPlayer(items).value].url))]
              else []
  {
    ActivateInputStepCalls(net, all, main, turntable, PlayEndpoint);
    var g := Group(Ungroup(net, all).net, main, FollowerIps(all, main));
    SelectInputCalls(g.net, main, turntable, PlayEndpoint);
  }

  /** The operation ends by reading `main`'s Status and then its SyncStatus,
      and reports the playback state and group name `main` then gives. */
  lemma ActivateReportsMain(net: map<Addr, Player>, all: seq<Addr>, main: Addr, turntable: Addr)
    requires main in all && Activate(net, all, main, turntable).result.Some?
    ensures var o := Activate(net, all, main, turntable);
            && |o.calls| >= 2 && o.calls[|o.calls| - 2..] == [GetStatus(main), GetSyncStatus(main)]
            && o.result == Some(GroupResult(o.net[main].state, o.net[main].sync.group))
  {
    ActivatePhases(net, all, main, turntable);
  }

  /** `activate_vinyl` completes exactly when `main` answers, every configured
      player answers, and so does every master they name at the start. */
  lemma ActivateSucceeds(net: map<Addr, Player>, all: seq<Addr>, main: Addr, turntable: Addr)
    ensures Activate(net, all, main, turntable).result.Some? <==>
              && main in net
              && forall ip :: ip in all ==> ip in net && (HasMaster(net[ip].sync) ==> net[ip].sync.master.value in net)
  {
    UngroupSucceeds(net, all);
  }
}
