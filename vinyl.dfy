/** The service's operations as they run against the zone, call by call, in
    the order the service issues them. Each method is proved to leave the zone
    and to issue the calls exactly as the functions of module Topology say, so
    every lemma proved there holds of these methods. */
module Vinyl {
  import opened Bluos
  import opened Speakers
  import opened Topology

  /** The inner loop of the ungroup pass: `host` is told to release each
      follower whose `slave` entry carries a non-empty id. */
  method ReleaseFollowers(zone: Zone, host: Addr, entries: seq<Option<string>>) returns (calls: seq<Call>)
    requires host in zone.players
    modifies zone
    ensures Release(old(zone.players), host, entries) == Run(zone.players, calls, true)
  {
    calls := [];
    var i := 0;
    while i < |entries|
      invariant 0 <= i <= |entries|
      invariant host in zone.players
      invariant Release(old(zone.players), host, entries) ==
                  Then(Run(zone.players, calls, true), Release(zone.players, host, entries[i..]))
    {
      ghost var before := zone.players;
      var slave := entries[i];
      ghost var next := if IsId(slave) then Unlink(before, host, slave.value) else before;
      ReleaseStep(before, host, entries, i);
      var step := [];
      if slave.Some? && slave.value != "" {
        var _ := zone.RemoveSlave(host, slave.value);
        step := [RemoveSlave(host, slave.value)];
      }
      assert zone.players == next;
      ThenStep(before, calls, next, step, Release(next, host, entries[i + 1..]));
      calls := calls + step;
      i := i + 1;
    }
    ThenDone(zone.players, calls);
  }

  /** One iteration of the ungroup loop, for the player at `ip`. `ok` is false
      when a call did not reach its player, which ends the operation. */
  method UngroupSpeakerAt(zone: Zone, ip: Addr) returns (calls: seq<Call>, ok: bool)
    modifies zone
    ensures UngroupSpeaker(old(zone.players), ip) == Run(zone.players, calls, ok)
  {
    var sync := zone.SyncStatusOf(ip);
    calls := [GetSyncStatus(ip)];
    if sync.None? {
      return calls, false;
    }
    var snap := sync.value;
    if snap.master.Some? && snap.master.value != "" {
      var reached := zone.RemoveSlave(snap.master.value, ip);
      calls := calls + [RemoveSlave(snap.master.value, ip)];
      if !reached {
        return calls, false;
      }
    }
    var released := ReleaseFollowers(zone, ip, snap.slaves);
    calls := calls + released;
    ok := true;
  }

  /** The ungroup loop over the players at `ips`, in order; shared by
      `ungroup_all` and the first phase of `activate_vinyl`. */
  method UngroupPass(zone: Zone, ips: seq<Addr>) returns (calls: seq<Call>, ok: bool)
    modifies zone
    ensures Ungroup(old(zone.players), ips) == Run(zone.players, calls, ok)
  {
    calls := [];
    var i := 0;
    while i < |ips|
      invariant 0 <= i <= |ips|
      invariant Ungroup(old(zone.players), ips) == Then(Run(zone.players, calls, true), Ungroup(zone.players, ips[i..]))
    {
      ghost var before := zone.players;
      UngroupStep(before, ips, i);
      var speakerCalls, reached := UngroupSpeakerAt(zone, ips[i]);
      if !reached {
        assert calls + speakerCalls == Then(Run(before, calls, true), UngroupSpeaker(before, ips[i])).calls;
        return calls + speakerCalls, false;
      }
      ThenStep(before, calls, zone.players, speakerCalls, Ungroup(zone.players, ips[i + 1..]));
      calls := calls + speakerCalls;
      i := i + 1;
    }
    ThenDone(zone.players, calls);
    ok := true;
  }

  /** `ungroup_all`: the ungroup pass over every configured player. When it
      completes every configured player is standalone; a second run then only
      reads. */
  method UngroupAll(zone: Zone) returns (calls: seq<Call>, ok: bool)
    modifies zone
    ensures Ungroup(old(zone.players), Addresses()) == Run(zone.players, calls, ok)
    ensures ok ==> forall ip :: ip in Addresses() ==> Standalone(zone.players[ip].sync)
    ensures ok ==> Ungroup(zone.players, Addresses()) == Run(zone.players, Probes(Addresses()), true)
  {
    calls, ok := UngroupPass(zone, Addresses());
    if ok {
      UngroupConverges(old(zone.players), Addresses());
      UngroupIdempotent(old(zone.players), Addresses());
    }
  }

  /** The grouping loop: `main` is sent one AddSlave per follower, in order.
      When `main` does not answer, the first AddSlave fails and nothing
      changes. */
  method GroupFollowers(zone: Zone, main: Addr, fs: seq<Addr>) returns (calls: seq<Call>, ok: bool)
    modifies zone
    ensures main in old(zone.players) ==> ok && Group(old(zone.players), main, fs) == Run(zone.players, calls, true)
    ensures main !in old(zone.players) ==>
              && zone.players == old(zone.players)
              && (ok <==> fs == [])
              && calls == if fs == [] then [] else [AddSlave(main, fs[0])]
  {
    calls := [];
    var i := 0;
    while i < |fs|
      invariant 0 <= i <= |fs|
      invariant zone.players.Keys == old(zone.players).Keys
      invariant main in old(zone.players) ==>
                  Group(old(zone.players), main, fs) ==
                    Then(Run(zone.players, calls, true), Group(zone.players, main, fs[i..]))
      invariant main !in old(zone.players) ==> i == 0 && zone.players == old(zone.players) && calls == []
    {
      ghost var before := zone.players;
      var reached := zone.AddSlave(main, fs[i]);
      if !reached {
        return calls + [AddSlave(main, fs[i])], false;
      }
      GroupStep(before, main, fs, i);
      ThenStep(before, calls, zone.players, [AddSlave(main, fs[i])], Group(zone.players, main, fs[i + 1..]));
      calls := calls + [AddSlave(main, fs[i])];
      i := i + 1;
    }
    ThenDone(zone.players, calls);
    ok := true;
  }

  /** The turntable step: only on the turntable's player, list its capture
      inputs and play the first one labelled exactly "Record Player". Nothing
      changes in the zone; `ok` is false when `main` does not answer. */
  method SelectRecordPlayer(zone: Zone, main: Addr) returns (calls: seq<Call>, ok: bool)
    ensures main in zone.players ==> ok && calls == SelectInput(zone.players, main, TurntableAddress())
    ensures main !in zone.players ==>
              && (ok <==> main != TurntableAddress())
              && calls == if main == TurntableAddress() then [RadioBrowse(main)] else []
  {
    calls := [];
    ok := true;
    if main == TurntableAddress() {
      var inputs := zone.RadioBrowse(main);
      calls := [RadioBrowse(main)];
      if inputs.None? {
        return calls, false;
      }
      var items := inputs.value;
      var j := 0;
      while j < |items|
        invariant 0 <= j <= |items|
        invariant forall k :: 0 <= k < j ==> items[k].text != Some(RecordPlayer)
        invariant calls == [RadioBrowse(main)]
      {
        if items[j].text == Some(RecordPlayer) {
          var _ := zone.Play(main, UrlParam(items[j].url));
          calls := calls + [Play(main, UrlParam(items[j].url))];
          assert FirstRecordPlayer(items) == Some(j);
          break;
        }
        j := j + 1;
      }
    }
  }

  /** `activate_vinyl(main)`: ungroup every configured player, group the
      others under `main`, select the turntable input on the turntable's
      player, and report `main`'s playback state and group name. No result
      when a call did not reach its player. When it completes on a configured
      player, the configured players form a star under `main`. */
  method ActivateVinyl(zone: Zone, main: Addr) returns (calls: seq<Call>, result: Option<GroupResult>)
    modifies zone
    ensures Outcome(zone.players, calls, result) == Activate(old(zone.players), Addresses(), main, TurntableAddress())
    ensures main in Addresses() && result.Some? ==>
              && !HasMaster(zone.players[main].sync)
              && Ids(zone.players[main].sync.slaves) == FollowerIps(Addresses(), main)
              && forall f :: f in Addresses() && f != main ==>
                   zone.players[f].sync.master == Some(main) && Ids(zone.players[f].sync.slaves) == []
  {
    ghost var start := zone.players;
    var followers := FollowerIps(Addresses(), main);
    var ok;
    calls, ok := UngroupPass(zone, Addresses());
    if !ok {
      ActivateStopsInPass(start, Addresses(), main, TurntableAddress());
      return calls, None;
    }
    ghost var passCalls := calls;
    var added;
    added, ok := GroupFollowers(zone, main, followers);
    if main !in zone.players {
      // `main` does not answer: its first call fails
      ActivateStopsAtMain(start, Addresses(), main, TurntableAddress());
      assert Addresses()[0] in followers;
      return calls + added, None;
    }
    ActivateCompletes(start, Addresses(), main, TurntableAddress());
    calls := calls + added;
    var selected;
    selected, ok := SelectRecordPlayer(zone, main);
    calls := calls + selected;
    var status := zone.StatusOf(main);
    var sync := zone.SyncStatusOf(main);
    calls := calls + [GetStatus(main), GetSyncStatus(main)];
    result := Some(GroupResult(status.value, sync.value.group));
    assert passCalls + added + selected + [GetStatus(main), GetSyncStatus(main)] == calls;
    if main in Addresses() {
      ActivateBuildsStar(start, Addresses(), main, TurntableAddress());
    }
  }

  /** The room a /group request names: its `speaker` query parameter, or the
      turntable's room when the parameter is absent. */
  function RequestedRoom(speaker: Option<string>): (name: string)
    ensures speaker.Some? ==> name == speaker.value
    ensures speaker.None? ==> name == TurntableRoom
  {
    if speaker.Some? then speaker.value else "dining-room"
  }

  /** The guard of the /group handler: a configured room gives its player;
      anything else gives the error text and the list of valid rooms. */
  datatype Target = Room(ip: Addr) | Unknown(error: string, valid: seq<string>)

  function GroupTarget(speaker: Option<string>): (r: Target)
    ensures r.Room? <==> RequestedRoom(speaker) in Names()
    ensures r.Room? ==> (RequestedRoom(speaker), r.ip) in Table && r.ip in Addresses()
    ensures r.Unknown? ==> r.error == "Unknown speaker: " + RequestedRoom(speaker) && r.valid == Names()
    ensures speaker.None? ==> r == Room(TurntableAddress())
  {
    var name := RequestedRoom(speaker);
    match Lookup(name)
    case Some(ip) => Room(ip)
    case None => Unknown("Unknown speaker: " + name, Names())
  }

  /** What the service answers. `ServerError` stands for a call that did not
      reach its player, which aborts the handler. */
  datatype Response =
    | Grouped(state: Option<string>, group: Option<string>)
    | Ungrouped
    | BadRequest(error: string, valid: seq<string>)
    | ServerError

  /** GET /group: an unknown room is refused before any device call. */
  method HandleGroup(zone: Zone, speaker: Option<string>) returns (calls: seq<Call>, response: Response)
    modifies zone
    ensures GroupTarget(speaker).Unknown? ==>
              && calls == [] && zone.players == old(zone.players)
              && response == BadRequest(GroupTarget(speaker).error, Names())
    ensures GroupTarget(speaker).Room? ==>
              var o := Activate(old(zone.players), Addresses(), GroupTarget(speaker).ip, TurntableAddress());
              && zone.players == o.net && calls == o.calls
              && response == if o.result.Some? then Grouped(o.result.value.state, o.result.value.group) else ServerError
  {
    match GroupTarget(speaker)
    case Unknown(error, valid) =>
      calls, response := [], BadRequest(error, valid);
    case Room(ip) =>
      var result;
      calls, result := ActivateVinyl(zone, ip);
      response := if result.Some? then Grouped(result.value.state, result.value.group) else ServerError;
  }

  /** GET /ungroup. */
  method HandleUngroup(zone: Zone) returns (calls: seq<Call>, response: Response)
    modifies zone
    ensures var u := Ungroup(old(zone.players), Addresses());
            && zone.players == u.net && calls == u.calls
            && response == if u.ok then Ungrouped else ServerError
  {
    var ok;
    calls, ok := UngroupAll(zone);
    response := if ok then Ungrouped else ServerError;
  }
}
