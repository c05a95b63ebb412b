/** The BluOS control API of one player, as the coordinator sees it: the
    documents a player reports, the calls the coordinator can send it, and
    what the two grouping mutations do to the players' reported state. */
module Bluos {

  datatype Option<+T> = None | Some(value: T)

  /** The host part of a player's control URL. */
  type Addr = string

  /** A SyncStatus document: the text of its `master` element (None when the
      element is absent, Some("") when it has no text), the `id` attribute of
      each `slave` element in document order (None when absent) and the
      document's `group` attribute. */
  datatype SyncStatus = SyncStatus(master: Option<string>, slaves: seq<Option<string>>, group: Option<string>)

  /** One `item` of a RadioBrowse?service=Capture document: its `text` and
      `URL` attributes. */
  datatype InputItem = InputItem(text: Option<string>, url: Option<string>)

  /** Everything a player reports: its sync state, its capture inputs and the
      `state` text of its Status document. */
  datatype Player = Player(sync: SyncStatus, inputs: seq<InputItem>, state: Option<string>)

  /** One request to a player's control endpoint. */
  datatype Call =
    | GetSyncStatus(host: Addr)
    | RemoveSlave(host: Addr, slave: Addr)
    | AddSlave(host: Addr, slave: Addr)
    | RadioBrowse(host: Addr)
    | Play(host: Addr, url: string)
    | GetStatus(host: Addr)

  datatype Endpoint = SyncStatusEndpoint | RemoveSlaveEndpoint | AddSlaveEndpoint
                    | RadioBrowseEndpoint | PlayEndpoint | StatusEndpoint

  function EndpointOf(c: Call): Endpoint {
    match c
    case GetSyncStatus(_) => SyncStatusEndpoint
    case RemoveSlave(_, _) => RemoveSlaveEndpoint
    case AddSlave(_, _) => AddSlaveEndpoint
    case RadioBrowse(_) => RadioBrowseEndpoint
    case Play(_, _) => PlayEndpoint
    case GetStatus(_) => StatusEndpoint
  }

  /** The calls of `calls` sent to endpoint `e`, in order. */
  function Only(calls: seq<Call>, e: Endpoint): (r: seq<Call>)
    ensures forall c :: c in r <==> c in calls && EndpointOf(c) == e
    ensures |r| <= |calls|
  {
    if calls == [] then []
    else (if EndpointOf(calls[0]) == e then [calls[0]] else []) + Only(calls[1..], e)
  }

  lemma {:induction false} OnlyConcat(a: seq<Call>, b: seq<Call>, e: Endpoint)
    ensures Only(a + b, e) == Only(a, e) + Only(b, e)
  {
    if a == [] {
      assert a + b == b;
    } else {
      assert (a + b)[1..] == a[1..] + b;
      OnlyConcat(a[1..], b, e);
    }
  }

  /** Called only to bring `s[0] in s` into scope, so that a quantifier over
      the members of `s` fires on the head. */
  lemma HeadIsMember<T>(s: seq<T>)
    ensures s != [] ==> s[0] in s
  {
  }

  /** Called to rewrite one step of a front recursion without unfolding the
      concatenation in a large proof context. */
  lemma AppendHeadTail<T>(a: seq<T>, s: seq<T>)
    requires s != []
    ensures a + [s[0]] + s[1..] == a + s
  {
  }

  lemma {:induction false} OnlyPhases(a: seq<Call>, b: seq<Call>, c: seq<Call>, d: seq<Call>, e: Endpoint)
    ensures Only(a + b + c + d, e) == Only(a, e) + Only(b, e) + Only(c, e) + Only(d, e)
  {
    OnlyConcat(a, b, e);
    OnlyConcat(a + b, c, e);
    OnlyConcat(a + b + c, d, e);
  }

  /** Filtering four phases of which only the second reaches `e`. */
  lemma OnlySecondPhase(a: seq<Call>, b: seq<Call>, c: seq<Call>, d: seq<Call>, e: Endpoint)
    requires Only(a, e) == [] && Only(c, e) == [] && Only(d, e) == []
    ensures Only(a + b + c + d, e) == Only(b, e)
  {
    OnlyPhases(a, b, c, d, e);
    assert [] + Only(b, e) + [] + [] == Only(b, e);
  }

  /** Filtering four phases of which only the third reaches `e`. */
  lemma OnlyThirdPhase(a: seq<Call>, b: seq<Call>, c: seq<Call>, d: seq<Call>, e: Endpoint)
    requires Only(a, e) == [] && Only(b, e) == [] && Only(d, e) == []
    ensures Only(a + b + c + d, e) == Only(c, e)
  {
    OnlyPhases(a, b, c, d, e);
    assert [] + [] + Only(c, e) + [] == Only(c, e);
  }

  /** A player follows another one when its `master` element has text. */
  predicate HasMaster(s: SyncStatus) {
    s.master.Some? && s.master.value != ""
  }

  /** A `slave` entry names a follower when its `id` attribute is present and non-empty. */
  predicate IsId(e: Option<string>) {
    e.Some? && e.value != ""
  }

  /** The followers a slave list names, in document order; entries without a
      usable id name nobody. */
  function Ids(entries: seq<Option<string>>): (r: seq<Addr>)
    ensures forall x {:trigger x in r} :: x in r <==> x != "" && Some(x) in entries
    ensures |r| <= |entries|
  {
    if entries == [] then []
    else
      assert forall e :: e in entries <==> e == entries[0] || e in entries[1..];
      (if IsId(entries[0]) then [entries[0].value] else []) + Ids(entries[1..])
  }

  lemma {:induction false} IdsAppend(entries: seq<Option<string>>, e: Option<string>)
    ensures Ids(entries + [e]) == Ids(entries) + (if IsId(e) then [e.value] else [])
  {
    if entries == [] {
      assert entries + [e] == [e];
    } else {
      assert (entries + [e])[1..] == entries[1..] + [e];
      IdsAppend(entries[1..], e);
    }
  }

  /** Neither following nor leading anyone. */
  predicate Standalone(s: SyncStatus) {
    !HasMaster(s) && Ids(s.slaves) == []
  }

  /** `now` keeps at most the grouping relations `was` had and otherwise reports
      the same. */
  predicate Within(now: Player, was: Player) {
    && (forall x :: x in Ids(now.sync.slaves) ==> x in Ids(was.sync.slaves))
    && (HasMaster(now.sync) ==> now.sync.master == was.sync.master)
    && now.inputs == was.inputs && now.state == was.state && now.sync.group == was.sync.group
  }

  /** Every player of `before` is still there in `after`, within its old relations. */
  predicate Shrinks(before: map<Addr, Player>, after: map<Addr, Player>) {
    before.Keys == after.Keys && forall a :: a in before ==> Within(after[a], before[a])
  }

  lemma ShrinksTransitive(a: map<Addr, Player>, b: map<Addr, Player>, c: map<Addr, Player>)
    requires Shrinks(a, b) && Shrinks(b, c)
    ensures Shrinks(a, c)
  {
    forall k | k in a ensures Within(c[k], a[k]) {
      assert Within(b[k], a[k]) && Within(c[k], b[k]);
    }
  }

  /** The slave list with every entry naming `slave` dropped. */
  function Without(entries: seq<Option<string>>, slave: Addr): (r: seq<Option<string>>)
    ensures forall e {:trigger e in r} :: e in r <==> e in entries && e != Some(slave)
    ensures Some(slave) !in entries ==> r == entries
  {
    if entries == [] then []
    else
      assert forall e :: e in entries <==> e == entries[0] || e in entries[1..];
      var rest := Without(entries[1..], slave);
      assert Some(slave) !in entries ==> [entries[0]] + rest == entries;
      (if entries[0] == Some(slave) then [] else [entries[0]]) + rest
  }

  /** The model's assumption about RemoveSlave?slave=`slave` sent to `host`:
      the relation is cleared at both ends, and whichever end does not hold it
      is left as it is. */
  function Unlink(net: map<Addr, Player>, host: Addr, slave: Addr): (r: map<Addr, Player>)
    requires host in net
    ensures Shrinks(net, r)
    ensures slave !in Ids(r[host].sync.slaves)
    ensures slave in net && net[slave].sync.master == Some(host) ==> !HasMaster(r[slave].sync)
    ensures forall a :: a in net && a != host && a != slave ==> r[a] == net[a]
    ensures r[host].sync.slaves == Without(net[host].sync.slaves, slave)
    ensures slave in net && slave != host ==> r[slave].sync.slaves == net[slave].sync.slaves
    ensures slave in net && slave != host && net[slave].sync.master != Some(host) ==> r[slave] == net[slave]
    ensures forall a :: a in net && r[a].sync.master != net[a].sync.master ==>
              a == slave && net[a].sync.master == Some(host)
    ensures (Some(slave) !in net[host].sync.slaves &&
             (slave in net ==> net[slave].sync.master != Some(host))) ==> r == net
  {
    var h := net[host];
    var n1 := net[host := h.(sync := h.sync.(slaves := Without(h.sync.slaves, slave)))];
    assert Shrinks(net, n1);
    if slave in n1 && n1[slave].sync.master == Some(host) then
      var s := n1[slave];
      var r := n1[slave := s.(sync := s.sync.(master := None))];
      assert Shrinks(n1, r);
      ShrinksTransitive(net, n1, r);
      r
    else
      assert Some(slave) !in net[host].sync.slaves ==> n1 == net;
      n1
  }

  /** The model's assumption about AddSlave?slave=`slave` sent to `host`: both
      ends record the relation, `host` appending `slave` to its list unless it
      already lists it. */
  function Link(net: map<Addr, Player>, host: Addr, slave: Addr): (r: map<Addr, Player>)
    requires host in net
    ensures r.Keys == net.Keys
    ensures forall a :: a in net && a != host && a != slave ==> r[a] == net[a]
    ensures forall a :: a in net ==>
              r[a].inputs == net[a].inputs && r[a].state == net[a].state && r[a].sync.group == net[a].sync.group
    ensures Some(slave) in net[host].sync.slaves ==> r[host].sync.slaves == net[host].sync.slaves
    ensures Some(slave) !in net[host].sync.slaves ==> r[host].sync.slaves == net[host].sync.slaves + [Some(slave)]
    ensures slave != "" && slave !in Ids(net[host].sync.slaves) ==>
              Ids(r[host].sync.slaves) == Ids(net[host].sync.slaves) + [slave]
    ensures host != slave ==> r[host].sync.master == net[host].sync.master
    ensures slave in net ==> r[slave].sync.master == Some(host)
    ensures slave in net && slave != host ==> r[slave].sync.slaves == net[slave].sync.slaves
  {
    var h := net[host];
    var listed := if Some(slave) in h.sync.slaves then h.sync.slaves else h.sync.slaves + [Some(slave)];
    IdsAppend(h.sync.slaves, Some(slave));
    var n1 := net[host := h.(sync := h.sync.(slaves := listed))];
    if slave in n1 then
      var s := n1[slave];
      n1[slave := s.(sync := s.sync.(master := Some(host)))]
    else
      n1
  }

  /** The players of the zone, reached over the network. A host that is not a
      key of `players` does not answer: a call to it fails. */
  class Zone {
    var players: map<Addr, Player>

    constructor (players: map<Addr, Player>)
      ensures this.players == players
    {
      this.players := players;
    }

    /** GET /SyncStatus. */
    method SyncStatusOf(host: Addr) returns (r: Option<SyncStatus>)
      ensures r.Some? <==> host in players
      ensures r.Some? ==> r.value == players[host].sync
    {
      r := if host in players then Some(players[host].sync) else None;
    }

    /** GET /RemoveSlave?slave=`slave`. */
    method RemoveSlave(host: Addr, slave: Addr) returns (reached: bool)
      modifies this
      ensures reached == (host in old(players))
      ensures players == if reached then Unlink(old(players), host, slave) else old(players)
    {
      reached := host in players;
      if reached {
        players := Unlink(players, host, slave);
      }
    }

    /** GET /AddSlave?slave=`slave`. */
    method AddSlave(host: Addr, slave: Addr) returns (reached: bool)
      modifies this
      ensures reached == (host in old(players))
      ensures players == if reached then Link(old(players), host, slave) else old(players)
    {
      reached := host in players;
      if reached {
        players := Link(players, host, slave);
      }
    }

    /** GET /RadioBrowse?service=Capture. */
    method RadioBrowse(host: Addr) returns (r: Option<seq<InputItem>>)
      ensures r.Some? <==> host in players
      ensures r.Some? ==> r.value == players[host].inputs
    {
      r := if host in players then Some(players[host].inputs) else None;
    }

    /** GET /Play?url=`url`; what the player then plays is not modelled. */
    method Play(host: Addr, url: string) returns (reached: bool)
      ensures reached <==> host in players
    {
      reached := host in players;
    }

    /** GET /Status, giving the text of its `state` element. */
    method StatusOf(host: Addr) returns (r: Option<Option<string>>)
      ensures r.Some? <==> host in players
      ensures r.Some? ==> r.value == players[host].state
    {
      r := if host in players then Some(players[host].state) else None;
    }
  }
}
