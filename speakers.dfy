/** The fixed speaker table of the service: each room name with the address
    of its player, in the table's own order. */
module Speakers {
  import opened Bluos

  const Table: seq<(string, Addr)> := [
    ("dining-room", "192.168.68.53"),
    ("living-room", "192.168.68.64"),
    ("kitchen", "192.168.68.60"),
    ("office", "192.168.68.56")
  ]

  /** The room whose player has the turntable attached. */
  const TurntableRoom: string := "dining-room"

  predicate Distinct<T(==)>(s: seq<T>) {
    forall i, j :: 0 <= i < j < |s| ==> s[i] != s[j]
  }

  /** The room names, in table order. */
  function Names(): (r: seq<string>)
    ensures |r| == |Table|
    ensures forall i :: 0 <= i < |r| ==> r[i] == Table[i].0
    ensures Distinct(r) && TurntableRoom in r
  {
    [Table[0].0, Table[1].0, Table[2].0, Table[3].0]
  }

  /** The player addresses, in table order (`list(SPEAKERS.values())`). */
  function Addresses(): (r: seq<Addr>)
    ensures |r| == |Table|
    ensures forall i :: 0 <= i < |r| ==> r[i] == Table[i].1
    ensures Distinct(r) && forall a :: a in r ==> a != ""
  {
    [Table[0].1, Table[1].1, Table[2].1, Table[3].1]
  }

  /** The address a room name stands for, if it is in the table. */
  function Lookup(name: string): (r: Option<Addr>)
    ensures r.Some? <==> name in Names()
    ensures r.Some? ==> (name, r.value) in Table && r.value in Addresses()
  {
    if name == Table[0].0 then Some(Table[0].1)
    else if name == Table[1].0 then Some(Table[1].1)
    else if name == Table[2].0 then Some(Table[2].1)
    else if name == Table[3].0 then Some(Table[3].1)
    else None
  }

  /** The address of the turntable's player (`SPEAKERS["dining-room"]`). */
  function TurntableAddress(): (r: Addr)
    ensures r in Addresses() && Lookup(TurntableRoom) == Some(r)
  {
    Lookup(TurntableRoom).value
  }
}
