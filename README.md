# bluctl grouping core, in Dafny

bluctl is a small HTTP service that groups a fixed set of four BluOS speakers.
On request it does one of two things:

- `ungroup_all` makes every speaker standalone.
- `activate_vinyl` ungroups every speaker, then groups the other three under a
  chosen main speaker. When the main speaker is the dining-room player, which
  has the turntable, it also switches that player to its "Record Player"
  capture input.

The `/group` handler checks the requested room name against the speaker table
before it sends anything to a device.

The model has four modules:

- `Bluos` (bluos.dfy) holds the device side.
  - It defines the documents a player reports: its SyncStatus with `master`,
    `slave` ids and `group`, its capture inputs, and its Status `state`.
  - It defines the requests the service sends.
  - Class `Zone` holds the players of the zone in a `players` map, one method
    per endpoint. A host that is not a key of the map does not answer, and a
    call to it fails.
  - RemoveSlave and AddSlave change the map through `Unlink` and `Link`, which
    spell out what the model assumes these endpoints do on the device.
- `Speakers` (speakers.dfy) holds the speaker table: the room names, the player
  addresses in table order, name lookup, and the turntable room.
- `Topology` (topology.dfy) holds pure specification functions of the whole
  operations, and the lemmas that state what they promise.
  - `Ungroup` is the ungroup pass and `Group` is the AddSlave loop. Each gives
    a `Run`: the final zone, the exact list of calls issued in order, and
    whether every call reached its player.
  - `SelectInput` is the turntable step. It changes nothing, so it gives only
    the calls.
  - `Activate` is `activate_vinyl`. It gives an `Outcome`: the final zone, the
    calls, and the reported state and group, absent when a call failed.
- `Vinyl` (vinyl.dfy) holds the operations as imperative methods on a `Zone`.
  - Their loops follow the source's loops.
  - Each method is proved to leave the zone and issue the calls exactly as
    the matching `Topology` function says. Every lemma about those functions
    therefore holds of the methods.

The service's two loops, at `main.py:27-37` and `main.py:61-71`, are the same
code. Both are modelled by one method, `Vinyl.UngroupPass`, specified by
`Topology.Ungroup`.

## Model

| member | source | states |
|---|---|---|
| Speakers.Names | main.py:6-11 | the room names are the table's names in table order; they are distinct and include the turntable room "dining-room" |
| Speakers.Addresses | main.py:23 | the addresses are the table's values in table order; they are distinct and none is empty |
| Speakers.Lookup | main.py:78 | a name gives an address exactly when it is a room of the table, and that address is the one the table pairs with it |
| Speakers.TurntableAddress | main.py:44 | the turntable address is the configured address of "dining-room" |
| Bluos.Ids | main.py:34-36 | an address is named as a follower exactly when some `slave` entry carries it as a present, non-empty `id` |
| Bluos.Unlink | main.py:32 | RemoveSlave only removes relations: the host's list loses exactly the entries naming the slave; the slave's master is cleared if it was the host, and the slave is otherwise unchanged; nobody else changes and no other master name changes; with no relation at either end the zone is unchanged |
| Bluos.Link | main.py:41 | AddSlave leaves the host's list as it is when it already names the slave, and otherwise appends the slave after the ones it listed; the slave's master becomes the host; inputs, state and group are untouched; nobody else changes |
| Bluos.Zone.SyncStatusOf | main.py:28 | the SyncStatus read answers exactly when the host is reachable, and gives its current document |
| Bluos.Zone.RemoveSlave | main.py:32 | the call reaches its player exactly when the host is reachable, and then applies `Unlink`; otherwise nothing changes |
| Bluos.Zone.AddSlave | main.py:41 | the call reaches its player exactly when the host is reachable, and then applies `Link`; otherwise nothing changes |
| Bluos.Zone.RadioBrowse | main.py:45 | the capture-input listing answers exactly when the host is reachable, and gives its inputs |
| Bluos.Zone.Play | main.py:48 | Play reaches its player exactly when the host is reachable |
| Bluos.Zone.StatusOf | main.py:52 | the Status read answers exactly when the host is reachable, and gives its `state` |
| Topology.Release | main.py:34-37 | the follower loop always completes, only removes relations, and sends one RemoveSlave to the speaker per usable id, in document order |
| Topology.ReleaseClears | main.py:34-37 | after the follower loop the speaker lists none of the followers its snapshot named; with no usable id nothing changed |
| Topology.UngroupSpeaker | main.py:28-37 | one iteration only removes relations; it completes exactly when the speaker answers and so does the master its snapshot names |
| Topology.UngroupSpeakerCalls | main.py:28-37 | an iteration sends the read, then RemoveSlave to the named master, then (if that went through) one RemoveSlave per follower id, all decided by the one fresh snapshot |
| Topology.UngroupSpeakerAsksMaster | main.py:29-32 | an iteration starts with the read; when a master is named, the next call goes to that master, not to the speaker; only reads and RemoveSlave are sent |
| Topology.UngroupSpeakerIsolates | main.py:28-37 | a completed iteration leaves the speaker following nobody and leading nobody |
| Topology.UngroupSpeakerReadsOnce | main.py:28 | a completed iteration reads the speaker's SyncStatus exactly once |
| Topology.Ungroup | main.py:61-71 | the pass only removes relations, and it completes only if every visited speaker is reachable |
| Topology.UngroupOnlyRemoves | main.py:61-71 | the pass sends nothing but SyncStatus reads and RemoveSlave |
| Topology.UngroupConverges | main.py:61-71 | a completed pass leaves every visited speaker standalone, whatever the relations were before |
| Topology.UngroupSucceeds | main.py:61-71 | the pass completes exactly when every visited speaker answers and so does every master they name at the start |
| Topology.UngroupStandaloneIsNoop | main.py:61-71 | on speakers already standalone the pass only reads each SyncStatus once, in order, and changes nothing |
| Topology.UngroupIdempotent | main.py:57-73 | running the pass again right after it completed only reads and issues no mutation |
| Topology.UngroupClearsOneSidedRelation | main.py:29-32 | a relation recorded only by the follower's `master` is still cleared at both ends by a pass over both players |
| Topology.UngroupReadsEachOnce | main.py:61-62 | a completed pass reads every visited speaker's SyncStatus exactly once, in order |
| Topology.FollowerIps | main.py:24 | an address is a follower exactly when it is configured and is not the main speaker |
| Topology.FollowerIpsWithoutMain | main.py:24 | when the main speaker is not configured, every configured address is a follower, in order |
| Topology.FollowerIpsInOrder | main.py:23-24 | with distinct addresses the followers are the table with the main speaker's entry taken out: N - 1 addresses in table order |
| Topology.FollowerIpsDistinct | main.py:24 | the followers are distinct when the table is |
| Topology.Group | main.py:40-41 | the AddSlave loop always completes, sends exactly one AddSlave to the main speaker per follower in order, and keeps every player's inputs and state |
| Topology.GroupLeavesOthers | main.py:40-41 | grouping touches only the main speaker and the followers |
| Topology.GroupListsFollowers | main.py:40-41 | a main speaker following nobody still follows nobody, and lists the followers after what it listed before, in order |
| Topology.GroupSetsMaster | main.py:40-41 | every follower ends with the main speaker as master, and leads nobody if it led nobody before |
| Topology.FirstRecordPlayer | main.py:46-49 | gives the first input whose `text` is exactly "Record Player", or none when no input has that label |
| Topology.UrlParam | main.py:48 | the `url` sent to Play is the item's `URL` attribute, or the text "None" when the attribute is missing |
| Topology.SelectInput | main.py:43-49 | no call unless the main speaker is the turntable's player; otherwise RadioBrowse to it, followed by at most one Play to it, present exactly when some input is labelled "Record Player" |
| Topology.SelectInputCalls | main.py:43-49 | the turntable step sends one RadioBrowse and at most one Play, for the first "Record Player" input, both to the main speaker, and only when it is the turntable's player |
| Topology.Activate | main.py:21-54 | the operation gives a result exactly when the ungroup pass completes and the main speaker answers; the main speaker is then in the zone |
| Topology.ActivateBuildsStar | main.py:21-54 | after completion the configured speakers form a one-level star: the main speaker follows nobody and lists the N - 1 others in table order, and each of them follows it and leads nobody |
| Topology.ActivateAddsEachFollowerOnce | main.py:39-41 | the whole operation sends exactly one AddSlave per non-main speaker, in table order, each to the main speaker, and no other AddSlave |
| Topology.ActivateBrowsesTurntableOnce | main.py:44-45 | the operation lists capture inputs exactly once on the turntable's player, and never on another main speaker |
| Topology.ActivateSelectsRecordPlayer | main.py:46-49 | the operation plays the first "Record Player" input of the turntable's player, plays nothing when there is none, and plays nothing on another main speaker |
| Topology.ActivateReportsMain | main.py:52-54 | the operation ends by reading the main speaker's Status and then its SyncStatus, and reports the `state` and `group` they give |
| Topology.ActivateInputStepCalls | main.py:43-49 | only the turntable step sends RadioBrowse or Play, and the main speaker's inputs are still the ones it had at the start |
| Topology.ActivateSucceeds | main.py:21-54 | the operation completes exactly when the main speaker answers, every configured speaker answers, and so does every master they name at the start |
| Vinyl.ReleaseFollowers | main.py:34-37 | the follower loop leaves the zone and issues the calls exactly as `Topology.Release` says |
| Vinyl.UngroupSpeakerAt | main.py:28-37 | one iteration leaves the zone, issues the calls and stops exactly as `Topology.UngroupSpeaker` says |
| Vinyl.UngroupPass | main.py:61-71 | the ungroup loop leaves the zone, issues the calls and stops exactly as `Topology.Ungroup` says |
| Vinyl.UngroupAll | main.py:57-73 | `ungroup_all` runs the pass over the configured speakers; when it completes they are all standalone, and a second run would only read |
| Vinyl.GroupFollowers | main.py:40-41 | the AddSlave loop follows `Topology.Group`; when the main speaker does not answer, the first AddSlave fails and nothing changes |
| Vinyl.SelectRecordPlayer | main.py:43-49 | the turntable step issues exactly the calls of `Topology.SelectInput` and changes nothing; it fails only when the turntable's player does not answer |
| Vinyl.ActivateVinyl | main.py:21-54 | `activate_vinyl` leaves the zone, issues the calls and reports exactly as `Topology.Activate` says; after completion on a configured speaker the speakers form the star |
| Vinyl.RequestedRoom | main.py:77 | the room is the `speaker` query parameter, or "dining-room" when it is absent |
| Vinyl.GroupTarget | main.py:77-82 | a room of the table gives its configured address; any other name gives "Unknown speaker: " followed by the name, and the list of valid rooms; no parameter gives the turntable's address |
| Vinyl.HandleGroup | main.py:76-84 | an unknown room is refused with the error and the valid rooms, before any device call and with the zone unchanged; a known room runs `activate_vinyl` on its address |
| Vinyl.HandleUngroup | main.py:87-89 | /ungroup runs `ungroup_all` and answers "ungrouped" when it completes |

## Left out

- HTTP: the aiohttp application, its routes, the port, `handle_health`, `on_startup`, `on_cleanup` and `create_app` are not modelled. The two handlers are methods of module `Vinyl` that take the `Zone` as a parameter.
- Request and URL text: the model keeps calls as structured `Call` values, and the `port=11000` query part is not modelled.
- XML: documents are modelled already parsed. A body that is not well-formed XML raises in the source; that failure is not modelled.
- Unreachable hosts: a player that does not answer is a host outside the `players` map, and the set of reachable hosts does not change during an operation. Timeouts and transient failures are not modelled.
- Device behaviour: what RemoveSlave and AddSlave do on a real player is outside the service. `Bluos.Unlink` and `Bluos.Link` state the model's assumption about it.
- Play: the model does not say what Play does to the player's playback. The `state` and `group` values are opaque strings that no call changes.
- Concurrency: the source is `async` but awaits every call in turn. The model is sequential, and other clients changing the zone during an operation are not modelled.
- Failures: every call is awaited without a handler, so the first call that does not reach its player ends the operation in every phase, including the AddSlave loop and the input selection; no failure list is kept. The model reproduces this: the result is `None`, and the handler answers `ServerError`.
