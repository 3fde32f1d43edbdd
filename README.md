# lunasync watch-party engine in Dafny

lunasync lets a group watch the same YouTube playlist together. A stream
holds a playlist, the playing/stopped state and a play position, a chat with
nicks, a moderator mute list and at most one poll. Each browser holds a
websocket to the node server. The controller, who knows the stream's
secret, drives playback and polls, and every other viewer follows.

This project models that engine and proves properties of it:

- `Streams` (stream.dfy): the stream object of `server/stream.js`.
  - A `Stream` class with the source's fields and its attached `clients`.
  - Polls, votes, mute/unmute, playlist, title, CSS, shuffle, play/stop/cue.
  - Save and load (`toJSON` / `new _Stream`), the stream store, and the
    title extraction from a fetched page.
- `Accounts` (accounts.dfy): the email → nick and nick → account registry
  of `server/accounts.js`.
- `Dispatch` (client.dfy): the per-connection packet handler of
  `server/client.js` on top of `Streams`, with its chat commands.
- `Monolith` (server.dfy): the older single-file server `server/server.js`.
  - It keeps plain stream and client records in module-level lists.
  - It fans packets out by filtering that list.
- `Browser` (lunasync.dfy): the plain logic of the page script
  `htdocs/lunasync.js`.
  - The `getVideoID` URL parser.
  - The controller's reaction to player state changes.
  - The `state` updates that incoming packets make.
- `Chart` (chart.dfy): the segment partition of the pie chart in
  `htdocs/chart.js`.
- Helper modules `Wrappers`, `Text`, `Base36`, `JsArray` and `Protocol` give
  JavaScript's meaning to the following:
  - `toLowerCase`, `indexOf`, `split`, `join`;
  - `parseInt(s, 36)` and `toString(36)`;
  - `splice(indexOf(x), 1)` and `_.without`;
  - the packet shapes.

How the model is built:

- Packets a handler sends are returned as an ordered list of envelopes
  (recipient, message).
- What happens to the connection is a `Status`:
  - `Open`;
  - `Closed` after an error reply;
  - `Crashed(reason)` when the node process would die of an uncaught
    exception.
- The clock is a parameter `now: real`, since `secs()` is fractional
  seconds.
- Web lookups are parameters whose result the caller supplies:
  - `fetched` for the `<title>` of a video page;
  - `verified` for the email Persona confirms.

Behaviour kept as the code has it, even where the comments intend otherwise:

- In `server/client.js`:
  - `set_stream` with an id reads the undefined `streams`, which crashes.
  - `set_nick` past its two checks reads the undefined `accounts`, which
    crashes.
  - `/poll` with too few options calls an undefined `send`.
  - `stop` calls `stream.play`.
  - `add_url` passes the id as the video type.
  - `leave` reads `this.chat_nick` inside a sloppy-mode callback, so it
    sends no nick.
- Unknown and forbidden commands answer with a text that concatenates the
  packet object (`[object Object]`).
- In `server/server.js`, `stream` and `id` are implicit globals.
  - `re_sync` reports the stream of whichever connection last did
    `set_stream`, and crashes when there is none.
- `server/server.js` has no `vote` case, so a `vote` packet gets
  `unknown_packet_type`.
- `getByNick` throws only for an empty nick.
- `cue` does not check its index.
- The browser treats the re-sync reply as `play`, whatever its `playing`
  field says.

## Model

| member | source | states |
|---|---|---|
| Text.Lower | server/accounts.js:69-71 | `toLowerCase` maps each character, ASCII letters to lower case, and keeps the length |
| Text.LowerIdempotent | server/accounts.js:88-90 | lowercasing a nick that was already lowercased changes nothing, so `getByNick` may lowercase twice |
| Text.IndexOf | server/client.js:62 | `indexOf(pat, from)` is the first position at or after `from` where `pat` occurs, or -1 when there is none |
| Text.Split | server/client.js:26 | `split(',')` gives at least one piece, and no piece contains the separator |
| Text.SplitStep | server/client.js:26 | a string holding the separator splits into the text before its first occurrence, then the pieces of the rest |
| Text.JoinStep | server/client.js:26 | joining two or more pieces gives the first, the separator, then the join of the others |
| Text.JoinSplit | server/client.js:26 | joining the pieces of a split with the separator gives back the original string |
| Text.Decimal | server/client.js:118 | a count is printed as a non-empty run of decimal digits |
| Text.DecimalValue | server/client.js:118 | the digits `String(n)` prints denote `n`, with no leading zero |
| Base36.ToBase36 | server/stream.js:602 | `n.toString(36)` is a non-empty string of base-36 digits with no leading zero |
| Base36.TrimStart | server/stream.js:626 | `parseInt` skips leading white space: the result is a suffix that starts with no space |
| Base36.DigitRun | server/stream.js:626 | `parseInt` reads the longest digit prefix: all digits up to the first non-digit |
| Base36.DigitRunAll | server/stream.js:626 | a string made only of digits is read to its end |
| Base36.ValueOfToBase36 | server/stream.js:602 | the digits written for `n` have the value `n` |
| Base36.ParseToBase36 | server/stream.js:624-628 | `parseInt(n.toString(36), 36)` is `n`: a stream id leads back to its index |
| Base36.ToBase36Injective | server/stream.js:602 | two different indexes never get the same id |
| JsArray.IndexOf | server/stream.js:154 | `indexOf` is -1 exactly when the item is absent; otherwise it is the first position holding it |
| JsArray.SpliceOne | server/stream.js:178 | `splice(k, 1)` removes exactly the element at `k`, or at the length plus `k` for a negative `k` (the first one when that is still negative), keeping the rest in order; a `k` past the end removes nothing |
| JsArray.SpliceFound | server/stream.js:178 | `splice(indexOf(x), 1)` on a list holding `x` removes one `x`; in a list without repeats, `x` is gone and the rest stays distinct |
| JsArray.RemoveAtMultiset | server/stream.js:178 | removing position `k` takes exactly one copy of that element out |
| JsArray.RemoveAtDistinct | server/stream.js:178 | in a list without repeats, removing position `k` removes that element entirely and leaves the rest without repeats |
| JsArray.SpliceMissing | server/client.js:502 | `splice(indexOf(x), 1)` with `x` absent removes the last element instead |
| JsArray.Without | server/stream.js:413 | `_.without(xs, x)` keeps every other element and no `x`, and is the list itself when `x` is absent |
| JsArray.WithoutCons | server/stream.js:413 | the head survives `_.without` exactly when it is not the removed value |
| JsArray.WithoutConcat | server/stream.js:413 | `_.without` works piece by piece over a concatenation, so the surviving elements keep their order |
| JsArray.WithoutOne | server/stream.js:413 | a single element survives exactly when it is not the removed value |
| Protocol.Fanout | server/stream.js:433-440 | a broadcast sends the message once to each client, in list order |
| Protocol.Fanout2 | server/stream.js:286-299 | a two-packet broadcast sends each client its two packets, in order |
| Protocol.FanoutExceptRecipients | server/stream.js:532-539 | play/stop reach every attached client except the origin, and only those |
| Protocol.FanoutOncePerRecipient | server/stream.js:161-166 | in a list without repeats each client gets a broadcast exactly once |
| Streams.Client.constructor | server/client.js:460-469 | a new client has control exactly when its secret equals the stream's, and starts with no nick, email or vote, unmuted and with no prefix |
| Streams.RoundTrip | server/stream.js:96-129 | saving and loading keeps every field except three: `shuffle` comes back false, a time of 0 becomes null, a `timeFrom` of 0 becomes the load time |
| Streams.ShuffleLost | server/stream.js:114-129 | a shuffled stream does not survive saving and loading |
| Streams.EncodeFixed | server/stream.js:114-129 | `toJSON` with the flag under the `shuffle` key the loader reads, all other keys as written |
| Streams.RoundTripFixed | server/stream.js:96-111 | with the corrected key the shuffle flag survives a save and load |
| Streams.FindByNick | server/stream.js:201-218 | `_.find` by nick, ignoring case, returns the first client whose nick matches, or nothing when none does |
| Streams.PollUpdates | server/stream.js:340-347 | after a vote every client gets the poll together with its own vote |
| Streams.FreshOptions | server/stream.js:247-253 | the loop builds a poll whose keys are exactly the given options other than `__proto__`, each with no votes |
| Streams.Viewed | server/stream.js:581-582 | cueing an entry raises its view count by one (a missing count counts as 0) and changes nothing else |
| Streams.NoCloseInsideOpen | server/stream.js:74-76 | no `</title>` starts inside an occurrence of `<title>` |
| Streams.ExtractTitle | server/stream.js:74-87 | the title is the text between the first `<title>` and the first `</title>` after it; none when either tag is missing; `server/server.js` extracts titles the same way |
| Streams.Stream.Load | server/stream.js:96-111 | a loaded stream holds the decoded fields and no clients |
| Streams.Stream.GetByNick | server/stream.js:208-218 | throws exactly for an empty nick; otherwise it returns an attached client with that nick, or nothing when no client has it |
| Streams.Stream.Broadcast | server/stream.js:196-198 | `forEachClient(send)` sends the message to every attached client, in order |
| Streams.Stream.BroadcastExcept | server/stream.js:532-539 | sends to every attached client except the origin |
| Streams.Stream.AddClient | server/stream.js:151-168 | throws for an attached client; otherwise appends it, keeps the list free of repeats, and sends every client the new count, which is the list length |
| Streams.Stream.RemoveClient | server/stream.js:171-188 | throws for a client not in the list; otherwise the list is `splice(indexOf(c), 1)` of the old one, so exactly that client goes and the others keep their order, and the others get the new count |
| Streams.Stream.ClosePoll | server/stream.js:273-300 | throws without a poll; otherwise clears the poll and every vote, after which `getPoll` throws, and sends each client an empty poll followed by the results |
| Streams.Stream.OpenPoll | server/stream.js:239-270 | closes a running poll first; afterwards `getPoll` succeeds, every client's `hasVoted` is false, and each client gets the poll and an `opened` line; `hasPollOption(o)` answers exactly whether `o` is a given option (never `__proto__`), except that an option named `hasOwnProperty` makes every later `hasPollOption` throw |
| Streams.Stream.Vote | server/stream.js:324-348 | throws `no poll` when `getPoll` would, `already voted` when `hasVoted` is true, the `TypeError` of a shadowed `hasOwnProperty` when `hasPollOption` throws, and `no such option` when it is false, changing nothing; otherwise appends the nick to that option, after which `hasVoted` is true, and sends the poll to everyone |
| Streams.Stream.ResetVotesAndSend | server/stream.js:258-299 | every attached client's vote is cleared and each client gets the two packets, in list order |
| Streams.Stream.SendPollUpdates | server/stream.js:340-347 | each attached client gets the poll with its own vote, in list order |
| Streams.Stream.OnJoinChat | server/stream.js:132-148 | with a poll running, a nick found among an option's votes gets that option as its vote, and otherwise the vote stays as it was; the client gets the poll with that vote |
| Streams.Stream.MuteClient | server/stream.js:356-390 | throws for a client that is not attached, not in chat, or in control; an already-muted nick changes nothing; otherwise the nick is appended to the mute list, marked `~` and announced |
| Streams.Stream.UnmuteClient | server/stream.js:393-425 | throws for a client that is not attached or not in chat; otherwise all copies of the nick leave the mute list, the prefix is cleared and the change is announced |
| Streams.Stream.UpdatePlaylist | server/stream.js:428-442 | replaces playlist and current, leaves every other field as it was, and broadcasts both |
| Streams.Stream.ChangeTitle | server/stream.js:445-458 | sets the title, leaves every other field as it was, and broadcasts it with the changer's nick |
| Streams.Stream.ChangeCSS | server/stream.js:461-474 | sets the CSS and broadcasts it |
| Streams.Stream.ChangeShuffle | server/stream.js:477-489 | sets the shuffle flag and broadcasts it |
| Streams.Stream.AddVideo | server/stream.js:492-523 | appends one entry with the type, the id, 0 views and the fetched title (only `youtube` and `twitch` get one) or `type: id`, leaves every other field, and sends everyone the new playlist |
| Streams.Stream.Play | server/stream.js:526-542 | playing, with the position `t` from now on: the relative time at any later instant is `t` plus the time elapsed; no other field changes; everyone but the origin is told |
| Streams.Stream.Stop | server/stream.js:545-561 | stopped at `t`, with the same clock and broadcast rule as play |
| Streams.Stream.Cue | server/stream.js:564-595 | plays from 0 at the new index and broadcasts the cue; only a valid index gets a view and a playlist update; no other field changes |
| Streams.FanoutExceptSnoc | server/stream.js:532-539 | a broadcast to one more client adds at most that client's packet at the end |
| Streams.Fanout2Snoc | server/stream.js:286-299 | a two-packet broadcast to one more client adds that client's pair at the end |
| Streams.FanoutExceptStep | server/stream.js:532-539 | one more loop step adds the client's packet unless it is the origin |
| Streams.Fanout2Step | server/stream.js:286-299 | one more loop step adds that client's two packets |
| Streams.Store.constructor | server/stream.js:7 | a new store is empty and consistent |
| Streams.Store.Get | server/stream.js:636-641 | `Stream.get` throws exactly for an id that names no stream; otherwise it returns the stream at the id's base-36 index |
| Streams.Store.NewStream | server/stream.js:598-616 | the new stream's id is the old stream count in base 36, it has the given title and secret and default fields, and it is appended |
| Streams.GetById | server/stream.js:624-641 | every stored stream is found again by its own id |
| Accounts.Registry.constructor | server/accounts.js:7 | an empty registry is consistent |
| Accounts.Registry.GetNick | server/accounts.js:74-79 | throws exactly for an unknown email; the nick it returns names that email's account |
| Accounts.Registry.GetByNick | server/accounts.js:88-94 | the lookup lowercases the nick and throws exactly when there is no account under it |
| Accounts.Registry.GetByEmail | server/accounts.js:81-86 | throws for an unknown email; in a consistent registry the account found has that email |
| Accounts.Registry.Add | server/accounts.js:96-109 | as written: throws when the email is registered or the EMAIL is an account nick; otherwise stores both entries |
| Accounts.Registry.AddChecked | server/accounts.js:96-109 | with the nick guard testing the nick, adding keeps the registry consistent |
| Accounts.NickLookupIgnoresCase | server/accounts.js:69-71 | nicks equal up to case find the same account |
| Accounts.AddKeepsConsistent | server/accounts.js:103-107 | a fresh email under a free nick keeps the two maps consistent |
| Accounts.AddOverwritesAccount | server/accounts.js:100-107 | a concrete registry where adding an existing nick (here upper-cased) passes the guard and hands an existing email to the new owner |
| Dispatch.ParseCommand | server/client.js:50-79 | not a command exactly when the text does not start with `/`; otherwise the name up to the first space and the rest as arguments |
| Dispatch.CanUseCommand | server/client.js:87-92 | throws for an unknown command; otherwise allowed when the command is open to all or the client has control |
| Dispatch.CommandGating | server/client.js:7-47 | `stats` is open to everyone, `poll` and `closepoll` need control, and nothing else exists |
| Dispatch.ChatNicks | server/client.js:109-115 | the greeting's user list holds exactly the nicks of clients in chat |
| Dispatch.ChatNicksSnoc | server/client.js:109-115 | one more client adds its nick exactly when it is in chat |
| Dispatch.InChatSnoc | server/client.js:109-115 | one more client adds one chat position exactly when it has a nick |
| Dispatch.ChatNicksCount | server/client.js:109-115 | the user list has one nick per client in chat |
| Dispatch.GreetingCount | server/client.js:105-119 | the greeting's first line prints the number of clients in chat, then their nicks joined by `, ` |
| Dispatch.ActiveCount | server/client.js:12-16 | the active count is at most the number of streams |
| Dispatch.ActiveCountSnoc | server/client.js:12-16 | one more stream adds one exactly when it has viewers |
| Dispatch.Hub.constructor | server/client.js:5 | no clients are tracked at start |
| Dispatch.Hub.CountActive | server/client.js:10-16 | the stats loop counts the streams that have viewers |
| Dispatch.Hub.Connect | server/client.js:460-492 | the new client is tracked and attached; it gets `stream_info`, everyone gets the count, then it is greeted |
| Dispatch.Hub.Destroy | server/client.js:500-516 | stops tracking, announces an anonymous `leave` for chat members, and detaches the client by `splice(indexOf(c), 1)`, the others keeping their order; a client that is not attached crashes the process |
| Dispatch.Hub.RunCommand | server/client.js:7-103 | unknown or forbidden commands throw and change nothing; `stats` replies with the counts; `poll` with fewer than two options crashes, otherwise closes any running poll, opens the fresh one and sends it with the `opened` line; `closepoll` sends the closing packets and resets every vote, and does nothing without a poll |
| Dispatch.Hub.OnSay | server/client.js:292-330 | no nick closes the connection; plain text is relayed to everyone; unusable commands get the `[object Object]` reply; a usable command has the effect `RunCommand` states |
| Dispatch.Hub.OnVote | server/client.js:331-366 | each failed check sends its own error and closes, with nothing changed; a poll with a `hasOwnProperty` option crashes the process with its `TypeError`, sending nothing; otherwise, and only then, the vote is recorded and the poll sent to everyone |
| Dispatch.Hub.NickInUseOn | server/client.js:213-221 | the loop finds out whether a client on the stream already has the nick |
| Dispatch.Hub.OnAssert | server/client.js:197-247 | a failed assertion closes the connection; a verified email is stored; an unknown email gets `choose_nick`; a known account gets `nick_in_use` when a client on the stream holds its nick, and otherwise takes it and gets `nick_chosen`, then the running poll with the vote its nick holds there (as `onJoinChat` picks it), then everyone gets `join` |
| Dispatch.Hub.HandleFrame | server/client.js:139-451 | a binary or unparsable frame is kicked; gated packets from non-controllers get `not_control` and close; neither changes anything; a controller's gated packet has the effect `OnGatedPacket` states; every other packet the effect `OnUngatedPacket` states |
| Dispatch.Hub.OnGatedPacket | server/client.js:367-444 | a controller's playlist, title, `add_url`, `play`, `stop` and `cue` leave the client and its clients' votes alone, give the stream exactly the fields `GatedFields` computes, and send the matching packet; `stop` sends `play` |
| Dispatch.Hub.OnUngatedPacket | server/client.js:166-366 | `set_stream` with an id crashes and without one closes; `re_sync` resends the state; `assert`, `msg` and `vote` have the effects of their handlers; `set_nick` past its checks crashes; an unknown type gets `unknown_packet_type` and closes |
| Monolith.Connection.constructor | server/server.js:125 | a connection starts with no client record |
| Monolith.StreamRecord.constructor | server/server.js:86-97 | a new stream record has the title, id and secret and default fields |
| Monolith.ClientRecord.constructor | server/server.js:185-191 | a new client record has the stream, control flag and connection, and no nick or email |
| Monolith.Viewing | server/server.js:219-231 | the clients watching a stream are those in the list with that stream |
| Monolith.Others | server/server.js:486-493 | the other clients on a stream are those with that stream that are not the sender |
| Monolith.Conns | server/server.js:146-148 | one connection per record, in order |
| Monolith.Nicks | server/server.js:208-213 | the list holds exactly the records' chat nicks, and is no longer than the records |
| Monolith.ViewingSnoc | server/server.js:219-224 | one more record adds itself exactly when it watches the stream |
| Monolith.OthersSnoc | server/server.js:486-493 | one more record adds itself exactly when it is another viewer of the stream |
| Monolith.NicksSnoc | server/server.js:208-213 | one more record adds its nick when it has one |
| Monolith.FanoutConnsSnoc | server/server.js:225-231 | sending to one more record adds one packet to its connection |
| Monolith.SendToStreamStep | server/server.js:225-231 | one more loop step sends the packet to the record's connection exactly when it watches the stream |
| Monolith.SendToOthersStep | server/server.js:486-493 | one more loop step sends the packet exactly when the record is another viewer of the stream |
| Monolith.CountViewingStep | server/server.js:219-224 | one more loop step counts the record exactly when it watches the stream |
| Monolith.ChatNicksStep | server/server.js:207-213 | one more loop step adds the record's nick exactly when it watches the stream and is in chat |
| Monolith.Server.constructor | server/server.js:124-125 | the server starts with no streams, clients or accounts |
| Monolith.Server.NewStream | server/server.js:86-98 | the new stream's id is the old count in base 36 and it is appended |
| Monolith.Server.Lookup | server/server.js:178-181 | `parseInt(id, 36)` must name an index of the stream list |
| Monolith.Server.CountViewing | server/server.js:219-224 | the viewer count is the number of clients on the stream |
| Monolith.Server.SendToStream | server/server.js:225-231 | each client on the stream gets the packet, in list order |
| Monolith.Server.SendToOthers | server/server.js:486-493 | each other client on the stream gets the packet |
| Monolith.Server.ChatNicksOn | server/server.js:207-213 | the user list is the nicks of the stream's clients in chat, in order |
| Monolith.Server.ActiveStreams | server/server.js:363-368 | `/stats` collects each stream some client watches, once |
| Monolith.Server.NickTaken | server/server.js:272-280 | the loop finds out whether a client on the same stream has the nick |
| Monolith.Server.OnSetStream | server/server.js:177-248 | no id: `bad_request` and close; unknown id: `not_found` and close; otherwise a tracked record with control iff the secret matches, then `stream_info` without the secret, the user list and the viewer count |
| Monolith.Server.Welcome | server/server.js:193-232 | the loops build the welcome: the stream's state to the new connection, the user list of the stream's clients, then the viewer count to each of them |
| Monolith.Server.OnAssert | server/server.js:256-305 | a failed assertion closes; a verified email is stored; a known account takes its nick unless it is in use; an email whose nick has no account (a loaded accounts file whose two maps disagree) crashes with `account is undefined`, sending nothing; otherwise `choose_nick` |
| Monolith.Server.OnSetNick | server/server.js:306-352 | a bad nick or a missing login closes; a taken nick asks again; otherwise both maps and the nick are set, and `nick_chosen` and `join` are sent |
| Monolith.Server.OnMsg | server/server.js:353-386 | no nick closes; `/stats` counts the streams, the distinct watched streams and the clients; anything else is relayed to the stream |
| Monolith.Server.OnControl | server/server.js:387-542 | a controller's playlist, title, `add_url`, `play`, `stop` and `cue` each set exactly their own fields, every other field of the record staying as it was (`stop` keeps `timeFrom`, the playlist changes only for `update_playlist` and `add_url`), and are sent to the stream's viewers (`play`/`stop` to the others only) |
| Monolith.Server.HandleMessage | server/server.js:150-549 | binary or unparsable frames are kicked with nothing changed; every parsed packet meets its arm's whole contract (`PacketDone`): the `set_stream`, `re_sync`, chat and gated arms below, and `unknown_packet_type` for unknown types and `vote`, each stating `out`, the status and every list, map and record it may touch |
| Monolith.Server.OnReSync | server/server.js:249-255 | answers `play` from the last `set_stream` of any connection, with the time advanced by the seconds since `timeFrom`; before any `set_stream` the process crashes; nothing changes |
| Monolith.Server.OnSetStreamPacket | server/server.js:177-248 | the `set_stream` arm: a missing id is `bad_request`, an unknown one `not_found`, and only a known id keeps the connection open; `out`, the new record and the client list are exactly those of OnSetStream, the stream list and accounts stay, and a replaced record is left untouched |
| Monolith.Server.OnChatPacket | server/server.js:256-386 | on a connection with no client record, a failed assertion and a bad nick close and every other case throws, with nothing changed; otherwise `assert`, `set_nick` and `msg` meet the whole contracts of OnAssert, OnSetNick and OnMsg, and the stream and the lists stay |
| Monolith.Server.OnGated | server/server.js:387-542 | a gated packet throws on a null `client` and closes for a non-controller with the stream unchanged; a controller's packet keeps the connection open and meets OnControl's whole contract, the lists and accounts staying |
| Monolith.Server.OnClose | server/server.js:552-586 | the record is spliced out, `leave` goes to the stream for chat members, then the new viewer count |
| Monolith.DistinctCard | server/server.js:363-368 | a list without repeats has as many elements as its set |
| Monolith.LookupById | server/server.js:178-182 | every stream is found again by its own id |
| Monolith.CloseDropsOne | server/server.js:555 | closing drops exactly the closed record from a list without repeats |
| Browser.Stripped | htdocs/lunasync.js:475-484 | no scheme gives nothing; otherwise the rest after `http://` or `https://` and an optional `www.` |
| Browser.WatchParam | htdocs/lunasync.js:487-500 | `false` exactly when the query has no `v=`; otherwise the `&`-free text after the first `v=`, ending at `&` or the end |
| Browser.GetVideoID | htdocs/lunasync.js:472-502 | `false` without a scheme; a `youtu.be/` rest verbatim; a watch query's `v`; `undefined` exactly for any other host |
| Browser.SchemeStripped | htdocs/lunasync.js:475-484 | the scheme comes off a URL built from it, then a leading `www.` |
| Browser.WwwDropped | htdocs/lunasync.js:482-484 | a `www.` put before a host that has none comes off again |
| Browser.StrippedBuilt | htdocs/lunasync.js:475-484 | the scheme and optional `www.` come off a URL built from them |
| Browser.ShortLinkId | htdocs/lunasync.js:485-486 | a short link built from any id parses back to that id |
| Browser.WatchParamAt | htdocs/lunasync.js:487-500 | a query whose first `v=` is followed by an `&`-free id ending at `&` or the end gives that id |
| Browser.WatchUrlShape | htdocs/lunasync.js:472-502 | a watch URL built from its parts is the scheme, `www.`, `youtube.com/watch?` and the query |
| Browser.WatchParamBuilt | htdocs/lunasync.js:489-497 | a query with no earlier `v=` gives back the `&`-free id after `v=` |
| Browser.WatchLinkId | htdocs/lunasync.js:472-502 | a full watch URL built from an id, with any trailing `&` parameters, parses back to that id |
| Browser.NextIndex | htdocs/lunasync.js:159-166 | the next index is `current + 1` or 0, and below the length unless it is 0 |
| Browser.NextIndexWraps | htdocs/lunasync.js:159-166 | from a valid index the next index is the successor modulo the length |
| Browser.NextIndexInRange | htdocs/lunasync.js:159-166 | for a non-empty playlist the next index is valid, also for a null `current` |
| Browser.Viewer.constructor | htdocs/lunasync.js:9-13 | the page starts stopped, with no index, no playlist and no control |
| Browser.Viewer.OnStateChange | htdocs/lunasync.js:137-182 | only a controller reports; pause is reported only while playing and play only while stopped; an ended video cues the next index and plays it |
| Browser.Viewer.OnMessage | htdocs/lunasync.js:207-444 | `stream_info` takes the stream's state and grants control; `update_playlist` keeps `current`; `cue` plays and sets `current`; `play` and `stop` set `playing` |
| Browser.Viewer.ApplyStream | htdocs/lunasync.js:214-238 | the state copied from `stream_info`; control is granted only when the video load does not throw |
| Chart.Turn | htdocs/chart.js:51-67 | a rotation is NaN exactly when the half total is 0 |
| Chart.Create | htdocs/chart.js:30-76 | the two loops build exactly the lists `List1` and `List2` that placing the items one by one gives, whose shape `PartitionShape` states; no items give no segments |
| Chart.SumSizes | htdocs/chart.js:36-38 | the first loop's total is the sum of all the sizes |
| Chart.PlaceItem | htdocs/chart.js:45-74 | one pass adds to half 1 the item's segment when it starts before the midpoint, and to half 2 the dummy when it also ends past it, or else the item's own half-2 segment |
| Chart.RunningMonotone | htdocs/chart.js:44-75 | the running total never decreases |
| Chart.CutFromSpec | htdocs/chart.js:49 | the items before the cut start before the midpoint and the item at the cut does not |
| Chart.FirstHalfIsPrefix | htdocs/chart.js:49 | an item goes in half 1 exactly when it comes before the cut |
| Chart.OnlyLastCrosses | htdocs/chart.js:56-63 | only the last half-1 item can span the midpoint |
| Chart.DummyFor | htdocs/chart.js:56-63 | the last half-1 item adds at most one segment to half 2 |
| Chart.DummyForCrossing | htdocs/chart.js:56-63 | that segment is the unlabelled dummy, present exactly when the last half-1 item spans the midpoint |
| Chart.Firsts | htdocs/chart.js:50-54 | the half-1 segments of the leading items, one per item, in order |
| Chart.Seconds | htdocs/chart.js:66-70 | the half-2 segments of the remaining items, one per item, in order |
| Chart.FirstsAt | htdocs/chart.js:50-54 | position `i` of the half-1 list is item `i`'s segment |
| Chart.SecondsAt | htdocs/chart.js:66-70 | position `j` of the half-2 run is the segment of the `j`-th item after the cut |
| Chart.FirstPartAt | htdocs/chart.js:49-54 | an item before the cut adds its half-1 segment to half 1; any other item adds nothing |
| Chart.FirstStepBefore | htdocs/chart.js:44-54 | up to the cut, half 1 grows by each item's segment |
| Chart.FirstStepAfter | htdocs/chart.js:44-54 | past the cut, half 1 does not grow |
| Chart.SecondBeforeCut | htdocs/chart.js:56-63 | a half-1 item other than the last adds nothing to half 2 |
| Chart.SecondAfterCut | htdocs/chart.js:65-70 | an item from the cut on adds its own segment to half 2 |
| Chart.SecondStepBefore | htdocs/chart.js:44-75 | before the cut, half 2 stays empty |
| Chart.SecondStepAt | htdocs/chart.js:44-75 | at the cut, half 2 holds just the dummy, if any |
| Chart.SecondStepAfter | htdocs/chart.js:44-75 | past the cut, half 2 grows by each item's own segment |
| Chart.SecondStart | htdocs/chart.js:44-75 | with no item in half 1, there is no dummy |
| Chart.FirstListUpTo | htdocs/chart.js:44-75 | after `n` items the first list holds the half-1 segments of those before the cut |
| Chart.SecondListUpTo | htdocs/chart.js:44-75 | after `n` items the second list is empty before the cut, then the dummy followed by the half-2 segments |
| Chart.PartitionShape | htdocs/chart.js:34-76 | half 1 is one labelled segment per leading item; half 2 is at most one dummy and then one labelled segment per remaining item, each in input order |
| Chart.OneSegmentPerItem | htdocs/chart.js:44-75 | the two halves hold one segment per item plus the dummy, if any |

## Left out

- HTTP: the `/new` endpoint's framing, CORS, origin checks and websocket accept are not modelled. `NewStream` models only the record it creates.
- JSON parsing: a frame is an already-parsed packet, or `None` when it does not parse.
- Persistence: `loadStreams`, `saveStreams`, `loadAccounts` and `saveAccounts` touch the file system. Only the object mapping (`Encode`/`Decode`) is modelled.
- Persona and the title fetch: these network calls are not modelled. Their answers are the `verified` and `fetched` parameters.
- Callback timing: the reply is treated as arriving before the next packet, so replies interleaving with other packets is not modelled.
- Secrets: `generateSecret`'s randomness is not modelled; the secret is a parameter.
- Streams.ExtractTitle: HTML entity decoding (`entities.decode`) is not modelled; the title is returned raw.
- Text.Lower: lower-cases ASCII letters only, unlike JavaScript's full Unicode lower-casing.
- Nick check: the `set_nick` regular expression is modelled by its character class and its 3 to 18 length bounds.
- Clock: `secs()` is the parameter `now`. Floating-point rounding of times and chart rotations is not modelled (real arithmetic).
- Streams.Stream.OnJoinChat: `Object.keys` order is not modelled. When a nick appears under several options, the model picks one of them, while the source keeps the last.
- DOM work in the browser: rendering, `updatePlaylist` display, the chat log, alerts and page routing are not modelled. The player calls are reduced to whether they throw.
- The `rm-button` removal loop of htdocs/lunasync.js is not modelled. It depends on DOM selection state.
- `makeHalf` and the CSS transform strings of htdocs/chart.js are not modelled.
- `console.log` output is not modelled.
- Accounts.Registry and Monolith.Server.OnSetNick: the nick `__proto__` (it passes the nick check) is treated as an ordinary key. In the JavaScript dictionaries `hasOwnProperty("__proto__")` is false, and assigning to that key makes the account object the dictionary's prototype instead of an own entry; the email entry is written as usual. The model differs as follows.
  - In `server/accounts.js`, `haveNick` and `getByNick` still report no such account, where the model finds it.
  - In `server/server.js`, the nick check lets a second `__proto__` nick through again, where the model calls it taken.
  - A later `assert` in `server/server.js` reads the prototype object itself, which agrees with the model's account until the accounts are saved. `JSON.stringify` drops the prototype, so after a restart that lookup yields `Object.prototype`. Its `nick` is undefined, and `assert` goes on without crashing. Loading the saved files is not part of this model.
  - Poll options do model the key: `Streams.FreshOptions` skips it.
- Chart.Create: item sizes are natural numbers (`nat`); fractional or negative sizes are not modelled.

## Findings

| source | as written | input that shows it | evidently intended | confidence | as-written member | corrected member |
|---|---|---|---|---|---|---|
| server/accounts.js:100 | `add` tests `haveNick(email)` instead of the nick, so any existing nick, in any casing, passes the guard | registry {a@x → bob, bob → (a@x, Bob)}, then `add("c@x", "BOB")`: a@x now resolves to c@x's account | `add` tests `haveNick(nick)` and keeps the two maps consistent | high (not executed) | Accounts.AddOverwritesAccount | Accounts.AddKeepsConsistent |
| server/stream.js:124 | `toJSON` writes the shuffle flag under `suffle`, while the loader reads `shuffle` | any stream with `shuffle == true`, saved and loaded | the key is `shuffle`, so the flag survives a restart | high (not executed) | Streams.ShuffleLost | Streams.RoundTripFixed |
