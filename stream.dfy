/**
 * The watch-session engine (server/stream.js): one `Stream` per watch party,
 * its attached clients, playback, playlist, polls and muting, its JSON form,
 * and the store that numbers streams by base-36 index.
 *
 * Every operation that sends packets returns them, in send order, as `out`;
 * an operation that throws returns `Threw` and changes nothing. The clock
 * (`secs()`) is the parameter `now`. Saving to disk is not modelled.
 */
module Streams {
  import opened Wrappers
  import opened Protocol
  import opened Text
  import opened JsArray
  import Base36

  /** The errors the stream and store throw. */
  datatype Failure =
    | ClientAlreadyInList
    | ClientNotInList
    | NoSuchNick(nick: string)
    | NoPollRunning
    | ClientAlreadyVoted
    | NoSuchPollOption(option: string)
    | HasOwnPropertyShadowed
    | NotAttached
    | ClientNotInChat
    | ControllerCannotBeMuted
    | NoSuchStream(id: string)

  datatype Outcome = Done | Threw(failure: Failure)

  datatype Result<T> = Ok(value: T) | Err(failure: Failure)

  type Outbox = seq<Envelope<Client>>

  /** One viewer's connection as the stream sees it (the fields of server/client.js's `Client`). */
  class Client {
    const stream: Stream
    const control: bool
    var nick: Option<string>
    var email: Option<string>
    var pollVote: Option<string>
    var muted: bool
    var prefix: string

    /** `new Client(conn, stream, secret)`'s field set-up: control iff the secret matches. */
    constructor (stream: Stream, secret: Option<string>)
      ensures this.stream == stream
      ensures control <==> secret == Some(stream.secret)
      ensures nick == None && email == None && pollVote == None
      ensures !muted && prefix == ""
    {
      this.stream := stream;
      control := secret == Some(stream.secret);
      nick := None;
      email := None;
      pollVote := None;
      muted := false;
      prefix := "";
    }
  }

  /** The persisted fields of a stream: everything but the attached clients. */
  datatype Fields = Fields(
    title: string, id: string, secret: string, css: string, playing: bool,
    current: Option<int>, time: Option<real>, playlist: seq<Video>, shuffle: bool,
    timeFrom: real, currentPoll: Option<Poll>, mutedClients: seq<string>)

  /**
   * A stream as a JSON object, key by key; none where the key is absent or
   * null. Both `shuffle` (the key the loader reads) and `suffle` (the key the
   * writer writes) are here.
   */
  datatype StreamObj = StreamObj(
    title: string, id: string, secret: string, css: Option<string>,
    playing: Option<bool>, current: Option<int>, time: Option<real>,
    playlist: Option<seq<Video>>, shuffle: Option<bool>, suffle: Option<bool>,
    timeFrom: Option<real>, currentPoll: Option<Poll>, mutedClients: Option<seq<string>>)

  /** `_Stream.prototype.toJSON`. */
  function Encode(f: Fields): StreamObj {
    StreamObj(f.title, f.id, f.secret, Some(f.css), Some(f.playing), f.current, f.time,
              Some(f.playlist), None, Some(f.shuffle), Some(f.timeFrom), f.currentPoll,
              Some(f.mutedClients))
  }

  /** What `new _Stream(obj)` reads from `obj`, with JavaScript's `||` defaults (a 0 is falsy). */
  function Decode(o: StreamObj, now: real): Fields {
    Fields(o.title, o.id, o.secret, o.css.GetOr(""), o.playing.GetOr(false),
           o.current,
           if o.time == Some(0.0) then None else o.time,
           o.playlist.GetOr([]), o.shuffle.GetOr(false),
           if o.timeFrom.None? || o.timeFrom == Some(0.0) then now else o.timeFrom.value,
           o.currentPoll, o.mutedClients.GetOr([]))
  }

  /**
   * Saving and reloading a stream keeps every field except three: `shuffle`
   * comes back false (it was written under `suffle`), a time of 0 comes back
   * null, and a `timeFrom` of 0 is replaced by the load time.
   */
  lemma RoundTrip(f: Fields, now: real)
    ensures Decode(Encode(f), now) == f.(shuffle := false,
                                         time := if f.time == Some(0.0) then None else f.time,
                                         timeFrom := if f.timeFrom == 0.0 then now else f.timeFrom)
  {
  }

  /** A shuffled stream is saved as unshuffled, whatever else it holds. */
  lemma ShuffleLost(f: Fields, now: real)
    requires f.shuffle
    ensures Decode(Encode(f), now) != f
  {
    RoundTrip(f, now);
  }

  /** `toJSON` writing the flag under the key the loader reads. */
  function EncodeFixed(f: Fields): (o: StreamObj)
    ensures o.shuffle == Some(f.shuffle) && o.suffle.None?
    ensures o == Encode(f).(shuffle := Some(f.shuffle), suffle := None)
  {
    StreamObj(f.title, f.id, f.secret, Some(f.css), Some(f.playing), f.current, f.time,
              Some(f.playlist), Some(f.shuffle), None, Some(f.timeFrom), f.currentPoll,
              Some(f.mutedClients))
  }

  /**
   * With the key spelled as the loader reads it, saving and reloading keeps
   * every field, the shuffle flag included, except the two falsy zeros.
   */
  lemma RoundTripFixed(f: Fields, now: real)
    ensures Decode(EncodeFixed(f), now) == f.(time := if f.time == Some(0.0) then None else f.time,
                                              timeFrom := if f.timeFrom == 0.0 then now else f.timeFrom)
    ensures Decode(EncodeFixed(f), now).shuffle == f.shuffle
  {
  }

  /** `cl.chat_nick && cl.chat_nick.toLowerCase() === nick.toLowerCase()`. */
  predicate NickMatches(c: Client, nick: string)
    reads c
  {
    c.nick.Some? && c.nick.value != "" && Lower(c.nick.value) == Lower(nick)
  }

  /** `_.find(clients, cl => NickMatches(cl, nick))`: the first matching client. */
  function FindByNick(cs: seq<Client>, nick: string): (r: Option<Client>)
    reads cs
    ensures r.Some? ==> NickMatches(r.value, nick)
    ensures r.Some? ==> exists i :: 0 <= i < |cs| && cs[i] == r.value && forall j :: 0 <= j < i ==> !NickMatches(cs[j], nick)
    ensures r.None? ==> forall i :: 0 <= i < |cs| ==> !NickMatches(cs[i], nick)
  {
    if cs == [] then None
    else if NickMatches(cs[0], nick) then Some(cs[0])
    else
      var r := FindByNick(cs[1..], nick);
      assert r.Some? ==> exists i :: 0 < i < |cs| && cs[i] == r.value && forall j :: 0 <= j < i ==> !NickMatches(cs[j], nick) by {
        if r.Some? {
          var i :| 0 <= i < |cs[1..]| && cs[1..][i] == r.value && forall j :: 0 <= j < i ==> !NickMatches(cs[1..][j], nick);
          assert cs[i + 1] == r.value;
          forall j | 0 <= j < i + 1 ensures !NickMatches(cs[j], nick) {
            if j > 0 { assert cs[j] == cs[1..][j - 1]; }
          }
        }
      }
      r
  }

  /** Each client's copy of a `poll` packet, carrying that client's own vote. */
  function PollUpdates(cs: seq<Client>, poll: Option<Poll>): (r: Outbox)
    reads cs
    ensures |r| == |cs|
    ensures forall i :: 0 <= i < |cs| ==> r[i] == Envelope(cs[i], PollState(poll, cs[i].pollVote))
  {
    if cs == [] then [] else [Envelope(cs[0], PollState(poll, cs[0].pollVote))] + PollUpdates(cs[1..], poll)
  }

  /**
   * The one key a plain JavaScript object will not store: assigning to
   * `obj["__proto__"]` replaces the object's prototype, so the key never
   * becomes an own property and `hasOwnProperty` stays false for it.
   */
  const ProtoKey := "__proto__"

  /**
   * The option name that breaks `hasPollOption`: `options["hasOwnProperty"] = []`
   * makes an own property that hides the inherited method, so the poll's
   * `options.hasOwnProperty(option)` throws a TypeError for every option.
   */
  const ShadowKey := "hasOwnProperty"

  /**
   * A poll as `openPoll` installs it: the given title, one empty voter list
   * per distinct option, except that an option named `__proto__` is lost.
   */
  predicate IsFreshPoll(p: Poll, title: string, options: seq<string>) {
    && p.title == title
    && p.options.Keys == (set o | o in options && o != ProtoKey)
    && forall o :: o in p.options ==> p.options[o] == []
  }

  /** `options.forEach(arg => poll.options[arg] = [])` on a fresh object. */
  method FreshOptions(options: seq<string>) returns (t: map<string, seq<Option<string>>>)
    ensures t.Keys == (set o | o in options && o != ProtoKey)
    ensures forall o :: o in t ==> t[o] == []
  {
    t := map[];
    var i := 0;
    while i < |options|
      invariant 0 <= i <= |options|
      invariant t.Keys == (set o | o in options[..i] && o != ProtoKey)
      invariant forall o :: o in t ==> t[o] == []
    {
      assert options[..i + 1] == options[..i] + [options[i]];
      if options[i] != ProtoKey {
        t := t[options[i] := []];
      }
      i := i + 1;
    }
    assert options[..i] == options;
  }

  /** Some option of the poll lists `nick` among its voters. */
  predicate VotedUnder(p: Poll, nick: Option<string>) {
    exists o :: o in p.options && nick in p.options[o]
  }

  /** The chat line `openPoll` sends. */
  function OpenedLine(title: string, byNick: Option<string>): string {
    "Poll \"" + title + "\" opened by " + Show(byNick)
  }

  /** Whether `i` names an entry of the playlist (`playlist.hasOwnProperty(i)`). */
  predicate ValidIndex(playlist: seq<Video>, i: Option<int>) {
    i.Some? && 0 <= i.value < |playlist|
  }

  /** An entry with one more view (`(views || 0) + 1`). */
  function Viewed(v: Video): (r: Video)
    ensures r.views == Some(v.views.GetOr(0) + 1)
    ensures r.(views := v.views) == v
  {
    v.(views := Some(v.views.GetOr(0) + 1))
  }

  /** `getVideoTitle` without the HTTP fetch: only YouTube and Twitch are looked up; `fetched` is the fetch's result. */
  function TitleLookup(kind: string, fetched: Option<string>): (r: Option<string>)
    ensures kind != "youtube" && kind != "twitch" ==> r == None
    ensures kind == "youtube" || kind == "twitch" ==> r == fetched
  {
    if kind == "youtube" || kind == "twitch" then fetched else None
  }

  /** The entry `addVideo` appends: the looked-up title, or `type + ': ' + id` when there is none. */
  function NewEntry(kind: string, id: Option<string>, title: Option<string>): (v: Video)
    ensures v.kind == Some(kind) && v.id == id && v.views == Some(0)
    ensures title.Some? ==> v.title == title.value
    ensures title.None? ==> v.title == kind + ": " + Show(id)
  {
    Video(Some(kind), id, if title.Some? then title.value else kind + ": " + Show(id), Some(0))
  }

  /** A `</title>` cannot start inside a `<title>`. */
  lemma NoCloseInsideOpen(page: string, pos: nat)
    requires OccursAt(page, "<title>", pos)
    ensures forall k :: pos <= k < pos + 7 ==> !OccursAt(page, "</title>", k)
  {
    forall k | pos <= k < pos + 7
      ensures !OccursAt(page, "</title>", k)
    {
      assert page[pos..pos + 7] == "<title>";
      if k + 8 <= |page| {
        if k == pos {
          assert page[k..k + 8][1] == page[pos..pos + 7][1] == 't';
        } else {
          assert page[k..k + 8][0] == page[pos..pos + 7][k - pos] != '<';
        }
      }
    }
  }

  /**
   * The title as `getVideoTitle` cuts it from a fetched page: the text after
   * the first `<title>` up to the first `</title>` after that; none when
   * either is missing. (Decoding HTML entities is not modelled.)
   */
  function ExtractTitle(page: string): (r: Option<string>)
    ensures r.Some? ==>
      var p := Text.IndexOf(page, "<title>", 0);
      && 0 <= p && OccursAt(page, "<title>", p)
      && OccursAt(page, "</title>", p + 7 + |r.value|)
      && page[p + 7..p + 7 + |r.value|] == r.value
      && forall k :: p <= k < p + 7 + |r.value| ==> !OccursAt(page, "</title>", k)
    ensures (forall k :: 0 <= k <= |page| ==> !OccursAt(page, "<title>", k)) ==> r == None
    ensures Text.IndexOf(page, "<title>", 0) != -1 && (forall k :: 0 <= k <= |page| ==> !OccursAt(page, "</title>", k))
            ==> r == None
  {
    var pos := Text.IndexOf(page, "<title>", 0);
    if pos == -1 then None
    else
      NoCloseInsideOpen(page, pos);
      var pos2 := Text.IndexOf(page, "</title>", pos);
      if pos2 == -1 then None
      else
        assert pos + 7 <= pos2;
        Some(page[pos + 7..pos2])
  }

  /** One watch party: its persisted fields and the clients attached to it. */
  class Stream {
    var title: string
    const id: string
    const secret: string
    var css: string
    var playing: bool
    var current: Option<int>
    var time: Option<real>
    var playlist: seq<Video>
    var shuffle: bool
    var timeFrom: real
    var currentPoll: Option<Poll>
    var mutedClients: seq<string>
    var clients: seq<Client>

    /** A client is attached at most once. */
    ghost predicate Valid()
      reads this
    {
      Distinct(clients)
    }

    /** The persisted fields. */
    function Snapshot(): Fields
      reads this
    {
      Fields(title, id, secret, css, playing, current, time, playlist, shuffle, timeFrom,
             currentPoll, mutedClients)
    }

    /** `new _Stream(obj)`: the fields read from `obj` with their defaults, and no clients. */
    constructor Load(obj: StreamObj, now: real)
      ensures Snapshot() == Decode(obj, now)
      ensures clients == [] && Valid()
    {
      var f := Decode(obj, now);
      title, id, secret, css, playing := f.title, f.id, f.secret, f.css, f.playing;
      current, time, playlist, shuffle := f.current, f.time, f.playlist, f.shuffle;
      timeFrom, currentPoll, mutedClients := f.timeFrom, f.currentPoll, f.mutedClients;
      clients := [];
    }

    /** `usersViewing()`. */
    function UsersViewing(): nat
      reads this
    {
      |clients|
    }

    /** `getRelativeTime()`: the stored time plus the seconds since `timeFrom`, playing or not (null counts as 0). */
    function RelativeTime(now: real): real
      reads this
    {
      time.GetOr(0.0) + (now - timeFrom)
    }

    /** `hasPoll()`. */
    predicate HasPoll()
      reads this
    {
      currentPoll.Some?
    }

    /** `getPoll()`: the running poll; throws when there is none. */
    function GetPoll(): (r: Result<Poll>)
      reads this
      ensures currentPoll.None? <==> r == Err(NoPollRunning)
      ensures currentPoll.Some? ==> r == Ok(currentPoll.value)
    {
      if currentPoll.None? then Err(NoPollRunning) else Ok(currentPoll.value)
    }

    /** `hasVoted(client)`: whether the client's vote is set; throws when there is no poll. */
    function HasVoted(c: Client): (r: Result<bool>)
      reads this, c
      ensures currentPoll.None? ==> r == Err(NoPollRunning)
      ensures currentPoll.Some? ==> r == Ok(c.pollVote.Some?)
    {
      if currentPoll.None? then Err(NoPollRunning) else Ok(c.pollVote.Some?)
    }

    /**
     * `hasPollOption(option)`: whether the running poll has that option;
     * throws when there is no poll, and when an option named
     * `hasOwnProperty` hides the method it calls.
     */
    function HasPollOption(option: string): (r: Result<bool>)
      reads this
      ensures currentPoll.None? ==> r == Err(NoPollRunning)
      ensures currentPoll.Some? && ShadowKey in currentPoll.value.options ==> r == Err(HasOwnPropertyShadowed)
      ensures currentPoll.Some? && ShadowKey !in currentPoll.value.options ==> r == Ok(option in currentPoll.value.options)
    {
      if currentPoll.None? then Err(NoPollRunning)
      else if ShadowKey in currentPoll.value.options then Err(HasOwnPropertyShadowed)
      else Ok(option in currentPoll.value.options)
    }

    /** `isClientMuted(nick)`. */
    predicate IsClientMuted(nick: string)
      reads this
    {
      nick in mutedClients
    }

    /** `hasNick(nick)`: some attached client has that nick, ignoring case. */
    predicate HasNick(nick: string)
      reads this, clients
    {
      FindByNick(clients, nick).Some?
    }

    /**
     * `getByNick(nick)`: the first attached client with that nick, ignoring
     * case, or none. The guard tests the argument, not the result, so only an
     * empty nick throws and an unknown nick gives none.
     */
    function GetByNick(nick: string): (r: Result<Option<Client>>)
      reads this, clients
      ensures nick == "" <==> r == Err(NoSuchNick(nick))
      ensures nick != "" && !HasNick(nick) ==> r == Ok(None)
      ensures nick != "" && HasNick(nick) ==> r.Ok? && r.value.Some? && r.value.value in clients && NickMatches(r.value.value, nick)
    {
      var cl := FindByNick(clients, nick);
      assert cl.Some? ==> cl.value in clients;
      if nick == "" then Err(NoSuchNick(nick)) else Ok(cl)
    }

    /** `forEachClient(cl => cl.send(m))`. */
    method Broadcast(m: Msg) returns (out: Outbox)
      ensures out == Fanout(clients, m)
    {
      out := [];
      var i := 0;
      while i < |clients|
        invariant 0 <= i <= |clients|
        invariant out == Fanout(clients[..i], m)
      {
        out := out + [Envelope(clients[i], m)];
        i := i + 1;
      }
      assert clients[..i] == clients;
    }

    /** `clients.forEach(cl => { if (cl !== origin) cl.send(m); })`. */
    method BroadcastExcept(origin: Client, m: Msg) returns (out: Outbox)
      ensures out == FanoutExcept(clients, origin, m)
    {
      out := [];
      var i := 0;
      while i < |clients|
        invariant 0 <= i <= |clients|
        invariant out == FanoutExcept(clients[..i], origin, m)
      {
        FanoutExceptStep(clients, i, origin, m);
        if clients[i] != origin {
          out := out + [Envelope(clients[i], m)];
        }
        i := i + 1;
      }
      assert clients[..i] == clients;
    }

    /** `addClient(client)`: attach, then send every attached client the new viewer count; throws if already attached. */
    method AddClient(c: Client) returns (r: Outcome, out: Outbox)
      requires Valid()
      modifies this`clients
      ensures Valid()
      ensures old(c in clients) ==> r == Threw(ClientAlreadyInList) && clients == old(clients) && out == []
      ensures old(c !in clients) ==> r == Done && clients == old(clients) + [c]
      ensures old(c !in clients) ==> out == Fanout(clients, Viewers(UsersViewing())) && UsersViewing() == |clients|
    {
      if c in clients {
        return Threw(ClientAlreadyInList), [];
      }
      clients := clients + [c];
      out := Broadcast(Viewers(UsersViewing()));
      r := Done;
    }

    /** `removeClient(client)`: detach, then send every remaining client the new viewer count; throws if not attached. */
    method RemoveClient(c: Client) returns (r: Outcome, out: Outbox)
      requires Valid()
      modifies this`clients
      ensures Valid()
      ensures old(c !in clients) ==> r == Threw(ClientNotInList) && clients == old(clients) && out == []
      ensures old(c in clients) ==> r == Done && c !in clients
      ensures old(c in clients) ==> clients == SpliceOne(old(clients), JsArray.IndexOf(old(clients), c))
      ensures old(c in clients) ==> multiset(clients) == multiset(old(clients)) - multiset{c}
      ensures old(c in clients) ==> out == Fanout(clients, Viewers(UsersViewing())) && UsersViewing() == |clients|
    {
      if c !in clients {
        return Threw(ClientNotInList), [];
      }
      SpliceFound(clients, c);
      clients := SpliceOne(clients, JsArray.IndexOf(clients, c));
      out := Broadcast(Viewers(UsersViewing()));
      r := Done;
    }

    /**
     * `closePoll(nick)`: clear the poll, reset every client's vote, and send
     * each client an empty `poll` then the results as they stood; throws when
     * there is no poll.
     */
    method ClosePoll(byNick: Option<string>) returns (r: Outcome, out: Outbox)
      modifies this`currentPoll, clients`pollVote
      ensures old(currentPoll).None? ==> r == Threw(NoPollRunning) && currentPoll == None && unchanged(clients) && out == []
      ensures old(currentPoll).Some? ==> r == Done && currentPoll == None
      ensures GetPoll() == Err(NoPollRunning)
      ensures old(currentPoll).Some? ==> forall c :: c in clients ==> c.pollVote == None
      ensures old(currentPoll).Some? ==>
        out == Fanout2(clients, PollState(None, None),
                       PollResults(old(currentPoll).value.options, old(currentPoll).value.title, byNick))
    {
      if currentPoll.None? {
        return Threw(NoPollRunning), [];
      }
      var results, title := currentPoll.value.options, currentPoll.value.title;
      currentPoll := None;
      out := ResetVotesAndSend(PollState(None, None), PollResults(results, title, byNick));
      r := Done;
    }

    /**
     * `openPoll(title, options, nick)`: close any running poll first, install
     * a poll with one empty voter list per option, reset every client's vote,
     * and send each client the poll and an "opened by" line.
     */
    method OpenPoll(title: string, options: seq<string>, byNick: Option<string>) returns (out: Outbox)
      modifies this`currentPoll, clients`pollVote
      ensures currentPoll.Some? && IsFreshPoll(currentPoll.value, title, options)
      ensures forall c :: c in clients ==> c.pollVote == None
      ensures GetPoll().Ok?
      ensures ShadowKey in options ==> forall o :: HasPollOption(o) == Err(HasOwnPropertyShadowed)
      ensures ShadowKey !in options ==> forall o :: HasPollOption(o) == Ok(o in options && o != ProtoKey)
      ensures forall c :: c in clients ==> HasVoted(c) == Ok(false)
      ensures out == (if old(currentPoll).Some? then
                        Fanout2(clients, PollState(None, None),
                                PollResults(old(currentPoll).value.options, old(currentPoll).value.title, byNick))
                      else [])
                     + Fanout2(clients, PollState(currentPoll, None), ChatInfo(OpenedLine(title, byNick)))
    {
      var closing: Outbox := [];
      if currentPoll.Some? {
        var ignored;
        ignored, closing := ClosePoll(byNick);
      }
      var opts := FreshOptions(options);
      currentPoll := Some(Poll(title, opts));
      var opening := ResetVotesAndSend(PollState(currentPoll, None), ChatInfo(OpenedLine(title, byNick)));
      out := closing + opening;
    }

    /**
     * The loop `openPoll` and `closePoll` share: clear every client's vote and
     * send each client the two packets, in list order.
     */
    method ResetVotesAndSend(m1: Msg, m2: Msg) returns (out: Outbox)
      modifies clients`pollVote
      ensures forall c :: c in clients ==> c.pollVote == None
      ensures out == Fanout2(clients, m1, m2)
    {
      out := [];
      var cs := clients;
      var i := 0;
      while i < |cs|
        invariant 0 <= i <= |cs| && clients == cs
        invariant forall j :: 0 <= j < i ==> cs[j].pollVote == None
        invariant out == Fanout2(cs[..i], m1, m2)
      {
        Fanout2Step(cs, i, m1, m2);
        cs[i].pollVote := None;
        out := out + [Envelope(cs[i], m1), Envelope(cs[i], m2)];
        i := i + 1;
      }
      assert cs[..i] == cs;
    }

    /**
     * `vote(client, option)`: throws when there is no poll, the client has
     * voted, or the option is unknown, in that order; otherwise appends the
     * client's nick to that option's voters, records the vote, and sends every
     * client the poll with its own vote.
     */
    method Vote(c: Client, option: string) returns (r: Outcome, out: Outbox)
      modifies this`currentPoll, c`pollVote
      ensures old(currentPoll).None? ==> r == Threw(NoPollRunning)
      ensures old(currentPoll).Some? && old(c.pollVote).Some? ==> r == Threw(ClientAlreadyVoted)
      ensures old(currentPoll).Some? && old(c.pollVote).None? && ShadowKey in old(currentPoll).value.options
              ==> r == Threw(HasOwnPropertyShadowed)
      ensures old(currentPoll).Some? && old(c.pollVote).None? && ShadowKey !in old(currentPoll).value.options
              && option !in old(currentPoll).value.options
              ==> r == Threw(NoSuchPollOption(option))
      ensures old(GetPoll()) == Err(NoPollRunning) ==> r == Threw(NoPollRunning)
      ensures old(HasVoted(c)) == Ok(true) ==> r == Threw(ClientAlreadyVoted)
      ensures old(HasVoted(c)) == Ok(false) && old(HasPollOption(option)).Err? ==> r == Threw(old(HasPollOption(option)).failure)
      ensures old(HasVoted(c)) == Ok(false) && old(HasPollOption(option)) == Ok(false) ==> r == Threw(NoSuchPollOption(option))
      ensures r.Threw? ==> currentPoll == old(currentPoll) && c.pollVote == old(c.pollVote) && out == []
      ensures r.Done? ==> HasVoted(c) == Ok(true) && HasPollOption(option) == Ok(true)
      ensures r.Done? <==> old(currentPoll).Some? && old(c.pollVote).None? && ShadowKey !in old(currentPoll).value.options
                           && option in old(currentPoll).value.options
      ensures r.Done? ==>
        var opts := old(currentPoll).value.options;
        && currentPoll == Some(old(currentPoll).value.(options := opts[option := opts[option] + [c.nick]]))
        && c.pollVote == Some(option)
        && out == PollUpdates(clients, currentPoll)
    {
      if currentPoll.None? {
        return Threw(NoPollRunning), [];
      }
      if c.pollVote.Some? {
        return Threw(ClientAlreadyVoted), [];
      }
      if ShadowKey in currentPoll.value.options {
        return Threw(HasOwnPropertyShadowed), [];
      }
      if option !in currentPoll.value.options {
        return Threw(NoSuchPollOption(option)), [];
      }
      var opts := currentPoll.value.options;
      currentPoll := Some(currentPoll.value.(options := opts[option := opts[option] + [c.nick]]));
      c.pollVote := Some(option);
      out := SendPollUpdates();
      r := Done;
    }

    /** The loop that ends `vote`: send each client the poll with its own vote. */
    method SendPollUpdates() returns (out: Outbox)
      ensures out == PollUpdates(clients, currentPoll)
    {
      out := [];
      var i := 0;
      while i < |clients|
        invariant 0 <= i <= |clients|
        invariant out == PollUpdates(clients[..i], currentPoll)
      {
        out := out + [Envelope(clients[i], PollState(currentPoll, clients[i].pollVote))];
        i := i + 1;
      }
      assert clients[..i] == clients;
    }

    /**
     * `onJoinChat(client)`: while a poll runs, pick up a vote already cast
     * under the client's nick and send the client the poll.
     */
    method OnJoinChat(c: Client) returns (out: Outbox)
      modifies c`pollVote
      ensures currentPoll.None? ==> out == [] && c.pollVote == old(c.pollVote)
      ensures currentPoll.Some? ==> out == [Envelope(c, PollState(currentPoll, c.pollVote))]
      ensures currentPoll.Some? && VotedUnder(currentPoll.value, c.nick)
              ==> c.pollVote.Some? && c.pollVote.value in currentPoll.value.options
                  && c.nick in currentPoll.value.options[c.pollVote.value]
      ensures currentPoll.Some? && !VotedUnder(currentPoll.value, c.nick) ==> c.pollVote == old(c.pollVote)
    {
      if currentPoll.None? {
        return [];
      }
      var opts := currentPoll.value.options;
      var keys := opts.Keys;
      ghost var seen: set<string> := {};
      while keys != {}
        invariant keys + seen == opts.Keys && keys !! seen
        invariant (exists o :: o in seen && c.nick in opts[o])
                  ==> c.pollVote.Some? && c.pollVote.value in opts && c.nick in opts[c.pollVote.value]
        invariant !(exists o :: o in seen && c.nick in opts[o]) ==> c.pollVote == old(c.pollVote)
        decreases keys
      {
        var o :| o in keys;
        if c.nick in opts[o] {
          c.pollVote := Some(o);
        }
        keys := keys - {o};
        seen := seen + {o};
      }
      out := [Envelope(c, PollState(currentPoll, c.pollVote))];
    }

    /**
     * `muteClient(client, nick)`: throws for a client that is not attached,
     * not in chat, or a controller, in that order; does nothing when its nick
     * is already muted; otherwise mutes the nick and tells every client.
     */
    method MuteClient(c: Client, byNick: Option<string>) returns (r: Outcome, out: Outbox)
      modifies this`mutedClients, c`prefix, c`muted
      ensures c !in clients ==> r == Threw(NotAttached)
      ensures c in clients && c.nick.None? ==> r == Threw(ClientNotInChat)
      ensures c in clients && c.nick.Some? && c.control ==> r == Threw(ControllerCannotBeMuted)
      ensures r.Threw? || (r.Done? && old(IsClientMuted(c.nick.value))) ==>
                mutedClients == old(mutedClients) && unchanged(c) && out == []
      ensures r.Done? ==> c in clients && c.nick.Some? && !c.control
      ensures c in clients && c.nick.Some? && !c.control && !old(IsClientMuted(c.nick.value)) ==>
                && r == Done
                && mutedClients == old(mutedClients) + [c.nick.value]
                && c.prefix == "~" && c.muted
                && out == Fanout(clients, Muted(c.nick.value, byNick))
      ensures r.Done? ==> IsClientMuted(c.nick.value)
    {
      if c !in clients {
        return Threw(NotAttached), [];
      }
      if c.nick.None? {
        return Threw(ClientNotInChat), [];
      }
      if c.control {
        return Threw(ControllerCannotBeMuted), [];
      }
      if IsClientMuted(c.nick.value) {
        return Done, [];
      }
      c.prefix := "~";
      c.muted := true;
      mutedClients := mutedClients + [c.nick.value];
      out := Broadcast(Muted(c.nick.value, byNick));
      r := Done;
    }

    /**
     * `unmuteClient(client, nick)`: throws for a client that is not attached
     * or not in chat; does nothing when its nick is not muted; otherwise
     * removes every occurrence of the nick and tells every client.
     */
    method UnmuteClient(c: Client, byNick: Option<string>) returns (r: Outcome, out: Outbox)
      modifies this`mutedClients, c`prefix, c`muted
      ensures c !in clients ==> r == Threw(NotAttached)
      ensures c in clients && c.nick.None? ==> r == Threw(ClientNotInChat)
      ensures r.Done? <==> c in clients && c.nick.Some?
      ensures r.Threw? || (r.Done? && !old(IsClientMuted(c.nick.value))) ==>
                mutedClients == old(mutedClients) && unchanged(c) && out == []
      ensures c in clients && c.nick.Some? && old(IsClientMuted(c.nick.value)) ==>
                && mutedClients == Without(old(mutedClients), c.nick.value)
                && c.prefix == "" && !c.muted
                && out == Fanout(clients, Unmuted(c.nick.value, "", byNick))
      ensures r.Done? ==> !IsClientMuted(c.nick.value)
    {
      if c !in clients {
        return Threw(NotAttached), [];
      }
      if c.nick.None? {
        return Threw(ClientNotInChat), [];
      }
      if !IsClientMuted(c.nick.value) {
        return Done, [];
      }
      c.prefix := "";
      c.muted := false;
      mutedClients := Without(mutedClients, c.nick.value);
      out := Broadcast(Unmuted(c.nick.value, c.prefix, byNick));
      r := Done;
    }

    /** `updatePlaylist(playlist, current)`: replace both and send them to every client, the sender included. */
    method UpdatePlaylist(newPlaylist: seq<Video>, newCurrent: Option<int>) returns (out: Outbox)
      modifies this`playlist, this`current
      ensures playlist == newPlaylist && current == newCurrent
      ensures Snapshot() == old(Snapshot()).(playlist := newPlaylist, current := newCurrent)
      ensures out == Fanout(clients, PlaylistUpdate(newPlaylist, newCurrent))
    {
      playlist, current := newPlaylist, newCurrent;
      out := Broadcast(PlaylistUpdate(newPlaylist, newCurrent));
    }

    /** `changeTitle(title, nick)`. */
    method ChangeTitle(newTitle: string, byNick: Option<string>) returns (out: Outbox)
      modifies this`title
      ensures title == newTitle && Snapshot() == old(Snapshot()).(title := newTitle)
      ensures out == Fanout(clients, TitleChange(newTitle, byNick))
    {
      title := newTitle;
      out := Broadcast(TitleChange(newTitle, byNick));
    }

    /** `changeCSS(css, nick)`. */
    method ChangeCSS(newCss: string, byNick: Option<string>) returns (out: Outbox)
      modifies this`css
      ensures css == newCss
      ensures out == Fanout(clients, CssChange(newCss, byNick))
    {
      css := newCss;
      out := Broadcast(CssChange(newCss, byNick));
    }

    /** `changeShuffle(val)`. */
    method ChangeShuffle(val: bool) returns (out: Outbox)
      modifies this`shuffle
      ensures shuffle == val
      ensures out == Fanout(clients, ShuffleChange(val))
    {
      shuffle := val;
      out := Broadcast(ShuffleChange(val));
    }

    /**
     * `addVideo(type, id)` once the title lookup has answered (`fetched` is
     * what the fetch returned): append the entry and send every client the
     * playlist.
     */
    method AddVideo(kind: string, videoId: Option<string>, fetched: Option<string>) returns (out: Outbox)
      modifies this`playlist
      ensures playlist == old(playlist) + [NewEntry(kind, videoId, TitleLookup(kind, fetched))]
      ensures Snapshot() == old(Snapshot()).(playlist := playlist)
      ensures out == Fanout(clients, PlaylistUpdate(playlist, current))
    {
      playlist := playlist + [NewEntry(kind, videoId, TitleLookup(kind, fetched))];
      out := Broadcast(PlaylistUpdate(playlist, current));
    }

    /** `play(time, origin)`: playing from `t` as of now; every client but the origin is told. */
    method Play(t: real, origin: Client, now: real) returns (out: Outbox)
      modifies this`playing, this`time, this`timeFrom
      ensures playing && time == Some(t) && timeFrom == now
      ensures Snapshot() == old(Snapshot()).(playing := true, time := Some(t), timeFrom := now)
      ensures forall later :: RelativeTime(later) == t + (later - now)
      ensures out == FanoutExcept(clients, origin, Played(t))
    {
      playing, time, timeFrom := true, Some(t), now;
      out := BroadcastExcept(origin, Played(t));
    }

    /**
     * `stop(time, origin)`: stopped at `t` as of now; every client but the
     * origin is told. The relative time keeps advancing after a stop.
     */
    method Stop(t: real, origin: Client, now: real) returns (out: Outbox)
      modifies this`playing, this`time, this`timeFrom
      ensures !playing && time == Some(t) && timeFrom == now
      ensures forall later :: RelativeTime(later) == t + (later - now)
      ensures out == FanoutExcept(clients, origin, Stopped(t))
    {
      playing, time, timeFrom := false, Some(t), now;
      out := BroadcastExcept(origin, Stopped(t));
    }

    /**
     * `cue(newVideo)`: play entry `i` from 0 as of now and tell every client;
     * when `i` names an entry, count a view and send every client the playlist.
     * The index is stored whether or not it names an entry.
     */
    method Cue(i: Option<int>, now: real) returns (out: Outbox)
      modifies this`playing, this`time, this`timeFrom, this`current, this`playlist
      ensures playing && time == Some(0.0) && timeFrom == now && current == i
      ensures Snapshot() == old(Snapshot()).(playing := true, time := Some(0.0), timeFrom := now, current := i,
                                             playlist := playlist)
      ensures forall later :: RelativeTime(later) == later - now
      ensures ValidIndex(old(playlist), i) ==>
                && playlist == old(playlist)[i.value := Viewed(old(playlist)[i.value])]
                && out == Fanout(clients, Cued(i)) + Fanout(clients, PlaylistUpdate(playlist, i))
      ensures !ValidIndex(old(playlist), i) ==> playlist == old(playlist) && out == Fanout(clients, Cued(i))
    {
      var valid := ValidIndex(playlist, i);
      var pl := if valid then playlist[i.value := Viewed(playlist[i.value])] else playlist;
      playing, time, timeFrom, current, playlist := true, Some(0.0), now, i, pl;
      out := Broadcast(Cued(i));
      if valid {
        var more := Broadcast(PlaylistUpdate(playlist, current));
        out := out + more;
      }
    }
  }

  /** Adding one recipient at the end of a fan-out-to-all-but-one. */
  lemma {:induction false} FanoutExceptSnoc<A>(to: seq<A>, x: A, origin: A, m: Msg)
    ensures FanoutExcept(to + [x], origin, m)
            == FanoutExcept(to, origin, m) + (if x == origin then [] else [Envelope(x, m)])
  {
    if to != [] {
      assert (to + [x])[1..] == to[1..] + [x];
      FanoutExceptSnoc(to[1..], x, origin, m);
    }
  }

  /** Adding one recipient at the end of a two-message fan-out. */
  lemma {:induction false} Fanout2Snoc<A>(to: seq<A>, x: A, m1: Msg, m2: Msg)
    ensures Fanout2(to + [x], m1, m2) == Fanout2(to, m1, m2) + [Envelope(x, m1), Envelope(x, m2)]
  {
    if to != [] {
      assert (to + [x])[1..] == to[1..] + [x];
      Fanout2Snoc(to[1..], x, m1, m2);
    }
  }

  /** `FanoutExceptSnoc` on the prefixes a loop walks through. */
  lemma FanoutExceptStep<A>(to: seq<A>, i: nat, origin: A, m: Msg)
    requires i < |to|
    ensures to[i] == origin ==> FanoutExcept(to[..i + 1], origin, m) == FanoutExcept(to[..i], origin, m)
    ensures to[i] != origin ==>
              FanoutExcept(to[..i + 1], origin, m) == FanoutExcept(to[..i], origin, m) + [Envelope(to[i], m)]
  {
    assert to[..i + 1] == to[..i] + [to[i]];
    FanoutExceptSnoc(to[..i], to[i], origin, m);
    assert FanoutExcept(to[..i], origin, m) + [] == FanoutExcept(to[..i], origin, m);
  }

  /** `Fanout2Snoc` on the prefixes a loop walks through. */
  lemma Fanout2Step<A>(to: seq<A>, i: nat, m1: Msg, m2: Msg)
    requires i < |to|
    ensures Fanout2(to[..i + 1], m1, m2) == Fanout2(to[..i], m1, m2) + [Envelope(to[i], m1), Envelope(to[i], m2)]
  {
    assert to[..i + 1] == to[..i] + [to[i]];
    Fanout2Snoc(to[..i], to[i], m1, m2);
  }

  /** All streams, numbered by position; a stream's id is its index in base 36. */
  class Store {
    var streams: seq<Stream>

    ghost predicate Valid()
      reads this
    {
      forall i :: 0 <= i < |streams| ==> streams[i].id == Base36.ToBase36(i)
    }

    constructor ()
      ensures streams == [] && Valid()
    {
      streams := [];
    }

    /** `Stream.streamCount()`. */
    function StreamCount(): nat
      reads this
    {
      |streams|
    }

    /** `Stream.haveStream(id)`: `parseInt(id, 36)` is the index of a stream. */
    predicate HaveStream(id: string)
      reads this
    {
      var n := Base36.ParseInt36(id);
      n.Some? && 0 <= n.value < |streams|
    }

    /** `Stream.get(id)`: the stream at index `parseInt(id, 36)`; throws when there is none. */
    function Get(id: string): (r: Result<Stream>)
      reads this
      ensures !HaveStream(id) <==> r == Err(NoSuchStream(id))
      ensures HaveStream(id) ==> r == Ok(streams[Base36.ParseInt36(id).value])
    {
      if HaveStream(id) then Ok(streams[Base36.ParseInt36(id).value]) else Err(NoSuchStream(id))
    }

    /**
     * `new Stream(title)` with its secret given: the id is the base-36 string
     * of the current stream count, and the record starts stopped, at no
     * position, with an empty playlist and no poll.
     */
    method NewStream(title: string, secret: string, now: real) returns (s: Stream)
      requires Valid()
      modifies this
      ensures Valid() && fresh(s)
      ensures streams == old(streams) + [s]
      ensures s.id == Base36.ToBase36(|old(streams)|) && s.title == title && s.secret == secret
      ensures s.Snapshot() == Fields(title, s.id, secret, "", false, None, None, [], false, now, None, [])
      ensures s.clients == [] && s.Valid()
    {
      s := new Stream.Load(StreamObj(title, Base36.ToBase36(|streams|), secret,
                                     None, None, None, None, None, None, None, None, None, None), now);
      streams := streams + [s];
    }
  }

  /** `Stream.get(s.id)` finds `s` again. */
  lemma GetById(st: Store, i: nat)
    requires st.Valid() && i < |st.streams|
    ensures st.HaveStream(st.streams[i].id)
    ensures st.Get(st.streams[i].id) == Ok(st.streams[i])
  {
    Base36.ParseToBase36(i);
  }
}
