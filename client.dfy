/**
 * Per-connection packet dispatch (server/client.js): chat commands and
 * their controller gating, the `Client` constructor and `destroy`, and one
 * handler per inbound packet type.
 *
 * A handler answers with the packets it sends (`out`, in order) and what
 * becomes of the connection: it stays `Open`, is `Closed` by the server, or
 * the whole process `Crashed` on an uncaught exception (three handlers do
 * so because they use names that this file never defines, and `vote` does
 * on a poll whose options hide `hasOwnProperty`). The Persona and
 * title-fetch results are parameters.
 */
module Dispatch {
  import opened Wrappers
  import opened Protocol
  import opened Text
  import opened JsArray
  import opened Streams
  import Accounts

  datatype Status = Open | Closed | Crashed(reason: string)

  /** A parsed chat command: the name after `/` and the rest after the first space. */
  datatype Command = Command(name: string, args: string)

  /**
   * `parseCommand(s)`: none unless `s` begins with `/`; otherwise the name
   * runs to the first space and the arguments are everything after it (empty
   * when there is no space).
   */
  function ParseCommand(s: string): (r: Option<Command>)
    ensures r.None? <==> !StartsWith(s, "/")
    ensures r.Some? && ' ' in s[1..] ==> s == "/" + r.value.name + " " + r.value.args && ' ' !in r.value.name
    ensures r.Some? && ' ' !in s[1..] ==> r.value == Command(s[1..], "")
  {
    if |s| == 0 || s[0] != '/' then
      assert !StartsWith(s, "/") by {
        if |s| > 0 { assert s[..1][0] == s[0]; }
      }
      None
    else
      assert s[..1] == "/";
      var rest := s[1..];
      var pos := Text.IndexOf(rest, " ", 0);
      if pos == -1 then
        assert ' ' !in rest by {
          forall k | 0 <= k < |rest| ensures rest[k] != ' ' {
            assert !OccursAt(rest, " ", k);
            assert rest[k..k + 1][0] == rest[k];
          }
        }
        Some(Command(rest, ""))
      else
        var cmd := Command(rest[..pos], rest[pos + 1..]);
        assert rest[pos..pos + 1] == " ";
        assert rest[pos] == ' ';
        assert ' ' !in cmd.name by {
          forall k | 0 <= k < pos ensures rest[k] != ' ' {
            assert !OccursAt(rest, " ", k);
            assert rest[k..k + 1][0] == rest[k];
          }
        }
        assert s == "/" + cmd.name + " " + cmd.args by {
          assert rest == rest[..pos] + [rest[pos]] + rest[pos + 1..];
        }
        Some(cmd)
  }

  /** `availableCommands`: each command name with its `controllerOnly` flag. */
  const Commands: map<string, bool> := map["stats" := false, "poll" := true, "closepoll" := true]

  /** `commandExists(name)`. */
  predicate CommandExists(name: string) {
    name in Commands
  }

  /** `canUseCommand(client, name)`: none (it throws) for an unknown name; else not controller-only, or the client has control. */
  function CanUseCommand(c: Client, name: string): (r: Option<bool>)
    reads c
    ensures r.None? <==> !CommandExists(name)
    ensures r.Some? ==> (r.value <==> !Commands[name] || c.control)
  {
    if !CommandExists(name) then None else Some(!Commands[name] || c.control)
  }

  /** `stats` is open to all; `poll` and `closepoll` need control; no other name exists. */
  lemma CommandGating(c: Client, name: string)
    ensures CanUseCommand(c, "stats") == Some(true)
    ensures CanUseCommand(c, "poll") == Some(c.control)
    ensures CanUseCommand(c, "closepoll") == Some(c.control)
    ensures name != "stats" && name != "poll" && name != "closepoll" ==> CanUseCommand(c, name) == None
  {
  }

  /** The nicks of the clients that are in chat, in list order. */
  function ChatNicks(cs: seq<Client>): (r: seq<string>)
    reads cs
    ensures |r| <= |cs|
    ensures forall n :: n in r ==> exists i :: 0 <= i < |cs| && cs[i].nick == Some(n)
    ensures forall i :: 0 <= i < |cs| && cs[i].nick.Some? ==> cs[i].nick.value in r
  {
    if cs == [] then []
    else
      var rest := ChatNicks(cs[1..]);
      assert forall n :: n in rest ==> exists i :: 0 <= i < |cs| && cs[i].nick == Some(n) by {
        forall n | n in rest ensures exists i :: 0 <= i < |cs| && cs[i].nick == Some(n) {
          var j :| 0 <= j < |cs[1..]| && cs[1..][j].nick == Some(n);
          assert cs[j + 1] == cs[1..][j];
        }
      }
      assert forall i :: 1 <= i < |cs| && cs[i].nick.Some? ==> cs[i].nick.value in rest by {
        forall i | 1 <= i < |cs| && cs[i].nick.Some? ensures cs[i].nick.value in rest {
          assert cs[i] == cs[1..][i - 1];
        }
      }
      (if cs[0].nick.Some? then [cs[0].nick.value] else []) + rest
  }

  /** The reminder lines `greet` sends a controller. */
  const ControllerHelp: seq<string> := [
    "Since you are in control of the stream, you can use the following commands:",
    "/poll title,option,option,... (e.g. /poll Best Pony?,Rainbow Dash,Fluttershy,Rarity) - runs a poll",
    "/closepoll - closes the poll"]

  /** `greet(client)`: the chat roster, then the command help when the client has control. */
  function Greeting(c: Client, cs: seq<Client>): (r: seq<Envelope<Client>>)
    reads c, cs
    ensures |r| == (if c.control then 4 else 1)
    ensures r[0] == Envelope(c, ChatInfo(Decimal(|ChatNicks(cs)|) + " users in chat: " + Join(ChatNicks(cs), ", ")))
    ensures forall i :: 1 <= i < |r| ==> r[i] == Envelope(c, ChatInfo(ControllerHelp[i - 1]))
  {
    var nicks := ChatNicks(cs);
    [Envelope(c, ChatInfo(Decimal(|nicks|) + " users in chat: " + Join(nicks, ", ")))]
      + (if c.control then [Envelope(c, ChatInfo(ControllerHelp[0])),
                            Envelope(c, ChatInfo(ControllerHelp[1])),
                            Envelope(c, ChatInfo(ControllerHelp[2]))]
         else [])
  }

  /** The positions of the clients that are in chat. */
  ghost function InChat(cs: seq<Client>): set<int>
    reads cs
  {
    set i | 0 <= i < |cs| && cs[i].nick.Some?
  }

  lemma {:induction false} ChatNicksSnoc(cs: seq<Client>, x: Client)
    ensures ChatNicks(cs + [x]) == ChatNicks(cs) + (if x.nick.Some? then [x.nick.value] else [])
  {
    if cs != [] {
      assert (cs + [x])[1..] == cs[1..] + [x];
      ChatNicksSnoc(cs[1..], x);
    }
  }

  /** The roster lists one nick per client in chat. */
  lemma {:induction false} ChatNicksCount(cs: seq<Client>)
    ensures |ChatNicks(cs)| == |InChat(cs)|
    decreases |cs|
  {
    if cs == [] {
      assert InChat(cs) == {};
    } else {
      var p, x := cs[..|cs| - 1], cs[|cs| - 1];
      assert cs == p + [x];
      ChatNicksSnoc(p, x);
      ChatNicksCount(p);
      InChatSnoc(p, x);
    }
  }

  /** One more client adds its own position to the chat positions exactly when it is in chat. */
  lemma InChatSnoc(p: seq<Client>, x: Client)
    ensures |InChat(p + [x])| == |InChat(p)| + (if x.nick.Some? then 1 else 0)
  {
    var cs := p + [x];
    var extra: set<int> := if x.nick.Some? then {|p|} else {};
    forall i ensures i in InChat(cs) <==> i in InChat(p) || i in extra {
      if 0 <= i < |p| { assert cs[i] == p[i]; }
    }
    assert InChat(cs) == InChat(p) + extra;
    assert InChat(p) !! extra;
  }

  /** The greeting's first line opens with the number of clients in chat, written in decimal. */
  lemma GreetingCount(c: Client, cs: seq<Client>)
    ensures var n := |InChat(cs)|;
            && Greeting(c, cs)[0] == Envelope(c, ChatInfo(Decimal(n) + " users in chat: " + Join(ChatNicks(cs), ", ")))
            && DecValue(Decimal(n)) == n
  {
    ChatNicksCount(cs);
    DecimalValue(|InChat(cs)|);
  }

  /** The `stream_info` packet: the stream's public fields (never its secret or css) and the client's control flag. */
  function StreamInfoFor(s: Stream, control: bool, now: real): (m: Msg)
    reads s
    ensures m.StreamInfo? && m.title == s.title && m.id == s.id && m.playing == s.playing
    ensures m.current == s.current && m.time == s.RelativeTime(now) && m.playlist == s.playlist
    ensures m.poll == s.currentPoll && m.control == control
  {
    StreamInfo(s.title, s.id, s.playing, s.current, s.RelativeTime(now), s.playlist, s.currentPoll, control)
  }

  /** `^[a-zA-Z0-9_]{3,18}$`. */
  predicate IsNickChar(ch: char) {
    'a' <= ch <= 'z' || 'A' <= ch <= 'Z' || '0' <= ch <= '9' || ch == '_'
  }

  predicate IsValidNick(nick: string) {
    3 <= |nick| <= 18 && forall i :: 0 <= i < |nick| ==> IsNickChar(nick[i])
  }

  /** How many streams have at least one viewer. */
  function ActiveCount(ss: seq<Stream>): (n: nat)
    reads ss
    ensures n <= |ss|
  {
    if ss == [] then 0 else (if ss[0].UsersViewing() != 0 then 1 else 0) + ActiveCount(ss[1..])
  }

  lemma {:induction false} ActiveCountSnoc(ss: seq<Stream>, s: Stream)
    ensures ActiveCount(ss + [s]) == ActiveCount(ss) + (if s.UsersViewing() != 0 then 1 else 0)
  {
    if ss != [] {
      assert (ss + [s])[1..] == ss[1..] + [s];
      ActiveCountSnoc(ss[1..], s);
    }
  }

  /** The `/stats` reply. */
  function StatsLine(streams: nat, active: nat, users: nat): string {
    Decimal(streams) + " streams (" + Decimal(active) + " active), " + Decimal(users) + " users online"
  }

  /** The error text `msg` gets for an unusable command: the packet object is concatenated, not its text. */
  const NoCommandText := "There is no command named [object Object]"
  const ControllersOnlyText := "Only controllers can use the command named [object Object]"

  /** The exception `hasPollOption` throws on a poll with an option named `hasOwnProperty`. */
  const ShadowedCrash := "TypeError: this.currentPoll.options.hasOwnProperty is not a function"

  /** The failures `runCommand` throws. */
  datatype CommandFailure = MissingCommand(name: string) | ControllersOnly(name: string)

  /**
   * The persisted stream fields after a controller's gated packet: only the
   * fields its stream operation sets change. `stop` runs `play`, as written;
   * `add_url` passes the packet's id as the video type and no id; `cue`
   * counts a view only for an index that names an entry.
   */
  function GatedFields(was: Fields, p: Inbound, now: real, fetched: Option<string>): Fields
    requires ControlGated(p)
  {
    match p
    case ReplacePlaylist(pl, cur) => was.(playlist := pl, current := cur)
    case Retitle(t) => was.(title := t)
    case AddUrl(id) => was.(playlist := was.playlist + [NewEntry(id, None, TitleLookup(id, fetched))])
    case PlayAt(t) => was.(playing := true, time := Some(t), timeFrom := now)
    case StopAt(t) => was.(playing := true, time := Some(t), timeFrom := now)
    case CueAt(i) =>
      var pl := if ValidIndex(was.playlist, i) then was.playlist[i.value := Viewed(was.playlist[i.value])]
                else was.playlist;
      was.(playing := true, time := Some(0.0), timeFrom := now, current := i, playlist := pl)
  }

  /** The module-level `clients` list of client.js, with the stream store and account registry it uses. */
  class Hub {
    var clients: seq<Client>
    const store: Store
    const registry: Accounts.Registry

    constructor (store: Store, registry: Accounts.Registry)
      ensures clients == [] && this.store == store && this.registry == registry
    {
      clients := [];
      this.store := store;
      this.registry := registry;
    }

    /** `Client.clientsConnected()`. */
    function ClientsConnected(): nat
      reads this
    {
      |clients|
    }

    /** The `stats` loop: count the streams with viewers. */
    method CountActive() returns (n: nat)
      ensures n == ActiveCount(store.streams)
    {
      n := 0;
      var i := 0;
      while i < |store.streams|
        invariant 0 <= i <= |store.streams|
        invariant n == ActiveCount(store.streams[..i])
      {
        ActiveCountSnoc(store.streams[..i], store.streams[i]);
        assert store.streams[..i + 1] == store.streams[..i] + [store.streams[i]];
        if store.streams[i].UsersViewing() != 0 {
          n := n + 1;
        }
        i := i + 1;
      }
      assert store.streams[..i] == store.streams;
    }

    /**
     * `new Client(conn, stream, secret)`: control iff the secret matches; the
     * client gets `stream_info`, is tracked here and attached to the stream
     * (every viewer then gets the new count), and is greeted.
     */
    method Connect(stream: Stream, secret: Option<string>, now: real) returns (c: Client, out: Outbox)
      requires stream.Valid()
      modifies this`clients, stream`clients
      ensures fresh(c) && c.stream == stream
      ensures c.control <==> secret == Some(stream.secret)
      ensures c.nick == None && c.email == None && c.pollVote == None
      ensures clients == old(clients) + [c]
      ensures stream.clients == old(stream.clients) + [c] && stream.Valid()
      ensures out == [Envelope(c, StreamInfoFor(stream, c.control, now))]
                     + Fanout(stream.clients, Viewers(|stream.clients|))
                     + Greeting(c, stream.clients)
    {
      c := new Client(stream, secret);
      var info := StreamInfoFor(stream, c.control, now);
      clients := clients + [c];
      var r, counts := stream.AddClient(c);
      out := [Envelope(c, info)] + counts + Greeting(c, stream.clients);
    }

    /**
     * `destroy()`: stop tracking the client (with `splice(indexOf(..), 1)`,
     * which drops the last entry when it is not tracked), send `leave` with
     * an undefined nick to the stream when the client was in chat, and detach
     * it; detaching a client that is not attached throws out of the close
     * handler.
     */
    method Destroy(c: Client) returns (out: Outbox, status: Status)
      requires c.stream.Valid()
      modifies this`clients, c.stream`clients
      ensures clients == SpliceOne(old(clients), JsArray.IndexOf(old(clients), c))
      ensures c.stream.Valid()
      ensures c in old(c.stream.clients) ==>
                && status == Open && c !in c.stream.clients
                && c.stream.clients == SpliceOne(old(c.stream.clients), JsArray.IndexOf(old(c.stream.clients), c))
                && multiset(c.stream.clients) == multiset(old(c.stream.clients)) - multiset{c}
                && out == (if c.nick.Some? then Fanout(old(c.stream.clients), Left(None)) else [])
                          + Fanout(c.stream.clients, Viewers(|c.stream.clients|))
      ensures c !in old(c.stream.clients) ==>
                && status == Crashed("Client is not in list.") && c.stream.clients == old(c.stream.clients)
                && out == (if c.nick.Some? then Fanout(old(c.stream.clients), Left(None)) else [])
    {
      clients := SpliceOne(clients, JsArray.IndexOf(clients, c));
      out := [];
      if c.nick.Some? {
        out := c.stream.Broadcast(Left(None));
      }
      var r, counts := c.stream.RemoveClient(c);
      out := out + counts;
      status := if r.Done? then Open else Crashed("Client is not in list.");
    }

    /**
     * What a usable command does (`availableCommands[name].func`), with no
     * nick for the poll's opener or closer: `stats` replies with the stream
     * count, the active count and the tracked-client count; `poll` with more
     * than two comma pieces opens a poll on the first piece as title and the
     * rest as options, as `openPoll` does (the results of a running poll go
     * out first), and with fewer calls the undefined `send`; `closepoll`
     * closes the running poll as `closePoll` does, or does nothing.
     */
    twostate predicate CommandRan(c: Client, name: string, args: string, new out: Outbox, status: Status)
      reads this, store, store.streams, c, c.stream, c.stream.clients
    {
      var pieces := Split(args, ',');
      var before := old(c.stream.currentPoll);
      var closing := if before.Some? then
                       Fanout2(c.stream.clients, PollState(None, None), PollResults(before.value.options, before.value.title, None))
                     else [];
      && c.stream.clients == old(c.stream.clients)
      && (name == "stats" ==>
            && out == [Envelope(c, ChatInfo(StatsLine(|store.streams|, ActiveCount(store.streams), |clients|)))]
            && status == Open && unchanged(c.stream) && unchanged(c.stream.clients))
      && (name == "poll" && |pieces| > 2 ==>
            && status == Open
            && c.stream.currentPoll.Some?
            && IsFreshPoll(c.stream.currentPoll.value, pieces[0], pieces[1..])
            && (forall cl :: cl in c.stream.clients ==> cl.pollVote == None)
            && out == closing + Fanout2(c.stream.clients, PollState(c.stream.currentPoll, None),
                                        ChatInfo(OpenedLine(pieces[0], None))))
      && (name == "poll" && |pieces| <= 2 ==>
            && out == [] && status == Crashed("ReferenceError: send is not defined")
            && unchanged(c.stream) && unchanged(c.stream.clients))
      && (name == "closepoll" ==>
            && status == Open && c.stream.currentPoll == None && out == closing
            && (before.Some? ==> forall cl :: cl in c.stream.clients ==> cl.pollVote == None)
            && (before.None? ==> unchanged(c.stream.clients)))
    }

    /**
     * `runCommand(name, args, client)`: throws for an unknown name or one the
     * client may not use, touching nothing; otherwise runs the command.
     */
    method RunCommand(c: Client, name: string, args: string)
      returns (failed: Option<CommandFailure>, out: Outbox, status: Status)
      modifies c.stream`currentPoll, c.stream.clients`pollVote
      ensures !CommandExists(name) ==> failed == Some(MissingCommand(name)) && out == [] && status == Open
      ensures CanUseCommand(c, name) == Some(false) ==> failed == Some(ControllersOnly(name)) && out == [] && status == Open
      ensures failed.Some? ==> unchanged(c.stream) && unchanged(c.stream.clients)
      ensures failed.None? <==> CanUseCommand(c, name) == Some(true)
      ensures failed.None? ==> CommandRan(c, name, args, out, status)
    {
      if !CommandExists(name) {
        return Some(MissingCommand(name)), [], Open;
      }
      if CanUseCommand(c, name) == Some(false) {
        return Some(ControllersOnly(name)), [], Open;
      }
      failed, status := None, Open;
      if name == "stats" {
        var active := CountActive();
        out := [Envelope(c, ChatInfo(StatsLine(|store.streams|, active, |clients|)))];
      } else if name == "poll" {
        var pieces := Split(args, ',');
        if |pieces| > 2 {
          out := c.stream.OpenPoll(pieces[0], pieces[1..], None);
        } else {
          out, status := [], Crashed("ReferenceError: send is not defined");
        }
      } else {
        out := [];
        if c.stream.HasPoll() {
          var ignored;
          ignored, out := c.stream.ClosePoll(None);
        }
      }
    }

    /**
     * The outcome of `msg`: refused with a close when the client is not in
     * chat. A line starting with `/` is a command: an unknown command or one
     * the client may not use gets a `chat_info` reply and the connection
     * stays open; any other runs. Any other line goes to every client of the
     * stream, the sender included; muting is not checked.
     */
    twostate predicate SayDone(c: Client, text: string, new out: Outbox, status: Status)
      reads this, store, store.streams, c, c.stream, c.stream.clients
    {
      && (c.nick.None? ==>
            out == [Envelope(c, Error(NotInChat))] && status == Closed
            && unchanged(c.stream) && unchanged(c.stream.clients))
      && (c.nick.Some? && !StartsWith(text, "/") ==>
            out == Fanout(c.stream.clients, ChatLine(c.nick.value, text)) && status == Open
            && unchanged(c.stream) && unchanged(c.stream.clients))
      && (c.nick.Some? && StartsWith(text, "/") ==>
            var cmd := ParseCommand(text).value;
            && (!CommandExists(cmd.name) ==>
                  out == [Envelope(c, ChatInfoError(NoCommandText))] && status == Open
                  && unchanged(c.stream) && unchanged(c.stream.clients))
            && (CanUseCommand(c, cmd.name) == Some(false) ==>
                  out == [Envelope(c, ChatInfoError(ControllersOnlyText))] && status == Open
                  && unchanged(c.stream) && unchanged(c.stream.clients))
            && (CanUseCommand(c, cmd.name) == Some(true) ==> CommandRan(c, cmd.name, cmd.args, out, status)))
    }

    /** `msg`. */
    method OnSay(c: Client, text: string) returns (out: Outbox, status: Status)
      modifies c.stream`currentPoll, c.stream.clients`pollVote
      ensures SayDone(c, text, out, status)
    {
      if c.nick.None? {
        return [Envelope(c, Error(NotInChat))], Closed;
      }
      if |text| > 0 && text[0] == '/' {
        assert StartsWith(text, "/") by { assert text[..1] == [text[0]]; }
        var cmd := ParseCommand(text).value;
        if !CommandExists(cmd.name) {
          return [Envelope(c, ChatInfoError(NoCommandText))], Open;
        }
        if CanUseCommand(c, cmd.name) == Some(false) {
          return [Envelope(c, ChatInfoError(ControllersOnlyText))], Open;
        }
        var ignored;
        ignored, out, status := RunCommand(c, cmd.name, cmd.args);
      } else {
        assert !StartsWith(text, "/") by {
          if |text| > 0 { assert text[..1][0] == text[0]; }
        }
        out := c.stream.Broadcast(ChatLine(c.nick.value, text));
        status := Open;
      }
    }

    /**
     * The outcome of `vote`: checked in order (not in chat, no poll, already
     * voted, unknown option), each failure answered with its error and a
     * close, nothing changed; only when all pass is the vote cast. A poll
     * with an option named `hasOwnProperty` makes the option check throw, so
     * every vote that reaches it crashes the process.
     */
    twostate predicate VoteDone(c: Client, option: string, new out: Outbox, status: Status)
      reads c, c.stream, c.stream.clients
    {
      var before := old(c.stream.currentPoll);
      && (c.nick.None? ==> out == [Envelope(c, Error(NotInChat))])
      && (c.nick.Some? && before.None? ==> out == [Envelope(c, Error(NoSuchPoll))])
      && (c.nick.Some? && before.Some? && old(c.pollVote).Some? ==> out == [Envelope(c, Error(AlreadyVoted))])
      && (c.nick.Some? && before.Some? && old(c.pollVote).None? && ShadowKey in before.value.options ==>
            out == [] && status == Crashed(ShadowedCrash))
      && (c.nick.Some? && before.Some? && old(c.pollVote).None? && ShadowKey !in before.value.options
          && option !in before.value.options ==>
            out == [Envelope(c, Error(NoSuchOption))])
      && (status != Open ==> c.stream.currentPoll == before && c.pollVote == old(c.pollVote))
      && (status == Open <==> c.nick.Some? && before.Some? && old(c.pollVote).None?
                                && ShadowKey !in before.value.options && option in before.value.options)
      && (status == Open ==>
            var opts := before.value.options;
            && status == Open
            && c.stream.currentPoll == Some(before.value.(options := opts[option := opts[option] + [c.nick]]))
            && c.pollVote == Some(option)
            && out == PollUpdates(c.stream.clients, c.stream.currentPoll))
    }

    /** `vote`. */
    method OnVote(c: Client, option: string) returns (out: Outbox, status: Status)
      modifies c.stream`currentPoll, c`pollVote
      ensures VoteDone(c, option, out, status)
    {
      if c.nick.None? {
        return [Envelope(c, Error(NotInChat))], Closed;
      }
      if !c.stream.HasPoll() {
        return [Envelope(c, Error(NoSuchPoll))], Closed;
      }
      if c.stream.HasVoted(c) == Ok(true) {
        return [Envelope(c, Error(AlreadyVoted))], Closed;
      }
      var has := c.stream.HasPollOption(option);
      if has.Err? {
        return [], Crashed(ShadowedCrash);
      }
      if has == Ok(false) {
        return [Envelope(c, Error(NoSuchOption))], Closed;
      }
      var r;
      r, out := c.stream.Vote(c, option);
      status := Open;
    }

    /** Whether a tracked client of stream `s` already holds `nick`. */
    ghost predicate NickHeld(s: Stream, nick: string)
      reads this, clients
    {
      exists i :: 0 <= i < |clients| && clients[i].stream == s && clients[i].nick == Some(nick)
    }

    /** The `assert` handler's loop over every tracked client. */
    method NickInUseOn(s: Stream, nick: string) returns (taken: bool)
      ensures taken <==> NickHeld(s, nick)
    {
      var i := 0;
      while i < |clients|
        invariant 0 <= i <= |clients|
        invariant forall j :: 0 <= j < i ==> !(clients[j].stream == s && clients[j].nick == Some(nick))
      {
        if clients[i].stream == s && clients[i].nick == Some(nick) {
          return true;
        }
        i := i + 1;
      }
      return false;
    }

    /**
     * The outcome of `assert`, once Persona has answered (`verified` is the
     * verified email, none when the assertion failed): a failure is answered
     * with an error and a close. Otherwise the email is recorded; an email
     * without an account gets `choose_nick`; an account the registry cannot
     * produce crashes; an account whose nick a client of this stream already
     * holds gets `nick_in_use`; else the client joins chat under the
     * account's nick, gets `nick_chosen`, then (while a poll runs) the poll
     * with any vote already cast under that nick, and everyone in the stream
     * is told.
     */
    twostate predicate AssertDone(c: Client, verified: Option<string>, new out: Outbox, status: Status)
      reads this, clients, registry, c, c.stream, c.stream.clients
    {
      && (verified.None? ==> out == [Envelope(c, Error(BadPersonaAssertion))] && status == Closed && unchanged(c))
      && (verified.Some? ==> c.email == verified)
      && (verified.Some? && !registry.HaveEmail(verified.value) ==>
            out == [Envelope(c, ChooseNick(false))] && status == Open
            && c.nick == old(c.nick) && c.pollVote == old(c.pollVote))
      && (verified.Some? && registry.HaveEmail(verified.value) && registry.Valid() ==> status == Open)
      && (verified.Some? && registry.HaveEmail(verified.value) && registry.GetByEmail(verified.value).Err? ==>
            out == [] && status == Crashed("No such account nick"))
      && (verified.Some? && registry.GetByEmail(verified.value).Ok? ==>
            var nick := registry.GetByEmail(verified.value).value.nick;
            var poll := c.stream.currentPoll;
            && (old(NickHeld(c.stream, nick)) ==>
                  out == [Envelope(c, NickInUse(nick))] && status == Open
                  && c.nick == old(c.nick) && c.pollVote == old(c.pollVote))
            && (!old(NickHeld(c.stream, nick)) ==>
                  && c.nick == Some(nick) && status == Open
                  && out == [Envelope(c, NickChosen(nick))]
                            + (if poll.Some? then [Envelope(c, PollState(poll, c.pollVote))] else [])
                            + Fanout(c.stream.clients, Joined(nick))
                  && (poll.Some? && VotedUnder(poll.value, c.nick) ==>
                        c.pollVote.Some? && c.pollVote.value in poll.value.options
                        && c.nick in poll.value.options[c.pollVote.value])
                  && (!(poll.Some? && VotedUnder(poll.value, c.nick)) ==> c.pollVote == old(c.pollVote))))
    }

    /** `assert`. */
    method OnAssert(c: Client, verified: Option<string>) returns (out: Outbox, status: Status)
      modifies c`email, c`nick, c`pollVote
      ensures AssertDone(c, verified, out, status)
    {
      if verified.None? {
        return [Envelope(c, Error(BadPersonaAssertion))], Closed;
      }
      var email := verified.value;
      c.email := Some(email);
      if !registry.HaveEmail(email) {
        return [Envelope(c, ChooseNick(false))], Open;
      }
      var account := registry.GetByEmail(email);
      if account.Err? {
        return [], Crashed("No such account nick");
      }
      var nick := account.value.nick;
      var taken := NickInUseOn(c.stream, nick);
      if taken {
        return [Envelope(c, NickInUse(nick))], Open;
      }
      c.nick := Some(nick);
      var joined := c.stream.OnJoinChat(c);
      var told := c.stream.Broadcast(Joined(nick));
      out := [Envelope(c, NickChosen(nick))] + joined + told;
      status := Open;
    }

    /** Neither the client, its stream, nor the stream's clients changed. */
    twostate predicate NothingChanged(c: Client)
      reads c, c.stream, c.stream.clients
    {
      unchanged(c) && unchanged(c.stream) && c.stream.clients == old(c.stream.clients) && unchanged(c.stream.clients)
    }

    /**
     * A control-gated packet from a controller: the stream operation it
     * names runs, the client and the stream's clients stay as they were, and
     * the stream's persisted fields become `GatedFields` of the old ones.
     */
    twostate predicate GatedDone(c: Client, p: Inbound, now: real, fetched: Option<string>, new out: Outbox, status: Status)
      requires ControlGated(p)
      reads c, c.stream, c.stream.clients
    {
      var was := old(c.stream.Snapshot());
      && status == Open
      && c.email == old(c.email) && c.nick == old(c.nick) && c.pollVote == old(c.pollVote)
      && c.stream.clients == old(c.stream.clients)
      && (forall cl :: cl in c.stream.clients ==> cl.pollVote == old(cl.pollVote))
      && c.stream.Snapshot() == GatedFields(was, p, now, fetched)
      && out == match p
                case ReplacePlaylist(pl, cur) => Fanout(c.stream.clients, PlaylistUpdate(pl, cur))
                case Retitle(t) => Fanout(c.stream.clients, TitleChange(t, None))
                case AddUrl(_) => Fanout(c.stream.clients, PlaylistUpdate(c.stream.playlist, c.stream.current))
                case PlayAt(t) => FanoutExcept(c.stream.clients, c, Played(t))
                case StopAt(t) => FanoutExcept(c.stream.clients, c, Played(t))
                case CueAt(i) =>
                  Fanout(c.stream.clients, Cued(i))
                  + (if ValidIndex(was.playlist, i) then Fanout(c.stream.clients, PlaylistUpdate(c.stream.playlist, i)) else [])
    }

    /** The `update_playlist`, `change_title`, `add_url`, `play`, `stop` and `cue` arms, past the control check. */
    method OnGatedPacket(c: Client, p: Inbound, now: real, fetched: Option<string>) returns (out: Outbox, status: Status)
      requires ControlGated(p)
      modifies c.stream`playlist, c.stream`current, c.stream`title, c.stream`playing, c.stream`time, c.stream`timeFrom
      ensures GatedDone(c, p, now, fetched, out, status)
    {
      status := Open;
      match p {
        case ReplacePlaylist(pl, cur) =>
          out := c.stream.UpdatePlaylist(pl, cur);
        case Retitle(t) =>
          out := c.stream.ChangeTitle(t, None);
        case AddUrl(id) =>
          out := c.stream.AddVideo(id, None, fetched);
        case PlayAt(t) =>
          out := c.stream.Play(t, c, now);
        case StopAt(t) =>
          out := c.stream.Play(t, c, now);
        case CueAt(i) =>
          out := c.stream.Cue(i, now);
      }
    }

    /**
     * A packet that needs no control: `set_stream` without an id is a bad
     * request and with one crashes on the undefined `streams`; `re_sync`
     * answers with the stream's position; `set_nick` is refused for a bad
     * nick or a client not logged in, and otherwise crashes on the undefined
     * `accounts`; `assert`, `msg` and `vote` do what their handlers do; any
     * other type is refused. The first two and the last touch nothing.
     */
    twostate predicate UngatedDone(c: Client, p: Inbound, now: real, verified: Option<string>, new out: Outbox, status: Status)
      requires !ControlGated(p)
      reads this, clients, store, store.streams, registry, c, c.stream, c.stream.clients
    {
      match p
      case SetStream(id, _) =>
        && NothingChanged(c)
        && (id.None? ==> out == [Envelope(c, Error(BadRequest))] && status == Closed)
        && (id.Some? ==> out == [] && status == Crashed("ReferenceError: streams is not defined"))
      case ReSync =>
        out == [Envelope(c, Resync(c.stream.RelativeTime(now), c.stream.playing))] && status == Open
        && NothingChanged(c)
      case Assert(_) => AssertDone(c, verified, out, status)
      case SetNick(nick) =>
        && NothingChanged(c)
        && (!IsValidNick(nick) ==> out == [Envelope(c, Error(BadNick))] && status == Closed)
        && (IsValidNick(nick) && c.email.None? ==> out == [Envelope(c, Error(NotLoggedIn))] && status == Closed)
        && (IsValidNick(nick) && c.email.Some? ==> out == [] && status == Crashed("ReferenceError: accounts is not defined"))
      case Say(text) => SayDone(c, text, out, status)
      case CastVote(option) => VoteDone(c, option, out, status)
      case Unrecognised(_) =>
        out == [Envelope(c, Error(UnknownPacketType))] && status == Closed && NothingChanged(c)
    }

    /** The arms of the packet switch that need no control. */
    method OnUngatedPacket(c: Client, p: Inbound, now: real, verified: Option<string>) returns (out: Outbox, status: Status)
      requires !ControlGated(p)
      modifies c`email, c`nick, c`pollVote, c.stream`currentPoll, c.stream.clients`pollVote
      ensures UngatedDone(c, p, now, verified, out, status)
    {
      status := Open;
      match p {
        case SetStream(id, control) =>
          if id.None? {
            out, status := [Envelope(c, Error(BadRequest))], Closed;
          } else {
            out, status := [], Crashed("ReferenceError: streams is not defined");
          }
        case ReSync =>
          out := [Envelope(c, Resync(c.stream.RelativeTime(now), c.stream.playing))];
        case Assert(_) =>
          out, status := OnAssert(c, verified);
        case SetNick(nick) =>
          if !IsValidNick(nick) {
            out, status := [Envelope(c, Error(BadNick))], Closed;
          } else if c.email.None? {
            out, status := [Envelope(c, Error(NotLoggedIn))], Closed;
          } else {
            out, status := [], Crashed("ReferenceError: accounts is not defined");
          }
        case Say(text) =>
          out, status := OnSay(c, text);
        case CastVote(option) =>
          out, status := OnVote(c, option);
        case Unrecognised(_) =>
          out, status := [Envelope(c, Error(UnknownPacketType))], Closed;
      }
    }

    /**
     * One websocket frame: a binary frame or text that is not JSON is kicked;
     * a packet is dispatched by type. A control-gated packet from a client
     * without control gets `not_control` and a close, and touches nothing.
     */
    method HandleFrame(c: Client, frame: Frame, now: real, fetched: Option<string>, verified: Option<string>)
      returns (out: Outbox, status: Status)
      modifies c`email, c`nick, c`pollVote, c.stream.clients`pollVote
      modifies c.stream`currentPoll, c.stream`playlist, c.stream`current, c.stream`title
      modifies c.stream`playing, c.stream`time, c.stream`timeFrom
      ensures frame == BinaryFrame || frame == TextFrame(None) ==>
                out == [Envelope(c, KickProtocolError)] && status == Closed && NothingChanged(c)
      ensures frame.TextFrame? && frame.packet.Some? && ControlGated(frame.packet.value) && !c.control ==>
                out == [Envelope(c, Error(NotControl))] && status == Closed && NothingChanged(c)
      ensures frame.TextFrame? && frame.packet.Some? && ControlGated(frame.packet.value) && c.control ==>
                GatedDone(c, frame.packet.value, now, fetched, out, status)
      ensures frame.TextFrame? && frame.packet.Some? && !ControlGated(frame.packet.value) ==>
                UngatedDone(c, frame.packet.value, now, verified, out, status)
    {
      if frame.BinaryFrame? || frame.packet.None? {
        return [Envelope(c, KickProtocolError)], Closed;
      }
      var p := frame.packet.value;
      if ControlGated(p) {
        if !c.control {
          return [Envelope(c, Error(NotControl))], Closed;
        }
        out, status := OnGatedPacket(c, p, now, fetched);
      } else {
        out, status := OnUngatedPacket(c, p, now, verified);
      }
    }
  }
}
