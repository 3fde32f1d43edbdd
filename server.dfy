/**
 * The earlier, monolithic server (server/server.js): one `message` handler
 * over global `streams`, `clients` and account maps, with plain stream
 * records and counting loops instead of the stream engine.
 *
 * Two pieces of global state shape the model. `stream` is never declared
 * in the socket handler, so it is one variable shared by every connection:
 * `lastStream`, the stream of the latest successful `set_stream` on any
 * connection (`re_sync` reads it). And each connection's `client` is null
 * until its own `set_stream` succeeds, so a packet that reads it before
 * then throws out of the handler (`Crashed`).
 */
module Monolith {
  import opened Wrappers
  import opened Protocol
  import opened Text
  import opened JsArray
  import Base36
  import Accounts
  import Dispatch

  type Status = Dispatch.Status
  type Outbox = seq<Envelope<Connection>>

  const ClientIsNull := Dispatch.Crashed("TypeError: client is null")

  /** One websocket connection and the client record its `set_stream` made, if any. */
  class Connection {
    var client: Option<ClientRecord>

    constructor ()
      ensures client == None
    {
      client := None;
    }
  }

  /** A stream as `/new` creates it. */
  class StreamRecord {
    var title: string
    const id: string
    const secret: string
    var playing: bool
    var current: Option<int>
    var time: Option<real>
    var playlist: seq<Video>
    var timeFrom: real

    /** The `/new` record: stopped, no entry cued, no time, an empty playlist. */
    constructor (title: string, id: string, secret: string, now: real)
      ensures this.title == title && this.id == id && this.secret == secret
      ensures !playing && current == None && time == None && playlist == [] && timeFrom == now
    {
      this.title, this.id, this.secret := title, id, secret;
      playing, current, time, playlist, timeFrom := false, None, None, [], now;
    }

    /** `stream.time + (secs() - stream.timeFrom)`, a null time counting as 0. */
    function RelativeTime(now: real): real
      reads this
    {
      time.GetOr(0.0) + (now - timeFrom)
    }

    /** The fields a controller's packets may change. */
    function State(): RecordState
      reads this
    {
      RecordState(title, playing, current, time, playlist, timeFrom)
    }
  }

  /** The mutable fields of a stream record (its id and secret never change). */
  datatype RecordState = RecordState(
    title: string, playing: bool, current: Option<int>, time: Option<real>, playlist: seq<Video>, timeFrom: real)

  /**
   * A stream record's fields after a controller's gated packet: only those
   * the packet's arm assigns change. A new entry carries only the id and the
   * fetched title, or `YouTube Video: <id>` when there is none; `stop` keeps
   * `timeFrom`.
   */
  function Controlled(was: RecordState, p: Inbound, now: real, fetched: Option<string>): RecordState
    requires ControlGated(p)
  {
    match p
    case ReplacePlaylist(pl, cur) => was.(playlist := pl, current := cur)
    case Retitle(t) => was.(title := t)
    case AddUrl(id) =>
      was.(playlist := was.playlist + [Video(None, Some(id), if fetched.Some? then fetched.value else "YouTube Video: " + id, None)])
    case PlayAt(t) => was.(playing := true, time := Some(t), timeFrom := now)
    case StopAt(t) => was.(playing := false, time := Some(t))
    case CueAt(i) => was.(playing := true, time := Some(0.0), timeFrom := now, current := i)
  }

  /** The packets handled for a client in chat: `assert`, `set_nick` and `msg`. */
  predicate ChatPacket(p: Inbound) {
    p.Assert? || p.SetNick? || p.Say?
  }

  /** The record `set_stream` pushes onto `clients`. */
  class ClientRecord {
    const stream: StreamRecord
    const control: bool
    const conn: Connection
    var nick: Option<string>
    var email: Option<string>

    constructor (stream: StreamRecord, control: bool, conn: Connection)
      ensures this.stream == stream && this.control == control && this.conn == conn
      ensures nick == None && email == None
    {
      this.stream, this.control, this.conn := stream, control, conn;
      nick, email := None, None;
    }
  }

  /** The tracked clients watching `s`, in list order. */
  function Viewing(cs: seq<ClientRecord>, s: StreamRecord): (r: seq<ClientRecord>)
    ensures |r| <= |cs|
    ensures forall i :: 0 <= i < |r| ==> r[i] in cs && r[i].stream == s
    ensures forall i :: 0 <= i < |cs| && cs[i].stream == s ==> cs[i] in r
  {
    if cs == [] then []
    else
      var rest := Viewing(cs[1..], s);
      assert forall i :: 1 <= i < |cs| && cs[i].stream == s ==> cs[i] in rest by {
        forall i | 1 <= i < |cs| && cs[i].stream == s ensures cs[i] in rest {
          assert cs[i] == cs[1..][i - 1];
        }
      }
      (if cs[0].stream == s then [cs[0]] else []) + rest
  }

  /** The tracked clients watching `s`, other than `me`. */
  function Others(cs: seq<ClientRecord>, s: StreamRecord, me: ClientRecord): (r: seq<ClientRecord>)
    ensures |r| <= |cs|
    ensures forall i :: 0 <= i < |r| ==> r[i] in cs && r[i].stream == s && r[i] != me
    ensures forall i :: 0 <= i < |cs| && cs[i].stream == s && cs[i] != me ==> cs[i] in r
  {
    if cs == [] then []
    else
      var rest := Others(cs[1..], s, me);
      assert forall i :: 1 <= i < |cs| && cs[i].stream == s && cs[i] != me ==> cs[i] in rest by {
        forall i | 1 <= i < |cs| && cs[i].stream == s && cs[i] != me ensures cs[i] in rest {
          assert cs[i] == cs[1..][i - 1];
        }
      }
      (if cs[0].stream == s && cs[0] != me then [cs[0]] else []) + rest
  }

  /** The connections of some client records. */
  function Conns(cs: seq<ClientRecord>): (r: seq<Connection>)
    ensures |r| == |cs|
    ensures forall i :: 0 <= i < |cs| ==> r[i] == cs[i].conn
  {
    seq(|cs|, i requires 0 <= i < |cs| => cs[i].conn)
  }

  /** The chat nicks among some client records, in order. This mirrors
      `Dispatch.ChatNicks` over the monolith's own client records, which are
      a different type from the `Dispatch` clients. */
  function Nicks(cs: seq<ClientRecord>): (r: seq<string>)
    reads cs
    ensures |r| <= |cs|
    ensures forall n :: n in r ==> exists i :: 0 <= i < |cs| && cs[i].nick == Some(n)
    ensures forall i :: 0 <= i < |cs| && cs[i].nick.Some? ==> cs[i].nick.value in r
  {
    if cs == [] then []
    else
      var rest := Nicks(cs[1..]);
      assert forall n :: n in rest ==> exists i :: 0 <= i < |cs| && cs[i].nick == Some(n) by {
        forall n | n in rest ensures exists i :: 0 <= i < |cs| && cs[i].nick == Some(n) {
          var j :| 0 <= j < |cs[1..]| && cs[1..][j].nick == Some(n);
          assert cs[j + 1] == cs[1..][j];
        }
      }
      assert forall i :: 1 <= i < |cs| && cs[i].nick.Some? ==> cs[i].nick.value in rest by {
        forall i | 1 <= i < |cs| && cs[i].nick.Some? ensures cs[i].nick.value in rest {
          assert cs[i] == cs[1..][i - 1];
        }
      }
      (if cs[0].nick.Some? then [cs[0].nick.value] else []) + rest
  }

  lemma {:induction false} ViewingSnoc(cs: seq<ClientRecord>, x: ClientRecord, s: StreamRecord)
    ensures Viewing(cs + [x], s) == Viewing(cs, s) + (if x.stream == s then [x] else [])
  {
    if cs != [] {
      assert (cs + [x])[1..] == cs[1..] + [x];
      ViewingSnoc(cs[1..], x, s);
    }
  }

  lemma {:induction false} OthersSnoc(cs: seq<ClientRecord>, x: ClientRecord, s: StreamRecord, me: ClientRecord)
    ensures Others(cs + [x], s, me) == Others(cs, s, me) + (if x.stream == s && x != me then [x] else [])
  {
    if cs != [] {
      assert (cs + [x])[1..] == cs[1..] + [x];
      OthersSnoc(cs[1..], x, s, me);
    }
  }

  lemma {:induction false} NicksSnoc(cs: seq<ClientRecord>, x: ClientRecord)
    ensures Nicks(cs + [x]) == Nicks(cs) + (if x.nick.Some? then [x.nick.value] else [])
  {
    if cs != [] {
      assert (cs + [x])[1..] == cs[1..] + [x];
      NicksSnoc(cs[1..], x);
    }
  }

  /** Sending one packet to one more recipient. */
  lemma FanoutConnsSnoc(cs: seq<ClientRecord>, x: ClientRecord, m: Msg)
    ensures Fanout(Conns(cs + [x]), m) == Fanout(Conns(cs), m) + [Envelope(x.conn, m)]
  {
    var l, r := Fanout(Conns(cs + [x]), m), Fanout(Conns(cs), m) + [Envelope(x.conn, m)];
    assert |l| == |r|;
    forall i | 0 <= i < |l| ensures l[i] == r[i] {
      if i < |cs| { assert (cs + [x])[i] == cs[i]; }
    }
  }

  /** One more client of the list: `SendToStream`'s loop step. */
  lemma SendToStreamStep(cs: seq<ClientRecord>, i: nat, s: StreamRecord, m: Msg)
    requires i < |cs|
    ensures cs[i].stream == s ==>
              Fanout(Conns(Viewing(cs[..i + 1], s)), m) == Fanout(Conns(Viewing(cs[..i], s)), m) + [Envelope(cs[i].conn, m)]
    ensures cs[i].stream != s ==> Fanout(Conns(Viewing(cs[..i + 1], s)), m) == Fanout(Conns(Viewing(cs[..i], s)), m)
  {
    assert cs[..i + 1] == cs[..i] + [cs[i]];
    ViewingSnoc(cs[..i], cs[i], s);
    if cs[i].stream == s {
      FanoutConnsSnoc(Viewing(cs[..i], s), cs[i], m);
    } else {
      assert Viewing(cs[..i], s) + [] == Viewing(cs[..i], s);
    }
  }

  /** One more client of the list: `SendToOthers`' loop step. */
  lemma SendToOthersStep(cs: seq<ClientRecord>, i: nat, me: ClientRecord, m: Msg)
    requires i < |cs|
    ensures cs[i] != me && cs[i].stream == me.stream ==>
              Fanout(Conns(Others(cs[..i + 1], me.stream, me)), m)
              == Fanout(Conns(Others(cs[..i], me.stream, me)), m) + [Envelope(cs[i].conn, m)]
    ensures !(cs[i] != me && cs[i].stream == me.stream) ==>
              Fanout(Conns(Others(cs[..i + 1], me.stream, me)), m) == Fanout(Conns(Others(cs[..i], me.stream, me)), m)
  {
    assert cs[..i + 1] == cs[..i] + [cs[i]];
    OthersSnoc(cs[..i], cs[i], me.stream, me);
    if cs[i] != me && cs[i].stream == me.stream {
      FanoutConnsSnoc(Others(cs[..i], me.stream, me), cs[i], m);
    } else {
      assert Others(cs[..i], me.stream, me) + [] == Others(cs[..i], me.stream, me);
    }
  }

  /** One more client of the list: `CountViewing`'s loop step. */
  lemma CountViewingStep(cs: seq<ClientRecord>, i: nat, s: StreamRecord)
    requires i < |cs|
    ensures |Viewing(cs[..i + 1], s)| == |Viewing(cs[..i], s)| + (if cs[i].stream == s then 1 else 0)
  {
    assert cs[..i + 1] == cs[..i] + [cs[i]];
    ViewingSnoc(cs[..i], cs[i], s);
  }

  /** One more client of the list: `ChatNicksOn`'s loop step. */
  lemma ChatNicksStep(cs: seq<ClientRecord>, i: nat, s: StreamRecord)
    requires i < |cs|
    ensures cs[i].stream == s && cs[i].nick.Some? ==>
              Nicks(Viewing(cs[..i + 1], s)) == Nicks(Viewing(cs[..i], s)) + [cs[i].nick.value]
    ensures !(cs[i].stream == s && cs[i].nick.Some?) ==> Nicks(Viewing(cs[..i + 1], s)) == Nicks(Viewing(cs[..i], s))
  {
    assert cs[..i + 1] == cs[..i] + [cs[i]];
    ViewingSnoc(cs[..i], cs[i], s);
    var v := Viewing(cs[..i], s);
    if cs[i].stream == s {
      NicksSnoc(v, cs[i]);
      assert Nicks(v) + [] == Nicks(v);
    } else {
      assert v + [] == v;
    }
  }

  /** The viewer-count line. */
  function ViewerLine(n: nat): string {
    "now " + Decimal(n) + " users viewing stream"
  }

  /** The stream/client/account globals of server.js. */
  class Server {
    var streams: seq<StreamRecord>
    var clients: seq<ClientRecord>
    var accountEmails: map<string, string>
    var accounts: map<string, Accounts.Account>
    var lastStream: Option<StreamRecord>

    /** Stream ids are their base-36 positions. */
    ghost predicate Valid()
      reads this
    {
      forall i :: 0 <= i < |streams| ==> streams[i].id == Base36.ToBase36(i)
    }

    constructor ()
      ensures streams == [] && clients == [] && accountEmails == map[] && accounts == map[]
      ensures lastStream == None && Valid()
    {
      streams, clients, accountEmails, accounts, lastStream := [], [], map[], map[], None;
    }

    /** The `/new` handler's record, given the secret and the clock: its id is the base-36 stream count. */
    method NewStream(title: string, secret: string, now: real) returns (s: StreamRecord)
      requires Valid()
      modifies this`streams
      ensures Valid() && fresh(s)
      ensures streams == old(streams) + [s]
      ensures s.id == Base36.ToBase36(|old(streams)|) && s.title == title && s.secret == secret
      ensures !s.playing && s.current == None && s.time == None && s.playlist == [] && s.timeFrom == now
    {
      s := new StreamRecord(title, Base36.ToBase36(|streams|), secret, now);
      streams := streams + [s];
    }

    /** `streams.hasOwnProperty(parseInt(id, 36))`. */
    function Lookup(id: string): (r: Option<StreamRecord>)
      reads this
      ensures r.Some? <==> exists i :: 0 <= i < |streams| && Base36.ParseInt36(id) == Some(i)
      ensures r.Some? ==> r.value == streams[Base36.ParseInt36(id).value]
    {
      var n := Base36.ParseInt36(id);
      if n.Some? && 0 <= n.value < |streams| then Some(streams[n.value]) else None
    }

    /** The packet `count users viewing stream` loops: the number of tracked clients of `s`. */
    method CountViewing(s: StreamRecord) returns (users: nat)
      ensures users == |Viewing(clients, s)|
    {
      users := 0;
      var i := 0;
      while i < |clients|
        invariant 0 <= i <= |clients|
        invariant users == |Viewing(clients[..i], s)|
      {
        CountViewingStep(clients, i, s);
        if clients[i].stream == s {
          users := users + 1;
        }
        i := i + 1;
      }
      assert clients[..i] == clients;
    }

    /** `clients.forEach(cl => { if (cl.stream === s) sendTo(cl.conn, m); })`. */
    method SendToStream(s: StreamRecord, m: Msg) returns (out: Outbox)
      ensures out == Fanout(Conns(Viewing(clients, s)), m)
    {
      out := [];
      var i := 0;
      while i < |clients|
        invariant 0 <= i <= |clients|
        invariant out == Fanout(Conns(Viewing(clients[..i], s)), m)
      {
        SendToStreamStep(clients, i, s, m);
        if clients[i].stream == s {
          out := out + [Envelope(clients[i].conn, m)];
        }
        i := i + 1;
      }
      assert clients[..i] == clients;
    }

    /** The same loop, skipping the sender. */
    method SendToOthers(me: ClientRecord, m: Msg) returns (out: Outbox)
      ensures out == Fanout(Conns(Others(clients, me.stream, me)), m)
    {
      out := [];
      var i := 0;
      while i < |clients|
        invariant 0 <= i <= |clients|
        invariant out == Fanout(Conns(Others(clients[..i], me.stream, me)), m)
      {
        SendToOthersStep(clients, i, me, m);
        if clients[i] != me && clients[i].stream == me.stream {
          out := out + [Envelope(clients[i].conn, m)];
        }
        i := i + 1;
      }
      assert clients[..i] == clients;
    }

    /** The `users in chat` loop: the nicks of the clients of `s` that are in chat. */
    method ChatNicksOn(s: StreamRecord) returns (users: seq<string>)
      ensures users == Nicks(Viewing(clients, s))
    {
      users := [];
      var i := 0;
      while i < |clients|
        invariant 0 <= i <= |clients|
        invariant users == Nicks(Viewing(clients[..i], s))
      {
        ChatNicksStep(clients, i, s);
        if clients[i].stream == s && clients[i].nick.Some? {
          users := users + [clients[i].nick.value];
        }
        i := i + 1;
      }
      assert clients[..i] == clients;
    }

    /** The `/stats` loop: each stream some tracked client watches, once. */
    method ActiveStreams() returns (active: seq<StreamRecord>)
      ensures Distinct(active)
      ensures forall x :: x in active <==> exists i :: 0 <= i < |clients| && clients[i].stream == x
    {
      active := [];
      var i := 0;
      while i < |clients|
        invariant 0 <= i <= |clients|
        invariant Distinct(active)
        invariant forall x :: x in active <==> exists j :: 0 <= j < i && clients[j].stream == x
      {
        if JsArray.IndexOf(active, clients[i].stream) == -1 {
          active := active + [clients[i].stream];
        }
        i := i + 1;
      }
    }

    /** The streams some tracked client watches. */
    ghost function Watched(): set<StreamRecord>
      reads this
    {
      set i | 0 <= i < |clients| :: clients[i].stream
    }

    /** The `assert` loop: does a tracked client of `s` hold `nick`? */
    method NickTaken(s: StreamRecord, nick: string) returns (taken: bool)
      ensures taken <==> exists i :: 0 <= i < |clients| && clients[i].stream == s && clients[i].nick == Some(nick)
    {
      var i := 0;
      while i < |clients|
        invariant 0 <= i <= |clients|
        invariant forall j :: 0 <= j < i ==> !(clients[j].stream == s && clients[j].nick == Some(nick))
      {
        if clients[i].stream == s && clients[i].nick == Some(nick) {
          return true;
        }
        i := i + 1;
      }
      return false;
    }

    /**
     * `set_stream`: no id is a bad request, an id that names no stream is
     * not found, both closing. Otherwise a client record (control iff the
     * secrets match) is tracked, becomes this connection's client and the
     * shared `stream`; the connection gets `stream_info` without the secret
     * and the chat roster, and every client of the stream the viewer count.
     */
    twostate predicate SetStreamDone(conn: Connection, id: Option<string>, control: Option<string>, now: real,
                                     new out: Outbox, status: Status)
      reads this, conn, clients, streams, if conn.client.Some? then {conn.client.value} else {}
    {
      && (id.None? ==> out == [Envelope(conn, Error(BadRequest))] && status == Dispatch.Closed)
      && (id.Some? && Lookup(id.value).None? ==> out == [Envelope(conn, Error(NotFound))] && status == Dispatch.Closed)
      && (id.None? || Lookup(id.value).None? ==>
            clients == old(clients) && lastStream == old(lastStream) && conn.client == old(conn.client))
      && (id.Some? && Lookup(id.value).Some? ==>
            var s := Lookup(id.value).value;
            && status == Dispatch.Open
            && conn.client.Some? && fresh(conn.client.value)
            && conn.client.value.stream == s && conn.client.value.conn == conn
            && (conn.client.value.control <==> control == Some(s.secret))
            && conn.client.value.nick == None && conn.client.value.email == None
            && clients == old(clients) + [conn.client.value]
            && lastStream == Some(s)
            && out == WelcomePackets(conn, s, control == Some(s.secret), now))
    }

    method OnSetStream(conn: Connection, id: Option<string>, control: Option<string>, now: real)
      returns (out: Outbox, status: Status)
      modifies this`clients, this`lastStream, conn`client
      ensures SetStreamDone(conn, id, control, now, out, status)
    {
      if id.None? {
        return [Envelope(conn, Error(BadRequest))], Dispatch.Closed;
      }
      var found := Lookup(id.value);
      if found.None? {
        return [Envelope(conn, Error(NotFound))], Dispatch.Closed;
      }
      var s := found.value;
      lastStream := Some(s);
      var cl := new ClientRecord(s, control == Some(s.secret), conn);
      clients := clients + [cl];
      conn.client := Some(cl);
      out := Welcome(conn, s, cl.control, now);
      status := Dispatch.Open;
    }

    /**
     * What a successful `set_stream` sends, once the new client is tracked:
     * the stream's state to the new connection (the `control` flag is its
     * own), then the chat roster of the stream's clients, then the viewer
     * count to every client of the stream, the new one included.
     */
    function WelcomePackets(conn: Connection, s: StreamRecord, control: bool, now: real): Outbox
      reads this, clients, s
    {
      [Envelope(conn, BasicStreamInfo(s.title, s.id, s.playing, s.current, s.RelativeTime(now), s.playlist, control)),
       Envelope(conn, ChatInfo(Decimal(|Nicks(Viewing(clients, s))|) + " users in chat: " + Join(Nicks(Viewing(clients, s)), ", ")))]
      + Fanout(Conns(Viewing(clients, s)), ChatInfo(ViewerLine(|Viewing(clients, s)|)))
    }

    /** The packets a successful `set_stream` sends, built by its three loops. */
    method Welcome(conn: Connection, s: StreamRecord, control: bool, now: real) returns (out: Outbox)
      ensures out == WelcomePackets(conn, s, control, now)
    {
      var info := BasicStreamInfo(s.title, s.id, s.playing, s.current, s.RelativeTime(now), s.playlist, control);
      var users := ChatNicksOn(s);
      var count := CountViewing(s);
      var counts := SendToStream(s, ChatInfo(ViewerLine(count)));
      out := [Envelope(conn, info), Envelope(conn, ChatInfo(Decimal(|users|) + " users in chat: " + Join(users, ", ")))]
             + counts;
    }

    /**
     * `assert`, once Persona has answered: a failure closes. Otherwise the
     * email is recorded; an unknown email gets `choose_nick`; a nick a client
     * of this stream already holds gets `nick_in_use`; else the client joins
     * chat and every client of its stream is told.
     */
    twostate predicate AssertDone(me: ClientRecord, verified: Option<string>, new out: Outbox, status: Status)
      reads this, me, clients
    {
      && (verified.None? ==> out == [Envelope(me.conn, Error(BadPersonaAssertion))] && status == Dispatch.Closed
                             && unchanged(me))
      && (verified.Some? ==> me.email == verified)
      && (verified.Some? && verified.value !in accountEmails ==>
            out == [Envelope(me.conn, ChooseNick(false))] && status == Dispatch.Open && me.nick == old(me.nick))
      && (verified.Some? && verified.value in accountEmails && accountEmails[verified.value] !in accounts ==>
            out == [] && status == Dispatch.Crashed("TypeError: account is undefined") && me.nick == old(me.nick))
      && (verified.Some? && verified.value in accountEmails && accountEmails[verified.value] in accounts ==>
            var nick := accounts[accountEmails[verified.value]].nick;
            && status == Dispatch.Open
            && (old(exists i :: 0 <= i < |clients| && clients[i].stream == me.stream && clients[i].nick == Some(nick)) ==>
                  out == [Envelope(me.conn, NickInUse(nick))] && me.nick == old(me.nick))
            && (!old(exists i :: 0 <= i < |clients| && clients[i].stream == me.stream && clients[i].nick == Some(nick)) ==>
                  me.nick == Some(nick)
                  && out == [Envelope(me.conn, NickChosen(nick))] + Fanout(Conns(Viewing(clients, me.stream)), Joined(nick))))
    }

    method OnAssert(me: ClientRecord, verified: Option<string>) returns (out: Outbox, status: Status)
      modifies me`email, me`nick
      ensures AssertDone(me, verified, out, status)
    {
      if verified.None? {
        return [Envelope(me.conn, Error(BadPersonaAssertion))], Dispatch.Closed;
      }
      var email := verified.value;
      me.email := Some(email);
      if email !in accountEmails {
        return [Envelope(me.conn, ChooseNick(false))], Dispatch.Open;
      }
      if accountEmails[email] !in accounts {
        return [], Dispatch.Crashed("TypeError: account is undefined");
      }
      var nick := accounts[accountEmails[email]].nick;
      var taken := NickTaken(me.stream, nick);
      if taken {
        return [Envelope(me.conn, NickInUse(nick))], Dispatch.Open;
      }
      me.nick := Some(nick);
      var told := SendToStream(me.stream, Joined(nick));
      out := [Envelope(me.conn, NickChosen(nick))] + told;
      status := Dispatch.Open;
    }

    /**
     * `set_nick` from a connection with a client record: a malformed nick or
     * a client without an email closes; a taken nick (ignoring case) gets
     * `choose_nick` with the reason and stays open; otherwise both account
     * maps are set, the client joins chat and its stream is told.
     */
    twostate predicate SetNickDone(me: ClientRecord, nick: string, new out: Outbox, status: Status)
      reads this, me, clients
    {
      && me.email == old(me.email)
      && (!IsValid(nick) || me.email.None? || Lower(nick) in old(accounts) ==>
            accountEmails == old(accountEmails) && accounts == old(accounts) && me.nick == old(me.nick))
      && (!IsValid(nick) ==> out == [Envelope(me.conn, Error(BadNick))] && status == Dispatch.Closed)
      && (IsValid(nick) && me.email.None? ==> out == [Envelope(me.conn, Error(NotLoggedIn))] && status == Dispatch.Closed)
      && (IsValid(nick) && me.email.Some? && Lower(nick) in old(accounts) ==>
            out == [Envelope(me.conn, ChooseNick(true))] && status == Dispatch.Open)
      && (IsValid(nick) && me.email.Some? && Lower(nick) !in old(accounts) ==>
            && accountEmails == old(accountEmails)[me.email.value := Lower(nick)]
            && accounts == old(accounts)[Lower(nick) := Accounts.Account(me.email.value, nick)]
            && me.nick == Some(nick) && status == Dispatch.Open
            && out == [Envelope(me.conn, NickChosen(nick))] + Fanout(Conns(Viewing(clients, me.stream)), Joined(nick)))
    }

    method OnSetNick(me: ClientRecord, nick: string) returns (out: Outbox, status: Status)
      modifies this`accountEmails, this`accounts, me`nick
      ensures SetNickDone(me, nick, out, status)
    {
      if !IsValid(nick) {
        return [Envelope(me.conn, Error(BadNick))], Dispatch.Closed;
      }
      if me.email.None? {
        return [Envelope(me.conn, Error(NotLoggedIn))], Dispatch.Closed;
      }
      if Lower(nick) in accounts {
        return [Envelope(me.conn, ChooseNick(true))], Dispatch.Open;
      }
      accountEmails := accountEmails[me.email.value := Lower(nick)];
      accounts := accounts[Lower(nick) := Accounts.Account(me.email.value, nick)];
      me.nick := Some(nick);
      var told := SendToStream(me.stream, Joined(nick));
      out := [Envelope(me.conn, NickChosen(nick))] + told;
      status := Dispatch.Open;
    }

    /**
     * `msg`: refused with a close when not in chat; exactly `/stats` replies
     * with the stream count, the number of streams some client watches and
     * the client count; anything else goes to every client of the stream,
     * the sender included.
     */
    ghost predicate MsgDone(me: ClientRecord, text: string, out: Outbox, status: Status)
      reads this, me, clients
    {
      && (me.nick.None? ==> out == [Envelope(me.conn, Error(NotInChat))] && status == Dispatch.Closed)
      && (me.nick.Some? && text == "/stats" ==>
            out == [Envelope(me.conn, ChatInfo(Dispatch.StatsLine(|streams|, |Watched()|, |clients|)))]
            && status == Dispatch.Open)
      && (me.nick.Some? && text != "/stats" ==>
            out == Fanout(Conns(Viewing(clients, me.stream)), ChatLine(me.nick.value, text)) && status == Dispatch.Open)
    }

    method OnMsg(me: ClientRecord, text: string) returns (out: Outbox, status: Status)
      ensures MsgDone(me, text, out, status)
    {
      if me.nick.None? {
        return [Envelope(me.conn, Error(NotInChat))], Dispatch.Closed;
      }
      if text == "/stats" {
        var active := ActiveStreams();
        DistinctCard(active);
        assert (set x | x in active) == Watched();
        out := [Envelope(me.conn, ChatInfo(Dispatch.StatsLine(|streams|, |active|, |clients|)))];
      } else {
        out := SendToStream(me.stream, ChatLine(me.nick.value, text));
      }
      status := Dispatch.Open;
    }

    /**
     * The control-gated packets from a client with control: each updates the
     * stream record, then tells the stream's clients. `play` and `stop` skip
     * the sender, and `stop` leaves `timeFrom` as it was; `cue` tells
     * everyone, the sender included. A new entry carries only the id and the
     * fetched title, or `YouTube Video: <id>` when there is none.
     */
    twostate predicate ControlDone(me: ClientRecord, p: Inbound, now: real, fetched: Option<string>, new out: Outbox)
      requires ControlGated(p)
      reads this, clients, me.stream
    {
      && (p.ReplacePlaylist? ==>
            me.stream.playlist == p.playlist && me.stream.current == p.current
            && out == Fanout(Conns(Viewing(clients, me.stream)), PlaylistUpdate(p.playlist, p.current)))
      && (p.Retitle? ==>
            me.stream.title == p.title && out == Fanout(Conns(Viewing(clients, me.stream)), TitleChange(p.title, None)))
      && (p.AddUrl? ==>
            me.stream.playlist == old(me.stream.playlist)
              + [Video(None, Some(p.videoId), if fetched.Some? then fetched.value else "YouTube Video: " + p.videoId, None)]
            && out == Fanout(Conns(Viewing(clients, me.stream)), PlaylistUpdate(me.stream.playlist, me.stream.current)))
      && (p.PlayAt? ==>
            me.stream.playing && me.stream.time == Some(p.time) && me.stream.timeFrom == now
            && out == Fanout(Conns(Others(clients, me.stream, me)), Played(p.time)))
      && (p.StopAt? ==>
            !me.stream.playing && me.stream.time == Some(p.time) && me.stream.timeFrom == old(me.stream.timeFrom)
            && out == Fanout(Conns(Others(clients, me.stream, me)), Stopped(p.time)))
      && (p.CueAt? ==>
            me.stream.playing && me.stream.time == Some(0.0) && me.stream.timeFrom == now
            && me.stream.current == p.current
            && out == Fanout(Conns(Viewing(clients, me.stream)), Cued(p.current)))
      && (!p.AddUrl? ==> me.stream.playlist == old(me.stream.playlist) || p.ReplacePlaylist?)
      && me.stream.State() == Controlled(old(me.stream.State()), p, now, fetched)
    }

    method OnControl(me: ClientRecord, p: Inbound, now: real, fetched: Option<string>) returns (out: Outbox)
      requires ControlGated(p) && me.control
      modifies me.stream
      ensures ControlDone(me, p, now, fetched, out)
    {
      var s := me.stream;
      match p {
        case ReplacePlaylist(pl, cur) =>
          s.playlist, s.current := pl, cur;
          out := SendToStream(s, PlaylistUpdate(pl, cur));
        case Retitle(t) =>
          s.title := t;
          out := SendToStream(s, TitleChange(t, None));
        case AddUrl(id) =>
          var title := if fetched.Some? then fetched.value else "YouTube Video: " + id;
          s.playlist := s.playlist + [Video(None, Some(id), title, None)];
          out := SendToStream(s, PlaylistUpdate(s.playlist, s.current));
        case PlayAt(t) =>
          s.playing, s.time, s.timeFrom := true, Some(t), now;
          out := SendToOthers(me, Played(t));
        case StopAt(t) =>
          s.playing, s.time := false, Some(t);
          out := SendToOthers(me, Stopped(t));
        case CueAt(i) =>
          s.playing, s.time, s.timeFrom, s.current := true, Some(0.0), now, i;
          out := SendToStream(s, Cued(i));
      }
    }

    /** `^[a-zA-Z0-9_]{3,18}$`, as in the later revision. */
    predicate IsValid(nick: string) {
      Dispatch.IsValidNick(nick)
    }

    /** The tracked lists, the shared `stream` and the connection's record are as they were. */
    twostate predicate ListsKept(conn: Connection)
      reads this, conn
    {
      streams == old(streams) && clients == old(clients) && lastStream == old(lastStream) && conn.client == old(conn.client)
    }

    /** Neither the account maps nor the shared state changed. */
    twostate predicate AccountsKept()
      reads this
    {
      accountEmails == old(accountEmails) && accounts == old(accounts)
    }

    /** A client record and its stream record are as they were. */
    twostate predicate Untouched(me: ClientRecord)
      reads me, me.stream
    {
      unchanged(me) && unchanged(me.stream)
    }

    /**
     * A chat packet from the connection whose record is `me`: `assert`,
     * `set_nick` and `msg` do what their handlers state, and the stream
     * record stays as it was.
     */
    twostate predicate ChatDone(me: ClientRecord, p: Inbound, verified: Option<string>, new out: Outbox, status: Status)
      requires ChatPacket(p)
      reads this, me, clients, me.stream
    {
      && unchanged(me.stream)
      && match p
         case Assert(_) => AssertDone(me, verified, out, status) && AccountsKept()
         case SetNick(nick) => SetNickDone(me, nick, out, status)
         case Say(text) => MsgDone(me, text, out, status) && unchanged(me) && AccountsKept()
    }

    /**
     * One parsed packet on a connection whose record was `was`, by type:
     * each arm states what its handler does, and that nothing it does not
     * name changes.
     */
    twostate predicate PacketDone(conn: Connection, was: Option<ClientRecord>, p: Inbound, now: real,
                                  fetched: Option<string>, verified: Option<string>, new out: Outbox, status: Status)
      reads this, conn, clients, streams, if conn.client.Some? then {conn.client.value} else {}
      reads if was.Some? then {was.value, was.value.stream} else {}
      reads if lastStream.Some? then {lastStream.value} else {}
    {
      match p
      case SetStream(id, control) => SetStreamArmDone(conn, was, id, control, now, out, status)
      case ReSync => ReSyncDone(conn, was, now, out, status)
      case Unrecognised(_) => RefusedDone(conn, was, out, status)
      case CastVote(_) => RefusedDone(conn, was, out, status)
      case Assert(_) => ChatPacketDone(conn, was, p, verified, out, status)
      case SetNick(_) => ChatPacketDone(conn, was, p, verified, out, status)
      case Say(_) => ChatPacketDone(conn, was, p, verified, out, status)
      case _ => GatedArmDone(conn, was, p, now, fetched, out, status)
    }

    /** `set_stream` as its handler states it; the account maps, the streams and the old record stay. */
    twostate predicate SetStreamArmDone(conn: Connection, was: Option<ClientRecord>, id: Option<string>,
                                        control: Option<string>, now: real, new out: Outbox, status: Status)
      reads this, conn, clients, streams, if conn.client.Some? then {conn.client.value} else {}
      reads if was.Some? then {was.value, was.value.stream} else {}
    {
      && SetStreamDone(conn, id, control, now, out, status)
      && streams == old(streams) && AccountsKept()
      && (was.Some? ==> Untouched(was.value))
    }

    /** `re_sync`: the shared `stream`'s position, or a throw before any `set_stream` succeeded; nothing changes. */
    twostate predicate ReSyncDone(conn: Connection, was: Option<ClientRecord>, now: real, new out: Outbox, status: Status)
      reads this, conn, if was.Some? then {was.value, was.value.stream} else {}
      reads if lastStream.Some? then {lastStream.value} else {}
    {
      && unchanged(this, conn) && (was.Some? ==> Untouched(was.value))
      && (lastStream.None? ==> out == [] && status == Dispatch.Crashed("ReferenceError: stream is not defined"))
      && (lastStream.Some? ==>
            out == [Envelope(conn, Resync(lastStream.value.RelativeTime(now), lastStream.value.playing))]
            && status == Dispatch.Open)
    }

    /** An unknown packet type: `unknown_packet_type` and a close, nothing changed. */
    twostate predicate RefusedDone(conn: Connection, was: Option<ClientRecord>, new out: Outbox, status: Status)
      reads this, conn, if was.Some? then {was.value, was.value.stream} else {}
    {
      out == [Envelope(conn, Error(UnknownPacketType))] && status == Dispatch.Closed && unchanged(this, conn)
      && (was.Some? ==> Untouched(was.value))
    }

    /**
     * A chat packet on a connection whose record was `was`: without a
     * record, a failed `assert` and a malformed nick are refused and
     * anything else throws; with one, the packet does what its handler
     * states.
     */
    twostate predicate ChatPacketDone(conn: Connection, was: Option<ClientRecord>, p: Inbound, verified: Option<string>,
                                      new out: Outbox, status: Status)
      requires ChatPacket(p)
      reads this, conn, clients, if was.Some? then {was.value, was.value.stream} else {}
    {
      && ListsKept(conn)
      && (was.None? ==>
            && AccountsKept()
            && (p.Assert? && verified.None? ==> out == [Envelope(conn, Error(BadPersonaAssertion))] && status == Dispatch.Closed)
            && (p.SetNick? && !IsValid(p.nick) ==> out == [Envelope(conn, Error(BadNick))] && status == Dispatch.Closed)
            && (!(p.Assert? && verified.None?) && !(p.SetNick? && !IsValid(p.nick)) ==> out == [] && status == ClientIsNull))
      && (was.Some? ==> ChatDone(was.value, p, verified, out, status))
    }

    /**
     * A control-gated packet: it throws without a record and is refused
     * without control, changing nothing; a controller's packet updates its
     * stream record as `ControlDone` states, and nothing else.
     */
    twostate predicate GatedArmDone(conn: Connection, was: Option<ClientRecord>, p: Inbound, now: real,
                                    fetched: Option<string>, new out: Outbox, status: Status)
      requires ControlGated(p)
      reads this, conn, clients, if was.Some? then {was.value, was.value.stream} else {}
    {
      && (was.None? ==> out == [] && status == ClientIsNull && unchanged(this, conn))
      && (was.Some? && !was.value.control ==>
            out == [Envelope(conn, Error(NotControl))] && status == Dispatch.Closed
            && unchanged(this, conn) && Untouched(was.value))
      && (was.Some? && was.value.control ==>
            status == Dispatch.Open && ListsKept(conn) && AccountsKept() && unchanged(was.value)
            && ControlDone(was.value, p, now, fetched, out))
    }

    /**
     * The `message` handler: frames that are binary or not JSON are kicked;
     * `set_stream`, unknown types and a failed `assert` need no client
     * record; every other packet reads the connection's client and throws
     * while there is none; `re_sync` reads the shared `stream` and throws
     * before any `set_stream` has succeeded. A control-gated packet from a
     * client without control gets `not_control`, a close, and no change.
     */
    method HandleMessage(conn: Connection, frame: Frame, now: real, fetched: Option<string>, verified: Option<string>)
      returns (out: Outbox, status: Status)
      requires conn.client.Some? ==> conn.client.value.conn == conn
      modifies this`clients, this`lastStream, this`accountEmails, this`accounts, conn`client
      modifies (if conn.client.Some? then {conn.client.value} else {})`email
      modifies (if conn.client.Some? then {conn.client.value} else {})`nick
      modifies if conn.client.Some? then {conn.client.value.stream} else {}
      ensures frame == BinaryFrame || frame == TextFrame(None) ==>
                out == [Envelope(conn, KickProtocolError)] && status == Dispatch.Closed && unchanged(this, conn)
                && (old(conn.client).Some? ==> Untouched(old(conn.client).value))
      ensures frame.TextFrame? && frame.packet.Some? ==>
                PacketDone(conn, old(conn.client), frame.packet.value, now, fetched, verified, out, status)
    {
      if frame.BinaryFrame? || frame.packet.None? {
        return [Envelope(conn, KickProtocolError)], Dispatch.Closed;
      }
      var p := frame.packet.value;
      match p {
        case SetStream(_, _) =>
          out, status := OnSetStreamPacket(conn, p, now);
        case ReSync =>
          out, status := OnReSync(conn, now);
        case Assert(_) =>
          out, status := OnChatPacket(conn, p, verified);
        case SetNick(_) =>
          out, status := OnChatPacket(conn, p, verified);
        case Say(_) =>
          out, status := OnChatPacket(conn, p, verified);
        case Unrecognised(_) =>
          out, status := [Envelope(conn, Error(UnknownPacketType))], Dispatch.Closed;
        case CastVote(_) =>
          out, status := [Envelope(conn, Error(UnknownPacketType))], Dispatch.Closed;
        case _ =>
          out, status := OnGated(conn, p, now, fetched);
      }
    }

    /** The `set_stream` arm: a missing id or an unknown one closes the connection, a known one keeps it open. */
    method OnSetStreamPacket(conn: Connection, p: Inbound, now: real) returns (out: Outbox, status: Status)
      requires p.SetStream?
      modifies this`clients, this`lastStream, conn`client
      ensures p.id.None? ==> out == [Envelope(conn, Error(BadRequest))] && status == Dispatch.Closed
      ensures p.id.Some? ==> (status == Dispatch.Open <==> Lookup(p.id.value).Some?)
      ensures p.id.Some? && Lookup(p.id.value).None? ==> out == [Envelope(conn, Error(NotFound))]
      ensures SetStreamArmDone(conn, old(conn.client), p.id, p.control, now, out, status)
    {
      out, status := OnSetStream(conn, p.id, p.control, now);
    }

    /** The `re_sync` arm: it reads the shared `stream`, which is undefined until some `set_stream` succeeds. */
    method OnReSync(conn: Connection, now: real) returns (out: Outbox, status: Status)
      ensures ReSyncDone(conn, conn.client, now, out, status)
    {
      if lastStream.None? {
        out, status := [], Dispatch.Crashed("ReferenceError: stream is not defined");
      } else {
        var s := lastStream.value;
        out, status := [Envelope(conn, Resync(s.RelativeTime(now), s.playing))], Dispatch.Open;
      }
    }

    /**
     * The chat packets: `assert` (once the identity provider has answered),
     * `set_nick` with a valid nick, and `msg` all read the connection's
     * client record, so they throw on a connection without one.
     */
    method OnChatPacket(conn: Connection, p: Inbound, verified: Option<string>) returns (out: Outbox, status: Status)
      requires ChatPacket(p)
      requires conn.client.Some? ==> conn.client.value.conn == conn
      modifies this`accountEmails, this`accounts
      modifies (if conn.client.Some? then {conn.client.value} else {})`email
      modifies (if conn.client.Some? then {conn.client.value} else {})`nick
      ensures ChatPacketDone(conn, old(conn.client), p, verified, out, status)
    {
      match p {
        case Assert(_) =>
          if verified.Some? && conn.client.None? {
            out, status := [], ClientIsNull;
          } else if verified.None? {
            out, status := [Envelope(conn, Error(BadPersonaAssertion))], Dispatch.Closed;
          } else {
            out, status := OnAssert(conn.client.value, verified);
          }
        case SetNick(nick) =>
          if !IsValid(nick) {
            out, status := [Envelope(conn, Error(BadNick))], Dispatch.Closed;
          } else if conn.client.None? {
            out, status := [], ClientIsNull;
          } else {
            out, status := OnSetNick(conn.client.value, nick);
          }
        case Say(text) =>
          if conn.client.None? {
            out, status := [], ClientIsNull;
          } else {
            out, status := OnMsg(conn.client.value, text);
          }
      }
    }

    /**
     * The control packets' guard: a connection without a client record
     * throws, one without control is closed, and a controller's packet runs.
     */
    method OnGated(conn: Connection, p: Inbound, now: real, fetched: Option<string>) returns (out: Outbox, status: Status)
      requires ControlGated(p)
      modifies if conn.client.Some? then {conn.client.value.stream} else {}
      ensures GatedArmDone(conn, old(conn.client), p, now, fetched, out, status)
    {
      if conn.client.None? {
        out, status := [], ClientIsNull;
      } else if !conn.client.value.control {
        out, status := [Envelope(conn, Error(NotControl))], Dispatch.Closed;
      } else {
        out := OnControl(conn.client.value, p, now, fetched);
        status := Dispatch.Open;
      }
    }

    /**
     * `close`: for a connection with a client record, stop tracking it, tell
     * the stream's remaining clients it left when it was in chat, then send
     * each of them the new viewer count.
     */
    method OnClose(conn: Connection) returns (out: Outbox)
      modifies this`clients
      ensures conn.client.None? ==> out == [] && clients == old(clients)
      ensures conn.client.Some? ==>
                var me := conn.client.value;
                && clients == SpliceOne(old(clients), JsArray.IndexOf(old(clients), me))
                && out == (if me.nick.Some? then Fanout(Conns(Viewing(clients, me.stream)), Left(me.nick)) else [])
                          + Fanout(Conns(Viewing(clients, me.stream)), ChatInfo(ViewerLine(|Viewing(clients, me.stream)|)))
    {
      if conn.client.None? {
        return [];
      }
      var me := conn.client.value;
      clients := SpliceOne(clients, JsArray.IndexOf(clients, me));
      out := [];
      if me.nick.Some? {
        out := SendToStream(me.stream, Left(me.nick));
      }
      var users := CountViewing(me.stream);
      var counts := SendToStream(me.stream, ChatInfo(ViewerLine(users)));
      out := out + counts;
    }
  }

  /** A list without repeats has as many elements as its set. */
  lemma {:induction false} DistinctCard<T>(xs: seq<T>)
    requires Distinct(xs)
    ensures |set x | x in xs| == |xs|
  {
    if xs != [] {
      DistinctCard(xs[1..]);
      assert (set x | x in xs) == {xs[0]} + (set x | x in xs[1..]);
      assert xs[0] !in (set x | x in xs[1..]) by {
        forall i | 0 <= i < |xs[1..]| ensures xs[1..][i] != xs[0] {
          assert xs[1..][i] == xs[i + 1];
        }
      }
    }
  }

  /** `set_stream` with a stream's own id finds that stream. */
  lemma LookupById(srv: Server, i: nat)
    requires srv.Valid() && i < |srv.streams|
    ensures srv.Lookup(srv.streams[i].id) == Some(srv.streams[i])
  {
    Base36.ParseToBase36(i);
  }

  /** A tracked, distinct client list: closing one connection drops exactly its record. */
  lemma CloseDropsOne(cs: seq<ClientRecord>, me: ClientRecord)
    requires Distinct(cs) && me in cs
    ensures var after := SpliceOne(cs, JsArray.IndexOf(cs, me));
            me !in after && multiset(after) == multiset(cs) - multiset{me} && Distinct(after)
  {
    SpliceFound(cs, me);
  }
}
