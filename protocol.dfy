/**
 * The lunasync wire protocol, as already-parsed values: the packets a viewer's
 * browser sends, the packets the server sends back, and the playlist and poll
 * records they carry. JSON framing is not modelled; a frame that is binary or
 * not valid JSON is its own case.
 */
module Protocol {
  import opened Wrappers

  /**
   * A playlist entry. `kind` is the video site (`youtube`, `twitch`, ...),
   * `views` the number of times it was cued; either may be absent, since the
   * browser sends back whatever playlist it holds and the earlier server
   * revision writes neither.
   */
  datatype Video = Video(kind: Option<string>, id: Option<string>, title: string, views: Option<nat>)

  /**
   * A running poll: its title and, per option label, the nicks of the clients
   * that voted for it in the order they voted. A voter that was not in chat
   * is recorded as null.
   */
  datatype Poll = Poll(title: string, options: map<string, seq<Option<string>>>)

  /** The `error` field of an `error` packet. */
  datatype ErrorKind =
    | NotFound            // not_found
    | BadRequest          // bad_request
    | BadPersonaAssertion // bad_persona_assertion
    | BadNick             // bad_nick
    | NotLoggedIn         // not_logged_in
    | NotInChat           // not_in_chat
    | NoSuchPoll          // no_such_poll
    | AlreadyVoted        // already_voted
    | NoSuchOption        // no_such_option
    | NotControl          // not_control
    | UnknownPacketType   // unknown_packet_type

  /** Server to browser packets, one constructor per `type` (and field set). */
  datatype Msg =
    | StreamInfo(title: string, id: string, playing: bool, current: Option<int>, time: real,
                 playlist: seq<Video>, poll: Option<Poll>, control: bool)          // stream_info
    | BasicStreamInfo(title: string, id: string, playing: bool, current: Option<int>, time: real,
                      playlist: seq<Video>, control: bool)                          // stream_info without poll
    | Viewers(count: nat)                                                           // viewers
    | PollState(poll: Option<Poll>, vote: Option<string>)                           // poll
    | PollResults(results: map<string, seq<Option<string>>>, title: string,
                  closedBy: Option<string>)                                         // poll_results
    | ChatInfo(text: string)                                                        // chat_info {msg}
    | ChatInfoError(text: string)                                                   // chat_info {error}
    | Muted(nick: string, byNick: Option<string>)                                       // mute
    | Unmuted(nick: string, prefix: string, byNick: Option<string>)                     // unmute
    | PlaylistUpdate(playlist: seq<Video>, current: Option<int>)                    // update_playlist
    | TitleChange(title: string, byNick: Option<string>)                                // change_title
    | CssChange(css: string, byNick: Option<string>)                                    // change_css
    | ShuffleChange(shuffle: bool)                                                  // change_shuffle
    | Played(time: real)                                                            // play
    | Resync(time: real, playing: bool)                                             // play {time, playing}
    | Stopped(time: real)                                                           // stop
    | Cued(current: Option<int>)                                                    // cue
    | Joined(nick: string)                                                          // join
    | Left(who: Option<string>)                                                     // leave
    | NickChosen(nick: string)                                                      // nick_chosen
    | ChooseNick(taken: bool)                                                       // choose_nick [reason: nick_taken]
    | NickInUse(nick: string)                                                       // nick_in_use
    | ChatLine(nick: string, text: string)                                          // msg
    | Error(error: ErrorKind)                                                       // error
    | KickProtocolError                                                             // kick {reason: protocol_error}

  /** One packet sent to one recipient. */
  datatype Envelope<A> = Envelope(to: A, msg: Msg)

  /** Browser to server packets, by `type`; `Unrecognised` is any other type. */
  datatype Inbound =
    | SetStream(id: Option<string>, control: Option<string>)   // set_stream
    | ReSync                                                   // re_sync
    | Assert(assertion: string)                                // assert
    | SetNick(nick: string)                                    // set_nick
    | Say(text: string)                                        // msg
    | CastVote(option: string)                                 // vote
    | ReplacePlaylist(playlist: seq<Video>, current: Option<int>) // update_playlist
    | Retitle(title: string)                                   // change_title
    | AddUrl(videoId: string)                                     // add_url
    | PlayAt(time: real)                                       // play
    | StopAt(time: real)                                       // stop
    | CueAt(current: Option<int>)                              // cue
    | Unrecognised(typeName: string)

  /** A websocket frame: binary, or text that parsed to a packet (none when it is not JSON). */
  datatype Frame = BinaryFrame | TextFrame(packet: Option<Inbound>)

  /** The packets that need control of the stream. */
  predicate ControlGated(p: Inbound) {
    p.ReplacePlaylist? || p.Retitle? || p.AddUrl? || p.PlayAt? || p.StopAt? || p.CueAt?
  }

  /** `forEach(cl => cl.send(m))`: one copy of `m` to each recipient, in order. */
  function Fanout<A>(to: seq<A>, m: Msg): (r: seq<Envelope<A>>)
    ensures |r| == |to|
    ensures forall i :: 0 <= i < |to| ==> r[i] == Envelope(to[i], m)
  {
    if to == [] then [] else [Envelope(to[0], m)] + Fanout(to[1..], m)
  }

  /** `forEach(cl => { cl.send(m1); cl.send(m2); })`: each recipient gets `m1` then `m2`. */
  function Fanout2<A>(to: seq<A>, m1: Msg, m2: Msg): (r: seq<Envelope<A>>)
    ensures |r| == 2 * |to|
    ensures forall i :: 0 <= i < |to| ==> r[2 * i] == Envelope(to[i], m1) && r[2 * i + 1] == Envelope(to[i], m2)
  {
    if to == [] then [] else [Envelope(to[0], m1), Envelope(to[0], m2)] + Fanout2(to[1..], m1, m2)
  }

  /** `forEach(cl => { if (cl !== origin) cl.send(m); })`: every recipient but `origin`, in order. */
  function FanoutExcept<A(==)>(to: seq<A>, origin: A, m: Msg): seq<Envelope<A>> {
    if to == [] then []
    else (if to[0] == origin then [] else [Envelope(to[0], m)]) + FanoutExcept(to[1..], origin, m)
  }

  /** The fan-out reaches every recipient but `origin`, and only those, with `m`. */
  lemma {:induction false} FanoutExceptRecipients<A>(to: seq<A>, origin: A, m: Msg)
    ensures forall e :: e in FanoutExcept(to, origin, m) ==> e.msg == m && e.to in to && e.to != origin
    ensures forall x :: x in to && x != origin ==> Envelope(x, m) in FanoutExcept(to, origin, m)
  {
    if to != [] {
      FanoutExceptRecipients(to[1..], origin, m);
      forall x | x in to && x != origin
        ensures Envelope(x, m) in FanoutExcept(to, origin, m)
      {
        if x != to[0] {
          assert x in to[1..];
        }
      }
    }
  }

  /** The number of packets in `out` addressed to `x`. */
  function CountTo<A(==)>(out: seq<Envelope<A>>, x: A): nat {
    if out == [] then 0 else (if out[0].to == x then 1 else 0) + CountTo(out[1..], x)
  }

  /** With distinct recipients, a fan-out reaches each of them exactly once. */
  lemma {:induction false} FanoutOncePerRecipient<A>(to: seq<A>, m: Msg, x: A)
    requires forall i, j :: 0 <= i < j < |to| ==> to[i] != to[j]
    ensures CountTo(Fanout(to, m), x) == if x in to then 1 else 0
  {
    if to != [] {
      var r := Fanout(to, m);
      assert r[1..] == Fanout(to[1..], m);
      FanoutOncePerRecipient(to[1..], m, x);
      assert x in to <==> x == to[0] || x in to[1..];
    }
  }
}
