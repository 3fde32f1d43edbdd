/**
 * The plain logic of the browser page (htdocs/lunasync.js): the YouTube URL
 * parser, the controller's reaction to player state changes, and the updates
 * that incoming packets make to the page's `state` object. The player and the
 * DOM are not modelled; a call into the player that throws is reported as
 * `threw`.
 */
module Browser {
  import opened Wrappers
  import opened Text
  import opened Protocol

  /** What `getVideoID` returns: an id string, `false`, or `undefined`. */
  datatype VideoId = Id(id: string) | NotValid | Undefined

  /** True when `pat` occurs at `k` and at no earlier position. */
  predicate FirstAt(s: string, pat: string, k: nat) {
    OccursAt(s, pat, k) && forall j :: 0 <= j < k ==> !OccursAt(s, pat, j)
  }

  lemma OneCharOccurs(s: string, c: char, j: nat)
    requires j < |s|
    ensures OccursAt(s, [c], j) <==> s[j] == c
  {
    assert s[j..j + 1] == [s[j]];
  }

  /** The URL with its `http://` or `https://` scheme and then an optional `www.` removed. */
  function Stripped(url: string): (r: Option<string>)
    ensures r.None? <==> !StartsWith(url, "http://") && !StartsWith(url, "https://")
    ensures r.Some? ==> |r.value| <= |url| && url[|url| - |r.value|..] == r.value
    ensures r.Some? ==> url[..|url| - |r.value|] in ["http://", "https://", "http://www.", "https://www."]
  {
    if StartsWith(url, "http://") then
      var rest := DropWww(url[7..]);
      assert url[..|url| - |rest|] == if StartsWith(url[7..], "www.") then "http://www." else "http://";
      Some(rest)
    else if StartsWith(url, "https://") then
      var rest := DropWww(url[8..]);
      assert url[..|url| - |rest|] == if StartsWith(url[8..], "www.") then "https://www." else "https://";
      Some(rest)
    else None
  }

  function DropWww(s: string): (r: string)
    ensures StartsWith(s, "www.") ==> r == s[4..]
    ensures !StartsWith(s, "www.") ==> r == s
  {
    if StartsWith(s, "www.") then s[4..] else s
  }

  /**
   * The query part of a `youtube.com/watch?` URL: the text after the first
   * `v=` up to the first `&` or the end; `false` when there is no `v=`.
   */
  function WatchParam(query: string): (r: VideoId)
    ensures !r.Undefined?
    ensures r.NotValid? <==> forall k :: 0 <= k < |query| ==> !OccursAt(query, "v=", k)
    ensures r.Id? ==> '&' !in r.id
    ensures r.Id? ==> exists k: nat :: FirstAt(query, "v=", k) && IdAt(query, k + 2, r.id)
  {
    var pos := IndexOf(query, "v=", 0);
    if pos == -1 then NotValid
    else
      var rest := query[pos + 2..];
      var pos2 := IndexOf(rest, "&", 0);
      var id := if pos2 == -1 then rest else rest[..pos2];
      assert '&' !in id by {
        forall j | 0 <= j < |id| ensures id[j] != '&' {
          OneCharOccurs(rest, '&', j);
        }
      }
      assert |id| < |rest| ==> rest[|id|] == '&' by {
        if |id| < |rest| { OneCharOccurs(rest, '&', pos2); }
      }
      assert FirstAt(query, "v=", pos) && IdAt(query, pos + 2, id);
      Id(id)
  }

  /** `id` starts at `from` in `s` and ends at the end of `s` or just before an `&`. */
  predicate IdAt(s: string, from: nat, id: string) {
    from + |id| <= |s| && s[from..from + |id|] == id && (from + |id| == |s| || s[from + |id|] == '&')
  }

  /**
   * `getVideoID(url)`: `false` without an http(s) scheme; for `youtu.be/` the
   * rest verbatim; for `youtube.com/watch?` the `v` parameter; for any other
   * host `undefined`, because the function ends without a `return`.
   */
  function GetVideoID(url: string): (r: VideoId)
    ensures Stripped(url).None? ==> r == NotValid
    ensures Stripped(url).Some? && StartsWith(Stripped(url).value, "youtu.be/") ==>
              r == Id(Stripped(url).value[9..])
    ensures Stripped(url).Some? && !StartsWith(Stripped(url).value, "youtu.be/")
            && StartsWith(Stripped(url).value, "youtube.com/watch?") ==>
              r == WatchParam(Stripped(url).value[18..])
    ensures r.Undefined? <==>
              Stripped(url).Some? && !StartsWith(Stripped(url).value, "youtu.be/")
              && !StartsWith(Stripped(url).value, "youtube.com/watch?")
  {
    match Stripped(url)
    case None => NotValid
    case Some(host) =>
      if StartsWith(host, "youtu.be/") then Id(host[9..])
      else if StartsWith(host, "youtube.com/watch?") then WatchParam(host[18..])
      else Undefined
  }

  function Scheme(secure: bool): string {
    if secure then "https://" else "http://"
  }

  function Www(www: bool): string {
    if www then "www." else ""
  }

  /** The scheme comes off a URL built from it, and then a leading `www.`, if any. */
  lemma SchemeStripped(secure: bool, after: string)
    ensures Stripped(Scheme(secure) + after) == Some(DropWww(after))
  {
    var url := Scheme(secure) + after;
    if secure {
      assert url[4] == 's';
      assert !StartsWith(url, "http://");
      assert url[..8] == "https://";
      assert url[8..] == after;
    } else {
      assert url[..7] == "http://";
      assert url[7..] == after;
    }
  }

  /** A `www.` put in front of a host that does not start with one comes off again. */
  lemma WwwDropped(www: bool, host: string)
    requires |host| >= 4 && host[..4] != "www."
    ensures DropWww(Www(www) + host) == host
  {
    var after := Www(www) + host;
    if www {
      assert after[..4] == "www." && after[4..] == host;
    } else {
      assert after == host;
    }
  }

  /** The scheme and `www.` prefix come off a URL built from them, leaving the host part. */
  lemma StrippedBuilt(secure: bool, www: bool, host: string)
    requires |host| >= 4 && host[..4] != "www."
    ensures Stripped(Scheme(secure) + Www(www) + host) == Some(host)
  {
    assert Scheme(secure) + Www(www) + host == Scheme(secure) + (Www(www) + host);
    SchemeStripped(secure, Www(www) + host);
    WwwDropped(www, host);
  }

  /** A short link built from an id parses back to that id. */
  lemma {:induction false} ShortLinkId(secure: bool, www: bool, id: string)
    ensures GetVideoID(Scheme(secure) + Www(www) + "youtu.be/" + id) == Id(id)
  {
    var host := "youtu.be/" + id;
    assert Scheme(secure) + Www(www) + "youtu.be/" + id == Scheme(secure) + Www(www) + host;
    assert host[..4] == "yout";
    StrippedBuilt(secure, www, host);
    assert host[..9] == "youtu.be/" && host[9..] == id;
  }

  /** In `query + "v=" + rest`, with no `v=` inside `query`, the first `v=` is the appended one. */
  lemma {:induction false} FirstVAfter(query: string, rest: string)
    requires forall k :: 0 <= k < |query| ==> !OccursAt(query, "v=", k)
    ensures FirstAt(query + "v=" + rest, "v=", |query|)
  {
    var q := query + "v=" + rest;
    var n := |query|;
    assert q[n..n + 2] == "v=";
    forall j | 0 <= j < n ensures !OccursAt(q, "v=", j) {
      if j + 2 <= n {
        assert !OccursAt(query, "v=", j);
        assert q[j..j + 2] == query[j..j + 2];
      } else {
        assert q[j..j + 2][1] == q[j + 1] == 'v';
      }
    }
  }

  /** An `&`-free id ending at the end or before an `&` is determined by where it starts. */
  lemma IdAtUnique(s: string, from: nat, x: string, y: string)
    requires IdAt(s, from, x) && IdAt(s, from, y)
    requires '&' !in x && '&' !in y
    ensures x == y
  {
    if |x| != |y| {
      assert false;
    }
    assert x == s[from..from + |x|] == y;
  }

  /** The first `v=` and the `&`-free text after it determine the `v` parameter. */
  lemma WatchParamAt(q: string, n: nat, id: string)
    requires FirstAt(q, "v=", n)
    requires IdAt(q, n + 2, id) && '&' !in id
    ensures WatchParam(q) == Id(id)
  {
    var r := WatchParam(q);
    assert r.Id? by {
      assert n < |q| && OccursAt(q, "v=", n);
    }
    var k: nat :| FirstAt(q, "v=", k) && IdAt(q, k + 2, r.id);
    assert k == n by {
      if k < n { assert false; }
      if k > n { assert false; }
    }
    IdAtUnique(q, n + 2, r.id, id);
  }

  /** The `v` parameter of a query built from an id comes back as that id. */
  lemma {:induction false} WatchParamBuilt(query: string, id: string, tail: string)
    requires forall k :: 0 <= k < |query| ==> !OccursAt(query, "v=", k)
    requires '&' !in id
    requires tail == [] || tail[0] == '&'
    ensures WatchParam(query + "v=" + id + tail) == Id(id)
  {
    var rest := id + tail;
    var q := query + "v=" + rest;
    var n := |query|;
    assert query + "v=" + id + tail == q;
    FirstVAfter(query, rest);
    assert IdAt(q, n + 2, id) by {
      assert q[n + 2..] == rest;
      assert q[n + 2..n + 2 + |id|] == id;
      if n + 2 + |id| < |q| { assert q[n + 2 + |id|] == tail[0]; }
    }
    WatchParamAt(q, n, id);
  }

  /** A watch URL is its scheme, its `www.` and a host part that starts with the watch path. */
  lemma WatchUrlShape(secure: bool, www: bool, query: string, id: string, tail: string)
    ensures Scheme(secure) + Www(www) + "youtube.com/watch?" + query + "v=" + id + tail
            == Scheme(secure) + Www(www) + ("youtube.com/watch?" + (query + "v=" + id + tail))
  {
    var q := query + "v=" + id + tail;
    assert "youtube.com/watch?" + query + "v=" + id + tail == "youtube.com/watch?" + q;
  }

  /**
   * A watch link whose query has no earlier `v=` parses back to the id after
   * `v=`, whatever `&`-separated parameters follow it.
   */
  lemma {:induction false} WatchLinkId(secure: bool, www: bool, query: string, id: string, tail: string)
    requires forall k :: 0 <= k < |query| ==> !OccursAt(query, "v=", k)
    requires '&' !in id
    requires tail == [] || tail[0] == '&'
    ensures GetVideoID(Scheme(secure) + Www(www) + "youtube.com/watch?" + query + "v=" + id + tail) == Id(id)
  {
    var q := query + "v=" + id + tail;
    var host := "youtube.com/watch?" + q;
    WatchUrlShape(secure, www, query, id, tail);
    assert host[..4] == "yout";
    StrippedBuilt(secure, www, host);
    assert !StartsWith(host, "youtu.be/") by {
      assert host[..9][5] == 'b' != "youtu.be/"[5];
    }
    assert host[..18] == "youtube.com/watch?" && host[18..] == q;
    WatchParamBuilt(query, id, tail);
  }

  /**
   * The index a controller cues when a video ends: the next one, or 0 past
   * the end. A null `current` counts as 0, as `null + 1` is 1 in JavaScript.
   */
  function NextIndex(current: Option<int>, length: nat): (r: int)
    ensures r == 0 || r == current.GetOr(0) + 1
    ensures r < length || r == 0
  {
    if current.GetOr(0) + 1 < length then current.GetOr(0) + 1 else 0
  }

  /** From a valid current index the next index is the successor modulo the length. */
  lemma NextIndexWraps(current: int, length: nat)
    requires 0 <= current < length
    ensures NextIndex(Some(current), length) == (current + 1) % length
  {
    if current + 1 == length {
      assert (current + 1) % length == 0;
    } else {
      assert (current + 1) % length == current + 1;
    }
  }

  /** The next index is a valid playlist index when the playlist is not empty and `current` is not below -1. */
  lemma NextIndexInRange(current: Option<int>, length: nat)
    requires length > 0
    requires current.None? || current.value >= -1
    ensures 0 <= NextIndex(current, length) < length
  {
  }

  /** YouTube player states the page reacts to. */
  const Ended := 0
  const PlayingState := 1
  const Paused := 2

  /** True when `state.playlist[i].id` can be read without a TypeError. */
  predicate Loadable(playlist: seq<Video>, i: Option<int>) {
    i.None? || 0 <= i.value < |playlist|
  }

  /** The page's `state`, `haveControl`, `chatNick` and `errored` variables. */
  class Viewer {
    var playing: bool
    var current: Option<int>
    var playlist: seq<Video>
    var haveControl: bool
    var chatNick: Option<string>
    var errored: bool

    constructor ()
      ensures !playing && current == None && playlist == []
      ensures !haveControl && chatNick == None && !errored
    {
      playing := false;
      current := None;
      playlist := [];
      haveControl := false;
      chatNick := None;
      errored := false;
    }

    /**
     * `onStateChange(pstate)`: a controller reports a pause only while the
     * state says playing and a play only while it says stopped; when a video
     * ends it cues the next index and plays it. `sent` holds the packets sent;
     * `threw` is set when loading the cued video reads past the playlist
     * (the cue has already been sent by then).
     */
    method OnStateChange(pstate: int, time: real) returns (sent: seq<Inbound>, threw: bool)
      modifies this
      ensures playlist == old(playlist) && haveControl == old(haveControl)
      ensures chatNick == old(chatNick) && errored == old(errored)
      ensures !haveControl ==> sent == [] && !threw && playing == old(playing) && current == old(current)
      ensures haveControl && pstate == Paused && old(playing) ==>
                sent == [StopAt(time)] && !threw && !playing && current == old(current)
      ensures haveControl && pstate == PlayingState && !old(playing) ==>
                sent == [PlayAt(time)] && !threw && playing && current == old(current)
      ensures haveControl && pstate == Ended ==>
                var k := NextIndex(old(current), |playlist|);
                sent == [CueAt(Some(k))] && playing && current == Some(k)
                && (threw <==> !Loadable(playlist, current))
      ensures haveControl && pstate != Ended
              && !(pstate == Paused && old(playing)) && !(pstate == PlayingState && !old(playing)) ==>
                sent == [] && !threw && playing == old(playing) && current == old(current)
    {
      sent, threw := [], false;
      if haveControl {
        if pstate == Paused && playing {
          sent := [StopAt(time)];
          playing := false;
        } else if pstate == PlayingState && !playing {
          sent := [PlayAt(time)];
          playing := true;
        } else if pstate == Ended {
          var cueIndex := NextIndex(current, |playlist|);
          current := Some(cueIndex);
          playing := true;
          sent := [CueAt(Some(cueIndex))];
          threw := !Loadable(playlist, current);
        }
      }
    }

    /**
     * The `state` updates of `socket.onmessage`. `stream_info` takes playing,
     * current and the playlist from the stream and then loads the current
     * video; control is granted only after that load, so a throw leaves
     * `haveControl` as it was. `update_playlist` replaces only the playlist.
     * `cue` plays and moves `current`; `play` (also the re-sync reply, whatever
     * its `playing` field says) plays; `stop` stops.
     */
    method OnMessage(m: Msg) returns (threw: bool)
      modifies this
      ensures m.StreamInfo? || m.BasicStreamInfo? ==>
                playing == m.playing && current == m.current && playlist == m.playlist
                && (threw <==> !Loadable(m.playlist, m.current))
                && haveControl == (old(haveControl) || (m.control && !threw))
                && chatNick == old(chatNick) && errored == old(errored)
      ensures m.PlaylistUpdate? ==>
                playlist == m.playlist && !threw && current == old(current) && playing == old(playing)
                && haveControl == old(haveControl) && chatNick == old(chatNick) && errored == old(errored)
      ensures m.Cued? ==>
                playing && current == m.current && (threw <==> !Loadable(playlist, current))
                && playlist == old(playlist) && haveControl == old(haveControl)
                && chatNick == old(chatNick) && errored == old(errored)
      ensures m.Played? || m.Resync? || m.Stopped? ==>
                playing == !m.Stopped? && !threw && current == old(current) && playlist == old(playlist)
                && haveControl == old(haveControl) && chatNick == old(chatNick) && errored == old(errored)
      ensures m.NickChosen? ==>
                chatNick == Some(m.nick) && !threw && playing == old(playing) && current == old(current)
                && playlist == old(playlist) && haveControl == old(haveControl) && errored == old(errored)
      ensures m.Error? ==>
                errored && !threw && playing == old(playing) && current == old(current)
                && playlist == old(playlist) && haveControl == old(haveControl) && chatNick == old(chatNick)
      ensures !(m.StreamInfo? || m.BasicStreamInfo? || m.PlaylistUpdate? || m.Cued? || m.Played?
                || m.Resync? || m.Stopped? || m.NickChosen? || m.Error?) ==>
                !threw && playing == old(playing) && current == old(current) && playlist == old(playlist)
                && haveControl == old(haveControl) && chatNick == old(chatNick) && errored == old(errored)
    {
      threw := false;
      match m
      case StreamInfo(_, _, p, cur, _, pl, _, control) =>
        threw := ApplyStream(p, cur, pl, control);
      case BasicStreamInfo(_, _, p, cur, _, pl, control) =>
        threw := ApplyStream(p, cur, pl, control);
      case PlaylistUpdate(pl, _) =>
        playlist := pl;
      case Cued(cur) =>
        playing := true;
        current := cur;
        threw := !Loadable(playlist, current);
      case Played(_) =>
        playing := true;
      case Resync(_, _) =>
        playing := true;
      case Stopped(_) =>
        playing := false;
      case NickChosen(nick) =>
        chatNick := Some(nick);
      case Error(_) =>
        errored := true;
      case _ =>
    }

    method ApplyStream(p: bool, cur: Option<int>, pl: seq<Video>, control: bool) returns (threw: bool)
      modifies this
      ensures playing == p && current == cur && playlist == pl
      ensures threw <==> !Loadable(pl, cur)
      ensures haveControl == (old(haveControl) || (control && !threw))
      ensures chatNick == old(chatNick) && errored == old(errored)
    {
      playing := p;
      current := cur;
      playlist := pl;
      threw := !Loadable(playlist, current);
      if !threw && control {
        haveControl := true;
      }
    }
  }
}
