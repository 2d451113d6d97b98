/**
 * The status reconciler (`check_media_player_status` after its GET): the hub's view of the
 * media player overwrites the playback globals. The transport and `json.loads` are abstracted
 * to a parsed reply.
 */
module Reconciler {
  import opened Options
  import opened Display

  /**
   * The parsed answer to `GET /api/states/<entity>`: the HTTP status, the `state` field and
   * the `media_title` / `media_artist` attributes, each None when the body does not carry it.
   */
  datatype StateReply = StateReply(status: int, state: Option<string>, mediaTitle: Option<string>, mediaArtist: Option<string>)

  /** The reply counts only with status 200; None stands for WiFi down, a raised request or an unparsable body. */
  predicate Accepted(fetch: Option<StateReply>)
  {
    fetch.Some? && fetch.value.status == 200
  }

  /** The playback globals after the reconciler has seen `fetch`. */
  function Reconcile(pb: Playback, fetch: Option<StateReply>): (r: Playback)
    ensures !Accepted(fetch) ==> r == pb
    ensures Accepted(fetch) ==> (r.isPlaying <==> fetch.value.state == Some("playing"))
    ensures Accepted(fetch) && fetch.value.mediaTitle.None? ==>
      r.songName == pb.songName && r.artist == pb.artist
    ensures Accepted(fetch) && fetch.value.mediaTitle.Some? ==>
      r.songName == fetch.value.mediaTitle.value &&
      r.artist == (if fetch.value.mediaArtist.Some? then fetch.value.mediaArtist.value else "")
  {
    if !Accepted(fetch) then pb
    else
      var reply := fetch.value;
      var playing := reply.state.GetOr("") == "playing";
      match reply.mediaTitle
      case None => Playback(pb.songName, pb.artist, playing)
      case Some(title) => Playback(title, reply.mediaArtist.GetOr(""), playing)
  }

  /** The frames the reconciler draws: one, showing the hub's title, artist and state, when a title came back. */
  function ReconcileFrames(fetch: Option<StateReply>): (fs: seq<Frame>)
    ensures |fs| <= 1
    ensures fs != [] <==> Accepted(fetch) && fetch.value.mediaTitle.Some?
  {
    if Accepted(fetch) && fetch.value.mediaTitle.Some? then
      var reply := fetch.value;
      [Render(reply.mediaTitle.value, reply.mediaArtist.GetOr(""), reply.state.GetOr("") == "playing")]
    else []
  }

  /** What is drawn always shows the globals the reconciler has just written. */
  lemma FrameShowsReconciled(pb: Playback, fetch: Option<StateReply>)
    requires ReconcileFrames(fetch) != []
    ensures var r := Reconcile(pb, fetch);
      ReconcileFrames(fetch) == [Render(r.songName, r.artist, r.isPlaying)]
  {
  }

  /** Seeing the same reply twice leaves the globals as seeing it once did. */
  lemma ReconcileIdempotent(pb: Playback, fetch: Option<StateReply>)
    ensures Reconcile(Reconcile(pb, fetch), fetch) == Reconcile(pb, fetch)
  {
  }

  /** A reply with a title decides the globals alone: whatever the dispatcher last wrote is overridden. */
  lemma TitledReplyOverrides(pb1: Playback, pb2: Playback, fetch: Option<StateReply>)
    requires Accepted(fetch) && fetch.value.mediaTitle.Some?
    ensures Reconcile(pb1, fetch) == Reconcile(pb2, fetch)
  {
  }
}
