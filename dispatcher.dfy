/**
 * The playback dispatcher (`play_music_for_tag` with `call_home_assistant_to_play_music`
 * abstracted to its HTTP outcome): resolve the tag, ask the hub to play the entry's URL and
 * show the outcome.
 */
module Dispatcher {
  import opened Options
  import opened Display
  import opened Mappings

  /** The hub's answer to the play_media POST: its status code, or None when WiFi was down or the request raised. */
  type PostReply = Option<int>

  /** `call_home_assistant_to_play_music` reports success for a 200 or 201 reply only. */
  function PlaySucceeded(reply: PostReply): (ok: bool)
    ensures ok <==> reply == Some(200) || reply == Some(201)
  {
    match reply
    case None => false
    case Some(code) => code == 200 || code == 201
  }

  /** Everything one dispatch does: the new playback globals, the frames drawn, the URLs sent, the result. */
  datatype Outcome = Outcome(playback: Playback, frames: seq<Frame>, requests: seq<string>, success: bool)

  const UNKNOWN_TAG: string := "Unknown Tag"

  /** `play_music_for_tag(id)` starting from the playback globals `pb`. */
  function Dispatch(table: seq<Mapping>, pb: Playback, id: nat, reply: PostReply): (o: Outcome)
    ensures |o.requests| <= 1
    ensures o.requests == [] <==> Unmapped(table, id)
    ensures o.success <==> !Unmapped(table, id) && PlaySucceeded(reply)
    ensures o.playback.artist == pb.artist
    ensures o.playback.isPlaying == (pb.isPlaying || o.success)
    ensures Unmapped(table, id) ==>
      o.playback == pb && o.frames == [Render(UNKNOWN_TAG, "ID: " + Decimal(id), false)]
    ensures !Unmapped(table, id) ==>
      var m := table[FirstMatch(table, id).value];
      o.requests == [m.url] && o.playback.songName == m.name &&
      |o.frames| == 2 && o.frames[0] == Render(m.name, "Loading...", true) &&
      o.frames[1] == Render(m.name, if o.success then "Playing" else "Failed to play", o.success)
  {
    match FirstMatch(table, id)
    case None =>
      Outcome(pb, [Render(UNKNOWN_TAG, "ID: " + Decimal(id), false)], [], false)
    case Some(k) =>
      var m := table[k];
      var ok := PlaySucceeded(reply);
      var shown := if ok then Render(m.name, "Playing", true) else Render(m.name, "Failed to play", false);
      Outcome(Playback(m.name, pb.artist, pb.isPlaying || ok), [Render(m.name, "Loading...", true), shown], [m.url], ok)
  }
}
