/**
 * The loop orchestrator: one iteration of the `while True` body of `main`, first as a pure
 * step on the whole controller state, then as the class `Controller` whose fields are the
 * program's globals and whose `Tick` performs the iteration in place.
 */
module Walkman {
  import opened Options
  import opened Ticks
  import opened TagReader
  import opened Display
  import opened Mappings
  import opened Dispatcher
  import opened Reconciler
  import opened Presence

  /** `status_check_interval`, in milliseconds. */
  const STATUS_CHECK_INTERVAL: int := 10000

  /** Whether the reconciler runs at `now`, given when it last ran. */
  predicate StatusDue(now: Tick, lastCheck: Tick)
  {
    TicksDiff(now, lastCheck) > STATUS_CHECK_INTERVAL
  }

  /** The ticks among `times` at which the reconciler runs, starting from a last run at `lastCheck`. */
  function PollTimes(lastCheck: Tick, times: seq<Tick>): (polls: seq<Tick>)
    ensures |polls| <= |times|
    decreases |times|
  {
    if times == [] then []
    else if StatusDue(times[0], lastCheck) then [times[0]] + PollTimes(times[0], times[1..])
    else PollTimes(lastCheck, times[1..])
  }

  /** The reconciler never runs twice within one interval: each run is more than the interval after the one before. */
  lemma {:induction false} PollsSpaced(lastCheck: Tick, times: seq<Tick>)
    ensures var polls := PollTimes(lastCheck, times);
      (polls != [] ==> TicksDiff(polls[0], lastCheck) > STATUS_CHECK_INTERVAL) &&
      forall i :: 0 <= i < |polls| - 1 ==> TicksDiff(polls[i + 1], polls[i]) > STATUS_CHECK_INTERVAL
    decreases |times|
  {
    if times != [] {
      if StatusDue(times[0], lastCheck) {
        PollsSpaced(times[0], times[1..]);
        var polls := PollTimes(lastCheck, times);
        var rest := PollTimes(times[0], times[1..]);
        assert polls == [times[0]] + rest;
        forall i | 0 <= i < |polls| - 1
          ensures TicksDiff(polls[i + 1], polls[i]) > STATUS_CHECK_INTERVAL
        {
          if i > 0 {
            assert polls[i] == rest[i - 1] && polls[i + 1] == rest[i];
          }
        }
      } else {
        PollsSpaced(lastCheck, times[1..]);
      }
    }
  }

  /** Everything the loop reads and writes: the globals, plus what was drawn and what was sent to the hub. */
  datatype State = State(presence: Presence, playback: Playback, lastStatusCheck: Tick,
                         frames: seq<Frame>, playRequests: seq<string>)

  /** The globals at start-up, after `main` has drawn its splash screen. */
  const BOOT: State := State(BOOT_PRESENCE, Playback("No song playing", "", false), 0,
                             [Render("Walkman", "Starting...", false)], [])

  /**
   * One iteration of the main loop at `now`: the time-gated reconciler sees `fetch`, the
   * debouncer sees `tag`, and a dispatch, if any, gets `reply` from the hub.
   */
  function TickStep(table: seq<Mapping>, s: State, now: Tick, fetch: Option<StateReply>,
                    tag: Option<nat>, reply: PostReply): (r: State)
    ensures r.lastStatusCheck == if StatusDue(now, s.lastStatusCheck) then now else s.lastStatusCheck
    ensures r.presence == Observe(s.presence, tag, now).next
    ensures r.playRequests != s.playRequests <==>
      Observe(s.presence, tag, now).arrived.Some? && !Unmapped(table, tag.value)
    ensures Observe(s.presence, tag, now).arrived.Some? && !Unmapped(table, tag.value) ==>
      r.playRequests == s.playRequests + [table[FirstMatch(table, tag.value).value].url]
  {
    var due := StatusDue(now, s.lastStatusCheck);
    var pb := if due then Reconcile(s.playback, fetch) else s.playback;
    var frames := if due then s.frames + ReconcileFrames(fetch) else s.frames;
    var checked := if due then now else s.lastStatusCheck;
    var step := Observe(s.presence, tag, now);
    match step.arrived
    case None => State(step.next, pb, checked, frames, s.playRequests)
    case Some(id) =>
      var o := Dispatch(table, pb, id, reply);
      State(step.next, o.playback, checked, frames + o.frames, s.playRequests + o.requests)
  }

  /**
   * What one iteration does to the playback globals and the screen: frames are only ever
   * added; the reconciler, when due, sees the old globals first, and a dispatch then starts
   * from what it left.
   */
  lemma TickStepPlayback(table: seq<Mapping>, s: State, now: Tick, fetch: Option<StateReply>,
                         tag: Option<nat>, reply: PostReply)
    ensures var r := TickStep(table, s, now, fetch, tag, reply);
      var due := StatusDue(now, s.lastStatusCheck);
      var step := Observe(s.presence, tag, now);
      |s.frames| <= |r.frames| && r.frames[..|s.frames|] == s.frames &&
      (!due && step.arrived.None? ==> r.playback == s.playback && r.frames == s.frames) &&
      (!due && step.arrived.Some? ==>
        var o := Dispatch(table, s.playback, tag.value, reply);
        r.playback == o.playback && r.frames == s.frames + o.frames) &&
      (due && step.arrived.None? ==>
        r.playback == Reconcile(s.playback, fetch) && r.frames == s.frames + ReconcileFrames(fetch)) &&
      (due && step.arrived.Some? ==>
        var o := Dispatch(table, Reconcile(s.playback, fetch), tag.value, reply);
        r.playback == o.playback && r.frames == s.frames + ReconcileFrames(fetch) + o.frames)
  {
  }

  /** The outside world's answers for one iteration of the loop. */
  datatype TickInput = TickInput(now: Tick, fetch: Option<StateReply>, tag: Option<nat>, reply: PostReply)

  /** Iterations of the loop, one per input, in order. */
  function RunTicks(table: seq<Mapping>, s: State, inputs: seq<TickInput>): State
    decreases |inputs|
  {
    if inputs == [] then s
    else
      var i := inputs[0];
      RunTicks(table, TickStep(table, s, i.now, i.fetch, i.tag, i.reply), inputs[1..])
  }

  /** The reads the debouncer sees during those iterations. */
  function ReadsOf(inputs: seq<TickInput>): (samples: seq<Read>)
    ensures |samples| == |inputs|
    decreases |inputs|
  {
    if inputs == [] then [] else [Read(inputs[0].tag, inputs[0].now)] + ReadsOf(inputs[1..])
  }

  /** The URLs the play call is handed for a series of dispatched tags: the first matching entry's, nothing for an unmapped tag. */
  function RequestedUrls(table: seq<Mapping>, ids: seq<nat>): (urls: seq<string>)
    ensures |urls| <= |ids|
    decreases |ids|
  {
    if ids == [] then [] else UrlOf(table, ids[0]) + RequestedUrls(table, ids[1..])
  }

  /** The URL the play call is handed for one dispatched tag: none when it is unmapped. */
  function UrlOf(table: seq<Mapping>, id: nat): (urls: seq<string>)
    ensures |urls| <= 1 && (urls == [] <==> Unmapped(table, id))
    ensures urls != [] ==> urls == [table[FirstMatch(table, id).value].url]
  {
    match FirstMatch(table, id)
    case None => []
    case Some(k) => [table[k].url]
  }

  /** The requests of a concatenation are those of its parts, in order. */
  lemma {:induction false} RequestedUrlsAppend(table: seq<Mapping>, a: seq<nat>, b: seq<nat>)
    ensures RequestedUrls(table, a + b) == RequestedUrls(table, a) + RequestedUrls(table, b)
    decreases |a|
  {
    if a == [] {
      assert a + b == b;
    } else {
      assert (a + b)[0] == a[0] && (a + b)[1..] == a[1..] + b;
      RequestedUrlsAppend(table, a[1..], b);
    }
  }

  /** The tag one debouncer step dispatches, as a list of zero or one ids. */
  function Dispatched(step: Step): (ids: seq<nat>)
    ensures |ids| <= 1 && (ids == [] <==> step.arrived.None?)
  {
    match step.arrived
    case None => []
    case Some(id) => [id]
  }

  /**
   * The first of a run of iterations: the rest of the run starts from its state, it adds the
   * URL of the tag its debouncer step dispatches (if mapped), and the debouncer's run of reads
   * splits the same way.
   */
  lemma FirstIteration(table: seq<Mapping>, s: State, inputs: seq<TickInput>) returns (s1: State)
    requires inputs != []
    ensures RunTicks(table, s, inputs) == RunTicks(table, s1, inputs[1..])
    ensures var step := Observe(s.presence, inputs[0].tag, inputs[0].now);
      s1.presence == step.next &&
      s1.playRequests == s.playRequests + RequestedUrls(table, Dispatched(step)) &&
      Run(s.presence, ReadsOf(inputs)) ==
        Trace(Run(step.next, ReadsOf(inputs[1..])).last, Dispatched(step) + Run(step.next, ReadsOf(inputs[1..])).arrivals)
  {
    var i := inputs[0];
    s1 := TickStep(table, s, i.now, i.fetch, i.tag, i.reply);
    var samples := ReadsOf(inputs);
    assert samples[0] == Read(i.tag, i.now) && samples[1..] == ReadsOf(inputs[1..]);
    var step := Observe(s.presence, i.tag, i.now);
    if step.arrived.Some? {
      var ids := Dispatched(step);
      assert ids[1..] == [];
    }
  }

  /**
   * Over any run of iterations the debouncer state is the one its reads alone determine, and
   * the play requests added are exactly the URLs of the debouncer's dispatches, in order.
   */
  lemma {:induction false} RequestsFollowArrivals(table: seq<Mapping>, s: State, inputs: seq<TickInput>)
    ensures var r := RunTicks(table, s, inputs);
      var t := Run(s.presence, ReadsOf(inputs));
      r.presence == t.last &&
      r.playRequests == s.playRequests + RequestedUrls(table, t.arrivals)
    decreases |inputs|
  {
    if inputs != [] {
      var s1 := FirstIteration(table, s, inputs);
      RequestsFollowArrivals(table, s1, inputs[1..]);
      var step := Observe(s.presence, inputs[0].tag, inputs[0].now);
      RequestedUrlsAppend(table, Dispatched(step), Run(step.next, ReadsOf(inputs[1..])).arrivals);
    }
  }

  /** Hence a run adds no more play requests than the debouncer dispatches. */
  lemma RequestsBoundedByArrivals(table: seq<Mapping>, s: State, inputs: seq<TickInput>)
    ensures |RunTicks(table, s, inputs).playRequests| <= |s.playRequests| + |Run(s.presence, ReadsOf(inputs)).arrivals|
  {
    RequestsFollowArrivals(table, s, inputs);
  }

  /** While the tag dispatched last stays seated, the loop sends the hub no further play request. */
  lemma SeatedTagSendsNoMoreRequests(table: seq<Mapping>, s: State, inputs: seq<TickInput>)
    requires s.presence.processed
    requires StaysSeated(s.presence.lastTagId, s.presence.lastReadTime, ReadsOf(inputs))
    ensures RunTicks(table, s, inputs).playRequests == s.playRequests
  {
    RequestsFollowArrivals(table, s, inputs);
    NoRedispatchWhileSeated(s.presence, ReadsOf(inputs));
  }

  /** The ticks of those iterations. */
  function TimesOf(inputs: seq<TickInput>): (times: seq<Tick>)
    ensures |times| == |inputs|
    decreases |inputs|
  {
    if inputs == [] then [] else [inputs[0].now] + TimesOf(inputs[1..])
  }

  /** The ticks at which the loop's iterations find the check due and run the reconciler. */
  function CheckTimes(table: seq<Mapping>, s: State, inputs: seq<TickInput>): seq<Tick>
    decreases |inputs|
  {
    if inputs == [] then []
    else
      var i := inputs[0];
      var s1 := TickStep(table, s, i.now, i.fetch, i.tag, i.reply);
      (if StatusDue(i.now, s.lastStatusCheck) then [i.now] else []) + CheckTimes(table, s1, inputs[1..])
  }

  /**
   * The loop runs the reconciler at exactly the ticks the gate rule picks from the iterations'
   * ticks, and its final poll stamp is the last of them (the old stamp when there is none).
   */
  lemma {:induction false} CheckTimesArePollTimes(table: seq<Mapping>, s: State, inputs: seq<TickInput>)
    ensures CheckTimes(table, s, inputs) == PollTimes(s.lastStatusCheck, TimesOf(inputs))
    ensures var checks := CheckTimes(table, s, inputs);
      RunTicks(table, s, inputs).lastStatusCheck == if checks == [] then s.lastStatusCheck else checks[|checks| - 1]
    decreases |inputs|
  {
    if inputs != [] {
      var i := inputs[0];
      var s1 := TickStep(table, s, i.now, i.fetch, i.tag, i.reply);
      assert s1.lastStatusCheck == if StatusDue(i.now, s.lastStatusCheck) then i.now else s.lastStatusCheck;
      CheckTimesArePollTimes(table, s1, inputs[1..]);
      var times := TimesOf(inputs);
      assert times[0] == i.now && times[1..] == TimesOf(inputs[1..]);
    }
  }

  /** The loop never runs the reconciler twice within one interval. */
  lemma LoopChecksSpaced(table: seq<Mapping>, s: State, inputs: seq<TickInput>)
    ensures var checks := CheckTimes(table, s, inputs);
      (checks != [] ==> TicksDiff(checks[0], s.lastStatusCheck) > STATUS_CHECK_INTERVAL) &&
      forall i :: 0 <= i < |checks| - 1 ==> TicksDiff(checks[i + 1], checks[i]) > STATUS_CHECK_INTERVAL
  {
    CheckTimesArePollTimes(table, s, inputs);
    PollsSpaced(s.lastStatusCheck, TimesOf(inputs));
  }

  /** The first tag read after start-up is dispatched unless its id is 0 and it comes within the timeout. */
  lemma FirstTagAfterBootArrives(id: nat, now: Tick)
    requires id != 0 || TicksDiff(now, 0) > TAG_PRESENCE_TIMEOUT
    ensures Observe(BOOT.presence, Some(id), now).arrived == Some(id)
  {
  }

  /** A mapped tag held for two ticks with a successful play call: one request, and the screen says it plays. */
  lemma JazzScenario()
    ensures var jazz := Some(123456789);
      var s1 := TickStep(MUSIC_MAPPINGS, BOOT, 100, None, jazz, Some(200));
      var s2 := TickStep(MUSIC_MAPPINGS, s1, 200, None, jazz, Some(200));
      s2.playRequests == ["https://open.spotify.com/playlist/YOUR_JAZZ_PLAYLIST"] &&
      s2.frames[|s2.frames| - 1] == Frame("Now Playing:", "Jazz Playlist", "Playing") &&
      s2.playback.isPlaying
  {
  }

  /** An unmapped tag: no request, and the screen names the unknown id. */
  lemma UnknownTagScenario()
    ensures var s1 := TickStep(MUSIC_MAPPINGS, BOOT, 100, None, Some(999), None);
      s1.playRequests == [] && s1.frames[|s1.frames| - 1] == Frame("Ready:", "Unknown Tag", "ID: 999")
  {
    assert Unmapped(MUSIC_MAPPINGS, 999);
    assert Decimal(9) == "9";
    assert Decimal(99) == Decimal(9) + "9";
    assert Decimal(999) == Decimal(99) + "9" == "999";
    assert "ID: " + Decimal(999) == "ID: 999";
    assert TicksDiff(100, 0) == 100;
    assert Observe(BOOT.presence, Some(999), 100).arrived == Some(999);
    var o := Dispatch(MUSIC_MAPPINGS, BOOT.playback, 999, None);
    assert o.requests == [] && o.frames == [Render(UNKNOWN_TAG, "ID: 999", false)];
    TickStepPlayback(MUSIC_MAPPINGS, BOOT, 100, None, Some(999), None);
  }

  /**
   * The controller. Its fields are the globals of the program; `frames` records every screen
   * drawn and `playRequests` every URL handed to the hub's play call.
   */
  class Controller {
    const mappings: seq<Mapping>
    var currentSongName: string
    var currentArtist: string
    var isPlaying: bool
    var lastTagId: nat
    var lastTagReadTime: Tick
    var tagProcessed: bool
    var lastStatusCheckTime: Tick
    var frames: seq<Frame>
    var playRequests: seq<string>

    function PresenceOf(): Presence
      reads this
    {
      Presence(lastTagId, lastTagReadTime, tagProcessed)
    }

    function PlaybackOf(): Playback
      reads this
    {
      Playback(currentSongName, currentArtist, isPlaying)
    }

    function StateOf(): State
      reads this
    {
      State(PresenceOf(), PlaybackOf(), lastStatusCheckTime, frames, playRequests)
    }

    /** Start-up: the initial globals and the splash screen drawn by `main`. */
    constructor (mappings: seq<Mapping>)
      ensures this.mappings == mappings && StateOf() == BOOT
    {
      this.mappings := mappings;
      currentSongName, currentArtist, isPlaying := "No song playing", "", false;
      lastTagId, lastTagReadTime, tagProcessed := 0, 0, false;
      lastStatusCheckTime := 0;
      frames, playRequests := [], [];
      new;
      UpdateDisplay("Walkman", "Starting...", false);
    }

    /** `update_display`: draw one screen. */
    method UpdateDisplay(title: string, subtitle: string, playing: bool)
      modifies this`frames
      ensures frames == old(frames) + [Render(title, subtitle, playing)]
    {
      frames := frames + [Render(title, subtitle, playing)];
    }

    /** `call_home_assistant_to_play_music(url)`: hand the URL to the hub; `reply` is what came back. */
    method CallHomeAssistantToPlayMusic(url: string, reply: PostReply) returns (success: bool)
      modifies this`playRequests
      ensures playRequests == old(playRequests) + [url]
      ensures success == PlaySucceeded(reply)
    {
      playRequests := playRequests + [url];
      success := reply == Some(200) || reply == Some(201);
    }

    /** `play_music_for_tag(tagId)`. */
    method PlayMusicForTag(tagId: nat, reply: PostReply) returns (success: bool)
      modifies this
      ensures var o := Dispatch(mappings, old(PlaybackOf()), tagId, reply);
        PlaybackOf() == o.playback && frames == old(frames) + o.frames &&
        playRequests == old(playRequests) + o.requests && success == o.success
      ensures PresenceOf() == old(PresenceOf()) && lastStatusCheckTime == old(lastStatusCheckTime)
    {
      var found := FindMapping(mappings, tagId);
      if found.Some? {
        var mapping := mappings[found.value];
        currentSongName := mapping.name;
        UpdateDisplay(currentSongName, "Loading...", true);
        success := CallHomeAssistantToPlayMusic(mapping.url, reply);
        if success {
          isPlaying := true;
          UpdateDisplay(currentSongName, "Playing", true);
        } else {
          UpdateDisplay(currentSongName, "Failed to play", false);
        }
      } else {
        UpdateDisplay(UNKNOWN_TAG, "ID: " + Decimal(tagId), false);
        success := false;
      }
    }

    /** `check_media_player_status`, given what the GET produced. */
    method CheckMediaPlayerStatus(fetch: Option<StateReply>)
      modifies this
      ensures PlaybackOf() == Reconcile(old(PlaybackOf()), fetch)
      ensures frames == old(frames) + ReconcileFrames(fetch)
      ensures PresenceOf() == old(PresenceOf()) && lastStatusCheckTime == old(lastStatusCheckTime)
      ensures playRequests == old(playRequests)
    {
      if fetch.Some? && fetch.value.status == 200 {
        var reply := fetch.value;
        var state := reply.state.GetOr("");
        isPlaying := state == "playing";
        if reply.mediaTitle.Some? {
          currentSongName := reply.mediaTitle.value;
          if reply.mediaArtist.Some? {
            currentArtist := reply.mediaArtist.value;
          } else {
            currentArtist := "";
          }
          UpdateDisplay(currentSongName, currentArtist, isPlaying);
        }
      }
    }

    /** One iteration of the main loop at `now`, with the outside world's answers as parameters. */
    method Tick(now: Tick, fetch: Option<StateReply>, read: ReaderReply, reply: PostReply)
      modifies this
      ensures StateOf() == TickStep(mappings, old(StateOf()), now, fetch, TagIdOf(read), reply)
    {
      if TicksDiff(now, lastStatusCheckTime) > STATUS_CHECK_INTERVAL {
        CheckMediaPlayerStatus(fetch);
        lastStatusCheckTime := now;
      }
      var tagId := GetTagId(read);
      if tagId.Some? {
        var id := tagId.value;
        if id != lastTagId || (TicksDiff(now, lastTagReadTime) > TAG_PRESENCE_TIMEOUT && !tagProcessed) {
          lastTagId := id;
          tagProcessed := true;
          var _ := PlayMusicForTag(id, reply);
        }
        lastTagReadTime := now;
      } else if TicksDiff(now, lastTagReadTime) > TAG_PRESENCE_TIMEOUT {
        tagProcessed := false;
      }
    }
  }
}
