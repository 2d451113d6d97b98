/**
 * The presence debouncer of the main loop: one raw "tag id or None" read per tick becomes at
 * most one dispatch, using `last_tag_id`, `last_tag_read_time`, `tag_processed` and the
 * 5000 ms grace window.
 */
module Presence {
  import opened Options
  import opened Ticks

  /** `tag_presence_timeout`, in milliseconds. */
  const TAG_PRESENCE_TIMEOUT: int := 5000

  /** The debouncer's globals. `lastTagId` is 0 until a tag has been dispatched. */
  datatype Presence = Presence(lastTagId: nat, lastReadTime: Tick, processed: bool)

  /** The debouncer's state after one read, and the tag dispatched on that read, if any. */
  datatype Step = Step(next: Presence, arrived: Option<nat>)

  /** The state the program starts with. */
  const BOOT_PRESENCE: Presence := Presence(0, 0, false)

  /** Whether a detected tag `id` read at `now` is dispatched. */
  predicate Arrives(p: Presence, id: nat, now: Tick)
  {
    id != p.lastTagId || (TicksDiff(now, p.lastReadTime) > TAG_PRESENCE_TIMEOUT && !p.processed)
  }

  /** One tick of the debouncer on the read `tag` taken at `now`. */
  function Observe(p: Presence, tag: Option<nat>, now: Tick): (s: Step)
    ensures s.arrived.Some? ==> tag.Some? && s.arrived.value == tag.value
    ensures tag.Some? ==> (s.arrived.Some? <==> Arrives(p, tag.value, now))
    ensures tag.Some? ==> s.next.lastReadTime == now
    ensures s.arrived.Some? ==> s.next.lastTagId == tag.value && s.next.processed
    ensures s.arrived.None? ==> s.next.lastTagId == p.lastTagId
    ensures tag.Some? && s.arrived.None? ==> s.next.processed == p.processed
    ensures tag.None? ==> s.next.lastReadTime == p.lastReadTime
    ensures tag.None? ==> s.next.processed == (p.processed && TicksDiff(now, p.lastReadTime) <= TAG_PRESENCE_TIMEOUT)
  {
    match tag
    case Some(id) =>
      if Arrives(p, id, now) then Step(Presence(id, now, true), Some(id))
      else Step(Presence(p.lastTagId, now, p.processed), None)
    case None =>
      if TicksDiff(now, p.lastReadTime) > TAG_PRESENCE_TIMEOUT then Step(Presence(p.lastTagId, p.lastReadTime, false), None)
      else Step(p, None)
  }

  /** One tick's read: the tag id or None, and the tick it was taken at. */
  datatype Read = Read(tag: Option<nat>, now: Tick)

  /** The state after a run of samples and the tags dispatched on the way, in order. */
  datatype Trace = Trace(last: Presence, arrivals: seq<nat>)

  function Run(p: Presence, samples: seq<Read>): (t: Trace)
    ensures |t.arrivals| <= |samples|
    decreases |samples|
  {
    if samples == [] then Trace(p, [])
    else
      var s := Observe(p, samples[0].tag, samples[0].now);
      var rest := Run(s.next, samples[1..]);
      Trace(rest.last, (if s.arrived.Some? then [s.arrived.value] else []) + rest.arrivals)
  }

  /** Running two stretches of reads one after the other is running their concatenation. */
  lemma {:induction false} RunAppend(p: Presence, a: seq<Read>, b: seq<Read>)
    ensures var ra := Run(p, a);
      var rb := Run(ra.last, b);
      Run(p, a + b) == Trace(rb.last, ra.arrivals + rb.arrivals)
    decreases |a|
  {
    if a == [] {
      assert a + b == b;
    } else {
      var s := Observe(p, a[0].tag, a[0].now);
      assert (a + b)[0] == a[0] && (a + b)[1..] == a[1..] + b;
      RunAppend(s.next, a[1..], b);
    }
  }

  /** Every read in `samples` misses: `get_tag_id` returned None each time. */
  predicate AllMisses(samples: seq<Read>)
  {
    forall i :: 0 <= i < |samples| ==> samples[i].tag.None?
  }

  /**
   * Missed reads never dispatch and never move `last_tag_id` or `last_tag_read_time`; once
   * one of them comes more than the timeout after the last sighting, `tag_processed` is clear.
   */
  lemma {:induction false} MissesDispatchNothing(p: Presence, samples: seq<Read>)
    requires AllMisses(samples)
    ensures var t := Run(p, samples);
      t.arrivals == [] && t.last.lastTagId == p.lastTagId && t.last.lastReadTime == p.lastReadTime &&
      (t.last.processed ==> p.processed)
    ensures (exists i :: 0 <= i < |samples| && TicksDiff(samples[i].now, p.lastReadTime) > TAG_PRESENCE_TIMEOUT) ==>
      !Run(p, samples).last.processed
    decreases |samples|
  {
    if samples != [] {
      var s := Observe(p, samples[0].tag, samples[0].now);
      var rest := samples[1..];
      assert AllMisses(rest) by {
        forall j | 0 <= j < |rest| ensures rest[j].tag.None? {
          assert rest[j] == samples[j + 1];
        }
      }
      MissesDispatchNothing(s.next, rest);
      if exists i :: 0 <= i < |samples| && TicksDiff(samples[i].now, p.lastReadTime) > TAG_PRESENCE_TIMEOUT {
        var i :| 0 <= i < |samples| && TicksDiff(samples[i].now, p.lastReadTime) > TAG_PRESENCE_TIMEOUT;
        if i > 0 {
          assert rest[i - 1] == samples[i];
        }
      }
    }
  }

  /**
   * However many reads miss a lifted tag, once one of them is more than the timeout after the
   * last sighting, a tag (the same one or another) that then comes back, also more than the
   * timeout after that sighting, starts a new session that dispatches exactly once.
   */
  lemma RearmAfterAbsence(p: Presence, misses: seq<Read>, id: nat, back: Tick, rest: seq<Read>)
    requires AllMisses(misses)
    requires exists i :: 0 <= i < |misses| && TicksDiff(misses[i].now, p.lastReadTime) > TAG_PRESENCE_TIMEOUT
    requires TicksDiff(back, p.lastReadTime) > TAG_PRESENCE_TIMEOUT
    requires StaysSeated(id, back, rest)
    ensures Run(p, misses + [Read(Some(id), back)] + rest).arrivals == [id]
  {
    MissesDispatchNothing(p, misses);
    var q := Run(p, misses).last;
    var session := [Read(Some(id), back)] + rest;
    assert misses + [Read(Some(id), back)] + rest == misses + session;
    RunAppend(p, misses, session);
    OneArrivalPerSession(q, id, back, rest);
  }

  /**
   * The tag `id`, last read at `lastSeen`, stays on the reader through `samples`: every read
   * either sees `id` again or misses it within the grace window of the latest sighting.
   */
  predicate StaysSeated(id: nat, lastSeen: Tick, samples: seq<Read>)
    decreases |samples|
  {
    samples == [] ||
    match samples[0].tag
    case Some(x) => x == id && StaysSeated(id, samples[0].now, samples[1..])
    case None => TicksDiff(samples[0].now, lastSeen) <= TAG_PRESENCE_TIMEOUT && StaysSeated(id, lastSeen, samples[1..])
  }

  /** Once a seated tag has been dispatched, nothing is dispatched again while it stays seated. */
  lemma {:induction false} NoRedispatchWhileSeated(p: Presence, samples: seq<Read>)
    requires p.processed
    requires StaysSeated(p.lastTagId, p.lastReadTime, samples)
    ensures Run(p, samples).arrivals == []
    ensures Run(p, samples).last.lastTagId == p.lastTagId && Run(p, samples).last.processed
    decreases |samples|
  {
    if samples != [] {
      var s := Observe(p, samples[0].tag, samples[0].now);
      assert s.arrived.None? && s.next.processed && s.next.lastTagId == p.lastTagId;
      NoRedispatchWhileSeated(s.next, samples[1..]);
    }
  }

  /** A session, from the read that brings the tag to the last read it stays seated for, dispatches exactly once. */
  lemma OneArrivalPerSession(p: Presence, id: nat, now: Tick, rest: seq<Read>)
    requires Arrives(p, id, now)
    requires StaysSeated(id, now, rest)
    ensures Run(p, [Read(Some(id), now)] + rest).arrivals == [id]
  {
    var samples := [Read(Some(id), now)] + rest;
    assert samples[1..] == rest;
    var s := Observe(p, Some(id), now);
    NoRedispatchWhileSeated(s.next, rest);
  }

  /**
   * A missed read more than the timeout after the last sighting re-arms the debouncer: a tag
   * (the same one or another) that then comes back, also more than the timeout after that
   * sighting, starts a new session that dispatches exactly once.
   */
  lemma RearmAfterDeparture(p: Presence, gone: Tick, id: nat, back: Tick, rest: seq<Read>)
    requires TicksDiff(gone, p.lastReadTime) > TAG_PRESENCE_TIMEOUT
    requires TicksDiff(back, p.lastReadTime) > TAG_PRESENCE_TIMEOUT
    requires StaysSeated(id, back, rest)
    ensures Run(p, [Read(None, gone), Read(Some(id), back)] + rest).arrivals == [id]
  {
    var samples := [Read(None, gone), Read(Some(id), back)] + rest;
    var q := Observe(p, None, gone).next;
    assert !q.processed && q.lastReadTime == p.lastReadTime;
    assert samples[1..] == [Read(Some(id), back)] + rest;
    OneArrivalPerSession(q, id, back, rest);
  }

  /** A read within the grace window of a dispatched tag changes nothing at all. */
  lemma MissWithinGraceIsNoop(p: Presence, now: Tick)
    requires TicksDiff(now, p.lastReadTime) <= TAG_PRESENCE_TIMEOUT
    ensures Observe(p, None, now) == Step(p, None)
  {
  }

  /**
   * Because the tick difference wraps, the tag dispatched last, returning half a tick period
   * (about 6.2 days) or more but less than a full period after it was last read while the
   * debouncer is re-armed, is not dispatched on its return.
   */
  lemma ReturnAfterHalfPeriodIgnored(p: Presence, delta: int)
    requires TICKS_HALF <= delta < TICKS_PERIOD
    ensures Observe(p, Some(p.lastTagId), TicksAdd(p.lastReadTime, delta)).arrived == None
  {
  }
}
