/**
 * The continuation policy run when the audio node reports that a track
 * ended, and the idle reset run when a track starts.
 *
 * Time is an integer clock supplied by the caller. The idle map records,
 * per guild, an instant; the policy writes "now + idle timeout" there when
 * it finds nothing to play.
 */
module PlayHandlers {
  import opened Queues

  /** Why the audio node ended a track; only some reasons allow the next one to start. */
  datatype EndReason = Finished | LoadFailed | Stopped | Replaced | Cleanup

  /** The audio node's rule: a finished track, or one that failed to load, may be followed. */
  predicate MayStartNext(reason: EndReason)
  {
    reason == Finished || reason == LoadFailed
  }

  /** A point on the integer clock. */
  type Instant = int

  /** The zero `time.Time`; the clock is taken to read a positive value for every real instant. */
  const ZeroInstant: Instant := 0

  /** The idle tracker: guild id to a recorded instant. */
  type IdleTimes = map<GuildId, Instant>

  /** What the bot tells the guild's player to do. */
  datatype Command = NoCommand | PlayTrack(track: Track) | StopTrack

  /** The effect of one event on the registry and the idle tracker, with the player command it issues. */
  datatype Outcome = Outcome(queues: Registry, idle: IdleTimes, command: Command)

  /** The outcome of the switch on the queue type: the chosen track, the `ok` flag, and the queue afterwards. */
  datatype Choice = Choice(track: Track, ok: bool, queue: QueueState)

  /**
   * The switch on the queue type in `onTrackEnd`. Normal takes the queue's
   * head; RepeatQueue first appends the finished track and then takes the
   * head; RepeatTrack assigns the finished track but never sets `ok`; any
   * other type matches no case.
   */
  function ChooseNext(q: QueueState, finished: Track): (r: Choice)
    ensures r.queue.queueType == q.queueType
    ensures r.ok <==> (q.queueType == Normal && q.tracks != []) || q.queueType == RepeatQueue
    ensures r.ok && q.queueType == Normal ==> [r.track] + r.queue.tracks == q.tracks
    ensures r.ok && q.queueType == RepeatQueue ==> [r.track] + r.queue.tracks == q.tracks + [finished]
    ensures !r.ok ==> r.queue == q
    ensures q.queueType == RepeatTrack ==> r.track == finished
  {
    if q.queueType == Normal then
      var t := TakeHead(q.tracks);
      Choice(t.track, t.found, q.(tracks := t.rest))
    else if q.queueType == RepeatTrack then
      Choice(finished, false, q)
    else if q.queueType == RepeatQueue then
      var t := TakeHead(q.tracks + [finished]);
      Choice(t.track, t.found, q.(tracks := t.rest))
    else
      Choice(ZeroTrack, false, q)
  }

  /**
   * `onTrackEnd`. When the end reason forbids a successor nothing happens.
   * Otherwise the guild's queue is fetched (created lazily), the switch picks
   * a track, and either the player is told to play it or the idle tracker
   * records `now + timeout` for the guild. A failed play command is only
   * logged, so it has no effect on this outcome.
   */
  function TrackEnd(queues: Registry, idle: IdleTimes, g: GuildId, finished: Track,
                    reason: EndReason, now: Instant, timeout: int): (r: Outcome)
    ensures !MayStartNext(reason) ==> r == Outcome(queues, idle, NoCommand)
    ensures MayStartNext(reason) ==> g in r.queues && r.queues - {g} == queues - {g}
    ensures MayStartNext(reason) ==> r.queues[g].queueType == Lookup(queues, g).queueType
    ensures !r.command.StopTrack?
    ensures MayStartNext(reason) ==>
              (r.command.PlayTrack? <==>
                 (Lookup(queues, g).queueType == Normal && Lookup(queues, g).tracks != []) ||
                 Lookup(queues, g).queueType == RepeatQueue)
    ensures r.command.PlayTrack? ==> r.idle == idle
    ensures MayStartNext(reason) && r.command == NoCommand ==>
              r.idle == idle[g := now + timeout] && r.queues[g] == Lookup(queues, g)
    ensures r.command.PlayTrack? ==>
              [r.command.track] + r.queues[g].tracks ==
              (if Lookup(queues, g).queueType == RepeatQueue then Lookup(queues, g).tracks + [finished]
               else Lookup(queues, g).tracks)
  {
    if !MayStartNext(reason) then
      Outcome(queues, idle, NoCommand)
    else
      var c := ChooseNext(Lookup(queues, g), finished);
      var queues' := queues[g := c.queue];
      if !c.ok then Outcome(queues', idle[g := now + timeout], NoCommand)
      else Outcome(queues', idle, PlayTrack(c.track))
  }

  /**
   * `onTrackStart`: the guild's idle entry is deleted when it holds a
   * non-zero instant; an absent entry reads as the zero instant.
   */
  function TrackStart(idle: IdleTimes, g: GuildId): (r: IdleTimes)
    ensures g in r ==> g in idle && idle[g] == ZeroInstant && r[g] == ZeroInstant
    ensures g in idle && idle[g] == ZeroInstant ==> r == idle
    ensures r - {g} == idle - {g}
  {
    if g in idle && idle[g] != ZeroInstant then idle - {g} else idle
  }

  // Scenarios of the continuation policy.

  /** Normal mode plays the queue's head and leaves the rest, in order. */
  lemma NormalPlaysHead(queues: Registry, idle: IdleTimes, g: GuildId, finished: Track, head: Track,
                        rest: seq<Track>, now: Instant, timeout: int)
    requires g in queues && queues[g] == QueueState([head] + rest, Normal)
    ensures TrackEnd(queues, idle, g, finished, Finished, now, timeout)
            == Outcome(queues[g := QueueState(rest, Normal)], idle, PlayTrack(head))
  {
  }

  /** A guild without a queue gets an empty Normal one, plays nothing and becomes idle until `now + timeout`. */
  lemma UnknownGuildGoesIdle(queues: Registry, idle: IdleTimes, g: GuildId, finished: Track,
                             now: Instant, timeout: int)
    requires g !in queues
    ensures TrackEnd(queues, idle, g, finished, Finished, now, timeout)
            == Outcome(queues[g := EmptyNormal], idle[g := now + timeout], NoCommand)
  {
  }

  /** RepeatQueue with `[b]` when `a` ends plays `b` and leaves `[a]`. */
  lemma RepeatQueueRotates(queues: Registry, idle: IdleTimes, g: GuildId, a: Track, b: Track,
                           now: Instant, timeout: int)
    requires g in queues && queues[g] == QueueState([b], RepeatQueue)
    ensures TrackEnd(queues, idle, g, a, Finished, now, timeout)
            == Outcome(queues[g := QueueState([a], RepeatQueue)], idle, PlayTrack(b))
  {
  }

  /** RepeatQueue with an empty queue when `a` ends plays `a` again and leaves the queue empty. */
  lemma RepeatQueueAloneReplays(queues: Registry, idle: IdleTimes, g: GuildId, a: Track,
                                now: Instant, timeout: int)
    requires g in queues && queues[g] == QueueState([], RepeatQueue)
    ensures TrackEnd(queues, idle, g, a, Finished, now, timeout)
            == Outcome(queues, idle, PlayTrack(a))
  {
  }

  /**
   * RepeatTrack never sets `ok`: the finished track is not replayed, the
   * queue is left as it is, and the guild is recorded as idle.
   */
  lemma RepeatTrackGoesIdle(queues: Registry, idle: IdleTimes, g: GuildId, finished: Track,
                            reason: EndReason, now: Instant, timeout: int)
    requires MayStartNext(reason)
    requires Lookup(queues, g).queueType == RepeatTrack
    ensures TrackEnd(queues, idle, g, finished, reason, now, timeout)
            == Outcome(queues[g := Lookup(queues, g)], idle[g := now + timeout], NoCommand)
  {
  }

  /** A queue type outside the three known ones matches no case: nothing plays and the guild goes idle. */
  lemma UnknownTypeGoesIdle(queues: Registry, idle: IdleTimes, g: GuildId, finished: Track,
                            reason: EndReason, now: Instant, timeout: int)
    requires MayStartNext(reason)
    requires Lookup(queues, g).queueType !in {Normal, RepeatTrack, RepeatQueue}
    ensures TrackEnd(queues, idle, g, finished, reason, now, timeout)
            == Outcome(queues[g := Lookup(queues, g)], idle[g := now + timeout], NoCommand)
  {
  }

  // RepeatQueue as a cycle: the queue plus the track now playing rotate by
  // one position at every natural track end.

  /** A RepeatQueue guild's state: what is queued and what is playing. */
  datatype Rotation = Rotation(queued: seq<Track>, playing: Track)

  /** The queued tracks followed by the playing one: the order in which RepeatQueue cycles. */
  function Cycle(s: Rotation): seq<Track>
  {
    s.queued + [s.playing]
  }

  /** One natural end of the playing track in RepeatQueue mode, the chosen track starting next. */
  function RepeatQueueStep(s: Rotation): Rotation
  {
    var c := ChooseNext(QueueState(s.queued, RepeatQueue), s.playing);
    Rotation(c.queue.tracks, c.track)
  }

  /** The state after `k` natural track ends. */
  function RepeatQueueSteps(s: Rotation, k: nat): Rotation
    decreases k
  {
    if k == 0 then s else RepeatQueueStep(RepeatQueueSteps(s, k - 1))
  }

  /** The tracks played by the first `k` natural track ends, in order. */
  function RepeatQueuePlayed(s: Rotation, k: nat): seq<Track>
    decreases k
  {
    if k == 0 then [] else RepeatQueuePlayed(s, k - 1) + [RepeatQueueSteps(s, k).playing]
  }

  /** After `k` steps (at most one full cycle) the cycle is rotated left by `k` and its first `k` tracks were played. */
  lemma {:induction false} RepeatQueueRotation(s: Rotation, k: nat)
    requires k <= |Cycle(s)|
    ensures Cycle(RepeatQueueSteps(s, k)) == Cycle(s)[k..] + Cycle(s)[..k]
    ensures RepeatQueuePlayed(s, k) == Cycle(s)[..k]
    decreases k
  {
    if k > 0 {
      RepeatQueueRotation(s, k - 1);
      var before := RepeatQueueSteps(s, k - 1);
      var cyc := Cycle(s);
      assert Cycle(before) == cyc[k - 1..] + cyc[..k - 1];
      var c := ChooseNext(QueueState(before.queued, RepeatQueue), before.playing);
      assert [c.track] + c.queue.tracks == Cycle(before);
      assert c.track == cyc[k - 1];
      assert c.queue.tracks == cyc[k..] + cyc[..k - 1];
      assert cyc[..k] == cyc[..k - 1] + [cyc[k - 1]];
    }
  }

  /** After as many natural track ends as there are tracks in the cycle, RepeatQueue is back where it started, having played each track once. */
  lemma RepeatQueueFullCycle(s: Rotation)
    ensures RepeatQueueSteps(s, |Cycle(s)|) == s
    ensures RepeatQueuePlayed(s, |Cycle(s)|) == Cycle(s)
  {
    var n := |Cycle(s)|;
    RepeatQueueRotation(s, n);
    var e := RepeatQueueSteps(s, n);
    assert Cycle(e) == Cycle(s);
    assert e.queued == Cycle(e)[..|Cycle(e)| - 1];
    assert e.playing == Cycle(e)[|Cycle(e)| - 1];
  }
}
