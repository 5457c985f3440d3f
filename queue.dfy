/**
 * The per-guild playback queue and its registry.
 *
 * A Queue is an ordered list of pending tracks (first = plays next) plus a
 * free-form `queueType` string that selects the repeat mode. The
 * QueueManager maps guild ids to Queue objects, creating an empty Normal
 * queue the first time a guild is looked up and forgetting it on Delete.
 */
module Queues {

  /** An audio track as resolved by the audio node; opaque to the queue. */
  datatype Track = Track(encoded: string, title: string, uri: string, lengthMs: int)

  /** The zero value of a track, returned when no track was found. */
  const ZeroTrack := Track("", "", "", 0)

  /** A guild's snowflake id. */
  type GuildId = nat

  /** The repeat mode is an unvalidated string; these are the three values the continuation policy knows. */
  type QueueType = string
  const Normal: QueueType := "normal"
  const RepeatTrack: QueueType := "repeat_track"
  const RepeatQueue: QueueType := "repeat_queue"

  /** What `Next` and `Skip` report: the track taken, whether one was found, and the tracks left behind. */
  datatype Taken = Taken(track: Track, found: bool, rest: seq<Track>)

  /** The contents of one queue, as a value. */
  datatype QueueState = QueueState(tracks: seq<Track>, queueType: QueueType)

  /** The whole registry, as a value: guild id to queue contents. */
  type Registry = map<GuildId, QueueState>

  /** The queue a fresh `Get` registers: empty and Normal. */
  const EmptyNormal := QueueState([], Normal)

  /** The queue that `Get` yields for `g`: the registered one, or a fresh empty Normal one. */
  function Lookup(reg: Registry, g: GuildId): QueueState
  {
    if g in reg then reg[g] else EmptyNormal
  }

  /**
   * `Next`: take the head of the queue. On an empty queue nothing is found
   * and the zero track is reported.
   */
  function TakeHead(tracks: seq<Track>): (r: Taken)
    ensures r.found <==> tracks != []
    ensures r.found ==> [r.track] + r.rest == tracks
    ensures !r.found ==> r.track == ZeroTrack && r.rest == []
  {
    if tracks == [] then Taken(ZeroTrack, false, []) else Taken(tracks[0], true, tracks[1..])
  }

  /** How many tracks a skip of `amount` throws away before it takes one: all but the last of them. */
  function Discarded(amount: int): nat
  {
    if amount <= 1 then 0 else amount - 1
  }

  /**
   * `Skip(amount)`: throw away `amount - 1` tracks and take the next one.
   * When the queue holds fewer than `amount` tracks it ends up empty and
   * nothing is found.
   */
  function TakeAfterSkipping(tracks: seq<Track>, amount: int): (r: Taken)
    ensures r.found <==> Discarded(amount) < |tracks|
    ensures r.found ==> tracks == tracks[..Discarded(amount)] + [r.track] + r.rest
    ensures !r.found ==> r.track == ZeroTrack && r.rest == []
  {
    var k := Discarded(amount);
    if k < |tracks| then TakeHead(tracks[k..]) else Taken(ZeroTrack, false, [])
  }

  /** Reference behaviour for skipping: `n` successive `Next` calls whose results are dropped. */
  function NextTimes(tracks: seq<Track>, n: nat): seq<Track>
    decreases n
  {
    if n == 0 then tracks else NextTimes(TakeHead(tracks).rest, n - 1)
  }

  lemma {:induction false} NextTimesDrops(tracks: seq<Track>, n: nat)
    ensures NextTimes(tracks, n) == if n <= |tracks| then tracks[n..] else []
    decreases n
  {
    if n > 0 {
      NextTimesDrops(TakeHead(tracks).rest, n - 1);
      if tracks != [] {
        assert TakeHead(tracks).rest == tracks[1..];
        if n <= |tracks| {
          assert tracks[1..][n - 1..] == tracks[n..];
        }
      }
    }
  }

  /** Skipping `amount` is the same as dropping `amount - 1` heads and then taking one with `Next`. */
  lemma SkipIsRepeatedNext(tracks: seq<Track>, amount: int)
    ensures TakeAfterSkipping(tracks, amount) == TakeHead(NextTimes(tracks, Discarded(amount)))
  {
    NextTimesDrops(tracks, Discarded(amount));
  }

  /** The tracks `Next` yields, in order, when called until it reports nothing found. */
  function Drain(tracks: seq<Track>): seq<Track>
    decreases |tracks|
  {
    var t := TakeHead(tracks);
    if t.found then [t.track] + Drain(t.rest) else []
  }

  /** First in, first out: draining a queue with `Next` yields exactly the tracks in the order they were added. */
  lemma {:induction false} DrainIsFifo(tracks: seq<Track>)
    ensures Drain(tracks) == tracks
    decreases |tracks|
  {
    if tracks != [] {
      DrainIsFifo(tracks[1..]);
    }
  }


  /** A shuffle of at most one track can only be the identity. */
  lemma {:induction false} ShortShuffleIsIdentity(before: seq<Track>, after: seq<Track>)
    requires |before| <= 1
    requires multiset(after) == multiset(before)
    ensures after == before
  {
    assert |after| == |multiset(after)| == |multiset(before)| == |before|;
    if |before| == 1 {
      assert before[0] in multiset(after);
      assert after == [after[0]];
    }
  }

  class Queue {
    var tracks: seq<Track>
    var queueType: QueueType

    /** A queue literal `&Queue{Type: t}`: no tracks, the given type. */
    constructor (queueType: QueueType)
      ensures tracks == [] && this.queueType == queueType
    {
      tracks := [];
      this.queueType := queueType;
    }

    /** The queue's contents as a value. */
    function State(): QueueState
      reads this
    {
      QueueState(tracks, queueType)
    }

    /** Append the given tracks, in order, after the ones already queued. */
    method Add(ts: seq<Track>)
      modifies this
      ensures tracks == old(tracks) + ts
      ensures queueType == old(queueType)
    {
      tracks := tracks + ts;
    }

    /** Remove and return the first track; on an empty queue return the zero track and `found == false`. */
    method Next() returns (track: Track, found: bool)
      modifies this
      ensures Taken(track, found, tracks) == TakeHead(old(tracks))
      ensures queueType == old(queueType)
    {
      if |tracks| == 0 {
        return ZeroTrack, false;
      }
      track, found := tracks[0], true;
      tracks := tracks[1..];
    }

    /** Drop `amount - 1` tracks, then behave as `Next`; with too few tracks, empty the queue and find nothing. */
    method Skip(amount: int) returns (track: Track, found: bool)
      modifies this
      ensures Taken(track, found, tracks) == TakeAfterSkipping(old(tracks), amount)
      ensures queueType == old(queueType)
    {
      var k := Discarded(amount);
      if k >= |tracks| {
        tracks := [];
        return ZeroTrack, false;
      }
      tracks := tracks[k..];
      track, found := Next();
    }

    /** Reorder the tracks into some permutation; which one is left open. */
    method Shuffle()
      modifies this
      ensures multiset(tracks) == multiset(old(tracks))
      ensures queueType == old(queueType)
    {
      var shuffled :| multiset(shuffled) == multiset(tracks);
      tracks := shuffled;
    }

    /** Remove every track. */
    method Clear()
      modifies this
      ensures tracks == []
      ensures queueType == old(queueType)
    {
      tracks := [];
    }
  }

  /** No two guilds share one Queue object. */
  ghost predicate Distinct(queues: map<GuildId, Queue>)
  {
    forall g, h :: g in queues && h in queues && g != h ==> queues[g] != queues[h]
  }

  /** `after` keeps every guild and queue object of `before`, and may add a queue for `g` only. */
  ghost predicate GrowsAt(before: map<GuildId, Queue>, after: map<GuildId, Queue>, g: GuildId)
  {
    && after.Keys <= before.Keys + {g}
    && forall h :: h in before ==> h in after && after[h] == before[h]
  }

  class QueueManager {
    var queues: map<GuildId, Queue>

    ghost predicate Valid()
      reads this
    {
      Distinct(queues)
    }

    /** Every registered queue's contents, by guild. */
    ghost function Snapshot(): Registry
      reads this, queues.Values
    {
      map g | g in queues :: queues[g].State()
    }

    /** `&QueueManager{queues: make(map...)}`: an empty registry. */
    constructor ()
      ensures Valid() && queues == map[]
    {
      queues := map[];
    }

    /** The guild's queue; registered on the spot, empty and Normal, if the guild had none. */
    method Get(g: GuildId) returns (q: Queue)
      requires Valid()
      modifies this
      ensures Valid()
      ensures g in old(queues) ==> q == old(queues[g]) && queues == old(queues)
      ensures g !in old(queues) ==> fresh(q) && queues == old(queues)[g := q]
      ensures q.State() == Lookup(old(Snapshot()), g)
      ensures Snapshot() == old(Snapshot())[g := Lookup(old(Snapshot()), g)]
    {
      if g in queues {
        q := queues[g];
        return;
      }
      q := new Queue(Normal);
      queues := queues[g := q];
    }

    /** Forget the guild's queue; a no-op when it has none. */
    method Delete(g: GuildId)
      requires Valid()
      modifies this
      ensures Valid()
      ensures queues == old(queues) - {g}
      ensures Snapshot() == old(Snapshot()) - {g}
    {
      queues := queues - {g};
    }

    /**
     * Between two states in which the registry only grew at `g` and no
     * other guild's queue object changed, the snapshot changed at `g` only.
     */
    twostate lemma OnlyOneQueueChanged(g: GuildId)
      requires old(Valid()) && Valid()
      requires GrowsAt(old(queues), queues, g) && g in queues
      requires forall h :: h in old(queues) && h != g ==> unchanged(old(queues)[h])
      ensures Snapshot() == old(Snapshot())[g := queues[g].State()]
    {
    }
  }

  // The unit tests of the queue, as client code: each method builds the
  // test's fixture and returns what the test inspects.

  /** Adding two tracks to an empty queue leaves exactly those two, in order. */
  method AddAppendsInOrder(t1: Track, t2: Track) returns (tracks: seq<Track>)
    ensures tracks == [t1, t2]
  {
    var q := new Queue("");
    q.Add([t1, t2]);
    tracks := q.tracks;
  }

  /** `Next` on `[t1, t2]` returns `t1` and leaves `[t2]`. */
  method NextReturnsHead(t1: Track, t2: Track) returns (track: Track, found: bool, left: seq<Track>)
    ensures found && track == t1 && left == [t2]
  {
    var q := new Queue("");
    q.Add([t1, t2]);
    track, found := q.Next();
    left := q.tracks;
  }

  /** `Next` on an empty queue finds nothing and returns the zero track. */
  method NextOnEmpty() returns (track: Track, found: bool)
    ensures !found && track == ZeroTrack
  {
    var q := new Queue("");
    track, found := q.Next();
  }

  /** `Skip(2)` on `[t1, t2, t3]` finds a track and leaves only `t3`. */
  method SkipTwoOfThree(t1: Track, t2: Track, t3: Track) returns (track: Track, found: bool, left: seq<Track>)
    ensures found && track == t2 && left == [t3]
  {
    var q := new Queue("");
    q.Add([t1, t2, t3]);
    track, found := q.Skip(2);
    left := q.tracks;
  }

  /** `Skip(1)` on an empty queue finds nothing and returns the zero track. */
  method SkipOnEmpty() returns (track: Track, found: bool)
    ensures !found && track == ZeroTrack
  {
    var q := new Queue("");
    track, found := q.Skip(1);
  }

  /** `Clear` leaves no tracks. */
  method ClearEmpties(t1: Track, t2: Track) returns (count: nat)
    ensures count == 0
  {
    var q := new Queue("");
    q.Add([t1, t2]);
    q.Clear();
    count := |q.tracks|;
  }

  /** After `Clear` on `[t1, t2]`, `Next` finds nothing and returns the zero track. */
  method ClearThenNextFindsNothing(t1: Track, t2: Track) returns (track: Track, found: bool)
    ensures !found && track == ZeroTrack
  {
    var q := new Queue("");
    q.Add([t1, t2]);
    q.Clear();
    track, found := q.Next();
  }

  /** `Get` for a registered guild returns that very Queue object. */
  method GetReturnsRegistered(g: GuildId) returns (same: bool)
    ensures same
  {
    var m := new QueueManager();
    var registered := new Queue(Normal);
    m.queues := m.queues[g := registered];
    var result := m.Get(g);
    same := result == registered;
  }

  /** `Get` for an unknown guild returns an empty Normal queue. */
  method GetCreatesEmptyNormal(g: GuildId) returns (queueType: QueueType, count: nat)
    ensures queueType == Normal && count == 0
  {
    var m := new QueueManager();
    var result := m.Get(g);
    queueType, count := result.queueType, |result.tracks|;
  }

  /** `Delete` removes the guild's entry. */
  method DeleteRemoves(g: GuildId) returns (present: bool)
    ensures !present
  {
    var m := new QueueManager();
    var registered := new Queue("");
    m.queues := m.queues[g := registered];
    m.Delete(g);
    present := g in m.queues;
  }
}
