/**
 * The bot: its queue registry, the idle tracker and the idle timeout, and
 * the event and command handlers that change them. Each handler is a method
 * whose contract ties the new registry snapshot and idle map to a step
 * function of Queues, PlayHandlers and Handlers applied to the old ones.
 */
module Bot {
  import opened Wrappers
  import opened Queues
  import opened PlayHandlers
  import opened Handlers

  type UserId = nat
  type ChannelId = nat

  /**
   * `onVoiceStateUpdate`: updates about other users change nothing; the
   * bot's own update with no channel (it left voice) forgets the guild's
   * queue. The idle tracker is not consulted.
   */
  function AfterVoiceState(queues: Registry, self: UserId, user: UserId, g: GuildId,
                           channel: Option<ChannelId>): (r: Registry)
    ensures r.Keys == if user == self && channel.None? then queues.Keys - {g} else queues.Keys
    ensures forall h :: h in r ==> r[h] == queues[h]
  {
    if user == self && channel.None? then queues - {g} else queues
  }

  /** `Shutdown`: every registered queue is emptied but stays registered, with its type. */
  function ClearAll(queues: Registry): (r: Registry)
    ensures r.Keys == queues.Keys
    ensures forall g :: g in r ==> r[g].tracks == [] && r[g].queueType == queues[g].queueType
  {
    map g | g in queues :: queues[g].(tracks := [])
  }

  /** `onApplicationCommand`: the handler registered under the command's name, if any; that one and no other runs. */
  function Dispatch<H>(handlers: map<string, H>, name: string): (r: Option<H>)
    ensures r.Some? <==> name in handlers
    ensures r.Some? ==> r.value == handlers[name]
  {
    if name in handlers then Some(handlers[name]) else None
  }

  /** The part of the bot a functional option can configure. */
  datatype Config = Config(idleTimeout: int)

  /** The configuration one option leaves behind, and the error it returned. */
  datatype Applied = Applied(config: Config, error: Option<string>)

  /** A functional option: it changes the configuration and may report an error. */
  type Setting = Config -> Applied

  /** `WithIdleTimeout(d)`: a plain setter that never fails. */
  function WithIdleTimeout(d: int): (r: Setting)
    ensures forall c: Config :: r(c).error.None? && r(c).config.idleTimeout == d
  {
    (c: Config) => Applied(c.(idleTimeout := d), None)
  }

  /** `parseOptions`: the options in order, stopping at the first error and returning it. */
  function ApplyOptions(c: Config, opts: seq<Setting>): (r: Applied)
    ensures opts == [] ==> r == Applied(c, None)
    ensures r.error.Some? ==>
              exists i :: 0 <= i < |opts| && ApplyOptions(c, opts[..i]).error.None? &&
                          opts[i](ApplyOptions(c, opts[..i]).config) == r
    ensures r.error.None? ==> forall i :: 0 <= i < |opts| ==> ApplyOptions(c, opts[..i]).error.None?
    decreases |opts|
  {
    if opts == [] then Applied(c, None)
    else
      var a := opts[0](c);
      if a.error.Some? then
        assert ApplyOptions(c, opts[..0]) == Applied(c, None) by { assert opts[..0] == []; }
        a
      else
        var r' := ApplyOptions(a.config, opts[1..]);
        assert r'.error.Some? ==>
                 exists i :: 0 <= i < |opts| && ApplyOptions(c, opts[..i]).error.None? &&
                             opts[i](ApplyOptions(c, opts[..i]).config) == r' by {
          if r'.error.Some? {
            var j :| 0 <= j < |opts[1..]| && ApplyOptions(a.config, opts[1..][..j]).error.None? &&
                     opts[1..][j](ApplyOptions(a.config, opts[1..][..j]).config) == r';
            assert opts[..j + 1][0] == opts[0] && opts[..j + 1][1..] == opts[1..][..j];
            assert ApplyOptions(c, opts[..j + 1]) == ApplyOptions(a.config, opts[1..][..j]);
          }
        }
        assert r'.error.None? ==> forall i :: 0 <= i < |opts| ==> ApplyOptions(c, opts[..i]).error.None? by {
          if r'.error.None? {
            forall i | 0 <= i < |opts|
              ensures ApplyOptions(c, opts[..i]).error.None?
            {
              if i == 0 {
                assert opts[..0] == [];
              } else {
                assert opts[..i][0] == opts[0] && opts[..i][1..] == opts[1..][..i - 1];
              }
            }
          }
        }
        r'
  }

  /** Applying `first + rest` is applying `first`, then, only if that succeeded, `rest` to its result. */
  lemma {:induction false} ApplyOptionsAppend(c: Config, first: seq<Setting>, rest: seq<Setting>)
    ensures ApplyOptions(c, first + rest) ==
            var a := ApplyOptions(c, first);
            if a.error.Some? then a else ApplyOptions(a.config, rest)
    decreases |first|
  {
    if first == [] {
      assert first + rest == rest;
    } else {
      assert (first + rest)[1..] == first[1..] + rest;
      ApplyOptionsAppend(first[0](c).config, first[1..], rest);
    }
  }

  /** An option after a failing one never runs. */
  lemma ErrorStopsParsing(c: Config, first: seq<Setting>, rest: seq<Setting>)
    ensures ApplyOptions(c, first).error.Some? ==> ApplyOptions(c, first + rest) == ApplyOptions(c, first)
  {
    ApplyOptionsAppend(c, first, rest);
  }

  /** Options override earlier ones: a final `WithIdleTimeout(d)` decides the timeout unless an earlier option failed. */
  lemma LastIdleTimeoutWins(c: Config, opts: seq<Setting>, d: int)
    ensures ApplyOptions(c, opts + [WithIdleTimeout(d)]) ==
            var a := ApplyOptions(c, opts);
            if a.error.Some? then a else Applied(Config(d), None)
  {
    ApplyOptionsAppend(c, opts, [WithIdleTimeout(d)]);
  }

  class Bot {
    /** The bot's own user id, as the gateway client reports it. */
    const applicationId: UserId
    /** The queue registry. */
    const manager: QueueManager
    /** The idle tracker. */
    var idleTimes: IdleTimes
    /** How long a guild may stay idle before the sweep disconnects it. */
    var idleTimeout: int

    ghost predicate Valid()
      reads this, manager
    {
      manager.Valid()
    }

    /** The bot's queue registry as a value. */
    ghost function QueueContents(): Registry
      reads this, manager, manager.queues.Values
    {
      manager.Snapshot()
    }

    /** The struct `NewBot` builds before options run: no queues, no idle guilds, a zero timeout. */
    constructor (applicationId: UserId)
      ensures Valid() && fresh(manager)
      ensures this.applicationId == applicationId
      ensures manager.queues == map[] && idleTimes == map[] && idleTimeout == 0
    {
      this.applicationId := applicationId;
      manager := new QueueManager();
      idleTimes := map[];
      idleTimeout := 0;
    }

    /**
     * `NewBot`. `clientError` is the error the gateway client's constructor
     * returned, if any: then no option runs and the error is joined to
     * "error creating the bot client" (`errors.Join` puts a newline between).
     * Otherwise the result is a bot with an empty registry configured by
     * `opts`, or the wrapped error of the first failing option.
     */
    static method NewBot(applicationId: UserId, clientError: Option<string>, opts: seq<Setting>)
      returns (b: Bot?, err: Option<string>)
      ensures clientError.Some? ==>
                b == null && err == Some("error creating the bot client\n" + clientError.value)
      ensures clientError.None? ==>
                var a := ApplyOptions(Config(0), opts);
                && (err.None? <==> a.error.None?)
                && (a.error.Some? ==> b == null && err == Some("options parsing failed: " + a.error.value))
                && (a.error.None? ==> b != null && fresh(b) && fresh(b.manager) && b.Valid()
                                      && b.manager.queues == map[] && b.idleTimes == map[]
                                      && b.idleTimeout == a.config.idleTimeout
                                      && b.applicationId == applicationId)
    {
      if clientError.Some? {
        return null, Some("error creating the bot client\n" + clientError.value);
      }
      b := new Bot(applicationId);
      var e := b.ParseOptions(opts);
      if e.Some? {
        return null, Some("options parsing failed: " + e.value);
      }
      err := None;
    }

    /** `parseOptions`: apply the options in order; the first error stops the loop and is returned. */
    method ParseOptions(opts: seq<Setting>) returns (err: Option<string>)
      modifies this`idleTimeout
      ensures Applied(Config(idleTimeout), err) == ApplyOptions(Config(old(idleTimeout)), opts)
    {
      var i := 0;
      while i < |opts|
        invariant 0 <= i <= |opts|
        invariant ApplyOptions(Config(old(idleTimeout)), opts) == ApplyOptions(Config(idleTimeout), opts[i..])
      {
        assert opts[i..][1..] == opts[i + 1..];
        var a := opts[i](Config(idleTimeout));
        idleTimeout := a.config.idleTimeout;
        if a.error.Some? {
          return a.error;
        }
        i := i + 1;
      }
      return None;
    }

    /** `onTrackStart`: a non-zero idle entry of the guild is deleted. */
    method OnTrackStart(g: GuildId)
      modifies this`idleTimes
      ensures idleTimes == TrackStart(old(idleTimes), g)
    {
      if g in idleTimes && idleTimes[g] != ZeroInstant {
        idleTimes := idleTimes - {g};
      }
    }

    /** `onTrackEnd`: the continuation policy, returning the command sent to the player. */
    method OnTrackEnd(g: GuildId, finished: Track, reason: EndReason, now: Instant) returns (cmd: Command)
      requires Valid()
      modifies this`idleTimes, manager, manager.queues.Values
      ensures Valid() && GrowsAt(old(manager.queues), manager.queues, g)
      ensures var r := TrackEnd(old(QueueContents()), old(idleTimes), g, finished, reason, now, idleTimeout);
              QueueContents() == r.queues && idleTimes == r.idle && cmd == r.command
    {
      cmd := NoCommand;
      if MayStartNext(reason) {
        var track, ok := ChooseFor(g, finished);
        if !ok {
          idleTimes := idleTimes[g := now + idleTimeout];
        } else {
          cmd := PlayTrack(track);
        }
      }
    }

    /** Fetch (or create) the guild's queue and run the switch on its type; `ok` stays false unless a queue operation sets it. */
    method ChooseFor(g: GuildId, finished: Track) returns (track: Track, ok: bool)
      requires Valid()
      modifies manager, manager.queues.Values
      ensures Valid() && GrowsAt(old(manager.queues), manager.queues, g)
      ensures var c := ChooseNext(Lookup(old(QueueContents()), g), finished);
              track == c.track && ok == c.ok && QueueContents() == old(QueueContents())[g := c.queue]
    {
      var q := manager.Get(g);
      track, ok := PickNext(q, finished);
      manager.OnlyOneQueueChanged(g);
    }

    /** The switch itself, on one queue object. */
    static method PickNext(q: Queue, finished: Track) returns (track: Track, ok: bool)
      modifies q
      ensures Choice(track, ok, q.State()) == ChooseNext(old(q.State()), finished)
    {
      track, ok := ZeroTrack, false;
      if q.queueType == Normal {
        track, ok := q.Next();
      } else if q.queueType == RepeatTrack {
        track := finished;
      } else if q.queueType == RepeatQueue {
        q.Add([finished]);
        track, ok := q.Next();
      }
    }

    /** `skip`; `player` is what the audio node reports for the guild and `stopFails` whether stopping the current track failed. */
    method SkipCommand(g: GuildId, amount: Option<int>, player: PlayerView, stopFails: bool, now: Instant)
      returns (cmd: Command)
      requires Valid()
      modifies this`idleTimes, manager, manager.queues.Values
      ensures Valid() && GrowsAt(old(manager.queues), manager.queues, g)
      ensures var r := SkipStep(old(QueueContents()), old(idleTimes), g, amount, player, stopFails, now);
              QueueContents() == r.queues && idleTimes == r.idle && cmd == r.command
    {
      cmd := NoCommand;
      if player.NoPlayer? {
        var _ := manager.Get(g);
      } else {
        var track, ok := SkipQueueOf(g, SkipAmount(amount));
        cmd, idleTimes := SkipDecision(player.current, track, ok, stopFails, idleTimes, g, now);
      }
    }

    /** Fetch (or create) the guild's queue and call `Skip` on it. */
    method SkipQueueOf(g: GuildId, n: int) returns (track: Track, ok: bool)
      requires Valid()
      modifies manager, manager.queues.Values
      ensures Valid() && GrowsAt(old(manager.queues), manager.queues, g)
      ensures var q := Lookup(old(QueueContents()), g);
              var t := TakeAfterSkipping(q.tracks, n);
              track == t.track && ok == t.found && QueueContents() == old(QueueContents())[g := q.(tracks := t.rest)]
    {
      var q := manager.Get(g);
      track, ok := q.Skip(n);
      manager.OnlyOneQueueChanged(g);
    }

    /** What `skip` tells the player, and the idle mark it sets, once the queue has been skipped. */
    static method SkipDecision(current: Option<Track>, track: Track, ok: bool, stopFails: bool,
                               idle: IdleTimes, g: GuildId, now: Instant)
      returns (cmd: Command, idle': IdleTimes)
      ensures current.Some? ==> cmd == StopTrack
      ensures current.None? ==> cmd == (if ok then PlayTrack(track) else NoCommand)
      ensures idle' == (if current.Some? && !stopFails && !ok then idle[g := now] else idle)
    {
      cmd, idle' := NoCommand, idle;
      if current.Some? {
        cmd := StopTrack;
        if !stopFails && !ok {
          idle' := idle[g := now];
        }
      } else if ok {
        cmd := PlayTrack(track);
      }
    }

    /** `queue-type`: store the raw string as the guild's queue type. */
    method QueueTypeCommand(g: GuildId, raw: string)
      requires Valid()
      modifies manager, manager.queues.Values
      ensures Valid() && GrowsAt(old(manager.queues), manager.queues, g)
      ensures QueueContents() == SetQueueType(old(QueueContents()), g, raw)
    {
      var q := manager.Get(g);
      q.queueType := raw;
      manager.OnlyOneQueueChanged(g);
    }

    /** `clear-queue`: empty the guild's queue. */
    method ClearQueueCommand(g: GuildId)
      requires Valid()
      modifies manager, manager.queues.Values
      ensures Valid() && GrowsAt(old(manager.queues), manager.queues, g)
      ensures QueueContents() == ClearQueue(old(QueueContents()), g)
    {
      var q := manager.Get(g);
      q.Clear();
      manager.OnlyOneQueueChanged(g);
    }

    /** `shuffle`: permute the guild's queue; no other guild's queue changes. */
    method ShuffleCommand(g: GuildId)
      requires Valid()
      modifies manager, manager.queues.Values
      ensures Valid() && GrowsAt(old(manager.queues), manager.queues, g)
      ensures g in QueueContents() && QueueContents() - {g} == old(QueueContents()) - {g}
      ensures QueueContents()[g].queueType == Lookup(old(QueueContents()), g).queueType
      ensures multiset(QueueContents()[g].tracks) == multiset(Lookup(old(QueueContents()), g).tracks)
    {
      var q := manager.Get(g);
      q.Shuffle();
      manager.OnlyOneQueueChanged(g);
    }

    /** `disconnect`; returns whether the bot asked the gateway to leave the voice channel. */
    method DisconnectCommand(g: GuildId, hasPlayer: bool, leaveFails: bool) returns (requested: bool)
      modifies this`idleTimes
      ensures DisconnectStep(old(idleTimes), g, hasPlayer, leaveFails) == Disconnected(idleTimes, requested)
    {
      if !hasPlayer {
        return false;
      }
      requested := true;
      if leaveFails {
        return;
      }
      idleTimes := idleTimes - {g};
    }

    /**
     * The idle sweep of `debug`, run only for the application's owner once
     * the application info was fetched. Returns the guilds it disconnects.
     */
    method Debug(infoFetched: bool, callerIsOwner: bool, now: Instant) returns (disconnected: set<GuildId>)
      modifies this`idleTimes
      ensures !(infoFetched && callerIsOwner) ==> idleTimes == old(idleTimes) && disconnected == {}
      ensures infoFetched && callerIsOwner ==>
                Swept(idleTimes, disconnected) == Sweep(old(idleTimes), now, idleTimeout)
    {
      disconnected := {};
      if !infoFetched || !callerIsOwner {
        return;
      }
      var pending := idleTimes.Keys;
      while pending != {}
        invariant pending <= idleTimes.Keys <= old(idleTimes).Keys
        invariant forall h :: h in idleTimes ==> idleTimes[h] == old(idleTimes)[h]
        invariant forall h :: h in old(idleTimes) && h !in pending ==>
                    (h in idleTimes <==> !Expired(old(idleTimes)[h], now, idleTimeout))
        invariant forall h :: h in disconnected <==>
                    h in old(idleTimes) && h !in pending && Expired(old(idleTimes)[h], now, idleTimeout)
        decreases pending
      {
        var h :| h in pending;
        if Expired(idleTimes[h], now, idleTimeout) {
          disconnected := disconnected + {h};
          idleTimes := idleTimes - {h};
        }
        pending := pending - {h};
      }
      ghost var s := Sweep(old(idleTimes), now, idleTimeout);
      assert idleTimes.Keys == s.kept.Keys;
      assert disconnected == s.expired;
    }

    /** `onVoiceStateUpdate` for an update of `user` in guild `g`, now in `channel` (none when they left). */
    method OnVoiceStateUpdate(user: UserId, g: GuildId, channel: Option<ChannelId>)
      requires Valid()
      modifies manager
      ensures Valid()
      ensures manager.queues == if user == applicationId && channel.None? then old(manager.queues) - {g}
                                else old(manager.queues)
      ensures QueueContents() == AfterVoiceState(old(QueueContents()), applicationId, user, g, channel)
    {
      if user != applicationId {
        return;
      }
      if channel.None? {
        manager.Delete(g);
      }
    }

    /** `Shutdown`: clear every registered queue. */
    method Shutdown()
      requires Valid()
      modifies manager.queues.Values
      ensures Valid()
      ensures QueueContents() == ClearAll(old(QueueContents()))
    {
      var pending := manager.queues.Keys;
      while pending != {}
        invariant pending <= manager.queues.Keys
        invariant forall h :: h in manager.queues ==> manager.queues[h].queueType == old(manager.queues[h].queueType)
        invariant forall h :: h in manager.queues && h !in pending ==> manager.queues[h].tracks == []
        decreases pending
      {
        var h :| h in pending;
        manager.queues[h].Clear();
        pending := pending - {h};
      }
    }
  }

  /** `NewBot` without options, when the client is created, returns a bot that has no queues. */
  method NewBotStartsEmpty(applicationId: UserId) returns (built: bool, registered: nat)
    ensures built && registered == 0
  {
    var b, err := Bot.NewBot(applicationId, None, []);
    built, registered := b != null, 0;
    if b != null {
      registered := |b.manager.queues|;
    }
  }
}
