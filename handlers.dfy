/**
 * The queue and idle-tracker logic of the slash-command handlers, the idle
 * sweep of the debug command, and the two pure helpers: the normalisation
 * of a play identifier and the formatting of a playback position.
 */
module Handlers {
  import opened Wrappers
  import opened Queues
  import opened PlayHandlers

  // ---------------------------------------------------------------- skip

  /** The `amount` option of `skip`, 1 when it is absent. */
  function SkipAmount(amount: Option<int>): (n: int)
    ensures amount.Some? ==> n == amount.value
    ensures amount.None? ==> n == 1
  {
    match amount
    case Some(a) => a
    case None => 1
  }

  /** What `skip` sees of the guild's player: none, or one with or without a current track. */
  datatype PlayerView = NoPlayer | Player(current: Option<Track>)

  /**
   * `skip`. The queue is fetched (and so created) before the player is
   * checked. With a player, `Skip(amount)` runs first. If a track is
   * playing it is stopped with a null-track update and the skipped-to track
   * is never played; the guild becomes idle as of `now` when the skip found
   * nothing and the stop succeeded. With nothing playing the skipped-to
   * track is played, if there is one.
   */
  function SkipStep(queues: Registry, idle: IdleTimes, g: GuildId, amount: Option<int>,
                    player: PlayerView, stopFails: bool, now: Instant): (r: Outcome)
    ensures g in r.queues && r.queues - {g} == queues - {g}
    ensures r.queues[g].queueType == Lookup(queues, g).queueType
    ensures player.NoPlayer? ==> r == Outcome(queues[g := Lookup(queues, g)], idle, NoCommand)
    ensures player.Player? ==>
              var t := TakeAfterSkipping(Lookup(queues, g).tracks, SkipAmount(amount));
              && r.queues[g].tracks == t.rest
              && (player.current.Some? ==> r.command == StopTrack)
              && (player.current.None? ==> r.command == (if t.found then PlayTrack(t.track) else NoCommand))
              && (r.idle == idle || (r.idle == idle[g := now] && player.current.Some? && !stopFails && !t.found))
    ensures r.idle != idle ==> r.idle == idle[g := now]
  {
    var q := Lookup(queues, g);
    if player.NoPlayer? then
      Outcome(queues[g := q], idle, NoCommand)
    else
      var t := TakeAfterSkipping(q.tracks, SkipAmount(amount));
      var queues' := queues[g := q.(tracks := t.rest)];
      if player.current.Some? then
        if stopFails then Outcome(queues', idle, StopTrack)
        else if !t.found then Outcome(queues', idle[g := now], StopTrack)
        else Outcome(queues', idle, StopTrack)
      else if !t.found then
        Outcome(queues', idle, NoCommand)
      else
        Outcome(queues', idle, PlayTrack(t.track))
  }

  /**
   * While a track plays, `skip` takes the skipped-to track out of the queue
   * and only stops the current one. The audio node then ends the current
   * track as `Stopped`, on which the continuation policy does nothing: the
   * skipped-to track is lost and playback stops.
   */
  lemma SkipWhilePlayingLosesTrack(queues: Registry, idle: IdleTimes, g: GuildId, amount: Option<int>,
                                   current: Track, stopFails: bool, now: Instant, later: Instant, timeout: int)
    ensures var tracks := Lookup(queues, g).tracks;
            var t := TakeAfterSkipping(tracks, SkipAmount(amount));
            var r := SkipStep(queues, idle, g, amount, Player(Some(current)), stopFails, now);
            && r.command == StopTrack
            && (t.found ==> tracks == tracks[..Discarded(SkipAmount(amount))] + [t.track] + r.queues[g].tracks)
            && TrackEnd(r.queues, r.idle, g, current, Stopped, later, timeout) == Outcome(r.queues, r.idle, NoCommand)
  {
  }

  /** Skipping past the end of the queue while a track plays marks the guild idle as of `now`. */
  lemma SkipPastEndWhilePlayingGoesIdle(queues: Registry, idle: IdleTimes, g: GuildId, amount: Option<int>,
                                        current: Track, now: Instant)
    requires Discarded(SkipAmount(amount)) >= |Lookup(queues, g).tracks|
    ensures var r := SkipStep(queues, idle, g, amount, Player(Some(current)), false, now);
            r.idle == idle[g := now] && r.queues[g].tracks == []
  {
  }

  // ------------------------------------------------- queue-type, clear

  /** `queue-type`: the raw option string becomes the queue's type, without validation; the tracks stay. */
  function SetQueueType(queues: Registry, g: GuildId, raw: string): (r: Registry)
    ensures g in r && r[g].queueType == raw && r[g].tracks == Lookup(queues, g).tracks
    ensures r - {g} == queues - {g}
  {
    queues[g := Lookup(queues, g).(queueType := raw)]
  }

  /** `clear-queue`: the guild's queue loses every track and keeps its type. */
  function ClearQueue(queues: Registry, g: GuildId): (r: Registry)
    ensures g in r && r[g].tracks == [] && r[g].queueType == Lookup(queues, g).queueType
    ensures r - {g} == queues - {g}
  {
    queues[g := Lookup(queues, g).(tracks := [])]
  }

  /** A type the continuation policy does not know, once set, makes every later natural track end go idle. */
  lemma UnvalidatedTypeStallsPlayback(queues: Registry, idle: IdleTimes, g: GuildId, raw: string,
                                      finished: Track, now: Instant, timeout: int)
    requires raw !in {Normal, RepeatTrack, RepeatQueue}
    ensures var r := TrackEnd(SetQueueType(queues, g, raw), idle, g, finished, Finished, now, timeout);
            r.command == NoCommand && r.idle == idle[g := now + timeout]
  {
    var q := SetQueueType(queues, g, raw);
    assert Lookup(q, g).queueType == raw;
  }

  // ---------------------------------------------------------- disconnect

  /** What `disconnect` does to the idle tracker, and whether it asks the gateway to leave the voice channel. */
  datatype Disconnected = Disconnected(idle: IdleTimes, requested: bool)

  /**
   * `disconnect`: without a player nothing happens. Otherwise the bot asks to
   * leave the voice channel; only when that request succeeds is the guild's
   * idle entry deleted.
   */
  function DisconnectStep(idle: IdleTimes, g: GuildId, hasPlayer: bool, leaveFails: bool): (r: Disconnected)
    ensures r.requested <==> hasPlayer
    ensures g !in r.idle <==> g !in idle || (hasPlayer && !leaveFails)
    ensures r.idle - {g} == idle - {g}
    ensures g in r.idle ==> r.idle[g] == idle[g]
  {
    if !hasPlayer then Disconnected(idle, false)
    else if leaveFails then Disconnected(idle, true)
    else Disconnected(idle - {g}, true)
  }

  // ---------------------------------------------------------- idle sweep

  /** The sweep's test: more than `timeout` has passed since the recorded instant. */
  predicate Expired(recorded: Instant, now: Instant, timeout: int)
  {
    now - recorded > timeout
  }

  /** The entries the sweep keeps, and the guilds it disconnects and forgets. */
  datatype Swept = Swept(kept: IdleTimes, expired: set<GuildId>)

  /**
   * The idle sweep of `debug`: every entry whose recorded instant lies more
   * than `timeout` before `now` is removed and its guild disconnected; every
   * other entry stays as it was.
   */
  function Sweep(idle: IdleTimes, now: Instant, timeout: int): (r: Swept)
    ensures r.kept.Keys !! r.expired
    ensures r.kept.Keys + r.expired == idle.Keys
    ensures forall g :: g in r.expired ==> Expired(idle[g], now, timeout)
    ensures forall g :: g in r.kept ==> r.kept[g] == idle[g] && now - r.kept[g] <= timeout
  {
    Swept(map g | g in idle && !Expired(idle[g], now, timeout) :: idle[g],
          set g | g in idle && Expired(idle[g], now, timeout))
  }

  /** Sweeping twice at the same instant removes nothing the second time. */
  lemma SweepIsIdempotent(idle: IdleTimes, now: Instant, timeout: int)
    ensures Sweep(Sweep(idle, now, timeout).kept, now, timeout) == Swept(Sweep(idle, now, timeout).kept, {})
  {
  }

  /**
   * `onTrackEnd` records `t + timeout`, while the sweep reads the entry as an
   * "idle since" instant: a guild that ran out of tracks at `t` is
   * disconnected by a sweep at `now` exactly when `now > t + 2 * timeout`.
   */
  lemma TrackEndIdleLastsTwoTimeouts(queues: Registry, idle: IdleTimes, g: GuildId, finished: Track,
                                     reason: EndReason, t: Instant, timeout: int, now: Instant)
    requires TrackEnd(queues, idle, g, finished, reason, t, timeout).command == NoCommand
    requires MayStartNext(reason)
    ensures g in TrackEnd(queues, idle, g, finished, reason, t, timeout).idle
    ensures g in Sweep(TrackEnd(queues, idle, g, finished, reason, t, timeout).idle, now, timeout).expired
            <==> now > t + 2 * timeout
  {
    var after := TrackEnd(queues, idle, g, finished, reason, t, timeout).idle;
    assert after[g] == t + timeout;
  }

  /**
   * `skip` records `t` itself, so a guild that skipped past the end of its
   * queue at `t` is disconnected by a sweep at `now` exactly when
   * `now > t + timeout`.
   */
  lemma SkipIdleLastsOneTimeout(queues: Registry, idle: IdleTimes, g: GuildId, amount: Option<int>,
                                current: Track, t: Instant, timeout: int, now: Instant)
    requires Discarded(SkipAmount(amount)) >= |Lookup(queues, g).tracks|
    ensures g in SkipStep(queues, idle, g, amount, Player(Some(current)), false, t).idle
    ensures g in Sweep(SkipStep(queues, idle, g, amount, Player(Some(current)), false, t).idle, now, timeout).expired
            <==> now > t + timeout
  {
    var after := SkipStep(queues, idle, g, amount, Player(Some(current)), false, t).idle;
    assert after[g] == t;
  }

  /** A new track starting before the sweep saves the guild: the sweep no longer sees it. */
  lemma TrackStartCancelsSweep(idle: IdleTimes, g: GuildId, now: Instant, timeout: int)
    requires g in idle && idle[g] != ZeroInstant
    ensures g !in Sweep(TrackStart(idle, g), now, timeout).expired
  {
  }

  // ------------------------------------------------ play identifier

  /** The search-type prefix applied to a bare query when no source is chosen. */
  const YouTubeSearch := "ytsearch"

  /** `s` begins with `p`. */
  predicate StartsWith(s: string, p: string)
  {
    |p| <= |s| && s[..|p|] == p
  }

  /** Characters of the body class `[-a-zA-Z0-9+&@#/%?=~_|!:,.;]` of the URL pattern. */
  predicate UrlBodyChar(c: char)
  {
    c == '-' || ('a' <= c <= 'z') || ('A' <= c <= 'Z') || ('0' <= c <= '9') || c in "+&@#/%?=~_|!:,.;"
  }

  /** Characters of the final class `[-a-zA-Z0-9+&@#/%=~_|]` of the URL pattern. */
  predicate UrlEndChar(c: char)
  {
    c == '-' || ('a' <= c <= 'z') || ('A' <= c <= 'Z') || ('0' <= c <= '9') || c in "+&@#/%=~_|"
  }

  /**
   * The URL pattern `^https?://[body]*[end]?` matches the prefix `s[..j]`:
   * a scheme of length `p`, body characters up to `i`, and at most one end
   * character after them.
   */
  ghost predicate UrlMatchAt(s: string, p: nat, i: nat, j: nat)
  {
    && ((p == 7 && StartsWith(s, "http://")) || (p == 8 && StartsWith(s, "https://")))
    && p <= i <= j <= |s| && j <= i + 1
    && (forall k :: p <= k < i ==> UrlBodyChar(s[k]))
    && (j == i + 1 ==> UrlEndChar(s[i]))
  }

  /** `urlPattern.MatchString(s)`: some prefix of `s` matches the anchored URL pattern. */
  ghost predicate UrlPatternMatches(s: string)
  {
    exists p: nat, i: nat, j: nat :: UrlMatchAt(s, p, i, j)
  }

  /** The characters `.` matches: anything but a newline. */
  predicate Dot(c: char)
  {
    c != '\n'
  }

  /** The search pattern `^(.{2})search:(.+)` matches the prefix `s[..j]`. */
  ghost predicate SearchMatchAt(s: string, j: nat)
  {
    && 10 <= j <= |s|
    && Dot(s[0]) && Dot(s[1])
    && s[2..9] == "search:"
    && (forall k :: 9 <= k < j ==> Dot(s[k]))
  }

  /** `searchPattern.MatchString(s)`. */
  ghost predicate SearchPatternMatches(s: string)
  {
    exists j: nat :: SearchMatchAt(s, j)
  }

  /** The URL test used by `play`: the identifier starts with an http or https scheme. */
  predicate LooksLikeUrl(s: string)
  {
    StartsWith(s, "http://") || StartsWith(s, "https://")
  }

  /** The search test used by `play`: two non-newline characters, `search:`, then a non-newline character. */
  predicate LooksLikeSearch(s: string)
  {
    |s| >= 10 && Dot(s[0]) && Dot(s[1]) && s[2..9] == "search:" && Dot(s[9])
  }

  /** Both tails of the URL pattern can match nothing, so it matches exactly the strings with an http(s) scheme. */
  lemma UrlPatternIsScheme(s: string)
    ensures UrlPatternMatches(s) <==> LooksLikeUrl(s)
  {
    if StartsWith(s, "http://") {
      assert UrlMatchAt(s, 7, 7, 7);
    } else if StartsWith(s, "https://") {
      assert UrlMatchAt(s, 8, 8, 8);
    }
  }

  /** `.+` needs just one character, so the search pattern matches exactly when the tenth character exists and is no newline. */
  lemma SearchPatternIsPrefix(s: string)
    ensures SearchPatternMatches(s) <==> LooksLikeSearch(s)
  {
    if LooksLikeSearch(s) {
      assert SearchMatchAt(s, 10);
    }
    if SearchPatternMatches(s) {
      var j: nat :| SearchMatchAt(s, j);
      assert Dot(s[9]);
    }
  }

  /**
   * The identifier `play` hands to the audio node. A chosen source is
   * applied as a search prefix; without one, the YouTube search prefix is
   * applied unless the identifier already matches the URL or the search
   * pattern. `apply(type, query)` is the library's `SearchType.Apply`.
   */
  function NormaliseIdentifier(identifier: string, source: Option<string>,
                               apply: (string, string) -> string): (r: string)
    ensures source.Some? ==> r == apply(source.value, identifier)
    ensures source.None? && (UrlPatternMatches(identifier) || SearchPatternMatches(identifier)) ==>
              r == identifier
    ensures source.None? && !UrlPatternMatches(identifier) && !SearchPatternMatches(identifier) ==>
              r == apply(YouTubeSearch, identifier)
  {
    UrlPatternIsScheme(identifier);
    SearchPatternIsPrefix(identifier);
    if source.Some? then apply(source.value, identifier)
    else if !LooksLikeUrl(identifier) && !LooksLikeSearch(identifier) then apply(YouTubeSearch, identifier)
    else identifier
  }

  /**
   * With the library's usual `Apply` (the type, a colon, the query), a
   * normalised non-empty query whose first character is no newline is a
   * fixed point: normalising it again changes nothing.
   */
  lemma NormaliseIsIdempotent(identifier: string, apply: (string, string) -> string)
    requires forall q :: apply(YouTubeSearch, q) == YouTubeSearch + ":" + q
    requires identifier != [] && Dot(identifier[0])
    ensures var once := NormaliseIdentifier(identifier, None, apply);
            NormaliseIdentifier(once, None, apply) == once
  {
    var once := NormaliseIdentifier(identifier, None, apply);
    if once != identifier {
      assert once == "ytsearch:" + identifier;
      assert once[2..9] == "search:";
      assert LooksLikeSearch(once);
      SearchPatternIsPrefix(once);
    } else {
      UrlPatternIsScheme(identifier);
      SearchPatternIsPrefix(identifier);
    }
  }

  /** An empty query is not: the prefixed `ytsearch:` matches neither pattern and is prefixed once more. */
  lemma NormaliseEmptyQueryTwice(apply: (string, string) -> string)
    requires forall q :: apply(YouTubeSearch, q) == YouTubeSearch + ":" + q
    ensures NormaliseIdentifier(NormaliseIdentifier("", None, apply), None, apply) == "ytsearch:ytsearch:"
  {
    UrlPatternIsScheme("");
    SearchPatternIsPrefix("");
    var once := NormaliseIdentifier("", None, apply);
    assert once == "ytsearch:";
    UrlPatternIsScheme(once);
    SearchPatternIsPrefix(once);
    assert once[..7][0] == 'y' && once[..8][0] == 'y';
  }

  // ------------------------------------------------- position formatting

  function DigitChar(d: nat): char
    requires d < 10
  {
    "0123456789"[d]
  }

  predicate IsDigit(c: char)
  {
    '0' <= c <= '9'
  }

  /** `%d` of a natural number. */
  function NatDecimal(n: nat): string
    decreases n
  {
    if n < 10 then [DigitChar(n)] else NatDecimal(n / 10) + [DigitChar(n % 10)]
  }

  /** `%d` of any integer. */
  function Decimal(n: int): string
  {
    if n < 0 then "-" + NatDecimal(-n) else NatDecimal(n)
  }

  /** `%02d`: a value between 0 and 9 gets a leading zero; everything else is already two characters or more. */
  function Pad2(n: int): string
  {
    if 0 <= n < 10 then "0" + Decimal(n) else Decimal(n)
  }

  /** Reads a string of decimal digits back; the inverse of `%d` on natural numbers. */
  function ParseDigits(s: string): (r: Option<nat>)
    decreases |s|
  {
    if s == [] then None
    else if !IsDigit(s[|s| - 1]) then None
    else
      var d := (s[|s| - 1] as int) - ('0' as int);
      if |s| == 1 then Some(d)
      else match ParseDigits(s[..|s| - 1])
        case None => None
        case Some(v) => Some(v * 10 + d)
  }

  lemma {:induction false} NatDecimalRoundTrip(n: nat)
    ensures ParseDigits(NatDecimal(n)) == Some(n)
    ensures forall k :: 0 <= k < |NatDecimal(n)| ==> IsDigit(NatDecimal(n)[k])
    ensures NatDecimal(n)[0] == '0' ==> n == 0 && NatDecimal(n) == "0"
    decreases n
  {
    if n >= 10 {
      NatDecimalRoundTrip(n / 10);
      var s := NatDecimal(n);
      assert s[..|s| - 1] == NatDecimal(n / 10);
    }
  }

  /**
   * `formatPosition`: the zero position is `0:00`; any other is the minutes,
   * a colon, and the seconds part through `%02d`. `minutes` and
   * `secondsPart` are the library's `Duration.Minutes` and
   * `Duration.SecondsPart`. When the seconds part lies in 0..59 and the
   * minutes are not negative, the colon sits three characters from the end,
   * both numbers can be read back, and the minutes carry no leading zero.
   */
  function FormatPosition(position: int, minutes: int -> int, secondsPart: int -> int): (r: string)
    ensures position == 0 ==> r == "0:00"
    ensures position != 0 && minutes(position) >= 0 && 0 <= secondsPart(position) < 60 ==>
              && |r| >= 4 && r[|r| - 3] == ':'
              && ParseDigits(r[..|r| - 3]) == Some(minutes(position))
              && ParseDigits(r[|r| - 2..]) == Some(secondsPart(position))
              && (r[0] == '0' ==> r[..|r| - 3] == "0")
  {
    if position == 0 then "0:00"
    else
      var m, sec := minutes(position), secondsPart(position);
      var r := Decimal(m) + ":" + Pad2(sec);
      if m >= 0 && 0 <= sec < 60 then
        MinutesSecondsRoundTrip(m, sec);
        r
      else r
  }

  /** `%d:%02d` of natural minutes and seconds below 60 puts the colon three from the end, reads back, and pads only the seconds. */
  lemma MinutesSecondsRoundTrip(m: nat, sec: nat)
    requires sec < 60
    ensures var r := Decimal(m) + ":" + Pad2(sec);
            && |r| >= 4 && r[|r| - 3] == ':'
            && ParseDigits(r[..|r| - 3]) == Some(m)
            && ParseDigits(r[|r| - 2..]) == Some(sec)
            && (r[0] == '0' ==> r[..|r| - 3] == "0")
  {
    var r := Decimal(m) + ":" + Pad2(sec);
    NatDecimalRoundTrip(m);
    NatDecimalRoundTrip(sec);
    assert |Pad2(sec)| == 2;
    assert r[..|r| - 3] == Decimal(m);
    assert r[|r| - 2..] == Pad2(sec);
    if sec < 10 {
      assert Pad2(sec)[..1] == "0";
    } else {
      assert Pad2(sec) == NatDecimal(sec);
    }
  }

  /** The zero special case agrees with the general format whenever the library reports 0 minutes and 0 seconds for position 0. */
  lemma ZeroPositionCaseIsRedundant(minutes: int -> int, secondsPart: int -> int)
    requires minutes(0) == 0 && secondsPart(0) == 0
    ensures FormatPosition(0, minutes, secondsPart) == Decimal(minutes(0)) + ":" + Pad2(secondsPart(0))
  {
  }
}
