/**
 * The position slider of a player (`Seeker`): the playback status, the
 * elapsed time estimated between position queries, the pending seek, and the
 * seek capability. Positions on the bus are microseconds (MPRIS
 * `org.mpris.MediaPlayer2.Player`: `Position`, `Seeked`, `SetPosition`); the
 * seeker keeps seconds.
 *
 * The one-second Mainloop timer is the `Tick` method, called by the host only
 * while the timer runs; replies to asynchronous queries are the `On...Reply`
 * methods; every remote call is appended to the ghost log `sent`.
 */
module Seek {
  import opened Wrappers
  import opened JsMath

  datatype Status = Stopped | Paused | Playing

  /** Remote calls issued on the player's bus proxy. */
  datatype Remote = GetPosition | GetCanSeek | SetPosition(trackId: string, micros: real)

  const MicrosPerSecond: real := 1000000.0

  /** Interpolated ticks between two position queries. */
  const TicksPerSync: nat := 10

  /** Players that claim `CanSeek` but do not report their position. */
  const PlayersWithoutSeekSupport: seq<string> :=
    ["telegram desktop", "spotify", "totem", "xplayer", "gnome-mplayer", "pithos", "smplayer"]

  /** The host slider keeps its value in [0, 1]. */
  function Clamp01(x: real): (r: real)
    ensures 0.0 <= r <= 1.0
    ensures 0.0 <= x <= 1.0 ==> r == x
  {
    if x < 0.0 then 0.0 else if x > 1.0 then 1.0 else x
  }

  /** The slider position `_updateValue` shows for an elapsed time. */
  function SliderPosition(currentTime: real, length: real): (v: real)
    ensures 0.0 <= v <= 1.0
    ensures length > 0.0 && 0.0 < currentTime <= length ==> v * length == currentTime
    ensures length > 0.0 && currentTime >= length ==> v == 1.0
    ensures !(length > 0.0 && currentTime > 0.0) ==> v == 0.0
  {
    if length > 0.0 && currentTime > 0.0 then Clamp01(currentTime / length) else 0.0
  }

  /**
   * The elapsed time (seconds) a `Seeked(reported)` notification leaves when
   * `wanted` microseconds were requested by the slider (0 when none): the
   * player's own positive report wins; a report of 0 or less falls back to the
   * requested position, else to 0. Never negative.
   */
  function SeekedTime(reported: int, wanted: int): (t: real)
    ensures t >= 0.0
    ensures reported > 0 ==> t * MicrosPerSecond == reported as real
    ensures reported <= 0 && wanted > 0 ==> t * MicrosPerSecond == wanted as real
    ensures reported <= 0 && wanted <= 0 ==> t == 0.0
  {
    if reported > 0 then reported as real / MicrosPerSecond
    else if wanted > 0 then wanted as real / MicrosPerSecond
    else 0.0
  }

  /** The position (microseconds) a slider value stands for on a track of `length` seconds. */
  function SeekMicros(sliderValue: real, length: real): real {
    sliderValue * length * MicrosPerSecond
  }

  /** The pending seek `_setPosition()` records for a slider value: microseconds, rounded. */
  function WantedMicros(sliderValue: real, length: real): int {
    Round(SeekMicros(sliderValue, length))
  }

  /**
   * A seek the slider requested and the player echoed as 0 (or a negative
   * value) still lands on the requested time, up to the rounding to whole
   * microseconds.
   */
  lemma SeekEchoLandsOnRequest(sliderValue: real, length: real, reported: int)
    requires reported <= 0
    requires WantedMicros(sliderValue, length) > 0
    ensures var t := SeekedTime(reported, WantedMicros(sliderValue, length));
      sliderValue * length - 0.5 / MicrosPerSecond < t <= sliderValue * length + 0.5 / MicrosPerSecond
  {
    var x := sliderValue * length * MicrosPerSecond;
    var w := WantedMicros(sliderValue, length);
    var t := SeekedTime(reported, w);
    assert t * MicrosPerSecond == w as real;
    assert x - 0.5 < w as real <= x + 0.5;
    assert (sliderValue * length - 0.5 / MicrosPerSecond) * MicrosPerSecond == x - 0.5;
    assert (sliderValue * length + 0.5 / MicrosPerSecond) * MicrosPerSecond == x + 0.5;
  }

  /** A playback rate that allows seeking: exactly 1, or absent/0 (`!rate`). */
  predicate RateAllowsSeek(rate: Option<real>) {
    rate == None || rate == Some(1.0) || rate == Some(0.0)
  }

  /**
   * The seek capability a player ends up with: not on the denylist, `CanSeek`
   * reported true, and a normal playback rate.
   */
  predicate SeekAllowed(playerName: string, canSeekReply: bool, rate: Option<real>) {
    playerName !in PlayersWithoutSeekSupport && canSeekReply && RateAllowsSeek(rate)
  }

  /** A non-standard playback speed hides seeking. */
  lemma OddRateForbidsSeek(playerName: string, canSeekReply: bool, r: real)
    requires r != 1.0 && r != 0.0
    ensures !SeekAllowed(playerName, canSeekReply, Some(r))
  {
  }

  /** The timer's view of the seeker: elapsed time, tick counter, whether it runs, position queries so far. */
  datatype Clock = Clock(time: real, ticker: nat, running: bool, queries: nat)

  /**
   * One timer callback: while playing, ten ticks add one second each and the
   * eleventh re-syncs with a position query; in any other status the timer stops.
   */
  function TickStep(c: Clock, status: Status): (d: Clock)
    ensures d.time >= c.time && d.queries >= c.queries
    ensures status == Playing ==> d.running == c.running && (d.time - c.time) + (d.queries - c.queries) as real == 1.0
    ensures status != Playing ==> d == c.(running := false)
  {
    if status == Playing then
      if c.ticker < TicksPerSync then c.(time := c.time + 1.0, ticker := c.ticker + 1)
      else c.(ticker := 0, queries := c.queries + 1)
    else c.(running := false)
  }

  /** `n` timer callbacks while the status stays Playing and no reply arrives. */
  function PlayingTicks(c: Clock, n: nat): Clock
    decreases n
  {
    if n == 0 then c else PlayingTicks(TickStep(c, Playing), n - 1)
  }

  /**
   * From a fresh timer (counter 0), `n` ticks issue one position query per
   * eleven ticks and advance the estimate by one second for each other tick.
   */
  lemma {:induction false} TicksFromStart(c: Clock, n: nat)
    requires c.ticker == 0
    ensures PlayingTicks(c, n) ==
      c.(time := c.time + (n - n / 11) as real, ticker := n % 11, queries := c.queries + n / 11)
  {
    TicksFromCounter(c, n);
  }

  /** The same from any counter value up to 10: `k` counts the ticks since the last query was issued. */
  lemma {:induction false} TicksFromCounter(c: Clock, n: nat)
    requires c.ticker <= TicksPerSync
    decreases n
    ensures var k := c.ticker + n;
      PlayingTicks(c, n) ==
        c.(time := c.time + (k - k / 11 - c.ticker) as real, ticker := k % 11, queries := c.queries + k / 11)
  {
    if n > 0 {
      var d := TickStep(c, Playing);
      assert PlayingTicks(c, n) == PlayingTicks(d, n - 1);
      TicksFromCounter(d, n - 1);
      var k := c.ticker + n;
      if c.ticker < TicksPerSync {
        assert d == c.(time := c.time + 1.0, ticker := c.ticker + 1);
        assert d.ticker + (n - 1) == k;
      } else {
        assert d == c.(ticker := 0, queries := c.queries + 1);
        DivShift(n - 1);
        assert k == (n - 1) + 11;
      }
    }
  }

  lemma DivShift(m: nat)
    ensures (m + 11) / 11 == m / 11 + 1 && (m + 11) % 11 == m % 11
  {
  }

  /** The estimate never runs more than ten seconds ahead of the last query. */
  lemma TickerStaysBounded(c: Clock, status: Status)
    requires c.ticker <= TicksPerSync
    ensures TickStep(c, status).ticker <= TicksPerSync
  {
  }

  /** Number of position queries in a log of remote calls. */
  function Queries(log: seq<Remote>): nat {
    if log == [] then 0 else Queries(log[..|log| - 1]) + (if log[|log| - 1] == GetPosition then 1 else 0)
  }

  lemma QueriesAppend(log: seq<Remote>, r: Remote)
    ensures Queries(log + [r]) == Queries(log) + (if r == GetPosition then 1 else 0)
  {
    assert (log + [r])[..|log|] == log;
  }

  /** Whatever the seeker has been through, a player on the denylist never offers seeking. */
  lemma DenylistForbidsSeek(sk: Seeker)
    requires sk.Valid() && sk.playerName in PlayersWithoutSeekSupport
    ensures !sk.canSeek
  {
  }

  class Seeker {
    var status: Status
    /** `_currentTime`, seconds. */
    var currentTime: real
    /** `_length`, seconds. */
    var length: real
    /** `_trackid`. */
    var trackId: string
    /** `_timerTicker`. */
    var timerTicker: nat
    /** `_timeoutId > 0`: the one-second timer is installed. */
    var timerActive: bool
    /** `_wantedSeekValue`, microseconds; 0 when no seek is pending. */
    var wantedSeekValue: int
    var canSeek: bool
    /** The slider's `_value`. */
    var value: real
    /** The slider's `_dragging`. */
    var dragging: bool
    /** The lower-cased player name the denylist is checked against. */
    const playerName: string
    /** Remote calls issued so far. */
    ghost var sent: seq<Remote>

    ghost predicate Valid()
      reads this
    {
      && 0.0 <= value <= 1.0 && timerTicker <= TicksPerSync
      && (playerName in PlayersWithoutSeekSupport ==> !canSeek)
    }

    ghost function ClockView(): Clock
      reads this
    {
      Clock(currentTime, timerTicker, timerActive, Queries(sent))
    }

    /**
     * A new seeker is stopped at time 0 and asks whether seeking works, unless
     * the player is on the denylist, which turns seeking off at once.
     */
    constructor (playerName: string)
      ensures Valid()
      ensures status == Stopped && currentTime == 0.0 && length == 0.0 && trackId == ""
      ensures timerTicker == 0 && !timerActive && wantedSeekValue == 0 && value == 0.0 && !dragging
      ensures this.playerName == playerName
      ensures playerName in PlayersWithoutSeekSupport ==> !canSeek && sent == []
      ensures playerName !in PlayersWithoutSeekSupport ==> canSeek && sent == [GetCanSeek]
    {
      this.playerName := playerName;
      status := Stopped;
      currentTime, length, trackId := 0.0, 0.0, "";
      timerTicker, timerActive, wantedSeekValue := 0, false, 0;
      value, dragging := 0.0, false;
      if playerName in PlayersWithoutSeekSupport {
        canSeek := false;
        sent := [];
      } else {
        canSeek := true;
        sent := [GetCanSeek];
      }
    }

    /** `_updateValue`: the slider follows the time unless dragged or seeking is off. */
    method UpdateValue()
      requires Valid()
      modifies this`value
      ensures Valid()
      ensures value == if !dragging && canSeek then SliderPosition(currentTime, length) else old(value)
    {
      if !dragging && canSeek {
        value := SliderPosition(currentTime, length);
      }
    }

    /**
     * `_updateTimer`: cancel the timer; when playing with seeking on, query the
     * position and restart it with counter 0; when stopped, reset the time to 0.
     */
    method UpdateTimer()
      requires Valid()
      modifies this`timerActive, this`timerTicker, this`currentTime, this`value, this`sent
      ensures Valid()
      ensures timerActive == (status == Playing && canSeek)
      ensures status == Playing && canSeek ==>
        timerTicker == 0 && sent == old(sent) + [GetPosition]
        && currentTime == old(currentTime) && value == old(value)
      ensures status == Playing && !canSeek ==>
        timerTicker == old(timerTicker) && sent == old(sent)
        && currentTime == old(currentTime) && value == old(value)
      ensures status != Playing ==>
        && timerTicker == old(timerTicker) && sent == old(sent)
        && currentTime == (if status == Stopped then 0.0 else old(currentTime))
        && value == if !dragging && canSeek then SliderPosition(currentTime, length) else old(value)
    {
      timerActive := false;
      if status == Playing {
        if canSeek {
          sent := sent + [GetPosition];
          timerTicker := 0;
          timerActive := true;
        }
      } else {
        if status == Stopped {
          currentTime := 0.0;
        }
        UpdateValue();
      }
    }

    /** `_timerCallback`. */
    method Tick()
      requires Valid() && timerActive
      modifies this`currentTime, this`timerTicker, this`timerActive, this`value, this`sent
      ensures Valid()
      ensures ClockView() == TickStep(old(ClockView()), status)
      ensures status == Playing && old(timerTicker) < TicksPerSync ==>
        sent == old(sent) && value == if !dragging && canSeek then SliderPosition(currentTime, length) else old(value)
      ensures status == Playing && old(timerTicker) == TicksPerSync ==>
        sent == old(sent) + [GetPosition] && value == old(value)
      ensures status != Playing ==> sent == old(sent) && value == old(value)
    {
      if status == Playing {
        if timerTicker < TicksPerSync {
          currentTime := currentTime + 1.0;
          timerTicker := timerTicker + 1;
          UpdateValue();
        } else {
          timerTicker := 0;
          QueriesAppend(sent, GetPosition);
          sent := sent + [GetPosition];
        }
      } else {
        timerActive := false;
      }
    }

    /**
     * `_setPosition(position)`: a position of 0 or more (microseconds) sets the
     * time; otherwise (no position, or a negative one) the slider's value is
     * turned into a seek request.
     */
    method SetPositionFrom(position: Option<int>)
      requires Valid()
      modifies this`currentTime, this`value, this`wantedSeekValue, this`sent
      ensures Valid()
      ensures position.Some? && position.value >= 0 ==>
        && currentTime * MicrosPerSecond == position.value as real
        && value == (if !dragging && canSeek then SliderPosition(currentTime, length) else old(value))
        && wantedSeekValue == old(wantedSeekValue) && sent == old(sent)
      ensures !(position.Some? && position.value >= 0) ==>
        && currentTime == old(currentTime) && value == old(value)
        && wantedSeekValue == WantedMicros(value, length)
        && sent == old(sent) + [SetPosition(trackId, SeekMicros(value, length))]
    {
      if position.Some? && position.value >= 0 {
        currentTime := position.value as real / MicrosPerSecond;
        UpdateValue();
      } else {
        RequestSeek();
      }
    }

    /** The seek branch of `_setPosition`: record the pending seek and ask the player to move there. */
    method RequestSeek()
      requires Valid()
      modifies this`wantedSeekValue, this`sent
      ensures Valid()
      ensures wantedSeekValue == WantedMicros(value, length)
      ensures sent == old(sent) + [SetPosition(trackId, SeekMicros(value, length))]
    {
      var time := SeekMicros(value, length);
      wantedSeekValue := Round(time);
      sent := sent + [SetPosition(trackId, time)];
    }

    /** The `Seeked` signal handler: reconcile, then clear the pending seek. */
    method OnSeeked(reported: int)
      requires Valid()
      modifies this`currentTime, this`value, this`wantedSeekValue
      ensures Valid()
      ensures currentTime == SeekedTime(reported, old(wantedSeekValue))
      ensures wantedSeekValue == 0
      ensures value == if !dragging && canSeek then SliderPosition(currentTime, length) else old(value)
    {
      var p: int;
      if reported > 0 {
        p := reported;
      } else if wantedSeekValue > 0 {
        p := wantedSeekValue;
      } else {
        p := 0;
      }
      currentTime := p as real / MicrosPerSecond;
      UpdateValue();
      wantedSeekValue := 0;
    }

    /** Reply to a position query (`_getPosition`). */
    method OnPositionReply(position: int)
      requires Valid()
      modifies this`currentTime, this`value, this`wantedSeekValue, this`sent
      ensures Valid()
      ensures position >= 0 ==>
        && currentTime * MicrosPerSecond == position as real
        && value == (if !dragging && canSeek then SliderPosition(currentTime, length) else old(value))
        && wantedSeekValue == old(wantedSeekValue) && sent == old(sent)
      ensures position < 0 ==>
        && currentTime == old(currentTime) && value == old(value)
        && wantedSeekValue == WantedMicros(value, length)
        && sent == old(sent) + [SetPosition(trackId, SeekMicros(value, length))]
    {
      SetPositionFrom(Some(position));
    }

    /**
     * `_setCanSeek`: seeking is on only if the player says so and plays at a
     * normal rate; turning it on restarts the timer logic.
     */
    method SetCanSeek(seek: bool, rate: Option<real>)
      requires Valid()
      requires seek ==> playerName !in PlayersWithoutSeekSupport
      modifies this`canSeek, this`timerActive, this`timerTicker, this`currentTime, this`value, this`sent
      ensures Valid()
      ensures canSeek == (seek && RateAllowsSeek(rate))
      ensures canSeek ==> timerActive == (status == Playing)
      ensures canSeek && status == Playing ==>
        && timerTicker == 0 && sent == old(sent) + [GetPosition]
        && currentTime == old(currentTime) && value == old(value)
      ensures canSeek && status != Playing ==>
        && timerTicker == old(timerTicker) && sent == old(sent)
        && currentTime == (if status == Stopped then 0.0 else old(currentTime))
        && value == if !dragging then SliderPosition(currentTime, length) else old(value)
      ensures !canSeek ==>
        && timerActive == old(timerActive) && timerTicker == old(timerTicker) && sent == old(sent)
        && currentTime == old(currentTime) && value == old(value)
    {
      if seek && RateAllowsSeek(rate) {
        canSeek := true;
        UpdateTimer();
      } else {
        canSeek := false;
      }
    }

    /** `_getCanSeek`: the denylist turns seeking off; otherwise the player is asked. */
    method RequestCanSeek()
      requires Valid()
      modifies this`canSeek, this`sent
      ensures Valid()
      ensures playerName in PlayersWithoutSeekSupport ==> !canSeek && sent == old(sent)
      ensures playerName !in PlayersWithoutSeekSupport ==> canSeek == old(canSeek) && sent == old(sent) + [GetCanSeek]
    {
      if playerName in PlayersWithoutSeekSupport {
        canSeek := false;
      } else {
        sent := sent + [GetCanSeek];
      }
    }

    /**
     * Reply to `RequestCanSeek`, read together with the proxy's current `Rate`.
     * The query is only issued for a player off the denylist.
     */
    method OnCanSeekReply(seek: bool, rate: Option<real>)
      requires Valid()
      requires playerName !in PlayersWithoutSeekSupport
      modifies this`canSeek, this`timerActive, this`timerTicker, this`currentTime, this`value, this`sent
      ensures Valid()
      ensures canSeek == SeekAllowed(playerName, seek, rate)
      ensures canSeek ==> timerActive == (status == Playing)
      ensures canSeek && status == Playing ==>
        && timerTicker == 0 && sent == old(sent) + [GetPosition]
        && currentTime == old(currentTime) && value == old(value)
      ensures canSeek && status != Playing ==>
        && timerTicker == old(timerTicker) && sent == old(sent)
        && currentTime == (if status == Stopped then 0.0 else old(currentTime))
        && value == if !dragging then SliderPosition(currentTime, length) else old(value)
      ensures !canSeek ==>
        && timerActive == old(timerActive) && timerTicker == old(timerTicker) && sent == old(sent)
        && currentTime == old(currentTime) && value == old(value)
    {
      SetCanSeek(seek, rate);
    }

    /** `play()`: the timer starts only once the capability reply arrives. */
    method Play()
      requires Valid()
      modifies this`status, this`canSeek, this`sent
      ensures Valid() && status == Playing
      ensures playerName in PlayersWithoutSeekSupport ==> !canSeek && sent == old(sent)
      ensures playerName !in PlayersWithoutSeekSupport ==> canSeek == old(canSeek) && sent == old(sent) + [GetCanSeek]
    {
      status := Playing;
      RequestCanSeek();
    }

    /** `pause()`: the timer stops; the time is kept. */
    method Pause()
      requires Valid()
      modifies this`status, this`timerActive, this`timerTicker, this`currentTime, this`value, this`sent
      ensures Valid() && status == Paused && !timerActive
      ensures currentTime == old(currentTime) && timerTicker == old(timerTicker) && sent == old(sent)
      ensures value == if !dragging && canSeek then SliderPosition(currentTime, length) else old(value)
    {
      status := Paused;
      UpdateTimer();
    }

    /** `stop()`: the timer stops and the time goes back to 0. */
    method Stop()
      requires Valid()
      modifies this`status, this`timerActive, this`timerTicker, this`currentTime, this`value, this`sent
      ensures Valid() && status == Stopped && !timerActive
      ensures currentTime == 0.0 && timerTicker == old(timerTicker) && sent == old(sent)
      ensures value == if !dragging && canSeek then 0.0 else old(value)
    {
      status := Stopped;
      UpdateTimer();
    }

    /** `setTrack`: a new track starts at time 0. */
    method SetTrack(trackId: string, length: real)
      requires Valid()
      modifies this`trackId, this`length, this`currentTime, this`value
      ensures Valid()
      ensures this.trackId == trackId && this.length == length && currentTime == 0.0
      ensures value == if !dragging && canSeek then 0.0 else old(value)
    {
      this.trackId := trackId;
      this.length := length;
      currentTime := 0.0;
      UpdateValue();
    }

    /** The user grabs the slider. */
    method StartDrag()
      modifies this`dragging
      ensures dragging
    {
      dragging := true;
    }

    /** `drag-end`: the slider's final value becomes a seek request. */
    method EndDrag(v: real)
      requires Valid() && 0.0 <= v <= 1.0
      modifies this`dragging, this`value, this`wantedSeekValue, this`sent
      ensures Valid() && !dragging && value == v
      ensures wantedSeekValue == WantedMicros(v, length)
      ensures sent == old(sent) + [SetPosition(trackId, SeekMicros(v, length))]
    {
      dragging := false;
      value := v;
      RequestSeek();
    }

    /** `value-changed` outside a drag (scrolling over the slider) also seeks. */
    method SlideTo(v: real)
      requires Valid() && 0.0 <= v <= 1.0
      modifies this`value, this`wantedSeekValue, this`sent
      ensures Valid() && value == v
      ensures dragging ==> wantedSeekValue == old(wantedSeekValue) && sent == old(sent)
      ensures !dragging ==>
        && wantedSeekValue == WantedMicros(v, length)
        && sent == old(sent) + [SetPosition(trackId, SeekMicros(v, length))]
    {
      value := v;
      if !dragging {
        RequestSeek();
      }
    }

    /** `destroy()`: the timer is removed. */
    method Destroy()
      modifies this`timerActive
      ensures !timerActive
    {
      timerActive := false;
    }
  }
}
