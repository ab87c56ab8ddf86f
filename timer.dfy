/**
 * GameTimer: the synchronized match countdown. The master seeds the start
 * time and the duration into the room once; every peer reads both back,
 * shows `start + duration - now` each frame and notifies the end handler
 * once when it reaches zero. The clock's reading is passed in as `now`.
 */
module Timer {
  import opened Wrappers
  import opened Photon
  import opened TimerText

  /** Both timer keys are in the room. */
  predicate TimerPropsPresent(props: Props)
  {
    MatchStartKey in props && MatchDurationKey in props
  }

  /** The writes the master's Initialize makes: each key only when it is absent. */
  function SeedWrites(props: Props, now: real, defaultDurationSec: real): (w: Props)
    ensures MatchStartKey in w <==> MatchStartKey !in props
    ensures MatchDurationKey in w <==> MatchDurationKey !in props
    ensures forall k :: k in w ==> k == MatchStartKey || k == MatchDurationKey
    ensures MatchStartKey in w ==> w[MatchStartKey] == RealV(now)
    ensures MatchDurationKey in w ==> w[MatchDurationKey] == RealV(defaultDurationSec)
  {
    var start := if MatchStartKey in props then map[] else map[MatchStartKey := RealV(now)];
    var duration := if MatchDurationKey in props then map[] else map[MatchDurationKey := RealV(defaultDurationSec)];
    start + duration
  }

  /** After seeding, both keys are readable, values already there are kept, and the room stays well typed. */
  lemma SeedCompletes(props: Props, now: real, defaultDurationSec: real)
    requires Typed(props)
    ensures var after := props + SeedWrites(props, now, defaultDurationSec);
      && TimerPropsPresent(after)
      && Typed(after)
      && (forall k :: k in props ==> after[k] == props[k])
  {
    var w := SeedWrites(props, now, defaultDurationSec);
    assert Typed(w);
    TypedMerge(props, w);
  }

  /** A second seeding, by the same or another master, writes nothing. */
  lemma SeedIdempotent(props: Props, now1: real, duration1: real, now2: real, duration2: real)
    ensures SeedWrites(props + SeedWrites(props, now1, duration1), now2, duration2) == map[]
  {
  }

  /** The remaining time every peer computes. */
  function Remaining(startTime: real, durationSec: real, now: real): (r: real)
    ensures r <= 0.0 <==> now >= startTime + durationSec
    ensures r == durationSec <==> now == startTime
  {
    startTime + durationSec - now
  }

  /** With start and duration fixed, the remaining time never grows as the clock advances. */
  lemma RemainingNonIncreasing(startTime: real, durationSec: real, now1: real, now2: real)
    requires now1 <= now2
    ensures Remaining(startTime, durationSec, now2) <= Remaining(startTime, durationSec, now1)
  {
  }

  class GameTimer {
    var hasClock: bool              // clock != null
    var display: TimerTextPresenter?
    var hasEndHandler: bool         // endHandler != null
    var startTime: real
    var durationSec: real
    var initialized: bool
    var finished: bool
    var endNotifications: nat       // calls made to the end handler's OnMatchTimeEnded

    /** The end handler has been notified at most once, and only once the timer is finished. */
    predicate Valid()
      reads this
    {
      endNotifications <= (if finished then 1 else 0)
    }

    constructor ()
      ensures Valid()
      ensures !initialized && !finished && endNotifications == 0
      ensures !hasClock && display == null && !hasEndHandler
    {
      hasClock, display, hasEndHandler := false, null, false;
      startTime, durationSec := 0.0, 0.0;
      initialized, finished := false, false;
      endNotifications := 0;
    }

    /** Reads both keys or neither; the fields change only when both are present. */
    method TryReadRoomProps(room: PropertyBag?) returns (ok: bool)
      requires room != null ==> Typed(room.props)
      modifies this`startTime, this`durationSec
      ensures ok == (room != null && TimerPropsPresent(room.props))
      ensures ok ==> startTime == room.props[MatchStartKey].r && durationSec == room.props[MatchDurationKey].r
      ensures !ok ==> startTime == old(startTime) && durationSec == old(durationSec)
    {
      ok := false;
      if room == null {
        return;
      }
      if MatchStartKey in room.props && MatchDurationKey in room.props {
        assert KindOf(room.props[MatchStartKey]) == Schema[MatchStartKey];
        assert KindOf(room.props[MatchDurationKey]) == Schema[MatchDurationKey];
        startTime := room.props[MatchStartKey].r;
        durationSec := room.props[MatchDurationKey].r;
        ok := true;
      }
    }

    /**
     * Wires the collaborators; on the master, seeds the keys that are
     * absent in one write (none when both exist); then tries to read them.
     */
    method Initialize(hasClock: bool, display: TimerTextPresenter?, hasEndHandler: bool,
                      defaultDurationSec: real, isMaster: bool, room: PropertyBag?, now: real)
      requires Valid()
      requires isMaster ==> room != null
      requires room != null ==> Typed(room.props)
      modifies this, room
      ensures Valid()
      ensures this.hasClock == hasClock && this.display == display && this.hasEndHandler == hasEndHandler
      ensures finished == old(finished) && endNotifications == old(endNotifications)
      ensures room != null && !isMaster ==> room.props == old(room.props) && room.log == old(room.log)
      ensures room != null && isMaster ==>
        var w := SeedWrites(old(room.props), now, defaultDurationSec);
        && room.props == old(room.props) + w
        && room.log == old(room.log) + (if w == map[] then [] else [w])
      ensures room != null ==> Typed(room.props)
      ensures initialized == (room != null && TimerPropsPresent(room.props))
      ensures initialized ==> startTime == room.props[MatchStartKey].r && durationSec == room.props[MatchDurationKey].r
      ensures !initialized ==> startTime == old(startTime) && durationSec == old(durationSec)
    {
      this.hasClock := hasClock;
      this.display := display;
      this.hasEndHandler := hasEndHandler;
      if isMaster {
        var w := SeedWrites(room.props, now, defaultDurationSec);
        SeedCompletes(room.props, now, defaultDurationSec);
        if w != map[] {
          room.SetCustomProperties(w);
        }
      }
      initialized := TryReadRoomProps(room);
    }

    /** One frame: show the remaining time and, the first time it is not positive, finish and notify. */
    method Update(now: real)
      requires Valid()
      modifies this, display
      ensures Valid()
      ensures !(old(initialized) && !old(finished) && old(hasClock)) ==>
        unchanged(this) && (display != null ==> unchanged(display))
      ensures old(initialized) && !old(finished) && old(hasClock) ==>
        var remaining := Remaining(startTime, durationSec, now);
        && display == old(display) && hasClock && hasEndHandler == old(hasEndHandler)
        && initialized && startTime == old(startTime) && durationSec == old(durationSec)
        && (display != null ==>
              display.timeText == if old(display.timeText).Some? then Some(FormatTime(remaining)) else None)
        && finished == (remaining <= 0.0)
        && endNotifications == old(endNotifications) + (if remaining <= 0.0 && hasEndHandler then 1 else 0)
    {
      if !initialized || finished || !hasClock {
        return;
      }
      var remaining := Remaining(startTime, durationSec, now);
      if display != null {
        display.SetTime(remaining);
      }
      if remaining <= 0.0 && !finished {
        finished := true;
        if hasEndHandler {
          endNotifications := endNotifications + 1;
        }
      }
    }

    /** A change notification: a null change set is ignored; `initialized` is only ever set, never cleared. */
    method OnRoomPropertiesUpdate(propertiesThatChanged: Option<Props>, room: PropertyBag?)
      requires Valid()
      requires room != null ==> Typed(room.props)
      modifies this
      ensures Valid()
      ensures propertiesThatChanged.None? ==> unchanged(this)
      ensures propertiesThatChanged.Some? ==>
        && finished == old(finished) && endNotifications == old(endNotifications)
        && hasClock == old(hasClock) && display == old(display) && hasEndHandler == old(hasEndHandler)
        && initialized == (old(initialized) || (room != null && TimerPropsPresent(room.props)))
        && (room != null && TimerPropsPresent(room.props) ==>
              startTime == room.props[MatchStartKey].r && durationSec == room.props[MatchDurationKey].r)
        && (!(room != null && TimerPropsPresent(room.props)) ==>
              startTime == old(startTime) && durationSec == old(durationSec))
    {
      if propertiesThatChanged.None? {
        return;
      }
      var ok := TryReadRoomProps(room);
      if ok {
        initialized := true;
      }
    }
  }
}
