/** The timer engine (src/store/useChronosStore.ts): named countdowns that
    keep an absolute end time while running and a frozen remaining time
    otherwise, plus the metronome settings. The wall clock is the `now`
    parameter; the audio cues are not modelled. */
module Chronos {
  import opened Common

  datatype TimerStatus = Idle | Running | Paused | Complete

  datatype TimerKind = Pomodoro | Custom

  datatype TimerNode = TimerNode(
    id: string,
    displayLabel: string,  // the source's `label`
    durationMs: int,
    endTime: Option<int>,
    remainingMs: int,
    status: TimerStatus,
    kind: TimerKind)

  datatype Metronome = Metronome(active: bool, bpm: int, signature: (int, int), volume: real)

  /** The part of the store the persistence layer writes out. */
  datatype PersistedChronos = PersistedChronos(
    timers: map<string, TimerNode>,
    activeTimerId: Option<string>,
    metronome: Metronome)

  const MsPerMinute: int := 60 * 1000
  const MinBpm: int := 30
  const MaxBpm: int := 300

  function Max(a: int, b: int): int { if a < b then b else a }

  /** `timer.endTime` is truthy: present and not 0. */
  predicate HasEndTime(t: TimerNode) {
    t.endTime.Some? && t.endTime.value != 0
  }

  /** A new or re-initialised timer. */
  function FreshTimer(id: string, minutes: int, displayLabel: string, kind: TimerKind): TimerNode {
    TimerNode(id, displayLabel, minutes * MsPerMinute, None, minutes * MsPerMinute, Idle, kind)
  }

  /** `startTimer`'s update: running until `now + remainingMs`. */
  function Started(t: TimerNode, now: int): TimerNode {
    t.(status := Running, endTime := Some(now + t.remainingMs))
  }

  /** The guard of `pauseTimer`. */
  predicate CanPause(t: TimerNode) {
    t.status == Running && HasEndTime(t)
  }

  /** `pauseTimer`'s update: the time left is frozen. */
  function PausedAt(t: TimerNode, now: int): TimerNode
    requires CanPause(t)
  {
    t.(status := Paused, endTime := None, remainingMs := Max(0, t.endTime.value - now))
  }

  /** `resetTimer`'s update. */
  function Reset(t: TimerNode): TimerNode {
    t.(status := Idle, endTime := None, remainingMs := t.durationMs)
  }

  /** What one `tick` does to one timer. */
  function Ticked(t: TimerNode, now: int): TimerNode {
    if t.status == Running && HasEndTime(t) then
      var remaining := t.endTime.value - now;
      if remaining <= 0 then t.(status := Complete, remainingMs := 0, endTime := None)
      else t.(remainingMs := remaining)
    else t
  }

  /** What one `tick` does to all timers. */
  function TickAll(timers: map<string, TimerNode>, now: int): (r: map<string, TimerNode>)
    ensures r.Keys == timers.Keys
  {
    map k | k in timers :: Ticked(timers[k], now)
  }

  /** `Math.round`: the nearest integer, halves rounded up. */
  function Round(x: real): int {
    (x + 0.5).Floor
  }

  /** `Math.min(300, Math.max(30, Math.round(bpm)))`. */
  function ClampBpm(bpm: real): (r: int)
    ensures MinBpm <= r <= MaxBpm
    ensures MinBpm <= Round(bpm) <= MaxBpm ==> r == Round(bpm)
    ensures Round(bpm) < MinBpm ==> r == MinBpm
    ensures Round(bpm) > MaxBpm ==> r == MaxBpm
  {
    var m := if Round(bpm) < MinBpm then MinBpm else Round(bpm);
    if m > MaxBpm then MaxBpm else m
  }

  // ----- properties of the timer arithmetic -----

  /** Starting at `t0` and pausing `d` ms later leaves `max(0, R - d)`. */
  lemma StartThenPause(t: TimerNode, t0: int, d: int)
    requires t0 + t.remainingMs != 0
    ensures CanPause(Started(t, t0))
    ensures PausedAt(Started(t, t0), t0 + d).remainingMs == Max(0, t.remainingMs - d)
    ensures PausedAt(Started(t, t0), t0 + d).status == Paused
    ensures PausedAt(Started(t, t0), t0 + d).endTime == None
  {
  }

  /** Time spent paused does not count: run `d1`, stay paused for any `gap`,
      run `d2`, and the remaining time is as if the two runs were back to back. */
  lemma PauseResumeIgnoresGap(t: TimerNode, t0: int, d1: int, gap: int, d2: int)
    requires t0 + t.remainingMs != 0
    requires t0 + d1 + gap + Max(0, t.remainingMs - d1) != 0
    ensures var p1 := PausedAt(Started(t, t0), t0 + d1);
            var s2 := Started(p1, t0 + d1 + gap);
            CanPause(s2) && PausedAt(s2, t0 + d1 + gap + d2).remainingMs
                            == Max(0, Max(0, t.remainingMs - d1) - d2)
  {
  }

  /** A tick before the deadline stores the time left, `endTime - now`, and
      keeps the end time, so pausing after any number of ticks gives what
      pausing directly gives. */
  lemma TickKeepsDeadline(t: TimerNode, t1: int, t2: int)
    requires CanPause(t) && t.endTime.value - t1 > 0
    ensures Ticked(t, t1) == t.(remainingMs := t.endTime.value - t1)
    ensures CanPause(Ticked(t, t1))
    ensures PausedAt(Ticked(t, t1), t2) == PausedAt(t, t2)
  {
  }

  /** A tick at or after the end time completes the timer. */
  lemma TickCompletes(t: TimerNode, now: int)
    requires CanPause(t) && t.endTime.value <= now
    ensures Ticked(t, now).status == Complete
    ensures Ticked(t, now).remainingMs == 0 && Ticked(t, now).endTime == None
  {
  }

  /** A tick only touches running timers that have an end time. */
  lemma TickLeavesOthers(t: TimerNode, now: int)
    requires !CanPause(t)
    ensures Ticked(t, now) == t
  {
  }

  /** Timers tick independently: replacing one timer changes only that
      timer's ticked value. */
  lemma {:induction false} TickIndependent(timers: map<string, TimerNode>, k: string, t: TimerNode, now: int)
    ensures TickAll(timers[k := t], now) == TickAll(timers, now)[k := Ticked(t, now)]
  {
    var a := TickAll(timers[k := t], now);
    var b := TickAll(timers, now)[k := Ticked(t, now)];
    assert a.Keys == b.Keys;
    forall j | j in a ensures a[j] == b[j] {
      if j == k {
        assert a[j] == Ticked(t, now);
      } else {
        assert a[j] == Ticked(timers[j], now);
      }
    }
  }

  /** Twenty-five minutes, paused after ninety seconds: 23:30 are left. */
  lemma PomodoroExample(t0: int)
    requires t0 + 25 * MsPerMinute != 0
    ensures var t := Started(FreshTimer("focus", 25, "FOCUS", Pomodoro), t0);
            CanPause(t) && PausedAt(t, t0 + 90 * 1000).remainingMs == 1410000
  {
  }

  class ChronosStore {
    var timers: map<string, TimerNode>
    var activeTimerId: Option<string>
    var metronome: Metronome

    /** Every timer is stored under its own id. */
    ghost predicate Valid()
      reads this
    {
      forall k :: k in timers ==> timers[k].id == k
    }

    constructor ()
      ensures Valid()
      ensures timers == map[] && activeTimerId == None
      ensures metronome == Metronome(false, 120, (4, 4), 0.8)
    {
      timers := map[];
      activeTimerId := None;
      metronome := Metronome(false, 120, (4, 4), 0.8);
    }

    /** Creates or overwrites timer `id`; it becomes the main timer only when
        there was none (a null or empty id counts as none). */
    method InitializeTimer(id: string, minutes: int, displayLabel: string, kind: TimerKind)
      requires Valid()
      modifies this
      ensures Valid()
      ensures timers == old(timers)[id := FreshTimer(id, minutes, displayLabel, kind)]
      ensures timers[id].durationMs == minutes * MsPerMinute && timers[id].remainingMs == timers[id].durationMs
      ensures timers[id].status == Idle && timers[id].endTime == None
      ensures activeTimerId == if Truthy(old(activeTimerId)) then old(activeTimerId) else Some(id)
      ensures metronome == old(metronome)
    {
      timers := timers[id := FreshTimer(id, minutes, displayLabel, kind)];
      if !Truthy(activeTimerId) {
        activeTimerId := Some(id);
      }
    }

    /** Sets the main timer to `minutes` and returns it to IDLE; a no-op
        without a main timer. */
    method AdjustMainTimer(minutes: int)
      requires Valid()
      modifies this
      ensures Valid()
      ensures activeTimerId == old(activeTimerId) && metronome == old(metronome)
      ensures if Truthy(old(activeTimerId)) && old(activeTimerId).value in old(timers) then
                var k := old(activeTimerId).value;
                timers == old(timers)[k := old(timers)[k].(durationMs := minutes * MsPerMinute,
                                                           remainingMs := minutes * MsPerMinute,
                                                           status := Idle, endTime := None)]
              else timers == old(timers)
    {
      if !Truthy(activeTimerId) || activeTimerId.value !in timers {
        return;
      }
      var k := activeTimerId.value;
      var durationMs := minutes * MsPerMinute;
      timers := timers[k := timers[k].(durationMs := durationMs, remainingMs := durationMs,
                                      status := Idle, endTime := None)];
    }

    /** Runs timer `id` until `now + remainingMs`; an unknown id is a no-op. */
    method StartTimer(id: string, now: int)
      requires Valid()
      modifies this
      ensures Valid()
      ensures timers == if id in old(timers) then old(timers)[id := Started(old(timers)[id], now)] else old(timers)
      ensures id in timers ==>
                timers[id].status == Running && timers[id].endTime == Some(now + old(timers)[id].remainingMs)
      ensures activeTimerId == old(activeTimerId) && metronome == old(metronome)
    {
      if id !in timers {
        return;
      }
      var timer := timers[id];
      var endTime := now + timer.remainingMs;
      timers := timers[id := timer.(status := Running, endTime := Some(endTime))];
    }

    /** Freezes the time left of a running timer; otherwise a no-op. */
    method PauseTimer(id: string, now: int)
      requires Valid()
      modifies this
      ensures Valid()
      ensures if id in old(timers) && CanPause(old(timers)[id]) then
                timers == old(timers)[id := PausedAt(old(timers)[id], now)]
                && timers[id].remainingMs == Max(0, old(timers)[id].endTime.value - now)
              else timers == old(timers)
      ensures activeTimerId == old(activeTimerId) && metronome == old(metronome)
    {
      if id !in timers || !CanPause(timers[id]) {
        return;
      }
      var timer := timers[id];
      var remainingMs := Max(0, timer.endTime.value - now);
      timers := timers[id := timer.(status := Paused, endTime := None, remainingMs := remainingMs)];
    }

    /** Returns timer `id` to IDLE with its whole duration left. */
    method ResetTimer(id: string)
      requires Valid()
      modifies this
      ensures Valid()
      ensures timers == if id in old(timers) then old(timers)[id := Reset(old(timers)[id])] else old(timers)
      ensures id in timers ==>
                timers[id].remainingMs == timers[id].durationMs && timers[id].status == Idle && timers[id].endTime == None
      ensures activeTimerId == old(activeTimerId) && metronome == old(metronome)
    {
      if id !in timers {
        return;
      }
      var timer := timers[id];
      timers := timers[id := timer.(status := Idle, endTime := None, remainingMs := timer.durationMs)];
    }

    /** Recomputes every running timer from the wall clock. Returns whether
        any timer changed (the source writes the store only then). */
    method Tick(now: int) returns (hasUpdates: bool)
      requires Valid()
      modifies this
      ensures Valid()
      ensures timers == TickAll(old(timers), now)
      ensures hasUpdates <==> exists k :: k in old(timers) && CanPause(old(timers)[k])
      ensures activeTimerId == old(activeTimerId) && metronome == old(metronome)
    {
      hasUpdates := false;
      var updated := timers;
      var pending := timers.Keys;
      while pending != {}
        invariant pending <= timers.Keys
        invariant updated.Keys == timers.Keys
        invariant forall k :: k in timers ==>
                    updated[k] == if k in pending then timers[k] else Ticked(timers[k], now)
        invariant hasUpdates <==> exists k :: k in timers && k !in pending && CanPause(timers[k])
        decreases pending
      {
        var k :| k in pending;
        var timer := timers[k];
        if timer.status == Running && HasEndTime(timer) {
          var remaining := timer.endTime.value - now;
          if remaining <= 0 {
            updated := updated[timer.id := timer.(status := Complete, remainingMs := 0, endTime := None)];
          } else {
            updated := updated[timer.id := timer.(remainingMs := remaining)];
          }
          hasUpdates := true;
        }
        pending := pending - {k};
      }
      if hasUpdates {
        timers := updated;
      } else {
        assert forall k :: k in timers ==> Ticked(timers[k], now) == timers[k];
      }
    }

    /** Makes `id` the main timer, whatever it is. */
    method SetMainDisplay(id: string)
      modifies this
      ensures activeTimerId == Some(id)
      ensures timers == old(timers) && metronome == old(metronome)
    {
      activeTimerId := Some(id);
    }

    method ToggleMetronome()
      modifies this
      ensures metronome == old(metronome).(active := !old(metronome).active)
      ensures timers == old(timers) && activeTimerId == old(activeTimerId)
    {
      metronome := metronome.(active := !metronome.active);
    }

    /** Stores the clamped, rounded tempo. Returns whether it differed from
        the stored one (only then does the source write and retune). */
    method SetBpm(bpm: real) returns (changed: bool)
      modifies this
      ensures metronome == old(metronome).(bpm := ClampBpm(bpm))
      ensures changed <==> ClampBpm(bpm) != old(metronome).bpm
      ensures timers == old(timers) && activeTimerId == old(activeTimerId)
    {
      var safeBpm := ClampBpm(bpm);
      changed := safeBpm != metronome.bpm;
      if changed {
        metronome := metronome.(bpm := safeBpm);
      }
    }

    /** `setBpm(bpm + delta)`. */
    method AdjustBpm(delta: real) returns (changed: bool)
      modifies this
      ensures metronome == old(metronome).(bpm := ClampBpm(old(metronome).bpm as real + delta))
      ensures timers == old(timers) && activeTimerId == old(activeTimerId)
    {
      var current := metronome.bpm;
      changed := SetBpm(current as real + delta);
    }

    method SetSignature(beats: int, noteValue: int)
      modifies this
      ensures metronome == old(metronome).(signature := (beats, noteValue))
      ensures timers == old(timers) && activeTimerId == old(activeTimerId)
    {
      metronome := metronome.(signature := (beats, noteValue));
    }

    /** The persisted shape: the metronome always comes back stopped. */
    function Persisted(): (p: PersistedChronos)
      reads this
      ensures !p.metronome.active
      ensures p.timers == timers && p.activeTimerId == activeTimerId
      ensures p.metronome.bpm == metronome.bpm && p.metronome.signature == metronome.signature
      ensures p.metronome.volume == metronome.volume
    {
      PersistedChronos(timers, activeTimerId, metronome.(active := false))
    }
  }

  /** Twenty-five minutes started at `t0` and paused at `t0 + 90 s`, driven
      through the store's own operations. */
  method PomodoroScenario(t0: int) returns (remaining: int)
    requires t0 + 25 * MsPerMinute != 0
    ensures remaining == 1410000
  {
    var store := new ChronosStore();
    store.InitializeTimer("focus", 25, "FOCUS", Pomodoro);
    store.StartTimer("focus", t0);
    var _ := store.Tick(t0 + 60 * 1000);
    store.PauseTimer("focus", t0 + 90 * 1000);
    remaining := store.timers["focus"].remainingMs;
  }
}
