/**
 * The playback scheduler of the voice panel: a cursor on the output clock
 * at which the next received frame starts, and the set of scheduled sources
 * still playing, kept so that teardown can stop them.
 *
 * Time is in seconds of the 24 kHz output clock, as an exact real.
 */
module Playback {

  /** The output sample rate the received frames are played at. */
  const OutputRate: real := 24000.0

  /** The identity of one scheduled buffer source. */
  type SourceId = nat

  /**
   * `cursor` is the time the next frame may start (`nextStartTimeRef`),
   * `active` the sources not yet ended (`sourcesRef`), `nextId` the identity
   * the next created source receives.
   */
  datatype Scheduler = Scheduler(cursor: real, active: set<SourceId>, nextId: SourceId)

  /** Every active source was created earlier, so a new source is never already active. */
  predicate Valid(s: Scheduler) {
    forall id | id in s.active :: id < s.nextId
  }

  /** The scheduler a mounted panel starts with. */
  const Initial: Scheduler := Scheduler(0.0, {}, 0)

  /** One scheduled frame: its source, the time it starts, and how long it plays. */
  datatype Start = Start(source: SourceId, at: real, duration: real) {
    /** The time the frame finishes playing. */
    function End(): real { at + duration }
  }

  /** One received frame: the output-clock time it arrived at and its sample count. */
  datatype Frame = Frame(now: real, samples: nat)

  /** The playing time of a frame of `samples` samples at the output rate. */
  function Duration(samples: nat): (d: real)
    ensures d >= 0.0
    ensures d * OutputRate == samples as real
  {
    samples as real / OutputRate
  }

  /** The larger of two times. */
  function Max(a: real, b: real): real {
    if a < b then b else a
  }

  /**
   * The scheduling step of the audio callback: a cursor that has fallen
   * behind the clock is first raised to `now`; the frame starts at the
   * cursor, which then advances by the frame's duration; the new source
   * joins the active set.
   */
  function Schedule(s: Scheduler, f: Frame): (r: (Scheduler, Start))
    ensures r.1.at >= f.now && r.1.at >= s.cursor
    ensures s.cursor >= f.now ==> r.1.at == s.cursor
    ensures s.cursor < f.now ==> r.1.at == f.now
    ensures r.1.duration * OutputRate == f.samples as real
    ensures r.0.cursor == r.1.End() && r.0.cursor >= s.cursor
    ensures r.0.active == s.active + {r.1.source}
    ensures Valid(s) ==> r.1.source !in s.active && Valid(r.0)
  {
    var at := Max(s.cursor, f.now);
    var d := Duration(f.samples);
    (Scheduler(at + d, s.active + {s.nextId}, s.nextId + 1), Start(s.nextId, at, d))
  }

  /** The `onended` handler: the ended source leaves the active set; nothing else changes. */
  function Ended(s: Scheduler, id: SourceId): (r: Scheduler)
    ensures id !in r.active
    ensures r.active == s.active - {id}
    ensures r.cursor == s.cursor && r.nextId == s.nextId
    ensures Valid(s) ==> Valid(r)
  {
    s.(active := s.active - {id})
  }

  /**
   * The playback part of teardown: every active source is stopped, the set
   * is cleared and the cursor returns to zero.
   */
  function Stop(s: Scheduler): (r: (Scheduler, set<SourceId>))
    ensures r.1 == s.active
    ensures r.0.active == {} && r.0.cursor == 0.0
    ensures r.0.nextId == s.nextId && Valid(r.0)
  {
    (Scheduler(0.0, {}, s.nextId), s.active)
  }

  /** Stopping twice leaves the same scheduler as stopping once, and the second stop stops nothing. */
  lemma StopIdempotent(s: Scheduler)
    ensures Stop(Stop(s).0) == (Stop(s).0, {})
  {
  }

  /** Scheduling a run of frames in arrival order. */
  function ScheduleAll(s: Scheduler, frames: seq<Frame>): (r: (Scheduler, seq<Start>))
    ensures |r.1| == |frames|
    ensures forall i | 0 <= i < |frames| :: r.1[i].at >= frames[i].now
    ensures |frames| > 0 ==> r.1[0].at == Max(s.cursor, frames[0].now)
    ensures forall i | 0 < i < |frames| :: r.1[i].at == Max(r.1[i - 1].End(), frames[i].now)
    ensures forall i | 0 <= i < |frames| :: r.1[i].duration * OutputRate == frames[i].samples as real
    ensures r.0.cursor >= s.cursor
    ensures |frames| > 0 ==> r.0.cursor == r.1[|frames| - 1].End()
    ensures |frames| == 0 ==> r.0 == s
    ensures Valid(s) ==> Valid(r.0)
    decreases |frames|
  {
    if |frames| == 0 then (s, [])
    else
      var (s1, first) := Schedule(s, frames[0]);
      var (s2, rest) := ScheduleAll(s1, frames[1..]);
      (s2, [first] + rest)
  }

  /**
   * Scheduled frames never overlap, and a frame that arrives before the
   * previous one ends starts exactly when it ends (back to back).
   */
  lemma NoOverlap(s: Scheduler, frames: seq<Frame>, i: nat)
    requires 0 < i < |frames|
    ensures ScheduleAll(s, frames).1[i].at >= ScheduleAll(s, frames).1[i - 1].End()
    ensures frames[i].now <= ScheduleAll(s, frames).1[i - 1].End()
            <==> ScheduleAll(s, frames).1[i].at == ScheduleAll(s, frames).1[i - 1].End()
  {
  }

  /** Each frame scheduled after the first starts no earlier than the one before it. */
  lemma {:induction false} StartsNonDecreasing(s: Scheduler, frames: seq<Frame>, i: nat, j: nat)
    requires i <= j < |frames|
    ensures ScheduleAll(s, frames).1[i].at <= ScheduleAll(s, frames).1[j].at
    decreases j - i
  {
    if i < j {
      StartsNonDecreasing(s, frames, i, j - 1);
      var st := ScheduleAll(s, frames).1;
      assert st[j].at >= st[j - 1].End() >= st[j - 1].at;
    }
  }

  /** Two 100 ms frames (2400 samples each) arriving without a stall play exactly 100 ms apart. */
  lemma TwoFramesBackToBack(s: Scheduler, now1: real, now2: real)
    requires now2 <= Max(s.cursor, now1) + 0.1
    ensures var st := ScheduleAll(s, [Frame(now1, 2400), Frame(now2, 2400)]).1;
            st[1].at == st[0].at + 0.1
  {
    var frames := [Frame(now1, 2400), Frame(now2, 2400)];
    var st := ScheduleAll(s, frames).1;
    assert st[0].duration == 0.1;
  }
}
