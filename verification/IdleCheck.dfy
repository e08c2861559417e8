/**
The idle monitor against the heartbeat of an open client session. Times are in
nanoseconds; the store keeps activity times in whole milliseconds.
*/
module IdleCheck {
  import opened Options

  const SECOND: int := 1_000_000_000
  const MILLI: int := 1_000_000

  // ---------------------------------------------------------------- the monitor

  datatype Vm = Vm(uuid: string, state: string, idleSeconds: int, lastActivity: Option<int>, lastStarted: Option<int>)

  /** The seconds that count for a VM: its own, or the default. */
  function Effective(seconds: int, byDefault: int): int {
    if seconds == 0 then byDefault else seconds
  }

  function Threshold(vm: Vm, byDefault: int): int {
    Effective(vm.idleSeconds, byDefault) * SECOND
  }

  function LastActivity(vm: Vm): Option<int> {
    if vm.lastActivity.Some? then vm.lastActivity else vm.lastStarted
  }

  /** The monitor puts the VM to sleep. */
  predicate Idle(vm: Vm, byDefault: int, now: int) {
    && vm.state == "running" && Threshold(vm, byDefault) > 0
    && LastActivity(vm).Some? && now - LastActivity(vm).value >= Threshold(vm, byDefault)
  }

  /** `IdleMonitor.check`, on the list it has read. */
  method Check(vms: seq<Vm>, byDefault: int, now: int) returns (slept: seq<string>)
    ensures forall u :: u in slept <==> exists i :: 0 <= i < |vms| && vms[i].uuid == u && Idle(vms[i], byDefault, now)
  {
    slept := [];
    for i := 0 to |vms|
      invariant forall u :: u in slept <==> exists k :: 0 <= k < i && vms[k].uuid == u && Idle(vms[k], byDefault, now)
    {
      var vm := vms[i];
      if vm.state != "running" {
        continue;
      }
      var threshold := Threshold(vm, byDefault);
      if threshold <= 0 {
        continue;
      }
      var last := LastActivity(vm);
      if last.None? || now - last.value < threshold {
        continue;
      }
      slept := slept + [vm.uuid];
    }
  }

  // ---------------------------------------------------------------- the heartbeat

  /** `activityHeartbeatInterval`, for the seconds the server reports. */
  function Interval(seconds: int): int {
    if seconds <= 0 then 0
    else if seconds * SECOND / 4 < SECOND then SECOND
    else seconds * SECOND / 4
  }

  /** A session whose first touch is stored at `start`; later ones are stored `delay` after they are due. */
  datatype Session = Session(start: int, delay: nat, seconds: int)

  /** When the `k`th touch of the session is stored. */
  function Beat(s: Session, k: nat): int {
    if k == 0 then s.start else s.start + k * Interval(s.seconds) + s.delay
  }

  /** What the store keeps of a time. */
  function Stored(t: int): int {
    t / MILLI * MILLI
  }

  /** The activity of the VM: the session's touches and any others, for instance another session's. */
  ghost predicate Touched(s: Session, others: set<int>, t: int) {
    t in others || exists k: nat :: Beat(s, k) == t
  }

  /** A list read at time `r` shows this last activity: the latest touch that has been stored. */
  ghost predicate Shows(s: Session, others: set<int>, r: int, last: int) {
    exists t :: Touched(s, others, t) && t <= r && last == Stored(t)
      && forall t' :: Touched(s, others, t') && t' <= r ==> t' <= t
  }

  /** The delays that the heartbeat can stand. */
  predicate Margin(seconds: int, delay: nat) {
    Interval(seconds) + delay + (MILLI - 1) <= seconds * SECOND
  }

  lemma BeatBefore(s: Session, r: int) returns (k: nat)
    requires s.seconds > 0 && s.start <= r
    ensures Beat(s, k) <= r < Beat(s, k) + Interval(s.seconds) + s.delay
  {
    var i := Interval(s.seconds);
    if r < s.start + i + s.delay {
      k := 0;
    } else {
      k := (r - s.start - s.delay) / i;
      assert k * i <= r - s.start - s.delay < k * i + i;
      assert k > 0;
    }
  }

  lemma StoredMonotone(a: int, b: int)
    requires a <= b
    ensures a - (MILLI - 1) <= Stored(a) <= Stored(b)
  {
  }

  /**
  While a session is open, no check selects its VM: not at any read time `r`, with any
  tick time `now` that is not later, and with any other activity.
  */
  lemma NeverSlept(s: Session, others: set<int>, vm: Vm, byDefault: int, r: int, now: int)
    requires s.seconds > 0 && Margin(s.seconds, s.delay) && s.start <= r && now <= r
    requires s.seconds == Effective(vm.idleSeconds, byDefault)
    requires vm.lastActivity.Some? && Shows(s, others, r, vm.lastActivity.value)
    ensures !Idle(vm, byDefault, now)
  {
    var t :| Touched(s, others, t) && t <= r && vm.lastActivity.value == Stored(t)
      && forall t' :: Touched(s, others, t') && t' <= r ==> t' <= t;
    var k := BeatBefore(s, r);
    assert Touched(s, others, Beat(s, k));
    StoredMonotone(Beat(s, k), t);
  }

  /** Without that margin some session's VM is put to sleep while the session is open. */
  lemma SleptWithoutMargin(seconds: int, delay: nat, vm: Vm, byDefault: int) returns (s: Session, r: int)
    requires seconds > 0 && !Margin(seconds, delay) && seconds == Effective(vm.idleSeconds, byDefault)
    requires vm.state == "running" && vm.lastActivity == Some(0)
    ensures s.seconds == seconds && s.delay == delay && s.start <= r
    ensures Shows(s, {}, r, 0) && Idle(vm, byDefault, r)
  {
    s := Session(MILLI - 1, delay, seconds);
    r := s.start + Interval(seconds) + delay - 1;
    forall t | Touched(s, {}, t) && t <= r ensures t <= s.start {
      var k: nat :| Beat(s, k) == t;
      if k > 0 {
        LaterBeat(s, k);
      }
    }
    assert Beat(s, 0) == s.start && Touched(s, {}, s.start) && Stored(s.start) == 0;
  }

  lemma LaterBeat(s: Session, k: nat)
    requires s.seconds > 0 && k > 0
    ensures Beat(s, k) >= s.start + Interval(s.seconds) + s.delay
  {
    assert k * Interval(s.seconds) >= Interval(s.seconds);
  }

  /** A check with tick time `now` reads the VM at time `r`, while the session is open. */
  ghost predicate OpenAt(s: Session, others: set<int>, vm: Vm, byDefault: int, r: int, now: int) {
    && s.start <= r && now <= r && s.seconds == Effective(vm.idleSeconds, byDefault)
    && vm.lastActivity.Some? && Shows(s, others, r, vm.lastActivity.value)
  }

  /** No check that reads the list while a session is open selects the session's VM. */
  ghost predicate AlwaysAwake(seconds: int, delay: nat) {
    forall start: int, others: set<int>, vm: Vm, byDefault: int, r: int, now: int ::
      OpenAt(Session(start, delay, seconds), others, vm, byDefault, r, now) ==> !Idle(vm, byDefault, now)
  }

  /** The heartbeat keeps every open session's VM awake exactly for the delays within the margin. */
  lemma HeartbeatExact(seconds: int, delay: nat)
    requires seconds > 0
    ensures AlwaysAwake(seconds, delay) <==> Margin(seconds, delay)
  {
    if Margin(seconds, delay) {
      forall start: int, others: set<int>, vm: Vm, byDefault: int, r: int, now: int |
        OpenAt(Session(start, delay, seconds), others, vm, byDefault, r, now)
        ensures !Idle(vm, byDefault, now)
      {
        NeverSlept(Session(start, delay, seconds), others, vm, byDefault, r, now);
      }
    } else {
      var vm := Vm("", "running", seconds, Some(0), None);
      var s, r := SleptWithoutMargin(seconds, delay, vm, 0);
      assert s == Session(s.start, delay, seconds) && OpenAt(s, {}, vm, 0, r, r);
    }
  }

  /** The heartbeat comes four times in the timeout, but at most once a second. */
  lemma IntervalIsQuarter(seconds: int)
    requires seconds > 0
    ensures if seconds <= 4 then Interval(seconds) == SECOND else 4 * Interval(seconds) == seconds * SECOND
  {
  }

  /** From two seconds on there is room for a delay of more than 0.9 seconds; with one second there is none. */
  lemma MarginExists(seconds: int, delay: nat)
    requires seconds > 0
    ensures seconds >= 2 && delay <= 900_000_000 ==> Margin(seconds, delay)
    ensures seconds == 1 ==> !Margin(seconds, delay)
  {
  }

  /** A delay below the threshold less the interval is not enough: the last millisecond is lost to the store. */
  lemma DelayBelowDifferenceFails()
    ensures var delay := 999_999_999;
      delay < 2 * SECOND - Interval(2) && !Margin(2, delay)
  {
  }
}
