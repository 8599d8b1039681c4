/**
  The command-line countdown: every second it clears the console and
  prints the remaining time as "mm:ss", then stops after the tick that
  takes the remaining time below zero. The interval timer becomes a loop
  and the console a list of the operations issued, in order.
*/
module Countdown {
  import opened JsStrings

  const FinishedMessage: string := "Countdown finished!"

  /** `minutes * 60 * 1000`. */
  function InitialTime(minutes: int): (t: int)
    ensures minutes >= 0 ==> t >= 0 && t % 60000 == 0
  {
    minutes * 60 * 1000
  }

  /** `Math.floor(t / 60000)`. */
  function MinutesLeft(t: int): (m: int)
    ensures m * 60000 <= t < (m + 1) * 60000
  {
    t / 60000
  }

  /** JavaScript's `a % b` for b > 0: the remainder takes the sign of `a`. */
  function JsRemainder(a: int, b: int): (r: int)
    requires b > 0
    ensures a >= 0 ==> 0 <= r < b
    ensures a < 0 ==> -b < r <= 0
  {
    if a >= 0 then a % b else -((-a) % b)
  }

  /** `Math.floor((t % 60000) / 1000)`. */
  function SecondsLeft(t: int): (s: int)
    ensures t >= 0 ==> 0 <= s < 60
    ensures t < 0 ==> -60 <= s <= 0
  {
    JsRemainder(t, 60000) / 1000
  }

  /** The display: each part padded on the left with "0" to two characters, joined by ":". */
  function Format(t: int): string {
    PadStart(IntToString(MinutesLeft(t)), 2, '0') + ":" + PadStart(IntToString(SecondsLeft(t)), 2, '0')
  }

  /**
    A console operation: `console.clear()`, the tick's `console.log` of the
    display for a time, or a `console.log` of fixed text.
  */
  datatype ConsoleOp = Clear | LogTime(time: int) | Log(text: string)

  function Display(t: int): string {
    "Time remaining: " + Format(t)
  }

  /** The text a logging operation prints; a clear prints none. */
  function Printed(op: ConsoleOp): string {
    match op
    case Clear => ""
    case LogTime(t) => Display(t)
    case Log(text) => text
  }

  /** The times shown by the ticks from time `t` on: each 1000 below the last, down to the first negative result. */
  function TickTimes(t: int): (ts: seq<int>)
    ensures |ts| >= 1 && ts[0] == t
    decreases if t < 0 then 0 else t + 1
  {
    [t] + (if t - 1000 < 0 then [] else TickTimes(t - 1000))
  }

  /** The ticks still due once the time left is `t`: none when `t` is negative. */
  function Pending(t: int): seq<int>
    decreases if t < 0 then 0 else t + 1
  {
    if t < 0 then [] else TickTimes(t)
  }

  /** The console lines of the ticks at `ts`: a clear, then the display. */
  function Lines(ts: seq<int>): (ops: seq<ConsoleOp>)
    ensures |ops| == 2 * |ts|
    decreases |ts|
  {
    if ts == [] then [] else Lines(ts[..|ts| - 1]) + [Clear, LogTime(ts[|ts| - 1])]
  }

  /** Everything the countdown prints from time `t`: its ticks' lines and the closing message. */
  function Output(t: int): seq<ConsoleOp> {
    Lines(TickTimes(t)) + [Log(FinishedMessage)]
  }

  /** `startCountdown(minutes)`: the interval callback run until it clears itself. */
  method StartCountdown(minutes: int) returns (ops: seq<ConsoleOp>)
    ensures ops == Output(InitialTime(minutes))
  {
    var timeLeft := InitialTime(minutes);
    ghost var shown: seq<int> := [];
    ops := [];
    while true
      invariant shown + [timeLeft] + Pending(timeLeft - 1000) == TickTimes(InitialTime(minutes))
      invariant ops == Lines(shown)
      decreases if timeLeft < 0 then 0 else timeLeft + 1
    {
      ops := ops + [Clear, LogTime(timeLeft)];
      shown := shown + [timeLeft];
      timeLeft := timeLeft - 1000;
      if timeLeft < 0 {
        ops := ops + [Log(FinishedMessage)];
        assert shown == TickTimes(InitialTime(minutes));
        return;
      }
      assert Pending(timeLeft) == [timeLeft] + Pending(timeLeft - 1000);
    }
  }

  /** The number of ticks from time `t`: one more than the whole seconds left, and one when already negative. */
  function Ticks(t: int): (n: nat)
    ensures n >= 1
  {
    if t < 0 then 1 else t / 1000 + 1
  }

  /** From time `t` there are `Ticks(t)` ticks, and for `t >= 0` the last shows `t mod 1000`. */
  lemma {:induction false} TickTimesCount(t: int)
    ensures var ts := TickTimes(t);
      && |ts| == Ticks(t)
      && (t >= 0 ==> ts[|ts| - 1] == t % 1000)
    decreases if t < 0 then 0 else t + 1
  {
    if t - 1000 >= 0 {
      TickTimesCount(t - 1000);
      assert TickTimes(t) == [t] + TickTimes(t - 1000);
      assert (t - 1000) / 1000 == t / 1000 - 1;
      assert (t - 1000) % 1000 == t % 1000;
    } else if t >= 0 {
      assert t % 1000 == t && t / 1000 == 0;
    }
  }

  /** Each tick shows 1000 less than the one before, and from `t >= 0` no tick shows a negative time. */
  lemma {:induction false} TickTimesDescend(t: int)
    ensures forall i :: 0 < i < |TickTimes(t)| ==> TickTimes(t)[i] == TickTimes(t)[i - 1] - 1000
    ensures t >= 0 ==> forall i :: 0 <= i < |TickTimes(t)| ==> TickTimes(t)[i] >= 0
    decreases if t < 0 then 0 else t + 1
  {
    if t - 1000 >= 0 {
      var rest := TickTimes(t - 1000);
      TickTimesDescend(t - 1000);
      assert TickTimes(t) == [t] + rest;
      assert forall i :: 0 < i < |rest| + 1 ==> ([t] + rest)[i] == rest[i - 1];
    } else {
      assert TickTimes(t) == [t];
    }
  }

  /** The output is a clear and a display per tick, then the closing message; the last display is the last tick's. */
  lemma OutputShape(t: int)
    ensures var ops := Output(t); var ts := TickTimes(t);
      && |ops| == 2 * |ts| + 1
      && ops[|ops| - 1] == Log(FinishedMessage)
      && ops[|ops| - 2] == LogTime(ts[|ts| - 1])
  {
    var ts := TickTimes(t);
    assert Lines(ts) == Lines(ts[..|ts| - 1]) + [Clear, LogTime(ts[|ts| - 1])];
  }

  /** For a whole number of seconds, minutes and seconds put back together give the time. */
  lemma WholeSecondsDecompose(t: int)
    requires t >= 0 && t % 1000 == 0
    ensures MinutesLeft(t) * 60000 + SecondsLeft(t) * 1000 == t
    ensures 0 <= SecondsLeft(t) < 60
  {
    var k := t / 1000;
    var q := k / 60;
    var r := k % 60;
    assert t == 60000 * q + 1000 * r;
    assert t / 60000 == q;
    assert t % 60000 == 1000 * r;
    assert (1000 * r) / 1000 == r;
  }

  /** A time of zero or more shows both parts with at least two digits, seconds with exactly two. */
  lemma FormatShape(t: int)
    requires t >= 0
    ensures var f := Format(t);
      && |f| >= 5 && f[|f| - 3] == ':'
      && f[|f| - 2..] == PadStart(IntToString(SecondsLeft(t)), 2, '0')
  {
    var s := SecondsLeft(t);
    if s >= 10 {
      assert NatToString(s) == NatToString(s / 10) + [DigitChar(s % 10)];
    }
    var mins := PadStart(IntToString(MinutesLeft(t)), 2, '0');
    var secs := PadStart(IntToString(s), 2, '0');
    assert |secs| == 2;
    assert Format(t) == mins + ":" + secs;
  }

  /** At zero the display reads "00:00". */
  lemma DisplayZero()
    ensures Display(0) == "Time remaining: 00:00"
  {
    assert IntToString(0) == "0";
    assert Format(0) == "00:00";
  }

  /**
    `m` whole minutes give `m * 60 + 1` displays, the last one "00:00",
    followed by the closing message.
  */
  lemma CountdownOfMinutes(m: nat)
    ensures var ops := Output(InitialTime(m));
      && |ops| == 2 * (m * 60 + 1) + 1
      && ops[|ops| - 2] == LogTime(0)
      && Printed(ops[|ops| - 2]) == "Time remaining: 00:00"
      && ops[|ops| - 1] == Log(FinishedMessage)
  {
    var t := InitialTime(m);
    assert t == 60000 * m;
    TickTimesCount(t);
    OutputShape(t);
    var ts := TickTimes(t);
    assert |ts| == m * 60 + 1;
    assert ts[|ts| - 1] == 0;
    DisplayZero();
  }
}
