/**
 * The coding-phase stopwatch (src/components/Timer.tsx): a seconds counter that restarts
 * from 0 whenever it is switched on, advances by one per interval tick while on, and is
 * shown as `MM:SS`.
 *
 * The one-second interval is not modelled as time: each firing is a call of `Tick`.
 */
module Timer {

  function DigitChar(d: nat): char
    requires d < 10
  {
    "0123456789"[d]
  }

  predicate IsDigit(c: char) {
    '0' <= c <= '9'
  }

  function DigitValue(c: char): nat
    requires IsDigit(c)
  {
    (c as int - '0' as int) as nat
  }

  /** `n.toString()` for a non-negative integer: its decimal digits, no leading zero. */
  function NatToString(n: nat): (s: string)
    ensures |s| >= 1 && forall i :: 0 <= i < |s| ==> IsDigit(s[i])
    ensures n < 10 <==> |s| == 1
    ensures 10 <= n < 100 ==> |s| == 2
  {
    if n < 10 then [DigitChar(n)] else NatToString(n / 10) + [DigitChar(n % 10)]
  }

  /** Reads a string of decimal digits back as a number (leading zeros allowed). */
  function ParseNat(s: string): nat
    requires forall i :: 0 <= i < |s| ==> IsDigit(s[i])
  {
    if s == [] then 0 else ParseNat(s[..|s| - 1]) * 10 + DigitValue(s[|s| - 1])
  }

  /** Printing then reading a number gives it back. */
  lemma {:induction false} ParseNatToString(n: nat)
    ensures ParseNat(NatToString(n)) == n
  {
    if n >= 10 {
      var s := NatToString(n / 10);
      assert (s + [DigitChar(n % 10)])[..|s|] == s;
      ParseNatToString(n / 10);
    }
  }

  /** A leading zero does not change the number read. */
  lemma {:induction false} ParseNatLeadingZero(s: string)
    requires forall i :: 0 <= i < |s| ==> IsDigit(s[i])
    ensures ParseNat(['0'] + s) == ParseNat(s)
  {
    if s != [] {
      assert (['0'] + s)[..|s|] == ['0'] + s[..|s| - 1];
      ParseNatLeadingZero(s[..|s| - 1]);
    }
  }

  /** `padStart(2, '0')`. */
  function PadStart2(s: string): (r: string)
    ensures |r| == if |s| >= 2 then |s| else 2
    ensures r[|r| - |s|..] == s
    ensures forall i :: 0 <= i < |r| - |s| ==> r[i] == '0'
  {
    if |s| >= 2 then s else seq(2 - |s|, _ => '0') + s
  }

  /** `mins.toString().padStart(2, '0')` with `mins = Math.floor(seconds / 60)`. */
  function MinutesField(seconds: nat): string {
    PadStart2(NatToString(seconds / 60))
  }

  /** `secs.toString().padStart(2, '0')` with `secs = seconds % 60`. */
  function SecondsField(seconds: nat): string {
    PadStart2(NatToString(seconds % 60))
  }

  /** `formatTime`: zero-padded minutes, a colon, zero-padded seconds. */
  function FormatTime(seconds: nat): string {
    MinutesField(seconds) + ":" + SecondsField(seconds)
  }

  /**
   * Both fields are digit strings, the seconds field exactly two digits below 60, and
   * reading them back gives the time: `minutes * 60 + seconds`.
   */
  lemma FormatTimeMeans(seconds: nat)
    ensures var mm, ss := MinutesField(seconds), SecondsField(seconds);
      && (forall i :: 0 <= i < |mm| ==> IsDigit(mm[i]))
      && (forall i :: 0 <= i < |ss| ==> IsDigit(ss[i]))
      && |ss| == 2 && |mm| >= 2
      && ParseNat(ss) < 60
      && ParseNat(mm) * 60 + ParseNat(ss) == seconds
  {
    PaddedReads(seconds / 60);
    PaddedReads(seconds % 60);
  }

  /** Below 100 minutes the display is `MM:SS`: five characters with the colon in the middle. */
  lemma FormatTimeWidth(seconds: nat)
    requires seconds < 6000
    ensures |FormatTime(seconds)| == 5 && FormatTime(seconds)[2] == ':'
  {
    var mm, ss := MinutesField(seconds), SecondsField(seconds);
    assert |mm| == 2 && |ss| == 2;
    Colon(mm, ss);
  }

  lemma Colon(mm: string, ss: string)
    requires |mm| == 2
    ensures (mm + ":" + ss)[2] == ':' && |mm + ":" + ss| == 3 + |ss|
  {
  }

  /** Padding a printed number keeps it all digits and reading it gives the number. */
  lemma PaddedReads(n: nat)
    ensures var p := PadStart2(NatToString(n));
      (forall i :: 0 <= i < |p| ==> IsDigit(p[i])) && ParseNat(p) == n
  {
    var s := NatToString(n);
    ParseNatToString(n);
    if |s| < 2 {
      assert PadStart2(s) == ['0'] + s;
      ParseNatLeadingZero(s);
    }
  }

  class TimerState {
    /** The `running` prop. */
    var running: bool
    /** Seconds counted since the timer was last switched on. */
    var time: nat

    constructor(running: bool)
      ensures this.running == running && time == 0
    {
      this.running := running;
      time := 0;
    }

    /**
     * A new `running` prop. The effects depend on `running` only, so nothing happens when
     * it does not change; switching it on restarts the count from 0 and switching it off
     * keeps the count shown.
     */
    method SetRunning(r: bool)
      modifies this
      ensures running == r
      ensures r && !old(running) ==> time == 0
      ensures !(r && !old(running)) ==> time == old(time)
    {
      if r != running {
        running := r;
        if r {
          time := 0;
        }
      }
    }

    /** One firing of the interval: only a running timer has one. */
    method Tick()
      modifies this`time
      ensures running ==> time == old(time) + 1
      ensures !running ==> time == old(time)
    {
      if running {
        time := time + 1;
      }
    }

    /** `k` seconds pass: the count grows by `k` while running and is kept while stopped. */
    method Elapse(k: nat)
      modifies this`time
      ensures time == old(time) + (if running then k else 0)
    {
      var i := 0;
      while i < k
        invariant 0 <= i <= k
        invariant time == old(time) + (if running then i else 0)
      {
        Tick();
        i := i + 1;
      }
    }

    function Display(): string
      reads this
    {
      FormatTime(time)
    }
  }

  lemma SeventyFiveSeconds()
    ensures FormatTime(75) == "01:15"
  {
    assert NatToString(1) == "1";
    assert NatToString(15) == NatToString(1) + "5";
    assert MinutesField(75) == PadStart2("1") == "01";
    assert SecondsField(75) == PadStart2("15") == "15";
    assert FormatTime(75) == "01" + ":" + "15";
    assert "01" + ":" + "15" == "01:15";
  }

  /** Switching on after a stopped stretch and letting 75 seconds pass shows `01:15`. */
  method RestartScenario()
  {
    var t := new TimerState(false);
    t.Elapse(30);
    assert t.time == 0;
    t.SetRunning(true);
    t.Elapse(75);
    t.SetRunning(true);
    assert t.time == 75;
    SeventyFiveSeconds();
    assert t.Display() == "01:15";
  }
}
