/**
 * The countdown of `useTimer` (hooks/useTimer.ts): a display string `HH:MM:SS` seeded from
 * an ad's `timeLeft`, lowered by one second per tick of an interval, with a borrow from the
 * minutes and then the hours, until it reaches zero and the interval is cleared.
 */
module Countdown {
  import opened Wrappers
  import opened Types

  predicate IsDigit(c: char)
  {
    '0' <= c <= '9'
  }

  predicate IsDigits(s: string)
  {
    forall i :: 0 <= i < |s| ==> IsDigit(s[i])
  }

  /** `Number(field)` for a field made of decimal digits; the empty field reads as 0. */
  function DigitsValue(s: string): nat
    requires IsDigits(s)
  {
    if s == [] then 0 else DigitsValue(s[..|s| - 1]) * 10 + (s[|s| - 1] as int - '0' as int)
  }

  /** A leading zero does not change the value of a field. */
  lemma {:induction false} LeadingZero(s: string)
    requires IsDigits(s)
    ensures IsDigits("0" + s) && DigitsValue("0" + s) == DigitsValue(s)
  {
    if s != [] {
      var init := s[..|s| - 1];
      LeadingZero(init);
      assert ("0" + s)[..|s|] == "0" + init;
    }
  }

  /** `n.toString()`: the decimal digits of `n`, which read back as `n`. */
  function Decimal(n: nat): (s: string)
    ensures 1 <= |s| && IsDigits(s) && DigitsValue(s) == n
  {
    if n < 10 then
      [('0' as int + n) as char]
    else
      var s := Decimal(n / 10) + [('0' as int + n % 10) as char];
      assert s[..|s| - 1] == Decimal(n / 10);
      s
  }

  /** `toString` writes a single digit exactly below ten, and never a leading zero otherwise. */
  lemma {:induction false} DecimalCanonical(n: nat)
    ensures n < 10 <==> |Decimal(n)| == 1
    ensures |Decimal(n)| > 1 ==> Decimal(n)[0] != '0'
  {
    if n >= 10 {
      DecimalCanonical(n / 10);
      assert Decimal(n)[0] == Decimal(n / 10)[0];
    }
  }

  /** `toString().padStart(2, '0')`: at least two digits, reading back as `n`, with no ':' in it. */
  function Field(n: nat): (s: string)
    ensures 2 <= |s| && IsDigits(s) && DigitsValue(s) == n && ':' !in s
    ensures n >= 10 ==> s == Decimal(n)
    ensures n < 10 ==> s == "0" + Decimal(n)
  {
    var d := Decimal(n);
    if |d| >= 2 then
      d
    else
      LeadingZero(d);
      "0" + d
  }

  /** `split(':')`: the pieces of `s` between its colons. */
  function Split(s: string): (r: seq<string>)
    ensures 1 <= |r|
    ensures forall i :: 0 <= i < |r| ==> ':' !in r[i]
  {
    if s == [] then [""]
    else
      var rest := Split(s[1..]);
      if s[0] == ':' then [""] + rest else [[s[0]] + rest[0]] + rest[1..]
  }

  /** Splitting a piece and then the rest of the text, at the colon between them. */
  lemma {:induction false} SplitAtColon(a: string, b: string)
    requires ':' !in a
    ensures Split(a + ":" + b) == [a] + Split(b)
  {
    if a == [] {
      assert a + ":" + b == [':'] + b;
      assert (a + ":" + b)[1..] == b;
    } else {
      var s := a + ":" + b;
      SplitAtColon(a[1..], b);
      assert s[0] == a[0] && s[1..] == a[1..] + ":" + b;
      assert [a[0]] + a[1..] == a;
    }
  }

  /** A text with no colon is one piece. */
  lemma {:induction false} SplitNoColon(a: string)
    requires ':' !in a
    ensures Split(a) == [a]
  {
    if a != [] {
      SplitNoColon(a[1..]);
      assert [a[0]] + a[1..] == a;
    }
  }

  /** The hours, minutes and seconds a display holds. */
  datatype Clock = Clock(h: nat, m: nat, s: nat)

  function Seconds(t: Clock): nat
  {
    t.h * 3600 + t.m * 60 + t.s
  }

  /** Minutes and seconds below sixty. */
  predicate Normal(t: Clock)
  {
    t.m <= 59 && t.s <= 59
  }

  /** A display `parts` can be read from: at least three pieces, the first three all digits. */
  predicate WellFormed(text: string)
  {
    var f := Split(text);
    |f| >= 3 && IsDigits(f[0]) && IsDigits(f[1]) && IsDigits(f[2])
  }

  /** `prev.split(':').map(Number)` and `let [h, m, s] = parts`. */
  function Parse(text: string): Clock
    requires WellFormed(text)
  {
    var f := Split(text);
    Clock(DigitsValue(f[0]), DigitsValue(f[1]), DigitsValue(f[2]))
  }

  /** `[h, m, s].map(pad).join(':')`. */
  function Format(t: Clock): string
  {
    Field(t.h) + ":" + Field(t.m) + ":" + Field(t.s)
  }

  /** What the tick writes reads back as the clock it wrote. */
  lemma FormatParses(t: Clock)
    ensures WellFormed(Format(t)) && Parse(Format(t)) == t
  {
    var a, b, c := Field(t.h), Field(t.m), Field(t.s);
    SplitNoColon(c);
    SplitAtColon(b, c);
    SplitAtColon(a, b + ":" + c);
    assert Format(t) == a + ":" + (b + ":" + c);
    assert Split(Format(t)) == [a, b, c];
  }

  /** Every field of a formatted display has at least two digits; the zero clock is '00:00:00'. */
  lemma FormatZero()
    ensures Format(Clock(0, 0, 0)) == "00:00:00"
  {
  }

  /**
   * One second less, borrowing from the minutes and then the hours (hooks/useTimer.ts:14-16):
   * a positive total goes down by exactly one second, zero stays zero, a digit that needs no
   * borrow leaves the fields above it alone, and minutes and seconds stay below sixty.
   */
  function Borrow(t: Clock): (r: Clock)
    ensures Seconds(t) > 0 ==> Seconds(r) == Seconds(t) - 1
    ensures Seconds(t) == 0 ==> r == t
    ensures t.s > 0 ==> r.h == t.h && r.m == t.m
    ensures t.s == 0 && t.m > 0 ==> r.h == t.h && r.s == 59
    ensures Normal(t) ==> Normal(r)
  {
    if t.s > 0 then Clock(t.h, t.m, t.s - 1)
    else if t.m > 0 then Clock(t.h, t.m - 1, 59)
    else if t.h > 0 then Clock(t.h - 1, 59, 59)
    else t
  }

  /** With minutes and seconds below sixty, the borrow is the clock of one second less. */
  lemma BorrowIsPredecessor(t: Clock, r: Clock)
    requires Normal(t) && Normal(r) && Seconds(t) > 0
    requires Seconds(r) == Seconds(t) - 1
    ensures Borrow(t) == r
  {
    var b := Borrow(t);
    assert Seconds(b) == Seconds(r) && Normal(b);
    assert b.h == r.h by {
      assert b.h * 3600 <= Seconds(b) < b.h * 3600 + 3600;
      assert r.h * 3600 <= Seconds(r) < r.h * 3600 + 3600;
    }
    assert b.m == r.m;
  }

  /** The display a tick leaves (hooks/useTimer.ts:12-23). */
  function TickText(text: string): (r: string)
    requires WellFormed(text)
    ensures WellFormed(r)
    ensures Seconds(Parse(r)) == if Seconds(Parse(text)) > 0 then Seconds(Parse(text)) - 1 else 0
    ensures Seconds(Parse(r)) == 0 ==> r == "00:00:00"
  {
    var t := Borrow(Parse(text));
    FormatParses(t);
    if t == Clock(0, 0, 0) then
      FormatZero();
      "00:00:00"
    else
      Format(t)
  }

  /** What a tick writes, by whether it reaches zero. */
  lemma TickOutcome(text: string)
    requires WellFormed(text)
    ensures Borrow(Parse(text)) == Clock(0, 0, 0) ==> TickText(text) == "00:00:00"
    ensures Borrow(Parse(text)) != Clock(0, 0, 0) ==> TickText(text) == Format(Borrow(Parse(text)))
    ensures Seconds(Parse(TickText(text))) > 0 <==> Borrow(Parse(text)) != Clock(0, 0, 0)
  {
    FormatParses(Borrow(Parse(text)));
  }

  /** `initialTime || '00:00:00'`: an absent or empty start shows zero. */
  function InitialDisplay(initialTime: Option<string>): (r: string)
    requires HasText(initialTime) ==> WellFormed(initialTime.value)
    ensures WellFormed(r)
    ensures !HasText(initialTime) ==> r == "00:00:00" && Parse(r) == Clock(0, 0, 0)
    ensures HasText(initialTime) ==> r == initialTime.value
  {
    FormatParses(Clock(0, 0, 0));
    FormatZero();
    if HasText(initialTime) then initialTime.value else "00:00:00"
  }

  /** One `useTimer` instance: its display and whether its interval is scheduled. */
  class Timer {
    var display: string
    var running: bool

    ghost predicate Valid()
      reads this
    {
      WellFormed(display)
    }

    /** Mounting: the display starts at the initial time, and an interval starts only for a non-empty one. */
    constructor (initialTime: Option<string>)
      requires HasText(initialTime) ==> WellFormed(initialTime.value)
      ensures Valid()
      ensures display == InitialDisplay(initialTime)
      ensures running == HasText(initialTime)
    {
      display := InitialDisplay(initialTime);
      running := HasText(initialTime);
    }

    /**
     * One firing of the interval: the fields are read, lowered with a borrow, and written
     * back padded; a zero result writes '00:00:00' and clears the interval. Without an
     * interval nothing fires.
     */
    method Tick()
      requires Valid()
      modifies this
      ensures Valid()
      ensures !old(running) ==> display == old(display) && !running
      ensures old(running) ==> display == TickText(old(display))
      ensures old(running) ==> (running <==> Seconds(Borrow(Parse(old(display)))) > 0)
    {
      if running {
        ghost var next := Borrow(Parse(display));
        ghost var written := TickText(display);
        TickOutcome(display);
        var before := Parse(display);
        var h, m, s := before.h, before.m, before.s;
        if s > 0 {
          s := s - 1;
        } else if m > 0 {
          m := m - 1;
          s := 59;
        } else if h > 0 {
          h := h - 1;
          m := 59;
          s := 59;
        }
        assert Clock(h, m, s) == next;
        if h == 0 && m == 0 && s == 0 {
          running := false;
          display := "00:00:00";
        } else {
          display := Field(h) + ":" + Field(m) + ":" + Field(s);
        }
        assert display == written;
      }
    }

    /** The effect's cleanup, on unmount: the interval is cleared and the display kept. */
    method Unmount()
      modifies this
      ensures !running && display == old(display)
    {
      running := false;
    }

    /**
     * A new `initialTime`: the old interval is cleared and a new one starts if the new value
     * is non-empty; the display is not reset, so the new interval counts down from it.
     */
    method ChangeInitialTime(initialTime: Option<string>)
      modifies this
      ensures running == HasText(initialTime) && display == old(display)
    {
      running := HasText(initialTime);
    }
  }

  /** A timer started at '00:00:03' shows '00:00:00' after three ticks, and its interval is cleared. */
  method ThreeSecondsRunOut() returns (display: string, running: bool)
    ensures display == "00:00:00" && !running
  {
    FormatParses(Clock(0, 0, 3));
    assert Format(Clock(0, 0, 3)) == "00:00:03";
    var timer := new Timer(Some(Format(Clock(0, 0, 3))));
    timer.Tick();
    FormatParses(Clock(0, 0, 2));
    timer.Tick();
    FormatParses(Clock(0, 0, 1));
    timer.Tick();
    display, running := timer.display, timer.running;
  }

  /** A timer with no initial time shows '00:00:00', and ticks change nothing. */
  method NoInitialTimeStaysZero() returns (display: string)
    ensures display == "00:00:00"
  {
    var timer := new Timer(None);
    timer.Tick();
    timer.Tick();
    display := timer.display;
  }
}
