/** The window that limits how fast interest may be claimed. */
module ClaimWindow {
  import opened Outcome

  datatype Limits = Limits(windowStart: nat, totalInWindow: nat, maxPerWindow: nat, duration: nat)

  /** `verify_claim_limits` as the program updates it in place. */
  class ClaimLimits {
    var windowStart: nat
    var totalInWindow: nat
    var maxPerWindow: nat
    var duration: nat

    function View(): Limits
      reads this
    {
      Limits(windowStart, totalInWindow, maxPerWindow, duration)
    }

    constructor (start: nat, max: nat, duration: nat)
      ensures View() == Limits(start, 0, max, duration)
    {
      windowStart, totalInWindow, maxPerWindow, this.duration := start, 0, max, duration;
    }

    method VerifyClaimLimits(amount: nat, now: nat) returns (r: Result<()>)
      modifies this
      ensures r.Ok? <==> Verify(old(View()), amount, now).Ok?
      ensures r.Ok? ==> Verify(old(View()), amount, now) == Outcome.Ok(View())
    {
      if windowStart + duration > U32_MAX {
        return Reverted(Overflow);
      }
      if now > windowStart + duration {
        windowStart := now;
        totalInWindow := 0;
      }
      var total :- CheckedAdd(totalInWindow, amount);
      if total > maxPerWindow {
        return Reverted(ClaimLimitExceeded);
      }
      totalInWindow := total;
      return Ok(());
    }
  }

  function Verify(l: Limits, amount: nat, now: nat): Result<Limits> {
    if l.windowStart + l.duration > U32_MAX then Reverted(Overflow)
    else
      var l1 := if now > l.windowStart + l.duration then l.(windowStart := now, totalInWindow := 0) else l;
      var total :- CheckedAdd(l1.totalInWindow, amount);
      if total > l1.maxPerWindow then Reverted(ClaimLimitExceeded) else Ok(l1.(totalInWindow := total))
  }

  datatype Claim = Claim(now: nat, amount: nat)

  /** A refused claim is reverted with everything else in its transaction. */
  function After(l: Limits, c: Claim): Limits {
    match Verify(l, c.amount, c.now)
    case Ok(l1) => l1
    case Reverted(_) => l
  }

  /** The amounts accepted at times from `from` up to `until`. */
  function Accepted(l: Limits, cs: seq<Claim>, from: nat, until: nat): nat
    decreases |cs|
  {
    if cs == [] then 0
    else
      var counted := Verify(l, cs[0].amount, cs[0].now).Ok? && from <= cs[0].now <= until;
      (if counted then cs[0].amount else 0) + Accepted(After(l, cs[0]), cs[1..], from, until)
  }

  predicate InOrder(cs: seq<Claim>) {
    forall i, j :: 0 <= i < j < |cs| ==> cs[i].now <= cs[j].now
  }

  /** How much more an interval that has begun may still take: what is left of a window that began
      before it and one more whole window, or what is left of a window that began inside it. */
  function Room(l: Limits, from: nat): nat
    requires l.totalInWindow <= l.maxPerWindow
  {
    if l.windowStart < from then 2 * l.maxPerWindow - l.totalInWindow else l.maxPerWindow - l.totalInWindow
  }

  predicate Later(l: Limits, cs: seq<Claim>) {
    InOrder(cs) && l.totalInWindow <= l.maxPerWindow && forall i :: 0 <= i < |cs| ==> l.windowStart <= cs[i].now
  }

  lemma LaterOn(l: Limits, cs: seq<Claim>)
    requires cs != [] && Later(l, cs)
    ensures Later(After(l, cs[0]), cs[1..])
    ensures After(l, cs[0]).duration == l.duration && After(l, cs[0]).maxPerWindow == l.maxPerWindow
  {
    var l1 := After(l, cs[0]);
    forall i | 0 <= i < |cs[1..]| ensures l1.windowStart <= cs[1..][i].now {
      assert cs[1..][i] == cs[i + 1];
    }
  }

  lemma {:induction false} InsideInterval(l: Limits, cs: seq<Claim>, from: nat, until: nat)
    requires Later(l, cs) && until <= from + l.duration
    requires forall i :: 0 <= i < |cs| ==> from <= cs[i].now
    ensures Accepted(l, cs, from, until) <= Room(l, from)
    decreases |cs|
  {
    if cs != [] {
      LaterOn(l, cs);
      if cs[0].now <= until {
        InsideInterval(After(l, cs[0]), cs[1..], from, until);
      } else {
        NothingAfter(After(l, cs[0]), cs[1..], from, until);
      }
    }
  }

  lemma {:induction false} NothingAfter(l: Limits, cs: seq<Claim>, from: nat, until: nat)
    requires forall i :: 0 <= i < |cs| ==> cs[i].now > until
    ensures Accepted(l, cs, from, until) == 0
    decreases |cs|
  {
    if cs != [] {
      NothingAfter(After(l, cs[0]), cs[1..], from, until);
    }
  }

  /** With settings left alone, the claims accepted in any interval no longer than the window total
      at most twice the maximum per window. */
  lemma {:induction false} AtMostTwoWindows(l: Limits, cs: seq<Claim>, from: nat, until: nat)
    requires Later(l, cs) && until <= from + l.duration
    ensures Accepted(l, cs, from, until) <= 2 * l.maxPerWindow
    decreases |cs|
  {
    if cs != [] {
      if cs[0].now < from {
        LaterOn(l, cs);
        AtMostTwoWindows(After(l, cs[0]), cs[1..], from, until);
      } else {
        InsideInterval(l, cs, from, until);
      }
    }
  }

  /** Twice is reached: the end of one window and the start of the next. */
  lemma TwoWindowsAreReached(max: nat)
    requires max <= U64_MAX
    ensures Accepted(Limits(0, 0, max, 10), [Claim(10, max), Claim(11, max)], 5, 15) == 2 * max
  {
    var l := Limits(0, 0, max, 10);
    var cs := [Claim(10, max), Claim(11, max)];
    assert cs[1..] == [Claim(11, max)];
    assert After(l, cs[0]) == Limits(0, max, max, 10);
    assert Verify(Limits(0, max, max, 10), max, 11) == Ok(Limits(11, max, max, 10));
    assert Accepted(Limits(0, max, max, 10), cs[1..], 5, 15) == max;
  }

  // ---------- what the window holds ----------

  function AfterAll(l: Limits, cs: seq<Claim>): Limits
    decreases |cs|
  {
    if cs == [] then l else AfterAll(After(l, cs[0]), cs[1..])
  }

  /** What the window a claim falls in already holds: nothing once the window has run out. */
  function Carried(l: Limits, now: nat): nat {
    if now <= l.windowStart + l.duration then l.totalInWindow else 0
  }

  /** A claim is accepted exactly when it fits in its window together with what the window holds, and
      is then added to it; the settings stay. */
  lemma ClaimIsCounted(l: Limits, amount: nat, now: nat)
    requires l.maxPerWindow <= U64_MAX
    ensures Verify(l, amount, now).Ok?
       <==> l.windowStart + l.duration <= U32_MAX && Carried(l, now) + amount <= l.maxPerWindow
    ensures Verify(l, amount, now).Ok? ==>
      var l1 := Verify(l, amount, now).value;
      && l1.totalInWindow == Carried(l, now) + amount
      && l1.windowStart == (if now <= l.windowStart + l.duration then l.windowStart else now)
      && l1.maxPerWindow == l.maxPerWindow && l1.duration == l.duration
  {
  }

  /** A window that has begun later began after the earlier one had run out. */
  lemma {:induction false} WindowsDoNotOverlap(l: Limits, cs: seq<Claim>)
    requires Later(l, cs)
    ensures AfterAll(l, cs).windowStart == l.windowStart || AfterAll(l, cs).windowStart > l.windowStart + l.duration
    ensures AfterAll(l, cs).duration == l.duration && AfterAll(l, cs).maxPerWindow == l.maxPerWindow
    decreases |cs|
  {
    if cs != [] {
      LaterOn(l, cs);
      WindowsDoNotOverlap(After(l, cs[0]), cs[1..]);
    }
  }

  /** The total is what was accepted since the present window began: everything since then, and
      nothing from before, but for what a window that was already open held. */
  lemma {:induction false} TotalIsWhatTheWindowAccepted(l: Limits, cs: seq<Claim>, until: nat)
    requires Later(l, cs) && forall i :: 0 <= i < |cs| ==> cs[i].now <= until
    ensures var end := AfterAll(l, cs);
            && end.totalInWindow
                 == Accepted(l, cs, end.windowStart, until) + (if end.windowStart == l.windowStart then l.totalInWindow else 0)
            && end.totalInWindow <= l.maxPerWindow
    decreases |cs|
  {
    if cs != [] {
      var l1 := After(l, cs[0]);
      LaterOn(l, cs);
      WindowsDoNotOverlap(l1, cs[1..]);
      TotalIsWhatTheWindowAccepted(l1, cs[1..], until);
    }
  }
}
