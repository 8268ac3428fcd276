/**
 * The SpyTerminal bomb: armed with a countdown, defused by the right code,
 * and watched by a countdown loop. The loop runs in its own thread in the
 * program; here each of its checks is one atomic `Tick`, taken at a given
 * number of seconds after the countdown started.
 */
module SpyBomb {
  import opened PyStr

  /** The only code `attempt_defuse` accepts, compared after stripping. */
  const CorrectCode: string := "1-4-1"

  /** What one check of the countdown loop reports. */
  datatype TickOutcome =
    | Idle                        // the countdown is not running
    | TimeLeft(seconds: int)      // "Time left: n sec"
    | DefusedWith(seconds: int)   // "Bomb defused with n sec remaining!"; the loop returns
    | Expired                     // time ran out after the bomb was defused: the loop ends quietly
    | Boom                        // time ran out on a live bomb: the process ends

  /** The observable state of a bomb. */
  datatype BombState = BombState(countdown: int, running: bool, defused: bool, exploded: bool)

  /** `Bomb.attempt_defuse`: whether the code is accepted. */
  predicate Accepts(code: string) {
    Strip(code) == CorrectCode
  }

  /** Whitespace of any kind around the code is ignored: here the unit
      separator and the no-break space. */
  lemma AcceptsPadded()
    ensures Accepts("1-4-1\U{1F}") && Accepts("\U{A0}1-4-1")
  {
    var tail := "1-4-1\U{1F}";
    assert StripLeft(tail) == tail;
    assert tail[..5] == CorrectCode;
    assert StripRight(CorrectCode) == CorrectCode;
    var head := "\U{A0}1-4-1";
    assert head[1..] == CorrectCode;
    assert StripLeft(CorrectCode) == CorrectCode;
  }

  /** The state after a defuse attempt: only an accepted code sets `defused`,
      and nothing clears it. */
  function DefuseState(b: BombState, code: string): (r: BombState)
    ensures r.defused <==> b.defused || Accepts(code)
    ensures r.countdown == b.countdown && r.running == b.running && r.exploded == b.exploded
  {
    b.(defused := b.defused || Accepts(code))
  }

  /** One check of `_run_countdown`, `elapsed` seconds after it started. */
  function TickOutput(b: BombState, elapsed: nat): TickOutcome {
    if !b.running then Idle
    else if elapsed < b.countdown then
      (if b.defused then DefusedWith(b.countdown - elapsed) else TimeLeft(b.countdown - elapsed))
    else if b.defused then Expired
    else Boom
  }

  /** The state after that check: the loop stops once it has seen the bomb
      defused or the time run out, and a live bomb then explodes. */
  function TickState(b: BombState, elapsed: nat): (r: BombState)
    ensures r.defused == b.defused && r.countdown == b.countdown
    ensures r.exploded <==> b.exploded || TickOutput(b, elapsed) == Boom
    ensures TickOutput(b, elapsed) == Boom ==> !b.defused && elapsed >= b.countdown
    ensures r.running ==> TickOutput(b, elapsed) == TimeLeft(b.countdown - elapsed)
  {
    if !b.running then b
    else if elapsed < b.countdown then b.(running := !b.defused)
    else b.(running := false, exploded := b.exploded || !b.defused)
  }

  /** What can happen to a bomb: a defuse attempt from the terminal, or one
      check of the countdown loop. */
  datatype BombEvent = Attempt(code: string) | Check(elapsed: nat)

  /** A run of events; an explosion ends the process, so nothing happens after it. */
  function RunBomb(b: BombState, events: seq<BombEvent>): BombState
    decreases |events|
  {
    if events == [] || b.exploded then b
    else match events[0]
      case Attempt(code) => RunBomb(DefuseState(b, code), events[1..])
      case Check(elapsed) => RunBomb(TickState(b, elapsed), events[1..])
  }

  /** Once defused, a bomb stays defused and never explodes. */
  lemma {:induction false} DefusedNeverExplodes(b: BombState, events: seq<BombEvent>)
    requires b.defused && !b.exploded
    ensures RunBomb(b, events).defused && !RunBomb(b, events).exploded
    decreases |events|
  {
    if events != [] {
      match events[0]
      case Attempt(code) => DefusedNeverExplodes(DefuseState(b, code), events[1..]);
      case Check(elapsed) => DefusedNeverExplodes(TickState(b, elapsed), events[1..]);
    }
  }

  /** Entering the right code before any check has seen the time run out
      saves the bomb, whatever happens afterwards. */
  lemma {:induction false} CodeInTimeSaves(b: BombState, events: seq<BombEvent>, i: nat)
    requires !b.exploded && i < |events| && events[i].Attempt? && Accepts(events[i].code)
    requires forall j :: 0 <= j < i && events[j].Check? ==> events[j].elapsed < b.countdown
    ensures !RunBomb(b, events).exploded
    decreases |events|
  {
    var rest := events[1..];
    if i == 0 {
      DefusedNeverExplodes(DefuseState(b, events[0].code), rest);
    } else {
      forall j | 0 <= j < i - 1 && rest[j].Check?
        ensures rest[j].elapsed < b.countdown
      {
        assert rest[j] == events[j + 1];
      }
      match events[0]
      case Attempt(code) => CodeInTimeSaves(DefuseState(b, code), rest, i - 1);
      case Check(elapsed) => CodeInTimeSaves(TickState(b, elapsed), rest, i - 1);
    }
  }

  /** A bomb that was never armed, or has stopped, explodes only if it already had. */
  lemma {:induction false} StoppedStaysQuiet(b: BombState, events: seq<BombEvent>)
    requires !b.running
    ensures RunBomb(b, events).exploded == b.exploded && !RunBomb(b, events).running
    decreases |events|
  {
    if events != [] && !b.exploded {
      match events[0]
      case Attempt(code) => StoppedStaysQuiet(DefuseState(b, code), events[1..]);
      case Check(elapsed) => StoppedStaysQuiet(TickState(b, elapsed), events[1..]);
    }
  }

  /** `class Bomb`: the countdown is fixed when the bomb is made. */
  class Bomb {
    const countdown: int
    var running: bool
    var defused: bool
    var exploded: bool

    function State(): BombState
      reads this
    {
      BombState(countdown, running, defused, exploded)
    }

    /** A running bomb has not exploded: the explosion ends the countdown loop. */
    predicate Valid()
      reads this
    {
      !(running && exploded)
    }

    constructor(countdown: int)
      ensures State() == BombState(countdown, false, false, false) && Valid()
    {
      this.countdown := countdown;
      running := false;
      defused := false;
      exploded := false;
    }

    /** `start_countdown`: the countdown loop begins. */
    method StartCountdown()
      requires Valid() && !exploded
      modifies this
      ensures State() == old(State()).(running := true) && Valid()
    {
      running := true;
    }

    /** `attempt_defuse`. */
    method AttemptDefuse(code: string) returns (ok: bool)
      requires Valid()
      modifies this
      ensures ok <==> Accepts(code)
      ensures State() == DefuseState(old(State()), code) && Valid()
    {
      if Strip(code) == CorrectCode {
        defused := true;
        ok := true;
      } else {
        ok := false;
      }
    }

    /** One check of `_run_countdown`. */
    method Tick(elapsed: nat) returns (out: TickOutcome)
      requires Valid()
      modifies this
      ensures out == TickOutput(old(State()), elapsed)
      ensures State() == TickState(old(State()), elapsed) && Valid()
    {
      if !running {
        return Idle;
      }
      if elapsed < countdown {
        if defused {
          running := false;
          out := DefusedWith(countdown - elapsed);
        } else {
          out := TimeLeft(countdown - elapsed);
        }
      } else {
        running := false;
        if !defused {
          exploded := true;
          out := Boom;
        } else {
          out := Expired;
        }
      }
    }
  }
}
