/** NeuroHack ("The Forgotten Protocol"): a glitch filter over text, three
    missions whose outcomes restore memory, and an ending chosen from how
    much memory was restored. */
module NeuroHack {
  import opened Util

  // ---------------------------------------------------------------- glitch

  /** The characters a glitch may put in. */
  const GlitchSymbols: seq<char> := ['@', '#', '$', '%', '&']

  /** The draws for one character: kept, or replaced by the chosen symbol. */
  datatype Glitch = Keep | Replace(symbol: char)

  predicate GlitchesOk(message: string, draws: seq<Glitch>) {
    |draws| == |message| && forall k :: 0 <= k < |draws| && draws[k].Replace? ==> draws[k].symbol in GlitchSymbols
  }

  /** `glitch_effect`: every character is kept or replaced by one symbol. */
  method GlitchEffect(message: string, draws: seq<Glitch>) returns (glitched: string)
    requires GlitchesOk(message, draws)
    ensures |glitched| == |message|
    ensures forall k :: 0 <= k < |message| ==> glitched[k] == message[k] || glitched[k] in GlitchSymbols
    ensures forall k :: 0 <= k < |message| ==>
      glitched[k] == (match draws[k] case Keep => message[k] case Replace(s) => s)
  {
    glitched := "";
    for i := 0 to |message|
      invariant |glitched| == i
      invariant forall k :: 0 <= k < i ==>
        glitched[k] == (match draws[k] case Keep => message[k] case Replace(s) => s)
    {
      match draws[i] {
        case Replace(s) =>
          glitched := glitched + [s];
        case Keep =>
          glitched := glitched + [message[i]];
      }
    }
  }

  // ---------------------------------------------------------------- voices

  /** The moods `voice_message` has lines for, three lines each. */
  const Moods: set<string> := {"fear", "taunt", "praise", "neutral"}
  const LinesPerMood := 3

  /** A line spoken: the mood whose list it comes from and its index there. */
  datatype Voice = Voice(mood: string, line: nat)

  /** `voice_message(mood)`, for the line drawn, `pick`: an unknown mood
      speaks from the neutral list. */
  function VoiceMessage(mood: string, pick: nat): (v: Voice)
    requires pick < LinesPerMood
    ensures v.mood in Moods && v.line == pick
    ensures v.mood == (if mood in Moods then mood else "neutral")
  {
    if mood in Moods then Voice(mood, pick) else Voice("neutral", pick)
  }

  // ---------------------------------------------------------------- missions

  datatype Mission = Mission(title: string, description: string)

  const Missions: seq<Mission> := [
    Mission("Memory Sector 01", "Locate and restore the lost memory fragments from the inner archives."),
    Mission("Power Override", "Override the system lockdown by rerouting the power grid."),
    Mission("Log Decryption", "Decrypt corrupted logs to unveil hidden truths about your origin.")
  ]

  /** One pass of `run_mission`: declined, succeeded, failed and aborted, or
      failed and retried (the retry being a further pass). */
  datatype Answer = Skip | Success | FailAbort | FailRetry

  /** The passes of one mission: retries, then a pass that is not one. */
  predicate Played(answers: seq<Answer>) {
    |answers| >= 1 && answers[|answers| - 1] != FailRetry
    && forall k :: 0 <= k < |answers| - 1 ==> answers[k] == FailRetry
  }

  /** Whether the mission restored a memory: its last pass succeeded. */
  function Restored(answers: seq<Answer>): (n: nat)
    requires Played(answers)
    ensures n <= 1
    ensures n == 1 <==> Success in answers
  {
    if answers[|answers| - 1] == Success then 1 else 0
  }

  /** Memory restored over several missions. */
  function RestoredAll(plays: seq<seq<Answer>>): (n: nat)
    requires forall k :: 0 <= k < |plays| ==> Played(plays[k])
  {
    if plays == [] then 0 else RestoredAll(plays[..|plays| - 1]) + Restored(plays[|plays| - 1])
  }

  /** Passes over several missions. */
  function PassesAll(plays: seq<seq<Answer>>): nat {
    if plays == [] then 0 else PassesAll(plays[..|plays| - 1]) + |plays[|plays| - 1]|
  }

  /** Each mission restores at most one memory, and takes at least one pass. */
  lemma {:induction false} MissionBounds(plays: seq<seq<Answer>>)
    requires forall k :: 0 <= k < |plays| ==> Played(plays[k])
    ensures RestoredAll(plays) <= |plays| <= PassesAll(plays)
  {
    if plays != [] {
      MissionBounds(plays[..|plays| - 1]);
    }
  }

  /** `decide_ending`. */
  function Ending(memory: int): (e: string)
    ensures e == "liberation" || e == "reset"
    ensures e == "liberation" <==> memory >= 2
  {
    if memory >= 2 then "liberation" else "reset"
  }

  /** The state of `ForgottenProtocolGame`. */
  class Protocol {
    var missionNumber: int
    var memoryRestored: int
    var ending: Option<string>

    constructor()
      ensures missionNumber == 0 && memoryRestored == 0 && ending == None
    {
      missionNumber := 0;
      memoryRestored := 0;
      ending := None;
    }

    /** `run_mission`: every pass counts as a mission run, a retry being a
        call of its own; only a success restores memory. */
    method RunMission(mission: Mission, answers: seq<Answer>)
      requires Played(answers)
      modifies this
      ensures missionNumber == old(missionNumber) + |answers|
      ensures memoryRestored == old(memoryRestored) + Restored(answers)
      ensures ending == old(ending)
      decreases |answers|
    {
      missionNumber := missionNumber + 1;
      match answers[0] {
        case Skip =>
        case Success =>
          memoryRestored := memoryRestored + 1;
        case FailAbort =>
        case FailRetry =>
          RunMission(mission, answers[1..]);
      }
    }

    /** `decide_ending`. */
    method DecideEnding()
      modifies this
      ensures ending == Some(Ending(memoryRestored))
      ensures missionNumber == old(missionNumber) && memoryRestored == old(memoryRestored)
    {
      if memoryRestored >= 2 {
        ending := Some("liberation");
      } else {
        ending := Some("reset");
      }
    }

    /** `run`: the three missions in order, then the ending. */
    method Run(plays: seq<seq<Answer>>)
      requires |plays| == |Missions| && forall k :: 0 <= k < |plays| ==> Played(plays[k])
      requires missionNumber == 0 && memoryRestored == 0
      modifies this
      ensures missionNumber == PassesAll(plays) && memoryRestored == RestoredAll(plays)
      ensures ending == Some(Ending(RestoredAll(plays)))
    {
      for i := 0 to |Missions|
        invariant missionNumber == PassesAll(plays[..i]) && memoryRestored == RestoredAll(plays[..i])
      {
        assert plays[..i + 1][..i] == plays[..i];
        RunMission(Missions[i], plays[i]);
      }
      assert plays[..|Missions|] == plays;
      DecideEnding();
    }
  }

  /** Over the three missions, the memory restored is the sum of theirs. */
  lemma RestoredThree(plays: seq<seq<Answer>>)
    requires |plays| == 3 && forall k :: 0 <= k < |plays| ==> Played(plays[k])
    ensures RestoredAll(plays) == Restored(plays[0]) + Restored(plays[1]) + Restored(plays[2])
  {
    var two := plays[..2];
    assert two[..1] == plays[..1];
    var one := plays[..1];
    assert one[..0] == [];
    assert RestoredAll(one) == Restored(plays[0]);
    assert RestoredAll(two) == RestoredAll(one) + Restored(plays[1]);
  }

  /** After `run`, the memory restored is at most three, and liberation
      needs two missions that ended in success. */
  lemma RunBounds(plays: seq<seq<Answer>>)
    requires |plays| == |Missions| && forall k :: 0 <= k < |plays| ==> Played(plays[k])
    ensures RestoredAll(plays) <= 3 && PassesAll(plays) >= 3
    ensures Ending(RestoredAll(plays)) == "liberation" ==>
      exists i, j :: 0 <= i < j < |plays| && Success in plays[i] && Success in plays[j]
  {
    MissionBounds(plays);
    if Ending(RestoredAll(plays)) == "liberation" {
      RestoredThree(plays);
      if Restored(plays[0]) == 1 && Restored(plays[1]) == 1 {
        assert Success in plays[0] && Success in plays[1];
      } else if Restored(plays[0]) == 1 {
        assert Success in plays[0] && Success in plays[2];
      } else {
        assert Success in plays[1] && Success in plays[2];
      }
    }
  }
}
