/**
 * The SpyTerminal session: the command interpreter over the virtual file
 * system, with its working directory, command history, three one-shot story
 * flags and at most one bomb.
 *
 * The first half states each command as a function on an abstract
 * `GameState`, with the properties the game relies on proved as lemmas; the
 * second half is the `Game` class, whose methods change its fields step by
 * step and are proved to agree with those functions.
 */
module SpyTerminal {
  import opened Util
  import opened PyStr
  import opened SpyFs
  import opened SpyBomb

  /** The keys of `story_state`: "mission_started", "intel_acquired" and "bomb_engaged". */
  datatype Milestone = MissionStarted | IntelAcquired | BombEngaged

  /** `story_state` when a session starts. */
  const InitialStory: map<Milestone, bool> := map[MissionStarted := false, IntelAcquired := false, BombEngaged := false]

  /** What a command prints, one tag per printed message. */
  datatype Msg =
    | Help
    | Listing(entries: seq<string>)
    | DirectoryNotFound
    | CdUsage
    | AlreadyAtRoot
    | NoSuchDirectory(dir: string)
    | NewMission
    | BombModuleHint
    | CatUsage
    | Content(text: string)
    | IntelFound
    | NoSuchFile(file: string)
    | GrepUsage
    | Line(line: string)
    | NoMatches
    | HistoryEntry(index: nat, command: string)
    | BombActivated
    | AlreadyArmed
    | ArmOutsideModule
    | NoBomb
    | DefuseUsage
    | Defused
    | IncorrectCode
    | Status(missionStarted: bool, intelAcquired: bool, bombEngaged: bool)
    | Goodbye
    | UnknownCommand(cmd: string)
    | Timer(outcome: TickOutcome)

  /** The session state the commands read and write. */
  datatype GameState = GameState(
    fs: FSNode,
    cwd: seq<string>,
    history: seq<string>,
    story: map<Milestone, bool>,
    bomb: Option<BombState>,
    gameOver: bool)

  /** A new state and what was printed on the way. */
  datatype Next = Next(state: GameState, out: seq<Msg>)

  /** `n`, with `printed` printed before it. */
  function After(printed: seq<Msg>, n: Next): Next {
    Next(n.state, printed + n.out)
  }

  lemma AfterNothing(n: Next)
    ensures After([], n) == n
  {
    assert [] + n.out == n.out;
  }

  lemma AfterAfter(a: seq<Msg>, b: seq<Msg>, n: Next)
    ensures After(a, After(b, n)) == After(a + b, n)
  {
    assert a + (b + n.out) == (a + b) + n.out;
  }

  const Initial: GameState := GameState(PopulateFs(), [], [], InitialStory, None, false)

  /** A story flag is set. */
  predicate Flag(g: GameState, key: Milestone) {
    key in g.story && g.story[key]
  }

  /** What every reachable state satisfies: the working directory names a
      directory, the flags are exactly the three keys, a bomb exists exactly
      when `bomb_engaged` is set, its countdown is in [20, 30], and an
      explosion has ended the session. */
  predicate GameValid(g: GameState) {
    g.fs.Dir?
    && IsDir(GetNode(g.fs, g.cwd))
    && g.story.Keys == InitialStory.Keys
    && (g.bomb.Some? <==> g.story[BombEngaged])
    && (g.bomb.Some? ==>
          20 <= g.bomb.value.countdown <= 30
          && !(g.bomb.value.running && g.bomb.value.exploded)
          && (g.bomb.value.exploded ==> g.gameOver))
  }

  /** Set flags stay set, and no flag appears or disappears. */
  predicate FlagsGrow(g: GameState, h: GameState) {
    h.story.Keys == g.story.Keys && forall k :: k in g.story && g.story[k] ==> Flag(h, k)
  }

  /** An armed bomb stays the same bomb: its countdown is kept, and once
      defused it stays defused and cannot explode. */
  predicate BombKept(g: GameState, h: GameState) {
    g.bomb.Some? ==>
      h.bomb.Some? && h.bomb.value.countdown == g.bomb.value.countdown
      && (g.bomb.value.defused ==> h.bomb.value.defused && h.bomb.value.exploded == g.bomb.value.exploded)
  }

  // ---------------------------------------------------------------- ls

  function Entry(c: FSNode): string {
    if c.Dir? then c.name + "/" else c.name
  }

  /** The `ls` listing of some children, in insertion order, directories marked. */
  function Entries(cs: seq<FSNode>): (r: seq<string>)
    ensures |r| == |cs|
  {
    seq(|cs|, k requires 0 <= k < |cs| => Entry(cs[k]))
  }

  /** `cmd_ls`. */
  function LsOutput(g: GameState): seq<Msg> {
    var node := GetNode(g.fs, g.cwd);
    if IsDir(node) then [Listing(Entries(node.value.children))] else [DirectoryNotFound]
  }

  /** Without the directory marks, the listing is the names of the children in order. */
  lemma {:induction false} EntriesNames(cs: seq<FSNode>)
    ensures forall k :: 0 <= k < |cs| ==>
      Entries(cs)[k] == Names(cs)[k] + (if cs[k].Dir? then "/" else "")
    decreases |cs|
  {
    if cs != [] {
      EntriesNames(cs[1..]);
      forall k | 0 <= k < |cs|
        ensures Entries(cs)[k] == Names(cs)[k] + (if cs[k].Dir? then "/" else "")
      {
        if k > 0 {
          assert Entries(cs)[k] == Entries(cs[1..])[k - 1];
          assert Names(cs)[k] == Names(cs[1..])[k - 1];
        }
      }
    }
  }

  // ---------------------------------------------------------------- cd

  /** `"/".join(path)` is a slash-free name exactly when the path is that one name. */
  lemma JoinIsSingle(path: seq<string>, name: string)
    requires |path| >= 1 && Free(name, '/')
    ensures JoinWith(path, '/') == name <==> path == [name]
  {
    if |path| >= 2 {
      var j := JoinWith(path, '/');
      JoinWithCons(path[0], path[1..], '/');
      assert [path[0]] + path[1..] == path;
      assert j[|path[0]|] == '/';
    }
  }

  /** `check_story_progress` after entering `path`: the first entry into the
      top-level `missions` starts the mission, and entering the top-level
      `bomb_module` prints a hint. */
  function StoryProgress(g: GameState, path: seq<string>): (r: Next)
    requires |path| >= 1 && MissionStarted in g.story
    ensures r.state == g.(story := g.story[MissionStarted := g.story[MissionStarted] || path == ["missions"]])
    ensures r.out == (if path == ["missions"] && !g.story[MissionStarted] then [NewMission] else [])
                     + (if path == ["bomb_module"] then [BombModuleHint] else [])
  {
    var joined := JoinWith(path, '/');
    JoinIsSingle(path, "missions");
    JoinIsSingle(path, "bomb_module");
    var starts := joined == "missions" && !g.story[MissionStarted];
    var g1 := if starts then g.(story := g.story[MissionStarted := true]) else g;
    Next(g1, (if starts then [NewMission] else []) + (if joined == "bomb_module" then [BombModuleHint] else []))
  }

  /** `cd ..` below the root: the parent of a directory is a directory. */
  function CdUp(g: GameState): (r: Next)
    requires GameValid(g) && g.cwd != []
    ensures GameValid(r.state) && r == Next(g.(cwd := g.cwd[..|g.cwd| - 1]), [])
  {
    var parent := g.cwd[..|g.cwd| - 1];
    assert g.cwd == parent + [g.cwd[|g.cwd| - 1]];
    GetNodeParent(g.fs, parent, g.cwd[|g.cwd| - 1]);
    Next(g.(cwd := parent), [])
  }

  /** `cd name` for a name other than "..": only an existing directory is entered. */
  function CdInto(g: GameState, name: string): (r: Next)
    requires GameValid(g)
    ensures GameValid(r.state) && FlagsGrow(g, r.state)
    ensures r.state.(cwd := g.cwd, story := g.story) == g
    ensures r.state.cwd == (if IsDir(GetNode(g.fs, g.cwd + [name])) then g.cwd + [name] else g.cwd)
  {
    var path := g.cwd + [name];
    if IsDir(GetNode(g.fs, path)) then StoryProgress(g.(cwd := path), path)
    else Next(g, [NoSuchDirectory(name)])
  }

  /** `cmd_cd`. */
  function Cd(g: GameState, args: seq<string>): (r: Next)
    requires GameValid(g)
    ensures GameValid(r.state) && FlagsGrow(g, r.state)
    ensures r.state.(cwd := g.cwd, story := g.story) == g
    ensures r.state.cwd == g.cwd
         || (|g.cwd| >= 1 && r.state.cwd == g.cwd[..|g.cwd| - 1])
         || (args != [] && r.state.cwd == g.cwd + [args[0]])
    ensures args == [] ==> r == Next(g, [CdUsage])
    ensures args != [] && args[0] == ".." && g.cwd == [] ==> r == Next(g, [AlreadyAtRoot])
    ensures args != [] && args[0] == ".." && g.cwd != [] ==> r == Next(g.(cwd := g.cwd[..|g.cwd| - 1]), [])
    ensures args != [] && args[0] != ".." ==>
      (r.state.cwd == g.cwd + [args[0]] <==> IsDir(GetNode(g.fs, g.cwd + [args[0]])))
  {
    if args == [] then Next(g, [CdUsage])
    else if args[0] == ".." then
      if g.cwd == [] then Next(g, [AlreadyAtRoot]) else CdUp(g)
    else CdInto(g, args[0])
  }

  // ---------------------------------------------------------------- cat

  /** `cmd_cat`: the first read of `classified.txt` acquires the intel. */
  function Cat(g: GameState, args: seq<string>): (r: Next)
    requires GameValid(g)
    ensures GameValid(r.state) && FlagsGrow(g, r.state)
    ensures r.state.(story := g.story) == g
    ensures Flag(r.state, IntelAcquired) <==>
      Flag(g, IntelAcquired) || (args != [] && args[0] == "classified.txt" && IsFile(GetNode(g.fs, g.cwd + args[..1])))
    ensures args != [] && !IsFile(GetNode(g.fs, g.cwd + [args[0]])) ==> r == Next(g, [NoSuchFile(args[0])])
  {
    if args == [] then Next(g, [CatUsage])
    else
      assert args[..1] == [args[0]];
      var node := GetNode(g.fs, g.cwd + [args[0]]);
      if IsFile(node) then
        if args[0] == "classified.txt" && !g.story[IntelAcquired] then
          Next(g.(story := g.story[IntelAcquired := true]), [Content(node.value.content), IntelFound])
        else Next(g, [Content(node.value.content)])
      else Next(g, [NoSuchFile(args[0])])
  }

  // ---------------------------------------------------------------- grep

  /** The lines that contain `pattern`, in their original order. */
  function Matching(lines: seq<string>, pattern: string): seq<string>
    decreases |lines|
  {
    if lines == [] then []
    else
      var last := lines[|lines| - 1];
      Matching(lines[..|lines| - 1], pattern) + (if Contains(last, pattern) then [last] else [])
  }

  /** Every kept line contains the pattern and is one of the lines. */
  lemma {:induction false} MatchingSound(lines: seq<string>, pattern: string)
    ensures forall l :: l in Matching(lines, pattern) ==> Contains(l, pattern) && l in lines
    decreases |lines|
  {
    if lines != [] {
      var init := lines[..|lines| - 1];
      MatchingSound(init, pattern);
      assert forall l :: l in init ==> l in lines;
    }
  }

  /** Every line that contains the pattern is kept. */
  lemma {:induction false} MatchingComplete(lines: seq<string>, pattern: string)
    ensures forall k :: 0 <= k < |lines| && Contains(lines[k], pattern) ==> lines[k] in Matching(lines, pattern)
    decreases |lines|
  {
    if lines != [] {
      var init := lines[..|lines| - 1];
      MatchingComplete(init, pattern);
      forall k | 0 <= k < |lines| - 1
        ensures lines[k] == init[k]
      {
      }
    }
  }

  /** `Matching` keeps exactly the lines that contain the pattern, so
      nothing is kept exactly when no line contains it ("No matches found."). */
  lemma MatchingExact(lines: seq<string>, pattern: string)
    ensures forall l :: l in Matching(lines, pattern) ==> Contains(l, pattern) && l in lines
    ensures forall k :: 0 <= k < |lines| && Contains(lines[k], pattern) ==> lines[k] in Matching(lines, pattern)
    ensures Matching(lines, pattern) == [] <==> forall k :: 0 <= k < |lines| ==> !Contains(lines[k], pattern)
  {
    MatchingSound(lines, pattern);
    MatchingComplete(lines, pattern);
    var m := Matching(lines, pattern);
    if m != [] {
      assert m[0] in m;
      var k :| 0 <= k < |lines| && lines[k] == m[0];
    }
  }

  /** One printed line per match. */
  function AsLines(ls: seq<string>): (r: seq<Msg>)
    ensures |r| == |ls| && forall k :: 0 <= k < |ls| ==> r[k] == Line(ls[k])
  {
    seq(|ls|, k requires 0 <= k < |ls| => Line(ls[k]))
  }

  /** `cmd_grep`. */
  function GrepOutput(g: GameState, args: seq<string>): seq<Msg> {
    if |args| < 2 then [GrepUsage]
    else
      var node := GetNode(g.fs, g.cwd + [args[1]]);
      if IsFile(node) then
        var found := Matching(Lines(node.value.content), args[0]);
        if found == [] then [NoMatches] else AsLines(found)
      else [NoSuchFile(args[1])]
  }

  // ---------------------------------------------------------------- history

  /** `cmd_history`: the entries numbered from 1, verbatim. */
  function HistoryOutput(h: seq<string>): (r: seq<Msg>)
    ensures |r| == |h| && forall k :: 0 <= k < |h| ==> r[k] == HistoryEntry(k + 1, h[k])
  {
    seq(|h|, k requires 0 <= k < |h| => HistoryEntry(k + 1, h[k]))
  }

  // ---------------------------------------------------------------- the bomb

  /** `cmd_arm_bomb` with `draw` standing for `random.randint(0, 10)`. */
  function ArmBomb(g: GameState, draw: int): (r: Next)
    requires GameValid(g) && 0 <= draw <= 10
    ensures GameValid(r.state) && FlagsGrow(g, r.state) && BombKept(g, r.state)
    ensures r.state.cwd == g.cwd && r.state.history == g.history && r.state.gameOver == g.gameOver
    ensures r.state.bomb != g.bomb <==> g.cwd != [] && g.cwd[|g.cwd| - 1] == "bomb_module" && g.bomb.None?
    ensures r.state.bomb != g.bomb ==>
      r.state.bomb == Some(BombState(20 + draw, true, false, false)) && Flag(r.state, BombEngaged)
    ensures r.state.bomb == g.bomb ==> r.state == g
  {
    if g.cwd != [] && g.cwd[|g.cwd| - 1] == "bomb_module" then
      if g.bomb.None? then
        Next(g.(bomb := Some(BombState(20 + draw, true, false, false)), story := g.story[BombEngaged := true]),
             [BombActivated])
      else Next(g, [AlreadyArmed])
    else Next(g, [ArmOutsideModule])
  }

  /** `cmd_defuse`. */
  function Defuse(g: GameState, args: seq<string>): (r: Next)
    requires GameValid(g)
    ensures GameValid(r.state) && FlagsGrow(g, r.state) && BombKept(g, r.state)
    ensures r.state.(bomb := g.bomb) == g
    ensures g.bomb.None? ==> r == Next(g, [NoBomb])
    ensures g.bomb.Some? ==>
      (r.state.bomb.value.defused <==> g.bomb.value.defused || (args != [] && Accepts(args[0])))
  {
    if g.bomb.None? then Next(g, [NoBomb])
    else if args == [] then Next(g, [DefuseUsage])
    else
      var b := DefuseState(g.bomb.value, args[0]);
      Next(g.(bomb := Some(b)), [if Accepts(args[0]) then Defused else IncorrectCode])
  }

  function StoryOutput(g: GameState): seq<Msg> {
    [Status(Flag(g, MissionStarted), Flag(g, IntelAcquired), Flag(g, BombEngaged))]
  }

  // ---------------------------------------------------------------- dispatch

  /** The commands that can change the session state; every other command,
      known or not, only prints. */
  const Changing: set<string> := {"cd", "cat", "arm_bomb", "defuse", "exit"}

  /** A piece whose first word is `exit`. */
  predicate IsExit(piece: string) {
    var parts := Words(Strip(piece));
    parts != [] && parts[0] == "exit"
  }

  /** `execute_command` on one stripped piece of a line. */
  function Exec(g: GameState, cmd: string, draw: int): (r: Next)
    requires GameValid(g) && 0 <= draw <= 10
    ensures GameValid(r.state) && FlagsGrow(g, r.state) && BombKept(g, r.state)
    ensures r.state.history == g.history
    ensures g.gameOver ==> r.state.gameOver
    ensures Words(cmd) != [] && Words(cmd)[0] == "exit" ==> r == Next(g.(gameOver := true), [Goodbye])
    ensures Words(cmd) == [] || Words(cmd)[0] !in Changing ==> r.state == g
    ensures Words(cmd) != [] && Words(cmd)[0] !in Changing + {"help", "ls", "grep", "history", "story"} ==>
      r.out == [UnknownCommand(cmd)]
  {
    var parts := Words(cmd);
    if parts == [] then Next(g, [])
    else
      var command := parts[0];
      var args := parts[1..];
      if command == "help" then Next(g, [Help])
      else if command == "ls" then Next(g, LsOutput(g))
      else if command == "cd" then Cd(g, args)
      else if command == "cat" then Cat(g, args)
      else if command == "grep" then Next(g, GrepOutput(g, args))
      else if command == "history" then Next(g, HistoryOutput(g.history))
      else if command == "arm_bomb" then ArmBomb(g, draw)
      else if command == "defuse" then Defuse(g, args)
      else if command == "story" then Next(g, StoryOutput(g))
      else if command == "exit" then Next(g.(gameOver := true), [Goodbye])
      else Next(g, [UnknownCommand(cmd)])
  }

  /** `handle_command` after the split on '|': every piece runs, in order and
      stripped, even after an `exit` among them. */
  function HandlePieces(g: GameState, pieces: seq<string>, draw: int): (r: Next)
    requires GameValid(g) && 0 <= draw <= 10
    ensures GameValid(r.state) && FlagsGrow(g, r.state) && BombKept(g, r.state)
    ensures r.state.history == g.history
    ensures g.gameOver ==> r.state.gameOver
    ensures (exists k :: 0 <= k < |pieces| && IsExit(pieces[k])) ==> r.state.gameOver
    decreases |pieces|
  {
    if pieces == [] then Next(g, [])
    else
      var first := Exec(g, Strip(pieces[0]), draw);
      var rest := HandlePieces(first.state, pieces[1..], draw);
      assert (exists k :: 0 <= k < |pieces| && IsExit(pieces[k])) ==>
        IsExit(pieces[0]) || exists k :: 0 <= k < |pieces[1..]| && IsExit(pieces[1..][k]) by {
        if exists k :: 0 <= k < |pieces| && IsExit(pieces[k]) {
          var k :| 0 <= k < |pieces| && IsExit(pieces[k]);
          if k > 0 {
            assert pieces[1..][k - 1] == pieces[k];
          }
        }
      }
      After(first.out, rest)
  }

  /** One turn of the `run` loop: the stripped line, when not empty, is
      recorded once and then handled. After the game is over the loop has
      ended and input changes nothing. */
  function RunLine(g: GameState, raw: string, draw: int): (r: Next)
    requires GameValid(g) && 0 <= draw <= 10
    ensures GameValid(r.state) && FlagsGrow(g, r.state) && BombKept(g, r.state)
  {
    if g.gameOver then Next(g, [])
    else
      var line := Strip(raw);
      if line == [] then Next(g, [])
      else HandlePieces(g.(history := g.history + [line]), SplitOn(line, '|'), draw)
  }

  /** Each line read while the game runs adds exactly its stripped, non-empty
      form to the history, and nothing else ever does. */
  lemma RunLineHistory(g: GameState, raw: string, draw: int)
    requires GameValid(g) && 0 <= draw <= 10
    ensures RunLine(g, raw, draw).state.history ==
      g.history + (if g.gameOver || Strip(raw) == [] then [] else [Strip(raw)])
  {
  }

  /** What one check prints: nothing when no countdown runs or when it ends
      quietly after a defusal. */
  function TickMsgs(outcome: TickOutcome): (r: seq<Msg>)
    ensures r == [] <==> outcome == Idle || outcome == Expired
    ensures r != [] ==> r == [Timer(outcome)]
  {
    if outcome == Idle || outcome == Expired then [] else [Timer(outcome)]
  }

  /** One check of the countdown loop; an explosion ends the session. */
  function TimerTick(g: GameState, elapsed: nat): (r: Next)
    requires GameValid(g)
    ensures GameValid(r.state) && FlagsGrow(g, r.state) && BombKept(g, r.state)
    ensures r.state.(bomb := g.bomb, gameOver := g.gameOver) == g
    ensures r.state.gameOver <==> g.gameOver || r.out == [Timer(Boom)]
  {
    if g.bomb.None? then Next(g, [])
    else
      var b := g.bomb.value;
      var outcome := TickOutput(b, elapsed);
      Next(g.(bomb := Some(TickState(b, elapsed)), gameOver := g.gameOver || outcome == Boom), TickMsgs(outcome))
  }

  // ---------------------------------------------------------------- a session

  /** What a session sees: a typed line (with the draw an `arm_bomb` in it
      would use), or one check of the countdown loop. */
  datatype Input = Typed(text: string, draw: int) | Elapsed(seconds: nat)

  predicate DrawsInRange(inputs: seq<Input>) {
    forall k :: 0 <= k < |inputs| && inputs[k].Typed? ==> 0 <= inputs[k].draw <= 10
  }

  /** A session from state `g`: typed lines are read until the game is over;
      the countdown loop runs in its own thread and keeps checking after
      `exit`; an explosion ends the process and everything with it. */
  /** One input of a session. */
  function Feed(g: GameState, input: Input): (r: Next)
    requires GameValid(g) && (input.Typed? ==> 0 <= input.draw <= 10)
    ensures GameValid(r.state) && FlagsGrow(g, r.state) && BombKept(g, r.state)
  {
    match input
    case Typed(text, draw) => RunLine(g, text, draw)
    case Elapsed(seconds) => TimerTick(g, seconds)
  }

  function RunSession(g: GameState, inputs: seq<Input>): (r: Next)
    requires GameValid(g) && DrawsInRange(inputs)
    ensures GameValid(r.state)
    decreases |inputs|
  {
    if inputs == [] || (g.bomb.Some? && g.bomb.value.exploded) then Next(g, [])
    else
      var first := Feed(g, inputs[0]);
      After(first.out, RunSession(first.state, inputs[1..]))
  }

  /** Over a whole session the story flags only go from unset to set and the
      bomb, once armed, keeps its countdown and its defusal. */
  lemma {:induction false} SessionMonotone(g: GameState, inputs: seq<Input>)
    requires GameValid(g) && DrawsInRange(inputs)
    ensures FlagsGrow(g, RunSession(g, inputs).state)
    ensures BombKept(g, RunSession(g, inputs).state)
    decreases |inputs|
  {
    if inputs != [] && !(g.bomb.Some? && g.bomb.value.exploded) {
      var first := Feed(g, inputs[0]);
      SessionMonotone(first.state, inputs[1..]);
    }
  }

  /** `h` is `h0` followed by non-empty stripped lines. */
  predicate Extended(h0: seq<string>, h: seq<string>) {
    |h0| <= |h| && h[..|h0|] == h0
    && forall k :: |h0| <= k < |h| ==> h[k] != [] && Strip(h[k]) == h[k]
  }

  lemma ExtendedTrans(h0: seq<string>, h1: seq<string>, h2: seq<string>)
    requires Extended(h0, h1) && Extended(h1, h2)
    ensures Extended(h0, h2)
  {
    assert h2[..|h0|] == h2[..|h1|][..|h0|];
    forall k | |h0| <= k < |h2|
      ensures h2[k] != [] && Strip(h2[k]) == h2[k]
    {
      if k < |h1| {
        assert h2[k] == h2[..|h1|][k];
      }
    }
  }

  /** A line read while the game runs extends the history by at most one
      non-empty stripped line. */
  lemma RunLineExtends(g: GameState, raw: string, draw: int)
    requires GameValid(g) && 0 <= draw <= 10
    ensures Extended(g.history, RunLine(g, raw, draw).state.history)
  {
    RunLineHistory(g, raw, draw);
    var h := RunLine(g, raw, draw).state.history;
    assert h[..|g.history|] == g.history;
    if !g.gameOver && Strip(raw) != [] {
      StripIdempotent(raw);
    }
  }

  /** One input extends the history by at most one non-empty stripped line. */
  lemma FeedExtends(g: GameState, input: Input)
    requires GameValid(g) && (input.Typed? ==> 0 <= input.draw <= 10)
    ensures Extended(g.history, Feed(g, input).state.history)
  {
    match input {
      case Typed(text, draw) => RunLineExtends(g, text, draw);
      case Elapsed(seconds) => assert g.history[..|g.history|] == g.history;
    }
  }

  /** The history only grows, and every entry added is a non-empty stripped line. */
  lemma {:induction false} SessionHistory(g: GameState, inputs: seq<Input>)
    requires GameValid(g) && DrawsInRange(inputs)
    ensures Extended(g.history, RunSession(g, inputs).state.history)
    decreases |inputs|
  {
    if inputs != [] && !(g.bomb.Some? && g.bomb.value.exploded) {
      var first := Feed(g, inputs[0]);
      FeedExtends(g, inputs[0]);
      SessionHistory(first.state, inputs[1..]);
      ExtendedTrans(g.history, first.state.history, RunSession(g, inputs).state.history);
    } else {
      assert g.history[..|g.history|] == g.history;
    }
  }

  /** After `exit`, typed lines change nothing: only the countdown goes on. */
  lemma {:induction false} OverMeansIgnored(g: GameState, inputs: seq<Input>)
    requires GameValid(g) && DrawsInRange(inputs) && g.gameOver
    ensures var h := RunSession(g, inputs).state;
      h.cwd == g.cwd && h.history == g.history && h.story == g.story && h.gameOver
    decreases |inputs|
  {
    if inputs != [] && !(g.bomb.Some? && g.bomb.value.exploded) {
      var first := Feed(g, inputs[0]);
      OverMeansIgnored(first.state, inputs[1..]);
    }
  }

  /** A defused bomb never goes off, whatever follows. */
  lemma {:induction false} DefusedSessionSafe(g: GameState, inputs: seq<Input>)
    requires GameValid(g) && DrawsInRange(inputs)
    requires g.bomb.Some? && g.bomb.value.defused && !g.bomb.value.exploded
    ensures var h := RunSession(g, inputs).state;
      h.bomb.Some? && h.bomb.value.defused && !h.bomb.value.exploded
    decreases |inputs|
  {
    if inputs != [] {
      var first := Feed(g, inputs[0]);
      DefusedSessionSafe(first.state, inputs[1..]);
    }
  }

  // ---------------------------------------------------------------- the session object

  /** `SpyTerminalGame`: the session's fields, changed in place by its commands. */
  class Game {
    const fs: FSNode
    var cwd: seq<string>
    var history: seq<string>
    var storyState: map<Milestone, bool>
    var bomb: Bomb?
    var gameOver: bool

    /** The abstract state the fields and the bomb stand for. */
    function State(): GameState
      reads this, bomb
    {
      GameState(fs, cwd, history, storyState, if bomb == null then None else Some(bomb.State()), gameOver)
    }

    predicate Valid()
      reads this, bomb
    {
      GameValid(State())
    }

    constructor()
      ensures State() == Initial && Valid()
    {
      fs := PopulateFs();
      cwd := [];
      history := [];
      storyState := InitialStory;
      bomb := null;
      gameOver := false;
    }

    /** One turn of the `run` loop on the line the user typed. */
    method Step(raw: string, draw: int) returns (out: seq<Msg>)
      requires Valid() && 0 <= draw <= 10
      modifies this, bomb
      ensures Next(State(), out) == RunLine(old(State()), raw, draw) && Valid()
      ensures bomb == old(bomb) || (bomb != null && fresh(bomb))
    {
      if gameOver {
        return [];
      }
      var userInput := Strip(raw);
      if userInput == [] {
        return [];
      }
      history := history + [userInput];
      out := HandleCommand(userInput, draw);
    }

    /** `handle_command`: the line is split on '|'. */
    method HandleCommand(commandLine: string, draw: int) returns (out: seq<Msg>)
      requires Valid() && 0 <= draw <= 10
      modifies this, bomb
      ensures Next(State(), out) == HandlePieces(old(State()), SplitOn(commandLine, '|'), draw) && Valid()
      ensures bomb == old(bomb) || (bomb != null && fresh(bomb))
    {
      out := ExecutePieces(SplitOn(commandLine, '|'), draw);
    }

    /** The loop of `handle_command`: the pieces run one after the other. */
    method ExecutePieces(commands: seq<string>, draw: int) returns (out: seq<Msg>)
      requires Valid() && 0 <= draw <= 10
      modifies this, bomb
      ensures Next(State(), out) == HandlePieces(old(State()), commands, draw) && Valid()
      ensures bomb == old(bomb) || (bomb != null && fresh(bomb))
    {
      out := [];
      var pending := commands;
      AfterNothing(HandlePieces(State(), commands, draw));
      while pending != []
        invariant Valid() && (bomb == old(bomb) || (bomb != null && fresh(bomb)))
        invariant After(out, HandlePieces(State(), pending, draw)) == HandlePieces(old(State()), commands, draw)
        decreases |pending|
      {
        ghost var before := HandlePieces(State(), pending, draw);
        var printed := ExecutePiece(pending, draw);
        pending := pending[1..];
        ghost var after := HandlePieces(State(), pending, draw);
        assert before == After(printed, after);
        AfterAfter(out, printed, after);
        out := out + printed;
      }
    }

    /** One turn of the loop in `handle_command`: the first piece, stripped. */
    method ExecutePiece(pieces: seq<string>, draw: int) returns (printed: seq<Msg>)
      requires Valid() && 0 <= draw <= 10 && pieces != []
      modifies this, bomb
      ensures Valid() && (bomb == old(bomb) || (bomb != null && fresh(bomb)))
      ensures HandlePieces(old(State()), pieces, draw) == After(printed, HandlePieces(State(), pieces[1..], draw))
    {
      printed := ExecuteCommand(Strip(pieces[0]), draw);
    }

    /** `execute_command`. */
    method ExecuteCommand(cmd: string, draw: int) returns (out: seq<Msg>)
      requires Valid() && 0 <= draw <= 10
      modifies this, bomb
      ensures Next(State(), out) == Exec(old(State()), cmd, draw) && Valid()
      ensures bomb == old(bomb) || (bomb != null && fresh(bomb))
    {
      var parts := Words(cmd);
      if parts == [] {
        return [];
      }
      var command := parts[0];
      var args := parts[1..];
      if command == "help" {
        out := [Help];
      } else if command == "ls" {
        out := CmdLs();
      } else if command == "cd" {
        out := CmdCd(args);
      } else if command == "cat" {
        out := CmdCat(args);
      } else if command == "grep" {
        out := CmdGrep(args);
      } else if command == "history" {
        out := CmdHistory();
      } else if command == "arm_bomb" {
        out := CmdArmBomb(draw);
      } else if command == "defuse" {
        out := CmdDefuse(args);
      } else if command == "story" {
        out := CmdStory();
      } else if command == "exit" {
        gameOver := true;
        out := [Goodbye];
      } else {
        out := [UnknownCommand(cmd)];
      }
    }

    /** `cmd_ls`. */
    method CmdLs() returns (out: seq<Msg>)
      ensures out == LsOutput(State())
    {
      var node := GetNode(fs, cwd);
      if node.Some? && node.value.Dir? {
        var children := node.value.children;
        var entries: seq<string> := [];
        for i := 0 to |children|
          invariant |entries| == i
          invariant forall k :: 0 <= k < i ==> entries[k] == Entry(children[k])
        {
          var child := children[i];
          entries := entries + [if child.Dir? then child.name + "/" else child.name];
        }
        assert entries == Entries(children);
        out := [Listing(entries)];
      } else {
        out := [DirectoryNotFound];
      }
    }

    /** `cmd_cd`. */
    method CmdCd(args: seq<string>) returns (out: seq<Msg>)
      requires Valid()
      modifies this
      ensures Next(State(), out) == Cd(old(State()), args) && Valid()
      ensures bomb == old(bomb)
    {
      if args == [] {
        return [CdUsage];
      }
      var target := args[0];
      if target == ".." {
        if cwd != [] {
          cwd := cwd[..|cwd| - 1];
          out := [];
        } else {
          out := [AlreadyAtRoot];
        }
        return;
      }
      var newPath := cwd + [target];
      var node := GetNode(fs, newPath);
      if node.Some? && node.value.Dir? {
        cwd := cwd + [target];
        out := CheckStoryProgress(newPath);
      } else {
        out := [NoSuchDirectory(target)];
      }
    }

    /** `check_story_progress`. */
    method CheckStoryProgress(newPath: seq<string>) returns (out: seq<Msg>)
      requires |newPath| >= 1 && MissionStarted in storyState
      modifies this
      ensures Next(State(), out) == StoryProgress(old(State()), newPath)
      ensures bomb == old(bomb)
    {
      var joined := JoinWith(newPath, '/');
      out := [];
      if joined == "missions" && !storyState[MissionStarted] {
        out := [NewMission];
        storyState := storyState[MissionStarted := true];
      }
      if joined == "bomb_module" {
        out := out + [BombModuleHint];
      }
    }

    /** `cmd_cat`. */
    method CmdCat(args: seq<string>) returns (out: seq<Msg>)
      requires Valid()
      modifies this
      ensures Next(State(), out) == Cat(old(State()), args) && Valid()
      ensures bomb == old(bomb)
    {
      if args == [] {
        return [CatUsage];
      }
      var filename := args[0];
      var node := GetNode(fs, cwd + [filename]);
      if node.Some? && node.value.File? {
        out := [Content(node.value.content)];
        if filename == "classified.txt" && !storyState[IntelAcquired] {
          out := out + [IntelFound];
          storyState := storyState[IntelAcquired := true];
        }
      } else {
        out := [NoSuchFile(filename)];
      }
    }

    /** `cmd_grep`: the lines of the file that contain the pattern, in order. */
    method CmdGrep(args: seq<string>) returns (out: seq<Msg>)
      ensures out == GrepOutput(State(), args)
    {
      if |args| < 2 {
        return [GrepUsage];
      }
      var pattern := args[0];
      var filename := args[1];
      var node := GetNode(fs, cwd + [filename]);
      if node.Some? && node.value.File? {
        var lines := Lines(node.value.content);
        var found := false;
        out := [];
        for i := 0 to |lines|
          invariant out == AsLines(Matching(lines[..i], pattern))
          invariant found <==> Matching(lines[..i], pattern) != []
        {
          assert lines[..i + 1][..i] == lines[..i];
          if Contains(lines[i], pattern) {
            out := out + [Line(lines[i])];
            found := true;
          }
        }
        assert lines[..|lines|] == lines;
        if !found {
          out := [NoMatches];
        }
      } else {
        out := [NoSuchFile(filename)];
      }
    }

    /** `cmd_history`. */
    method CmdHistory() returns (out: seq<Msg>)
      ensures out == HistoryOutput(history)
    {
      out := [];
      for i := 0 to |history|
        invariant |out| == i
        invariant forall k :: 0 <= k < i ==> out[k] == HistoryEntry(k + 1, history[k])
      {
        out := out + [HistoryEntry(i + 1, history[i])];
      }
    }

    /** `cmd_arm_bomb`, with `draw` for `random.randint(0, 10)`. */
    method CmdArmBomb(draw: int) returns (out: seq<Msg>)
      requires Valid() && 0 <= draw <= 10
      modifies this
      ensures Next(State(), out) == ArmBomb(old(State()), draw) && Valid()
      ensures bomb == old(bomb) || (bomb != null && fresh(bomb))
    {
      if cwd != [] && cwd[|cwd| - 1] == "bomb_module" {
        if bomb == null {
          bomb := new Bomb(20 + draw);
          bomb.StartCountdown();
          storyState := storyState[BombEngaged := true];
          out := [BombActivated];
        } else {
          out := [AlreadyArmed];
        }
      } else {
        out := [ArmOutsideModule];
      }
    }

    /** `cmd_defuse`. */
    method CmdDefuse(args: seq<string>) returns (out: seq<Msg>)
      requires Valid()
      modifies bomb
      ensures Next(State(), out) == Defuse(old(State()), args) && Valid()
    {
      if bomb == null {
        return [NoBomb];
      }
      if args == [] {
        return [DefuseUsage];
      }
      var ok := bomb.AttemptDefuse(args[0]);
      out := [if ok then Defused else IncorrectCode];
    }

    /** `cmd_story`. */
    method CmdStory() returns (out: seq<Msg>)
      requires Valid()
      ensures out == StoryOutput(State())
    {
      out := [Status(storyState[MissionStarted], storyState[IntelAcquired], storyState[BombEngaged])];
    }

    /** One check of the countdown loop; an explosion ends the session. */
    method Tick(elapsed: nat) returns (out: seq<Msg>)
      requires Valid()
      modifies this, bomb
      ensures Next(State(), out) == TimerTick(old(State()), elapsed) && Valid()
      ensures bomb == old(bomb)
    {
      if bomb == null {
        return [];
      }
      var outcome := bomb.Tick(elapsed);
      if outcome == Boom {
        gameOver := true;
      }
      out := if outcome == Idle || outcome == Expired then [] else [Timer(outcome)];
    }

    /** A whole session: the `run` loop reading typed lines, interleaved with
        the countdown loop's checks, until the inputs run out (end of input)
        or the bomb goes off. */
    method Run(inputs: seq<Input>) returns (out: seq<Msg>)
      requires Valid() && DrawsInRange(inputs)
      modifies this, bomb
      ensures Next(State(), out) == RunSession(old(State()), inputs) && Valid()
      ensures bomb == old(bomb) || (bomb != null && fresh(bomb))
    {
      out := [];
      var pending := inputs;
      AfterNothing(RunSession(State(), inputs));
      while pending != [] && !(bomb != null && bomb.exploded)
        invariant Valid() && DrawsInRange(pending) && (bomb == old(bomb) || (bomb != null && fresh(bomb)))
        invariant After(out, RunSession(State(), pending)) == RunSession(old(State()), inputs)
        decreases |pending|
      {
        ghost var before := RunSession(State(), pending);
        var printed := ReadInput(pending);
        pending := pending[1..];
        ghost var after := RunSession(State(), pending);
        assert before == After(printed, after);
        AfterAfter(out, printed, after);
        out := out + printed;
      }
    }

    /** One turn of a session: the next typed line or countdown check. */
    method ReadInput(pending: seq<Input>) returns (printed: seq<Msg>)
      requires Valid() && DrawsInRange(pending) && pending != [] && !(bomb != null && bomb.exploded)
      modifies this, bomb
      ensures Valid() && DrawsInRange(pending[1..]) && (bomb == old(bomb) || (bomb != null && fresh(bomb)))
      ensures RunSession(old(State()), pending) == After(printed, RunSession(State(), pending[1..]))
    {
      match pending[0] {
        case Typed(text, draw) => printed := Step(text, draw);
        case Elapsed(seconds) => printed := Tick(seconds);
      }
      forall k | 0 <= k < |pending| - 1 && pending[1..][k].Typed?
        ensures 0 <= pending[1..][k].draw <= 10
      {
        assert pending[1..][k] == pending[k + 1];
      }
    }
  }
}
