/** NeonRacer: a track of rows that scrolls down one row per frame, a car
    kept between the borders, a shield power-up with a frame timer, and the
    score, combo and speed counters of the frame loop. */
module NeonRacer {
  import opened Util

  const TrackWidth := 40
  const TrackHeight := 20
  const BorderChar := '║'
  const Blank := ' '
  const ObstacleChar := '▣'
  const EnemyChar := 'V'
  const PowerUpChar := '★'

  const InitialSpeed := 100
  const SpeedIncrement := 2

  /** The spawn chances of a new row's cells, as exact reals. */
  const ObstacleProb: real := 0.10
  const EnemyProb: real := 0.05
  const PowerUpProb: real := 0.03

  const Shield := "Shield"
  const ShieldFrames := 50

  // ---------------------------------------------------------------- rows

  /** A row of the track: the full width, a border at both ends. */
  predicate BorderedRow(row: seq<char>) {
    |row| == TrackWidth && row[0] == BorderChar && row[TrackWidth - 1] == BorderChar
  }

  /** A row the car can drive through: no border inside. */
  predicate OpenRow(row: seq<char>) {
    BorderedRow(row) && forall x :: 0 < x < TrackWidth - 1 ==> row[x] != BorderChar
  }

  function BorderRow(): (r: seq<char>)
    ensures BorderedRow(r) && forall x :: 0 <= x < |r| ==> r[x] == BorderChar
  {
    seq(TrackWidth, _ => BorderChar)
  }

  /** `generate_initial_map`: a border row on top and at the bottom, and
      rows with borders at both ends and blanks inside between them. */
  method GenerateInitialMap() returns (t: seq<seq<char>>)
    ensures |t| == TrackHeight
    ensures forall y :: 0 <= y < TrackHeight ==> |t[y]| == TrackWidth
    ensures forall y, x :: 0 <= y < TrackHeight && 0 <= x < TrackWidth ==>
      t[y][x] == (if y == 0 || y == TrackHeight - 1 || x == 0 || x == TrackWidth - 1 then BorderChar else Blank)
  {
    var top := BorderRow();
    t := [top];
    for i := 0 to TrackHeight - 2
      invariant |t| == i + 1 && t[0] == top
      invariant forall y :: 1 <= y <= i ==> |t[y]| == TrackWidth
      invariant forall y, x :: 1 <= y <= i && 0 <= x < TrackWidth ==>
        t[y][x] == (if x == 0 || x == TrackWidth - 1 then BorderChar else Blank)
    {
      var row := seq(TrackWidth, _ => Blank);
      row := row[0 := BorderChar][TrackWidth - 1 := BorderChar];
      t := t + [row];
    }
    var bottom := BorderRow();
    t := t + [bottom];
  }

  /** What one cell of a new row becomes, for the draw `r` of `random.random()`. */
  function Spawn(r: real): (c: char)
    requires 0.0 <= r < 1.0
    ensures c == PowerUpChar || c == EnemyChar || c == ObstacleChar || c == Blank
    ensures c == PowerUpChar <==> r < PowerUpProb
    ensures c == Blank <==> r >= PowerUpProb + EnemyProb + ObstacleProb
  {
    if r < PowerUpProb then PowerUpChar
    else if r < PowerUpProb + EnemyProb then EnemyChar
    else if r < PowerUpProb + EnemyProb + ObstacleProb then ObstacleChar
    else Blank
  }

  /** One draw for each inner cell, left to right. */
  predicate DrawsOk(draws: seq<real>) {
    |draws| == TrackWidth - 2 && forall k :: 0 <= k < |draws| ==> 0.0 <= draws[k] < 1.0
  }

  /** The row `add_new_row` builds from `draws`. */
  function NewRow(draws: seq<real>): (row: seq<char>)
    requires DrawsOk(draws)
    ensures OpenRow(row)
    ensures forall x :: 0 < x < TrackWidth - 1 ==> row[x] == Spawn(draws[x - 1])
  {
    seq(TrackWidth, x requires 0 <= x < TrackWidth =>
      if x == 0 || x == TrackWidth - 1 then BorderChar else Spawn(draws[x - 1]))
  }

  /** `add_new_row`: borders at both ends, a spawned cell in between. */
  method AddNewRow(draws: seq<real>) returns (row: seq<char>)
    requires DrawsOk(draws)
    ensures row == NewRow(draws)
  {
    row := seq(TrackWidth, _ => Blank);
    row := row[0 := BorderChar][TrackWidth - 1 := BorderChar];
    for x := 1 to TrackWidth - 1
      invariant |row| == TrackWidth && row[0] == BorderChar && row[TrackWidth - 1] == BorderChar
      invariant forall j :: 0 < j < x ==> row[j] == Spawn(draws[j - 1])
    {
      row := row[x := Spawn(draws[x - 1])];
    }
  }

  // ---------------------------------------------------------------- track

  /** A track: the top border, open rows below it, and a last row that is
      the bottom border until the first scroll and an open row after it. */
  predicate TrackOk(t: seq<seq<char>>, scrolled: bool) {
    |t| == TrackHeight && t[0] == BorderRow()
    && (forall y :: 1 <= y < TrackHeight - 1 ==> OpenRow(t[y]))
    && (if scrolled then OpenRow(t[TrackHeight - 1]) else t[TrackHeight - 1] == BorderRow())
  }

  /** `game_map.pop()` then `game_map.insert(1, new_row)`: every row below
      the top border moves down one and the last row falls off. */
  function Scroll(t: seq<seq<char>>, row: seq<char>): (r: seq<seq<char>>)
    requires |t| == TrackHeight
  {
    [t[0]] + [row] + t[1..TrackHeight - 1]
  }

  lemma ScrollShifts(t: seq<seq<char>>, row: seq<char>)
    requires |t| == TrackHeight
    ensures |Scroll(t, row)| == TrackHeight && Scroll(t, row)[0] == t[0] && Scroll(t, row)[1] == row
    ensures forall y :: 2 <= y < TrackHeight ==> Scroll(t, row)[y] == t[y - 1]
  {
  }

  /** A scroll keeps the track's shape; the bottom border it drops is gone
      for good, since every row it brings in is open. */
  lemma {:induction false} ScrollKeepsTrack(t: seq<seq<char>>, scrolled: bool, row: seq<char>)
    requires TrackOk(t, scrolled) && OpenRow(row)
    ensures TrackOk(Scroll(t, row), true)
  {
    ScrollShifts(t, row);
  }

  function Cleared(t: seq<seq<char>>, p: Pos): seq<seq<char>>
    requires |t| == TrackHeight && Inside(p) && |t[p.y]| == TrackWidth
  {
    t[p.y := t[p.y][p.x := Blank]]
  }

  /** Clearing a collected power-up keeps the track's shape and touches only that cell. */
  lemma ClearedKeepsTrack(t: seq<seq<char>>, scrolled: bool, p: Pos)
    requires TrackOk(t, scrolled) && Inside(p)
    ensures TrackOk(Cleared(t, p), scrolled)
    ensures Cleared(t, p)[p.y][p.x] == Blank
    ensures forall y, x :: 0 <= y < TrackHeight && 0 <= x < TrackWidth && (y, x) != (p.y, p.x) ==>
      Cleared(t, p)[y][x] == t[y][x]
  {
    var row := t[p.y][p.x := Blank];
    assert OpenRow(row);
  }

  // ---------------------------------------------------------------- player

  datatype Pos = Pos(x: int, y: int)

  /** Strictly between the borders. */
  predicate Inside(p: Pos) {
    0 < p.x < TrackWidth - 1 && 0 < p.y < TrackHeight - 1
  }

  /** `Player.move`: the step is taken only if it stays between the borders. */
  function Moved(p: Pos, dx: int, dy: int): (r: Pos)
    ensures r == Pos(p.x + dx, p.y + dy) <==> Inside(Pos(p.x + dx, p.y + dy)) || (dx == 0 && dy == 0)
    ensures r != Pos(p.x + dx, p.y + dy) ==> r == p
    ensures Inside(p) ==> Inside(r)
  {
    var q := Pos(p.x + dx, p.y + dy);
    if Inside(q) then q else p
  }

  /** The power-up state of the car. */
  datatype Boost = Boost(power: Option<string>, timer: int)

  /** Python truthiness of `active_powerup`. */
  predicate Active(power: Option<string>) {
    power.Some? && power.value != ""
  }

  /** `update_powerup`. */
  function Decay(b: Boost): (r: Boost)
    ensures !Active(b.power) ==> r == b
    ensures Active(b.power) ==> r.timer == b.timer - 1 && (r.power == if r.timer <= 0 then None else b.power)
  {
    if Active(b.power) then
      var t := b.timer - 1;
      if t <= 0 then Boost(None, t) else Boost(b.power, t)
    else b
  }

  function DecayTimes(b: Boost, n: nat): Boost
    decreases n
  {
    if n == 0 then b else DecayTimes(Decay(b), n - 1)
  }

  lemma {:induction false} InactiveStays(b: Boost, n: nat)
    requires !Active(b.power)
    ensures DecayTimes(b, n) == b
    decreases n
  {
    if n > 0 {
      InactiveStays(Decay(b), n - 1);
    }
  }

  /** A power-up with timer `t` is still active after `n` updates exactly when `n < t`. */
  lemma {:induction false} PowerUpLasts(s: string, t: int, n: nat)
    requires s != "" && t > 0
    ensures Active(DecayTimes(Boost(Some(s), t), n).power) <==> n < t
    decreases n
  {
    if n > 0 {
      var b := Decay(Boost(Some(s), t));
      if t == 1 {
        InactiveStays(b, n - 1);
      } else {
        PowerUpLasts(s, t - 1, n - 1);
      }
    }
  }

  class Player {
    var x: int
    var y: int
    var hp: int
    var activePowerup: Option<string>
    var powerupTimer: int

    function At(): Pos
      reads this
    {
      Pos(x, y)
    }

    function BoostOf(): Boost
      reads this
    {
      Boost(activePowerup, powerupTimer)
    }

    constructor(x: int, y: int)
      ensures At() == Pos(x, y) && hp == 100 && BoostOf() == Boost(None, 0)
    {
      this.x := x;
      this.y := y;
      hp := 100;
      activePowerup := None;
      powerupTimer := 0;
    }

    /** `Player.move`. */
    method Move(dx: int, dy: int)
      modifies this
      ensures At() == Moved(old(At()), dx, dy) && hp == old(hp) && BoostOf() == old(BoostOf())
    {
      var newX := x + dx;
      var newY := y + dy;
      if 0 < newX < TrackWidth - 1 && 0 < newY < TrackHeight - 1 {
        x := newX;
        y := newY;
      }
    }

    /** `Player.update_powerup`. */
    method UpdatePowerup()
      modifies this
      ensures BoostOf() == Decay(old(BoostOf())) && At() == old(At()) && hp == old(hp)
    {
      if activePowerup.Some? && activePowerup.value != "" {
        powerupTimer := powerupTimer - 1;
        if powerupTimer <= 0 {
          activePowerup := None;
        }
      }
    }
  }

  // ---------------------------------------------------------------- counters

  /** The `speed` counter after `score` frames: two less every hundred
      points, never below 20. The source hands it to `stdscr.timeout`. */
  function SpeedAt(score: nat): (r: int)
    ensures 20 <= r <= InitialSpeed && r % 2 == 0
  {
    Max(20, InitialSpeed - SpeedIncrement * (score / 100))
  }

  /** The speed rule of the frame loop keeps the counter at `SpeedAt(score)`. */
  lemma SpeedStep(score: nat)
    ensures SpeedAt(score + 1) ==
      if (score + 1) % 100 == 0 && SpeedAt(score) > 20 then SpeedAt(score) - SpeedIncrement else SpeedAt(score)
  {
    var q := score / 100;
    if (score + 1) % 100 == 0 {
      assert (score + 1) / 100 == q + 1;
    } else {
      assert (score + 1) / 100 == q;
    }
  }

  // ---------------------------------------------------------------- frames

  datatype Key = LeftKey | RightKey | UpKey | DownKey | QuitKey | OtherKey

  function KeyStep(key: Key): Pos {
    match key
    case LeftKey => Pos(-1, 0)
    case RightKey => Pos(1, 0)
    case UpKey => Pos(0, -1)
    case DownKey => Pos(0, 1)
    case _ => Pos(0, 0)
  }

  predicate Hazard(tile: char) {
    tile == ObstacleChar || tile == EnemyChar
  }

  /** The state of `main` between frames. */
  class Race {
    var track: seq<seq<char>>
    const player: Player
    var score: int
    var combo: int
    var speed: int
    var frame: int
    var over: bool
    /** Whether the track has scrolled at least once. */
    ghost var scrolled: bool

    ghost predicate Valid()
      reads this, player
    {
      TrackOk(track, scrolled) && Inside(player.At())
      && 0 <= score && frame == score && 0 <= combo && speed == SpeedAt(score)
      && (Active(player.activePowerup) ==> player.activePowerup == Some(Shield) && 0 < player.powerupTimer < ShieldFrames)
    }

    constructor()
      ensures Valid() && !over && !scrolled && score == 0 && combo == 0 && speed == InitialSpeed
      ensures player.At() == Pos(TrackWidth / 2, TrackHeight - 2) && player.BoostOf() == Boost(None, 0)
    {
      var t := GenerateInitialMap();
      assert t[0] == BorderRow() && t[TrackHeight - 1] == BorderRow();
      player := new Player(TrackWidth / 2, TrackHeight - 2);
      track := t;
      score := 0;
      combo := 0;
      speed := InitialSpeed;
      frame := 0;
      over := false;
      scrolled := false;
    }

    /** One pass of the frame loop, for the key read and the row's draws. */
    method Frame(key: Key, draws: seq<real>)
      requires Valid() && !over && DrawsOk(draws)
      modifies this, player
      ensures Valid()
      ensures key == QuitKey ==>
        && over && track == old(track) && score == old(score) && combo == old(combo)
        && player.At() == old(player.At()) && player.BoostOf() == old(player.BoostOf())
      ensures key != QuitKey ==> player.At() == Moved(old(player.At()), KeyStep(key).x, KeyStep(key).y)
      ensures key != QuitKey ==> scrolled
      ensures key != QuitKey ==>
        var tile := Scroll(old(track), NewRow(draws))[player.y][player.x];
        && (over <==> Hazard(tile) && old(player.activePowerup) != Some(Shield))
        && score == old(score) + (if over then 0 else 1)
        && combo == old(combo) + (if Hazard(tile) && !over then 1 else if tile == PowerUpChar then 5 else 0)
        && track == (if tile == PowerUpChar then Cleared(Scroll(old(track), NewRow(draws)), player.At())
                     else Scroll(old(track), NewRow(draws)))
        && player.BoostOf() == (if over then old(player.BoostOf())
                                else Decay(if tile == PowerUpChar then Boost(Some(Shield), ShieldFrames)
                                           else old(player.BoostOf())))
    {
      if key == QuitKey {
        over := true;
        return;
      }
      var step := KeyStep(key);
      player.Move(step.x, step.y);
      var row := AddNewRow(draws);
      ScrollKeepsTrack(track, scrolled, row);
      track := Scroll(track, row);
      scrolled := true;
      Collide();
      if !over {
        Advance();
      }
    }

    /** The collision check on the car's cell of the scrolled track. */
    method Collide()
      requires TrackOk(track, true) && Inside(player.At()) && !over
      requires Active(player.activePowerup) ==> player.activePowerup == Some(Shield) && 0 < player.powerupTimer < ShieldFrames
      modifies this, player
      ensures TrackOk(track, true) && player.At() == old(player.At())
      ensures unchanged(this`score, this`frame, this`speed, this`scrolled)
      ensures var tile := old(track[player.y][player.x]);
        && (over <==> Hazard(tile) && old(player.activePowerup) != Some(Shield))
        && combo == old(combo) + (if Hazard(tile) && !over then 1 else if tile == PowerUpChar then 5 else 0)
        && track == (if tile == PowerUpChar then Cleared(old(track), player.At()) else old(track))
        && player.BoostOf() == (if tile == PowerUpChar then Boost(Some(Shield), ShieldFrames) else old(player.BoostOf()))
    {
      var tile := track[player.y][player.x];
      if tile == ObstacleChar || tile == EnemyChar {
        if player.activePowerup == Some(Shield) {
          combo := combo + 1;
        } else {
          over := true;
        }
      } else if tile == PowerUpChar {
        player.activePowerup := Some(Shield);
        player.powerupTimer := ShieldFrames;
        combo := combo + 5;
        ClearedKeepsTrack(track, true, player.At());
        track := Cleared(track, player.At());
      }
    }

    /** The end of a frame: score, power-up timer, speed. */
    method Advance()
      requires 0 <= score && frame == score && speed == SpeedAt(score)
      requires Active(player.activePowerup) ==> player.activePowerup == Some(Shield) && 0 < player.powerupTimer <= ShieldFrames
      modifies this, player
      ensures score == old(score) + 1 && frame == score && speed == SpeedAt(score)
      ensures player.BoostOf() == Decay(old(player.BoostOf())) && player.At() == old(player.At())
      ensures Active(player.activePowerup) ==> player.activePowerup == Some(Shield) && 0 < player.powerupTimer < ShieldFrames
      ensures unchanged(this`track, this`combo, this`over, this`scrolled)
    {
      SpeedStep(score);
      score := score + 1;
      player.UpdatePowerup();
      if score % 100 == 0 && speed > 20 {
        speed := speed - SpeedIncrement;
      }
      frame := frame + 1;
    }
  }
}
