/**
 * ExploringState: the "world map" game state. Each update reads a menu choice (0 exit,
 * 1 previous town, 2 previous dungeon, 3 find a new place) and either ends exploring, moves the
 * player to a location, or keeps exploring. Console lines are a given sequence of strings and
 * the newly generated places a given function from how many places were found so far.
 */
module Exploring {
  import opened Common
  import opened Towns
  import opened Dungeons

  datatype Location = TownAt(town: Town) | DungeonAt(dungeon: Dungeon)

  /** handleInput's switch: exactly the lines "0" to "3" name an action. */
  function ParseChoice(line: string): (r: Option<int>)
    ensures r.Some? <==> line == "0" || line == "1" || line == "2" || line == "3"
    ensures r.Some? ==> 0 <= r.value <= 3 && line == [('0' as int + r.value) as char]
  {
    if line == "0" then Some(0)
    else if line == "1" then Some(1)
    else if line == "2" then Some(2)
    else if line == "3" then Some(3)
    else None
  }

  predicate IsDigit(c: char) {
    '0' <= c <= '9'
  }

  function DigitValue(c: char): nat
    requires IsDigit(c)
  {
    c as int - '0' as int
  }

  function DigitsValue(s: string): nat
    requires forall c <- s :: IsDigit(c)
  {
    if s == [] then 0 else DigitsValue(s[..|s| - 1]) * 10 + DigitValue(s[|s| - 1])
  }

  const IntMin: int := -0x8000_0000
  const IntMax: int := 0x7fff_ffff

  /** The text after an optional leading '-' or '+'. */
  function Unsigned(line: string): string {
    if |line| > 0 && (line[0] == '-' || line[0] == '+') then line[1..] else line
  }

  /** The value of an all-digit magnitude, negated after a leading '-'. */
  function SignedValue(line: string): int
    requires forall c <- Unsigned(line) :: IsDigit(c)
  {
    if |line| > 0 && line[0] == '-' then -(DigitsValue(Unsigned(line)) as int)
    else DigitsValue(Unsigned(line))
  }

  /**
   * Scanner.nextInt on a line: an optional sign and decimal digits, within Java's int range;
   * None where nextInt throws InputMismatchException.
   */
  function ParseInt(line: string): (r: Option<int>)
    ensures r.Some? ==> IntMin <= r.value <= IntMax
    ensures r.Some? ==> line != [] && (IsDigit(line[0]) || line[0] == '-' || line[0] == '+')
    ensures r.Some? ==> Unsigned(line) != [] && (forall c <- Unsigned(line) :: IsDigit(c))
                        && r.value == SignedValue(line)
    ensures r.None? <==> Unsigned(line) == [] || (exists c <- Unsigned(line) :: !IsDigit(c))
                         || !(IntMin <= SignedValue(line) <= IntMax)
  {
    var negative := |line| > 0 && line[0] == '-';
    var digits := if |line| > 0 && (line[0] == '-' || line[0] == '+') then line[1..] else line;
    if digits == [] || !(forall c <- digits :: IsDigit(c)) then None
    else
      var v: int := if negative then -(DigitsValue(digits) as int) else DigitsValue(digits);
      if IntMin <= v <= IntMax then Some(v) else None
  }

  function Digit(d: nat): (c: char)
    requires d < 10
    ensures IsDigit(c)
  {
    ('0' as int + d) as char
  }

  /** The decimal text of a natural number, as typed by the player. */
  function DecimalText(n: nat): (s: string)
    ensures s != [] && forall c <- s :: IsDigit(c)
  {
    if n < 10 then [Digit(n)] else DecimalText(n / 10) + [Digit(n % 10)]
  }

  lemma {:induction false} DecimalTextValue(n: nat)
    ensures DigitsValue(DecimalText(n)) == n
  {
    if n >= 10 {
      DecimalTextValue(n / 10);
      var s := DecimalText(n);
      assert s[..|s| - 1] == DecimalText(n / 10);
    }
  }

  /** Typing any index in int range is read back as that index. */
  lemma ParseIntOfDecimal(n: nat)
    requires n <= IntMax
    ensures ParseInt(DecimalText(n)) == Some(n)
  {
    var s := DecimalText(n);
    DecimalTextValue(n);
    assert IsDigit(s[0]);
  }

  /** The text of an int as typed: a '-' before the digits of a negative value. */
  function SignedText(v: int): string {
    if v < 0 then "-" + DecimalText(-v) else DecimalText(v)
  }

  /** Every int typed in is read back as itself, negative values included. */
  lemma ParseIntOfSigned(v: int)
    requires IntMin <= v <= IntMax
    ensures ParseInt(SignedText(v)) == Some(v)
  {
    if v < 0 {
      var s := SignedText(v);
      DecimalTextValue(-v);
      assert Unsigned(s) == DecimalText(-v);
    } else {
      ParseIntOfDecimal(v);
    }
  }

  /** handleInput's result: the chosen action and the lines left, or input ran out. */
  datatype Choice = Chosen(action: int, rest: seq<string>) | NoChoice

  /** handleInput: skip invalid lines until one names an action. */
  function ReadChoice(lines: seq<string>): (c: Choice)
    ensures c.Chosen? ==> 0 <= c.action <= 3 && |c.rest| < |lines| && c.rest == lines[|lines| - |c.rest|..]
    ensures c.Chosen? ==> ParseChoice(lines[|lines| - |c.rest| - 1]) == Some(c.action)
    ensures c.Chosen? ==> forall i :: 0 <= i < |lines| - |c.rest| - 1 ==> ParseChoice(lines[i]).None?
    ensures c.NoChoice? <==> forall i :: 0 <= i < |lines| ==> ParseChoice(lines[i]).None?
  {
    if lines == [] then NoChoice
    else match ParseChoice(lines[0])
      case Some(a) => Chosen(a, lines[1..])
      case None =>
        var c := ReadChoice(lines[1..]);
        assert forall i :: 1 <= i < |lines| ==> lines[i] == lines[1..][i - 1];
        c
  }

  /**
   * How one update ends. MovedTo, Exited and IndexOutOfRange leave isExploring false;
   * IndexOutOfRange, InputMismatch and InputExhausted stand for the exception the source throws
   * (IndexOutOfBoundsException, InputMismatchException, NoSuchElementException).
   */
  datatype Outcome =
    | NotExploring
    | Exited
    | StayedExploring
    | MovedTo(place: Location)
    | IndexOutOfRange
    | InputMismatch
    | InputExhausted

  predicate StopsExploring(o: Outcome) {
    o.Exited? || o.MovedTo? || o.IndexOutOfRange?
  }

  /** The result of one update: outcome, currentAction afterwards, unread lines, places found so far. */
  datatype Turn = Turn(outcome: Outcome, action: int, lines: seq<string>, found: nat)

  function TownPlaces(towns: seq<Town>): (r: seq<Location>)
    ensures |r| == |towns| && forall i :: 0 <= i < |towns| ==> r[i] == TownAt(towns[i])
  {
    seq(|towns|, i requires 0 <= i < |towns| => TownAt(towns[i]))
  }

  function DungeonPlaces(dungeons: seq<Dungeon>): (r: seq<Location>)
    ensures |r| == |dungeons| && forall i :: 0 <= i < |dungeons| ==> r[i] == DungeonAt(dungeons[i])
  {
    seq(|dungeons|, i requires 0 <= i < |dungeons| => DungeonAt(dungeons[i]))
  }

  /** The listed-place prompt: 0 goes back, k in 1..|offered| picks offered[k - 1]. */
  function PickPlace(action: int, offered: seq<Location>, lines: seq<string>, found: nat): (t: Turn)
    ensures t.action == action && t.found == found
    ensures IsSuffix(t.lines, lines)
    ensures t.outcome.MovedTo? ==> t.outcome.place in offered
    ensures t.outcome.StayedExploring? || t.outcome.MovedTo? || t.outcome.IndexOutOfRange?
              || t.outcome.InputMismatch? || t.outcome.InputExhausted?
  {
    if lines == [] then Turn(InputExhausted, action, [], found)
    else match ParseInt(lines[0])
      case None => Turn(InputMismatch, action, lines, found)
      case Some(k) =>
        if k == 0 then Turn(StayedExploring, action, lines[1..], found)
        else if 1 <= k <= |offered| then Turn(MovedTo(offered[k - 1]), action, lines[1..], found)
        else Turn(IndexOutOfRange, action, lines[1..], found)
  }

  predicate IsYes(line: string) {
    line == "y" || line == "Y"
  }

  /**
   * update(), with its re-entries (no towns; a new place declined) unrolled: the turn it
   * produces from the exploring flag, the current action, the listed towns and dungeons, the
   * console lines and the places generation will yield.
   */
  function Explore(exploring: bool, action: int, towns: seq<Town>, dungeons: seq<Dungeon>,
                   lines: seq<string>, generate: nat -> Location, found: nat): (t: Turn)
    decreases |lines|, 0
    ensures |t.lines| <= |lines| && t.found >= found
    ensures t.outcome.NotExploring? <==> !exploring
  {
    if !exploring then Turn(NotExploring, action, lines, found)
    else match ReadChoice(lines)
      case NoChoice => Turn(InputExhausted, action, [], found)
      case Chosen(a, rest) => Act(a, towns, dungeons, rest, generate, found)
  }

  /** The rest of update once handleInput has chosen action `a`. */
  function Act(a: int, towns: seq<Town>, dungeons: seq<Dungeon>,
               rest: seq<string>, generate: nat -> Location, found: nat): (t: Turn)
    decreases |rest|, 1
    ensures |t.lines| <= |rest| && t.found >= found && !t.outcome.NotExploring?
  {
    if a == 0 then Turn(Exited, a, rest, found)
    else if a == 1 then
      if towns == [] then Explore(true, a, towns, dungeons, rest, generate, found)
      else PickPlace(a, TownPlaces(towns), rest, found)
    else if a == 2 then
      if dungeons == [] then Turn(StayedExploring, a, rest, found)
      else PickPlace(a, DungeonPlaces(dungeons), rest, found)
    else if rest == [] then Turn(InputExhausted, a, [], found + 1)
    else if IsYes(rest[0]) then Turn(MovedTo(generate(found)), a, rest[1..], found + 1)
    else Explore(true, a, towns, dungeons, rest[1..], generate, found + 1)
  }

  /** The place is a listed town, a listed dungeon, or one generated between `found` and `foundAfter`. */
  ghost predicate Reachable(place: Location, towns: seq<Town>, dungeons: seq<Dungeon>,
                            generate: nat -> Location, found: nat, foundAfter: nat)
  {
    || (exists i :: 0 <= i < |towns| && place == TownAt(towns[i]))
    || (exists i :: 0 <= i < |dungeons| && place == DungeonAt(dungeons[i]))
    || (exists j :: found <= j < foundAfter && place == generate(j))
  }

  /**
   * An update only ever moves the player to a listed town, a listed dungeon, or a place
   * generated during this update.
   */
  lemma {:induction false} ExploreMovesOnlyToOffered(towns: seq<Town>, dungeons: seq<Dungeon>,
                                                     lines: seq<string>, generate: nat -> Location,
                                                     action: int, found: nat)
    ensures var t := Explore(true, action, towns, dungeons, lines, generate, found);
            t.outcome.MovedTo? ==> Reachable(t.outcome.place, towns, dungeons, generate, found, t.found)
    decreases |lines|, 0
  {
    match ReadChoice(lines)
    case NoChoice =>
    case Chosen(a, rest) =>
      ActMovesOnlyToOffered(a, towns, dungeons, rest, generate, found);
  }

  lemma {:induction false} ActMovesOnlyToOffered(a: int, towns: seq<Town>, dungeons: seq<Dungeon>,
                                                 rest: seq<string>, generate: nat -> Location, found: nat)
    ensures var t := Act(a, towns, dungeons, rest, generate, found);
            t.outcome.MovedTo? ==> Reachable(t.outcome.place, towns, dungeons, generate, found, t.found)
    decreases |rest|, 1
  {
    var t := Act(a, towns, dungeons, rest, generate, found);
    if a == 0 {
    } else if a == 1 {
      if towns == [] {
        ExploreMovesOnlyToOffered(towns, dungeons, rest, generate, a, found);
      } else if t.outcome.MovedTo? {
        assert t == PickPlace(a, TownPlaces(towns), rest, found);
        var i :| 0 <= i < |towns| && TownPlaces(towns)[i] == t.outcome.place;
      }
    } else if a == 2 {
      if dungeons != [] && t.outcome.MovedTo? {
        assert t == PickPlace(a, DungeonPlaces(dungeons), rest, found);
        var i :| 0 <= i < |dungeons| && DungeonPlaces(dungeons)[i] == t.outcome.place;
      }
    } else if rest == [] {
    } else if IsYes(rest[0]) {
      assert t.outcome.place == generate(found);
    } else {
      assert t == Explore(true, a, towns, dungeons, rest[1..], generate, found + 1);
      ExploreMovesOnlyToOffered(towns, dungeons, rest[1..], generate, a, found + 1);
      if t.outcome.MovedTo? && exists j :: found + 1 <= j < t.found && t.outcome.place == generate(j) {
        var j :| found + 1 <= j < t.found && t.outcome.place == generate(j);
        assert found <= j;
      }
    }
  }

  /** `s` is what is left of `lines` once a prefix has been read. */
  predicate IsSuffix(s: seq<string>, lines: seq<string>) {
    |s| <= |lines| && s == lines[|lines| - |s|..]
  }

  /** A suffix of a suffix is a suffix. */
  lemma SuffixOfSuffix(a: seq<string>, b: seq<string>, c: seq<string>)
    requires IsSuffix(a, b) && IsSuffix(b, c)
    ensures IsSuffix(a, c)
  {
    assert forall i :: 0 <= i < |a| ==> a[i] == b[|b| - |a| + i] == c[|c| - |a| + i];
  }

  /** An update consumes a prefix of the console lines: what it leaves is a suffix of its input. */
  lemma {:induction false} ExploreLeavesSuffix(exploring: bool, action: int, towns: seq<Town>,
                                               dungeons: seq<Dungeon>, lines: seq<string>,
                                               generate: nat -> Location, found: nat)
    ensures var t := Explore(exploring, action, towns, dungeons, lines, generate, found);
            IsSuffix(t.lines, lines)
    decreases |lines|, 0
  {
    var c := ReadChoice(lines);
    if exploring && c.Chosen? {
      var t := Act(c.action, towns, dungeons, c.rest, generate, found);
      assert Explore(exploring, action, towns, dungeons, lines, generate, found) == t;
      ActLeavesSuffix(c.action, towns, dungeons, c.rest, generate, found);
      assert IsSuffix(c.rest, lines);
      SuffixOfSuffix(t.lines, c.rest, lines);
    }
  }

  /** The same once handleInput has chosen action `a` and left `rest`. */
  lemma {:induction false} ActLeavesSuffix(a: int, towns: seq<Town>, dungeons: seq<Dungeon>,
                                           rest: seq<string>, generate: nat -> Location, found: nat)
    ensures var t := Act(a, towns, dungeons, rest, generate, found);
            IsSuffix(t.lines, rest)
    decreases |rest|, 1
  {
    if a == 1 && towns == [] {
      ExploreLeavesSuffix(true, a, towns, dungeons, rest, generate, found);
    } else if a !in {0, 1, 2} && rest != [] && !IsYes(rest[0]) {
      var t := Act(a, towns, dungeons, rest, generate, found);
      assert t == Explore(true, a, towns, dungeons, rest[1..], generate, found + 1);
      ExploreLeavesSuffix(true, a, towns, dungeons, rest[1..], generate, found + 1);
      assert IsSuffix(rest[1..], rest);
      SuffixOfSuffix(t.lines, rest[1..], rest);
    } else {
      ActEndsTurnSuffix(a, towns, dungeons, rest, generate, found);
    }
  }

  /** The branches of Act that do not re-enter update leave a suffix of `rest`. */
  lemma ActEndsTurnSuffix(a: int, towns: seq<Town>, dungeons: seq<Dungeon>,
                          rest: seq<string>, generate: nat -> Location, found: nat)
    requires !(a == 1 && towns == []) && !(a !in {0, 1, 2} && rest != [] && !IsYes(rest[0]))
    ensures var t := Act(a, towns, dungeons, rest, generate, found);
            IsSuffix(t.lines, rest)
  {
    var t := Act(a, towns, dungeons, rest, generate, found);
    if a == 0 {
      assert t.lines == rest;
    } else if a == 1 {
      assert t == PickPlace(a, TownPlaces(towns), rest, found);
    } else if a == 2 {
      if dungeons == [] {
        assert t.lines == rest;
      } else {
        assert t == PickPlace(a, DungeonPlaces(dungeons), rest, found);
      }
    } else if rest == [] {
      assert t.lines == [];
    } else {
      assert t.lines == rest[1..];
      assert IsSuffix(rest[1..], rest);
    }
  }

  /** Invalid lines are skipped: they change neither the outcome nor what is read afterwards. */
  lemma InvalidLineSkipped(exploring: bool, action: int, towns: seq<Town>, dungeons: seq<Dungeon>,
                           lines: seq<string>, generate: nat -> Location, found: nat)
    requires exploring && lines != [] && ParseChoice(lines[0]).None?
    ensures Explore(exploring, action, towns, dungeons, lines, generate, found)
            == Explore(exploring, action, towns, dungeons, lines[1..], generate, found)
  {
  }

  /** Choosing 0 ends exploring and moves nowhere. */
  lemma ExitChoice(action: int, towns: seq<Town>, dungeons: seq<Dungeon>,
                   rest: seq<string>, generate: nat -> Location, found: nat)
    ensures Explore(true, action, towns, dungeons, ["0"] + rest, generate, found)
            == Turn(Exited, 0, rest, found)
  {
  }

  /** With towns listed, town index 0 goes back and index k moves to the k-th listed town. */
  lemma TownChoice(action: int, towns: seq<Town>, dungeons: seq<Dungeon>, k: nat,
                   rest: seq<string>, generate: nat -> Location, found: nat)
    requires towns != [] && k <= IntMax
    ensures var t := Explore(true, action, towns, dungeons, ["1", DecimalText(k)] + rest, generate, found);
            && t.lines == rest && t.action == 1
            && (k == 0 ==> t.outcome == StayedExploring)
            && (1 <= k <= |towns| ==> t.outcome == MovedTo(TownAt(towns[k - 1])))
            && (k > |towns| ==> t.outcome == IndexOutOfRange)
  {
    var lines, tail := ["1", DecimalText(k)] + rest, [DecimalText(k)] + rest;
    assert lines[1..] == tail;
    assert ReadChoice(lines) == Chosen(1, tail);
    ParseIntOfDecimal(k);
    assert tail[0] == DecimalText(k) && tail[1..] == rest;
  }

  /** With no dungeons listed, choosing 2 keeps exploring. */
  lemma NoDungeonsStays(action: int, towns: seq<Town>, rest: seq<string>,
                        generate: nat -> Location, found: nat)
    ensures Explore(true, action, towns, [], ["2"] + rest, generate, found)
            == Turn(StayedExploring, 2, rest, found)
  {
  }

  /** With dungeons listed, dungeon index k >= 1 moves to the k-th listed dungeon. */
  lemma DungeonChoice(action: int, towns: seq<Town>, dungeons: seq<Dungeon>, k: nat,
                      rest: seq<string>, generate: nat -> Location, found: nat)
    requires 1 <= k <= |dungeons| && k <= IntMax
    ensures Explore(true, action, towns, dungeons, ["2", DecimalText(k)] + rest, generate, found)
            == Turn(MovedTo(DungeonAt(dungeons[k - 1])), 2, rest, found)
  {
    var lines, tail := ["2", DecimalText(k)] + rest, [DecimalText(k)] + rest;
    assert lines[1..] == tail;
    assert ReadChoice(lines) == Chosen(2, tail);
    ParseIntOfDecimal(k);
    assert tail[0] == DecimalText(k) && tail[1..] == rest;
    assert PickPlace(2, DungeonPlaces(dungeons), tail, found)
        == Turn(MovedTo(DungeonAt(dungeons[k - 1])), 2, rest, found);
  }

  /** A new place: "y" or "Y" moves there; any other answer keeps exploring with the next place. */
  lemma NewPlaceChoice(action: int, towns: seq<Town>, dungeons: seq<Dungeon>, answer: string,
                       rest: seq<string>, generate: nat -> Location, found: nat)
    ensures var t := Explore(true, action, towns, dungeons, ["3", answer] + rest, generate, found);
            && (IsYes(answer) ==> t == Turn(MovedTo(generate(found)), 3, rest, found + 1))
            && (!IsYes(answer) ==> t == Explore(true, 3, towns, dungeons, rest, generate, found + 1))
  {
    assert (["3", answer] + rest)[1..] == [answer] + rest;
    assert ([answer] + rest)[1..] == rest;
  }

  /** The player: only the two fields the exploring state writes are modelled. */
  class Player {
    var currentLocation: Location
    var previousGameState: ExploringState?

    constructor (start: Location)
      ensures currentLocation == start && previousGameState == null
    {
      currentLocation := start;
      previousGameState := null;
    }

    method SetCurrentLocation(place: Location)
      modifies this`currentLocation
      ensures currentLocation == place
    {
      currentLocation := place;
    }

    method SetPreviousGameState(state: ExploringState)
      modifies this`previousGameState
      ensures previousGameState == state
    {
      previousGameState := state;
    }
  }

  class ExploringState {
    const player: Player
    var currentAction: int
    var isExploring: bool

    /** A new exploring state starts exploring with action 0 (Java's default). */
    constructor (player: Player)
      ensures this.player == player && isExploring && currentAction == 0
    {
      this.player := player;
      currentAction := 0;
      isExploring := true;
    }

    /**
     * handleInput: reads lines until one is "0" to "3" and stores that action. Returns false,
     * leaving the action unchanged, when the lines run out first (the source throws).
     */
    method HandleInput(lines: seq<string>) returns (ok: bool, rest: seq<string>)
      modifies this`currentAction
      ensures ok <==> ReadChoice(lines).Chosen?
      ensures ok ==> currentAction == ReadChoice(lines).action && rest == ReadChoice(lines).rest
      ensures !ok ==> currentAction == old(currentAction) && rest == []
    {
      rest := lines;
      while rest != []
        invariant ReadChoice(rest) == ReadChoice(lines)
        invariant currentAction == old(currentAction)
        decreases |rest|
      {
        var line := rest[0];
        rest := rest[1..];
        match ParseChoice(line)
        case Some(a) =>
          currentAction := a;
          return true, rest;
        case None =>
      }
      return false, [];
    }

    /**
     * update: when exploring, plays one turn as Explore describes; isExploring is cleared
     * exactly on exit, on a move and on a bad index, and a move sets the player's location
     * and records this state as the previous one.
     */
    method Update(towns: seq<Town>, dungeons: seq<Dungeon>, lines: seq<string>,
                  generate: nat -> Location, found: nat)
      returns (outcome: Outcome, rest: seq<string>, foundAfter: nat)
      modifies this`isExploring, this`currentAction, player`currentLocation, player`previousGameState
      ensures var t := Explore(old(isExploring), old(currentAction), towns, dungeons, lines, generate, found);
              && outcome == t.outcome && rest == t.lines && foundAfter == t.found
              && currentAction == t.action
      ensures isExploring == (old(isExploring) && !StopsExploring(outcome))
      ensures outcome.MovedTo? ==> player.currentLocation == outcome.place && player.previousGameState == this
      ensures !outcome.MovedTo? ==>
                player.currentLocation == old(player.currentLocation)
                && player.previousGameState == old(player.previousGameState)
    {
      if !isExploring {
        return NotExploring, lines, found;
      }
      ghost var goal := Explore(true, currentAction, towns, dungeons, lines, generate, found);
      rest, foundAfter := lines, found;
      while true
        invariant isExploring
        invariant Explore(true, currentAction, towns, dungeons, rest, generate, foundAfter) == goal
        invariant player.currentLocation == old(player.currentLocation)
        invariant player.previousGameState == old(player.previousGameState)
        decreases |rest|
      {
        var ok;
        ok, rest := HandleInput(rest);
        if !ok {
          return InputExhausted, [], foundAfter;
        }
        var done;
        done, outcome, rest, foundAfter := Step(towns, dungeons, rest, generate, foundAfter);
        if done {
          return;
        }
      }
    }

    /**
     * One pass through update's switch after handleInput chose `currentAction`: either the
     * turn ends as Act describes (done), or update runs again on the remaining lines.
     */
    method Step(towns: seq<Town>, dungeons: seq<Dungeon>, lines: seq<string>,
                generate: nat -> Location, found: nat)
      returns (done: bool, outcome: Outcome, rest: seq<string>, foundAfter: nat)
      requires isExploring && 0 <= currentAction <= 3
      modifies this`isExploring, player`currentLocation, player`previousGameState
      ensures var t := Act(currentAction, towns, dungeons, lines, generate, found);
              done ==> outcome == t.outcome && rest == t.lines && foundAfter == t.found && currentAction == t.action
      ensures !done ==>
                && |rest| <= |lines|
                && Explore(true, currentAction, towns, dungeons, rest, generate, foundAfter)
                   == Act(currentAction, towns, dungeons, lines, generate, found)
      ensures isExploring == !(done && StopsExploring(outcome))
      ensures done && outcome.MovedTo? ==> player.currentLocation == outcome.place && player.previousGameState == this
      ensures !(done && outcome.MovedTo?) ==>
                player.currentLocation == old(player.currentLocation)
                && player.previousGameState == old(player.previousGameState)
    {
      var a := currentAction;
      rest, foundAfter := lines, found;
      if a == 0 {
        isExploring := false;
        return true, Exited, rest, foundAfter;
      } else if a == 1 && towns == [] {
        // no towns: update() runs again
        return false, NotExploring, rest, foundAfter;
      } else if a == 1 || a == 2 {
        if a == 2 && dungeons == [] {
          return true, StayedExploring, rest, foundAfter;
        }
        var offered := if a == 1 then TownPlaces(towns) else DungeonPlaces(dungeons);
        outcome, rest := PickListed(offered, lines);
        return true, outcome, rest, foundAfter;
      }
      var place := generate(found);
      foundAfter := found + 1;
      if rest == [] {
        return true, InputExhausted, [], foundAfter;
      }
      var answer := rest[0];
      rest := rest[1..];
      if IsYes(answer) {
        isExploring := false;
        player.SetCurrentLocation(place);
        player.SetPreviousGameState(this);
        return true, MovedTo(place), rest, foundAfter;
      }
      // declined: update() runs again
      return false, NotExploring, rest, foundAfter;
    }

    /** The listed-place prompt of update, as PickPlace describes it. */
    method PickListed(offered: seq<Location>, lines: seq<string>) returns (outcome: Outcome, rest: seq<string>)
      requires isExploring
      modifies this`isExploring, player`currentLocation, player`previousGameState
      ensures forall found: nat :: var t := PickPlace(currentAction, offered, lines, found);
              outcome == t.outcome && rest == t.lines
      ensures isExploring == !StopsExploring(outcome)
      ensures outcome.MovedTo? ==> player.currentLocation == outcome.place && player.previousGameState == this
      ensures !outcome.MovedTo? ==>
                player.currentLocation == old(player.currentLocation)
                && player.previousGameState == old(player.previousGameState)
    {
      if lines == [] {
        return InputExhausted, [];
      }
      var k := ParseInt(lines[0]);
      if k.None? {
        return InputMismatch, lines;
      }
      rest := lines[1..];
      if k.value == 0 {
        return StayedExploring, rest;
      }
      isExploring := false;
      if 1 <= k.value <= |offered| {
        var place := offered[k.value - 1];
        player.SetCurrentLocation(place);
        player.SetPreviousGameState(this);
        return MovedTo(place), rest;
      }
      return IndexOutOfRange, rest;
    }
  }
}
