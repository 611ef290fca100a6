/** The five-item menu and its joystick navigation with a shared cooldown. */
module Menu {
  import opened Joystick

  const ItemCount := 5
  /** Milliseconds that must strictly pass after a move before the next one. */
  const Cooldown := 500

  /** The menu entries, in display order. */
  datatype MenuItem = Temperature | Humidity | AirQualityItem | WindRpm | WindKmh

  function ItemAt(index: int): (item: MenuItem)
    requires 0 <= index < ItemCount
    ensures item == WindRpm || item == WindKmh <==> index >= 3
  {
    [Temperature, Humidity, AirQualityItem, WindRpm, WindKmh][index]
  }

  /** The entry's title; it fits on the top line of the 128-pixel display. */
  function Title(item: MenuItem): (s: string)
    ensures 0 < |s| <= 16
  {
    match item
    case Temperature => "Temperatura"
    case Humidity => "Umidade"
    case AirQualityItem => "Qualidade do Ar"
    case WindRpm => "Vento (RPM)"
    case WindKmh => "Vento (km/h)"
  }

  /** The titles are distinct, so choosing the entry by its title picks the entry itself. */
  lemma TitlesDistinct(a: MenuItem, b: MenuItem)
    ensures Title(a) == Title(b) <==> a == b
  {
  }

  /** The navigation state: the selected entry and the time of the last accepted move. */
  datatype Nav = Nav(index: int, lastMove: int)

  predicate ValidNav(n: Nav) { 0 <= n.index < ItemCount }

  /** Whether a joystick reading at `now` is accepted as a move. */
  predicate Moves(n: Nav, dir: Direction, now: int)
  {
    dir != Center && now - n.lastMove > Cooldown
  }

  /** One poll of the joystick. Python's `%` is never negative for a positive
      divisor, like Dafny's, so moving left from the first entry selects the last. */
  function Navigate(n: Nav, dir: Direction, now: int): (r: Nav)
    requires ValidNav(n)
    ensures ValidNav(r)
    ensures !Moves(n, dir, now) ==> r == n
    ensures Moves(n, dir, now) ==> r.lastMove == now
    ensures Moves(n, dir, now) && dir == Right ==>
      r.index == if n.index == ItemCount - 1 then 0 else n.index + 1
    ensures Moves(n, dir, now) && dir == Left ==>
      r.index == if n.index == 0 then ItemCount - 1 else n.index - 1
  {
    if dir == Right && now - n.lastMove > Cooldown then
      Nav((n.index + 1) % ItemCount, now)
    else if dir == Left && now - n.lastMove > Cooldown then
      Nav((n.index - 1) % ItemCount, now)
    else
      n
  }

  /** A joystick reading and the time it was taken at, one per loop iteration. */
  datatype Poll = Poll(dir: Direction, now: int)

  /** Navigation over successive polls. */
  function NavigateAll(n: Nav, polls: seq<Poll>): (r: Nav)
    requires ValidNav(n)
    ensures ValidNav(r)
    decreases |polls|
  {
    if polls == [] then n
    else NavigateAll(Navigate(n, polls[0].dir, polls[0].now), polls[1..])
  }

  /** Polls taken no later than the cooldown after the last move change nothing,
      whatever their direction. */
  lemma {:induction false} CooldownFreezesNavigation(n: Nav, polls: seq<Poll>)
    requires ValidNav(n)
    requires forall i :: 0 <= i < |polls| ==> polls[i].now - n.lastMove <= Cooldown
    ensures NavigateAll(n, polls) == n
    decreases |polls|
  {
    if polls != [] {
      assert Navigate(n, polls[0].dir, polls[0].now) == n;
      CooldownFreezesNavigation(n, polls[1..]);
    }
  }

  /** Holding the stick (or flicking it either way) for a stretch of polls no longer than
      the cooldown moves the selection once: only the first accepted poll counts. */
  lemma {:induction false} OneMovePerCooldown(n: Nav, first: Poll, rest: seq<Poll>)
    requires ValidNav(n)
    requires Moves(n, first.dir, first.now)
    requires forall i :: 0 <= i < |rest| ==> rest[i].now - first.now <= Cooldown
    ensures NavigateAll(n, [first] + rest) == Navigate(n, first.dir, first.now)
  {
    var m := Navigate(n, first.dir, first.now);
    assert ([first] + rest)[1..] == rest;
    CooldownFreezesNavigation(m, rest);
  }

  /** Polls in one direction, each more than the cooldown after the one before it (the
      first after the last move): every one of them is accepted. */
  predicate Spaced(n: Nav, dir: Direction, polls: seq<Poll>)
  {
    (forall i :: 0 <= i < |polls| ==> polls[i].dir == dir) &&
    (|polls| > 0 ==> polls[0].now - n.lastMove > Cooldown) &&
    (forall i :: 0 < i < |polls| ==> polls[i].now - polls[i - 1].now > Cooldown)
  }

  /** The step one accepted move takes through the entries. */
  function Delta(dir: Direction): int
  {
    match dir
    case Right => 1
    case Left => -1
    case Center => 0
  }

  /** Repeated spaced moves in one direction walk round the entries: after k of them the
      selection is k places on, modulo the number of entries, and the last move is stamped
      with the last poll's time. */
  lemma {:induction false} SpacedMovesWrapAround(n: Nav, dir: Direction, polls: seq<Poll>)
    requires ValidNav(n) && dir != Center
    requires Spaced(n, dir, polls)
    ensures NavigateAll(n, polls).index == (n.index + |polls| * Delta(dir)) % ItemCount
    ensures |polls| > 0 ==> NavigateAll(n, polls).lastMove == polls[|polls| - 1].now
    decreases |polls|
  {
    if polls != [] {
      var m := Navigate(n, dir, polls[0].now);
      assert polls[0].dir == dir;
      assert polls[0].now - n.lastMove > Cooldown;
      assert m.index == (n.index + Delta(dir)) % ItemCount;
      assert m.lastMove == polls[0].now;
      var rest := polls[1..];
      assert Spaced(m, dir, rest) by {
        forall i | 0 < i < |rest|
          ensures rest[i].now - rest[i - 1].now > Cooldown
        {
          assert rest[i] == polls[i + 1] && rest[i - 1] == polls[i];
        }
        if |rest| > 0 {
          assert rest[0] == polls[1];
        }
      }
      SpacedMovesWrapAround(m, dir, rest);
      var k := |rest| * Delta(dir);
      assert (m.index + k) % ItemCount == (n.index + Delta(dir) + k) % ItemCount by {
        ModShift(n.index + Delta(dir), k);
      }
      assert |polls| * Delta(dir) == Delta(dir) + k;
    }
  }

  lemma ModShift(a: int, k: int)
    ensures (a % ItemCount + k) % ItemCount == (a + k) % ItemCount
  {
  }

  /** Five spaced moves to the right, or five to the left, come back to the starting entry. */
  lemma FiveMovesWrapAround(n: Nav, dir: Direction, polls: seq<Poll>)
    requires ValidNav(n) && dir != Center
    requires |polls| == 5 && Spaced(n, dir, polls)
    ensures NavigateAll(n, polls).index == n.index
  {
    SpacedMovesWrapAround(n, dir, polls);
  }
}
