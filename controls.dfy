/** The movement intent the key handlers maintain. */
module Controls {

  /** The four flags of `moveState`. */
  datatype MoveState = MoveState(forward: bool, backward: bool, left: bool, right: bool)

  const IDLE := MoveState(false, false, false, false)

  datatype Direction = Forward | Backward | Left | Right

  /** The key code bound to each direction. */
  function KeyFor(d: Direction): string {
    match d
    case Forward => "KeyW"
    case Backward => "KeyS"
    case Left => "KeyA"
    case Right => "KeyD"
  }

  function Held(m: MoveState, d: Direction): bool {
    match d
    case Forward => m.forward
    case Backward => m.backward
    case Left => m.left
    case Right => m.right
  }

  /** The `switch` of the key handlers on the movement keys: `held` is true on key-down
      and false on key-up. Exactly the flag of the key's direction takes the value `held`. */
  function WithKey(m: MoveState, code: string, held: bool): (m': MoveState)
    ensures forall d :: Held(m', d) == if code == KeyFor(d) then held else Held(m, d)
  {
    if code == "KeyW" then m.(forward := held)
    else if code == "KeyS" then m.(backward := held)
    else if code == "KeyA" then m.(left := held)
    else if code == "KeyD" then m.(right := held)
    else m
  }

  /** Releasing a key undoes pressing it. */
  lemma PressThenRelease(m: MoveState, code: string)
    ensures WithKey(WithKey(m, code, true), code, false) == WithKey(m, code, false)
    ensures !Held(m, Forward) && !Held(m, Backward) && !Held(m, Left) && !Held(m, Right) ==>
              WithKey(WithKey(m, code, true), code, false) == m
  {
  }

  /** Events on different keys do not interfere. */
  lemma KeysCommute(m: MoveState, a: string, x: bool, b: string, y: bool)
    requires a != b
    ensures WithKey(WithKey(m, a, x), b, y) == WithKey(WithKey(m, b, y), a, x)
  {
    SameFlags(WithKey(WithKey(m, a, x), b, y), WithKey(WithKey(m, b, y), a, x));
  }

  /** A movement state is determined by which directions it holds. */
  lemma SameFlags(m: MoveState, n: MoveState)
    requires forall d :: Held(m, d) == Held(n, d)
    ensures m == n
  {
    assert Held(m, Forward) == Held(n, Forward) && Held(m, Backward) == Held(n, Backward);
    assert Held(m, Left) == Held(n, Left) && Held(m, Right) == Held(n, Right);
  }
}
