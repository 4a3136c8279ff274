/**
 * Keyboard-driven movement through a 3D scene: arrow keys and 'w'/'s' update
 * an integer position and rotation.
 *
 * The source's values are JavaScript numbers; steps of 1 and 5 from 0 stay
 * exact integers, so `int` is used. The console line is returned as the pose.
 */
module SpatialNavigation {

  datatype Position = Position(x: int, y: int, z: int)

  datatype Rotation = Rotation(yaw: int, pitch: int, roll: int)

  datatype Pose = Pose(position: Position, rotation: Rotation)

  /** Position and rotation both start at all zeros. */
  const Origin: Pose := Pose(Position(0, 0, 0), Rotation(0, 0, 0))

  /** The keys the handler reacts to; matching is exact and case-sensitive. */
  predicate IsNavigationKey(key: string) {
    key == "ArrowUp" || key == "ArrowDown" || key == "ArrowLeft" || key == "ArrowRight" || key == "w" || key == "s"
  }

  /** The effect of one keydown on the pose. */
  function HandleKey(p: Pose, key: string): (r: Pose)
    ensures r.position.x == p.position.x && r.rotation.pitch == p.rotation.pitch && r.rotation.roll == p.rotation.roll
    ensures key == "ArrowUp" ==> r == p.(position := p.position.(y := p.position.y + 1))
    ensures key == "ArrowDown" ==> r == p.(position := p.position.(y := p.position.y - 1))
    ensures key == "ArrowLeft" ==> r == p.(rotation := p.rotation.(yaw := p.rotation.yaw - 5))
    ensures key == "ArrowRight" ==> r == p.(rotation := p.rotation.(yaw := p.rotation.yaw + 5))
    ensures key == "w" ==> r == p.(position := p.position.(z := p.position.z + 1))
    ensures key == "s" ==> r == p.(position := p.position.(z := p.position.z - 1))
    ensures !IsNavigationKey(key) ==> r == p
  {
    var pos, rot := p.position, p.rotation;
    match key
    case "ArrowUp" => p.(position := pos.(y := pos.y + 1))
    case "ArrowDown" => p.(position := pos.(y := pos.y - 1))
    case "ArrowLeft" => p.(rotation := rot.(yaw := rot.yaw - 5))
    case "ArrowRight" => p.(rotation := rot.(yaw := rot.yaw + 5))
    case "w" => p.(position := pos.(z := pos.z + 1))
    case "s" => p.(position := pos.(z := pos.z - 1))
    case _ => p
  }

  /** The key that undoes a navigation key. */
  function Opposite(key: string): string {
    match key
    case "ArrowUp" => "ArrowDown"
    case "ArrowDown" => "ArrowUp"
    case "ArrowLeft" => "ArrowRight"
    case "ArrowRight" => "ArrowLeft"
    case "w" => "s"
    case "s" => "w"
    case _ => key
  }

  /** Up then Down, Left then Right, w then s (and each the other way round) restore the pose. */
  lemma OppositeKeysCancel(p: Pose, key: string)
    requires IsNavigationKey(key)
    ensures HandleKey(HandleKey(p, key), Opposite(key)) == p
  {
  }

  /** The pose after the keys are pressed in order. */
  function Replay(p: Pose, keys: seq<string>): Pose
    decreases |keys|
  {
    if keys == [] then p else Replay(HandleKey(p, keys[0]), keys[1..])
  }

  /** How many times `key` occurs in `keys`. */
  function Count(keys: seq<string>, key: string): nat
    decreases |keys|
  {
    if keys == [] then 0 else (if keys[0] == key then 1 else 0) + Count(keys[1..], key)
  }

  /**
   * Any sequence of keys moves the pose by its key counts alone: y by ups
   * minus downs, z by 'w's minus 's's, yaw by 5 per right minus left; x,
   * pitch and roll never change.
   */
  lemma {:induction false} NetMotion(p: Pose, keys: seq<string>)
    ensures Replay(p, keys) == Pose(
      Position(p.position.x,
               p.position.y + Count(keys, "ArrowUp") - Count(keys, "ArrowDown"),
               p.position.z + Count(keys, "w") - Count(keys, "s")),
      Rotation(p.rotation.yaw + 5 * (Count(keys, "ArrowRight") - Count(keys, "ArrowLeft")),
               p.rotation.pitch,
               p.rotation.roll))
    decreases |keys|
  {
    if keys != [] {
      NetMotion(HandleKey(p, keys[0]), keys[1..]);
    }
  }

  /** Starting from the origin, x, pitch and roll stay zero whatever keys are pressed. */
  lemma {:induction false} UntouchedAxesStayZero(keys: seq<string>)
    ensures Replay(Origin, keys).position.x == 0
    ensures Replay(Origin, keys).rotation.pitch == 0 && Replay(Origin, keys).rotation.roll == 0
  {
    NetMotion(Origin, keys);
  }

  /** `SpatialNavigationHandler`: the keydown handler updates the two fields in place. */
  class SpatialNavigationHandler {
    var position: Position
    var rotation: Rotation

    constructor ()
      ensures Pose(position, rotation) == Origin
    {
      position := Position(0, 0, 0);
      rotation := Rotation(0, 0, 0);
    }

    /** Apply one key, then report the pose as the handler logs it. */
    method HandleKeyInput(key: string) returns (logged: Pose)
      modifies this
      ensures Pose(position, rotation) == HandleKey(old(Pose(position, rotation)), key)
      ensures logged == Pose(position, rotation)
    {
      if key == "ArrowUp" {
        position := position.(y := position.y + 1);
      } else if key == "ArrowDown" {
        position := position.(y := position.y - 1);
      } else if key == "ArrowLeft" {
        rotation := rotation.(yaw := rotation.yaw - 5);
      } else if key == "ArrowRight" {
        rotation := rotation.(yaw := rotation.yaw + 5);
      } else if key == "w" {
        position := position.(z := position.z + 1);
      } else if key == "s" {
        position := position.(z := position.z - 1);
      }
      logged := Pose(position, rotation);
    }
  }
}
