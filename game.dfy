/** The mutable module-level state of the game and the handlers that update it in place. */
module Game {
  import opened Geometry
  import opened Bounds
  import opened DayNight
  import opened Controls

  /** The scene-graph parent of the camera. */
  datatype Mount = OnPlayer | OnCar | Unmounted

  datatype Option<T> = None | Some(value: T)

  /** Radians of yaw or pitch per pixel of mouse movement. */
  const ROTATION_SPEED: real := 0.002
  /** The car can be entered only from strictly closer than this. */
  const ENTER_RADIUS: real := 15.0
  /** Where an exiting player is put, relative to the car. */
  const EXIT_OFFSET := Vec3(5.0, 0.0, 0.0)

  class GameState {
    var moveState: MoveState
    var isShooting: bool
    var isInCar: bool
    var cameraMount: Mount
    var playerInScene: bool
    var player: Vec3
    var car: Vec3
    var playerYaw: real
    var carYaw: real
    /** The camera's rotation about x. */
    var pitch: real
    var timeOfDay: real
    var sunIntensity: real
    var sunColor: Rgb
    /** The phase the HUD shows; None until the first frame writes it. */
    var hudPhase: Option<Phase>
    /** The scene background; None until the first frame sets it. */
    var background: Option<Rgb>
    /** The pitch limit `Math.PI / 4`; only its positivity is used. */
    const quarterPi: real

    ghost predicate Valid()
      reads this
    {
      && 0.0 < quarterPi && -quarterPi <= pitch <= quarterPi
      && (isInCar <==> cameraMount == OnCar)
      && (playerInScene <==> !isInCar)
      && InBounds(car)
      && -1.0 < timeOfDay < 1.0
      && sunIntensity == SkyAt(timeOfDay).sunIntensity
      && sunColor == SkyAt(timeOfDay).sunColor
      && (hudPhase.Some? ==> hudPhase.value == SkyAt(timeOfDay).phase)
      && (background.Some? ==> background.value == Dim(sunColor))
    }

    /** The distance the host measures between player and car. */
    predicate IsPlayerCarDistance(d: real)
      reads this
    {
      IsDistance(d, player, car)
    }

    /** State after `setupLights`, `setupPlayer`, `loadCar` and the declarations. */
    constructor (quarterPi: real)
      requires 0.0 < quarterPi
      ensures Valid()
      ensures this.quarterPi == quarterPi
      ensures moveState == IDLE && !isShooting && !isInCar
      ensures cameraMount == OnPlayer && playerInScene
      ensures player == Vec3(0.0, GROUND_Y, 0.0) && car == Vec3(50.0, 1.0, 50.0)
      ensures playerYaw == 0.0 && carYaw == 0.0 && pitch == 0.0
      ensures timeOfDay == 0.5 && sunIntensity == 1.5 && sunColor == DAY_COLOR
      ensures hudPhase == None && background == None
    {
      this.quarterPi := quarterPi;
      moveState := IDLE;
      isShooting, isInCar := false, false;
      cameraMount, playerInScene := OnPlayer, true;
      player := Vec3(0.0, GROUND_Y, 0.0);
      car := Vec3(50.0, 1.0, 50.0);
      playerYaw, carYaw, pitch := 0.0, 0.0, 0.0;
      timeOfDay := 0.5;
      sunIntensity, sunColor := 1.5, DAY_COLOR;
      hudPhase, background := None, None;
    }

    /** What `toggleCar` does to the mode fields, given the measured distance. */
    twostate predicate CarToggled(distance: real)
      reads this
    {
      if !old(isInCar) then
        if distance < ENTER_RADIUS then
          isInCar && !playerInScene && cameraMount == OnCar && player == old(player)
        else
          && isInCar == old(isInCar) && playerInScene == old(playerInScene)
          && cameraMount == old(cameraMount) && player == old(player)
      else
        !isInCar && playerInScene && cameraMount == Unmounted && player == Add(old(car), EXIT_OFFSET)
    }

    method ToggleCar(distance: real)
      requires Valid() && IsPlayerCarDistance(distance)
      modifies this`isInCar, this`playerInScene, this`cameraMount, this`player
      ensures Valid()
      ensures CarToggled(distance)
      ensures !old(isInCar) ==> (isInCar <==> SquaredDistance(player, car) < ENTER_RADIUS * ENTER_RADIUS)
    {
      WithinReach(distance, ENTER_RADIUS, player, car);
      if !isInCar {
        if distance < ENTER_RADIUS {
          isInCar := true;
          playerInScene := false;
          cameraMount := OnCar;
        }
      } else {
        isInCar := false;
        cameraMount := Unmounted;
        playerInScene := true;
        player := Add(car, EXIT_OFFSET);
      }
    }

    method OnKeyDown(code: string, distance: real)
      requires Valid() && IsPlayerCarDistance(distance)
      modifies this`moveState, this`isShooting
      modifies this`isInCar, this`playerInScene, this`cameraMount, this`player
      ensures Valid()
      ensures moveState == WithKey(old(moveState), code, true)
      ensures isShooting == (old(isShooting) || code == "Space")
      ensures code == "KeyE" ==> CarToggled(distance)
      ensures code != "KeyE" ==>
                && isInCar == old(isInCar) && playerInScene == old(playerInScene)
                && cameraMount == old(cameraMount) && player == old(player)
    {
      if code == "KeyW" {
        moveState := moveState.(forward := true);
      } else if code == "KeyS" {
        moveState := moveState.(backward := true);
      } else if code == "KeyA" {
        moveState := moveState.(left := true);
      } else if code == "KeyD" {
        moveState := moveState.(right := true);
      } else if code == "KeyE" {
        ToggleCar(distance);
      } else if code == "Space" {
        isShooting := true;
      }
    }

    method OnKeyUp(code: string)
      modifies this`moveState, this`isShooting
      ensures moveState == WithKey(old(moveState), code, false)
      ensures isShooting == (old(isShooting) && code != "Space")
    {
      if code == "KeyW" {
        moveState := moveState.(forward := false);
      } else if code == "KeyS" {
        moveState := moveState.(backward := false);
      } else if code == "KeyA" {
        moveState := moveState.(left := false);
      } else if code == "KeyD" {
        moveState := moveState.(right := false);
      } else if code == "Space" {
        isShooting := false;
      }
    }

    /** The `mousemove` handler; `locked` says whether the pointer is captured by the canvas. */
    method OnMouseMove(locked: bool, movementX: real, movementY: real)
      requires Valid()
      modifies this`playerYaw, this`carYaw, this`pitch
      ensures Valid()
      ensures -quarterPi <= pitch <= quarterPi
      ensures !locked ==> playerYaw == old(playerYaw) && carYaw == old(carYaw) && pitch == old(pitch)
      ensures locked && !isInCar ==>
                && playerYaw == old(playerYaw) - movementX * ROTATION_SPEED
                && pitch == Clamp(-quarterPi, quarterPi, old(pitch) - movementY * ROTATION_SPEED)
                && carYaw == old(carYaw)
      ensures locked && isInCar ==>
                && carYaw == old(carYaw) - movementX * ROTATION_SPEED * 2.0
                && playerYaw == old(playerYaw) && pitch == old(pitch)
    {
      if locked {
        if !isInCar {
          playerYaw := playerYaw - movementX * ROTATION_SPEED;
          var newPitch := pitch - movementY * ROTATION_SPEED;
          pitch := Clamp(-quarterPi, quarterPi, newPitch);
        } else {
          carYaw := carYaw - movementX * ROTATION_SPEED * 2.0;
        }
      }
    }

    /** The time wrap and phase bands of `updateDayNightCycle`. */
    method UpdateDayNightCycle(delta: real)
      requires Valid()
      modifies this`timeOfDay, this`sunIntensity, this`sunColor, this`hudPhase, this`background
      ensures Valid()
      ensures timeOfDay == Advance(old(timeOfDay), delta)
      ensures 0.0 <= old(timeOfDay) && 0.0 <= delta ==> 0.0 <= timeOfDay < 1.0
      ensures IsWhole(old(timeOfDay) + delta * TIME_SPEED - timeOfDay)
      ensures hudPhase == Some(SkyAt(timeOfDay).phase)
      ensures sunIntensity == SkyAt(timeOfDay).sunIntensity && sunColor == SkyAt(timeOfDay).sunColor
      ensures background == Some(Dim(sunColor))
    {
      timeOfDay := RemOne(timeOfDay + delta * TIME_SPEED);
      if timeOfDay < 0.25 || timeOfDay > 0.75 {
        sunColor := NIGHT_COLOR;
        sunIntensity := 0.1;
        hudPhase := Some(Night);
      } else if timeOfDay < 0.35 || timeOfDay > 0.65 {
        sunColor := TWILIGHT_COLOR;
        sunIntensity := 0.8;
        hudPhase := Some(if timeOfDay < 0.5 then Dawn else Dusk);
      } else {
        sunColor := DAY_COLOR;
        sunIntensity := 1.5;
        hudPhase := Some(Day);
      }
      background := Some(Dim(sunColor));
    }

    /** The translation and clamp tail of `updateMovement`; `shift` is the frame's
        world-frame displacement of the active entity. */
    method UpdateMovement(shift: Shift)
      requires Valid()
      modifies this`player, this`car
      ensures Valid()
      ensures !isInCar ==> player == Step(old(player), shift, true) && car == old(car)
      ensures isInCar ==> car == Step(old(car), shift, false) && player == old(player)
      ensures Confined(if isInCar then car else player, !isInCar)
    {
      if !isInCar {
        player := Vec3(player.x + shift.dx, player.y, player.z + shift.dz);
        player := player.(x := Clamp(-HALF_MAP, HALF_MAP, player.x));
        player := player.(z := Clamp(-HALF_MAP, HALF_MAP, player.z));
        player := player.(y := GROUND_Y);
      } else {
        car := Vec3(car.x + shift.dx, car.y, car.z + shift.dz);
        car := car.(x := Clamp(-HALF_MAP, HALF_MAP, car.x));
        car := car.(z := Clamp(-HALF_MAP, HALF_MAP, car.z));
      }
    }
  }

  /** Entering the car and leaving it at once: the player is back on foot beside the car,
      and the camera is left with no parent. */
  method EnterThenExit(g: GameState, distance: real)
    requires g.Valid() && g.IsPlayerCarDistance(distance)
    requires !g.isInCar && distance < ENTER_RADIUS
    modifies g`isInCar, g`playerInScene, g`cameraMount, g`player
    ensures g.Valid()
    ensures !g.isInCar && g.playerInScene && g.cameraMount == Unmounted
    ensures g.car == old(g.car) && g.player == Add(g.car, EXIT_OFFSET)
  {
    g.ToggleCar(distance);
    assert g.isInCar;
    g.ToggleCar(distance);
  }
}
