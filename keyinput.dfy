/**
  The keyboard handler of the demo (Main.cpp:44-115): a small state machine
  over the program's global switches. Keys toggle wind, drag and the printing
  of the elapsed time, switch among the three colliders (at most one of them
  on), and reset the character.
 */
module KeyInput {
  import opened Solvers
  import opened Colliders
  import opened Characters

  /** GLFW's codes for the keys the handler reacts to, and for a press. */
  const KEY_SPACE: int := 32
  const KEY_B: int := 66
  const KEY_C: int := 67
  const KEY_D: int := 68
  const KEY_I: int := 73
  const KEY_P: int := 80
  const KEY_V: int := 86
  const PRESS: int := 1

  /** The viewing angle while a collider is shown, and otherwise
      (Main.cpp:56, 83). */
  const CLOSE_ANGLE: real := 70.0
  const WIDE_ANGLE: real := 25.0

  /** The global switches key_callback reads and writes (Main.cpp:45-56). */
  datatype Settings = Settings(
    windEnabled: bool, printElapsedTime: bool, dragEnabled: bool,
    capsuleActive: bool, sphereActive: bool, planeActive: bool,
    timer: real, viewingAngle: real)

  /** C, V and B switch the colliders. */
  predicate IsColliderKey(key: int) {
    key == KEY_C || key == KEY_V || key == KEY_B
  }

  /** SPACE, P and D each flip one switch. */
  predicate IsSwitchKey(key: int) {
    key == KEY_SPACE || key == KEY_P || key == KEY_D
  }

  /** At most one of the three colliders is switched on. */
  predicate AtMostOneCollider(s: Settings) {
    && !(s.capsuleActive && s.sphereActive) && !(s.capsuleActive && s.planeActive)
    && !(s.sphereActive && s.planeActive)
  }

  /** The switches after key_callback(key, action) (Main.cpp:58-113). */
  function KeyEffect(s: Settings, key: int, action: int): (r: Settings)
    // anything but a press, and any other key, changes nothing
    ensures action != PRESS ==> r == s
    ensures !IsColliderKey(key) && key != KEY_I && key != KEY_SPACE && key != KEY_P && key != KEY_D ==> r == s
    // a collider key toggles its own collider, switches the other two off,
    // restarts the timer and sets the angle by whether that collider is on
    ensures action == PRESS && key == KEY_C ==>
      && r.capsuleActive == !s.capsuleActive && !r.sphereActive && !r.planeActive
      && r.timer == 0.0 && r.viewingAngle == (if r.capsuleActive then CLOSE_ANGLE else WIDE_ANGLE)
      && r.windEnabled == s.windEnabled
    ensures action == PRESS && key == KEY_V ==>
      && r.sphereActive == !s.sphereActive && !r.capsuleActive && !r.planeActive
      && r.timer == 0.0 && r.viewingAngle == (if r.sphereActive then CLOSE_ANGLE else WIDE_ANGLE)
      && r.windEnabled == s.windEnabled
    ensures action == PRESS && key == KEY_B ==>
      && r.planeActive == !s.planeActive && !r.capsuleActive && !r.sphereActive
      && r.timer == 0.0 && r.viewingAngle == (if r.planeActive then CLOSE_ANGLE else WIDE_ANGLE)
      && r.windEnabled
    // after any collider key at most one collider is on
    ensures action == PRESS && IsColliderKey(key) ==> AtMostOneCollider(r)
    // SPACE, D and P each toggle one switch and nothing else
    ensures action == PRESS && key == KEY_SPACE ==> r == s.(windEnabled := !s.windEnabled)
    ensures action == PRESS && key == KEY_D ==> r == s.(dragEnabled := !s.dragEnabled)
    ensures action == PRESS && key == KEY_P ==> r == s.(printElapsedTime := !s.printElapsedTime)
    // I only restarts the timer (and resets the character)
    ensures action == PRESS && key == KEY_I ==> r == s.(timer := 0.0)
    // drag and the printing switch change only through their own keys
    ensures key != KEY_D ==> r.dragEnabled == s.dragEnabled
    ensures key != KEY_P ==> r.printElapsedTime == s.printElapsedTime
  {
    if action != PRESS then s
    else if key == KEY_I then s.(timer := 0.0)
    else if key == KEY_SPACE then s.(windEnabled := !s.windEnabled)
    else if key == KEY_P then s.(printElapsedTime := !s.printElapsedTime)
    else if key == KEY_D then s.(dragEnabled := !s.dragEnabled)
    else if key == KEY_C then
      var on := !s.capsuleActive;
      s.(capsuleActive := on, sphereActive := false, planeActive := false,
         timer := 0.0, viewingAngle := if on then CLOSE_ANGLE else WIDE_ANGLE)
    else if key == KEY_V then
      var on := !s.sphereActive;
      s.(sphereActive := on, capsuleActive := false, planeActive := false,
         timer := 0.0, viewingAngle := if on then CLOSE_ANGLE else WIDE_ANGLE)
    else if key == KEY_B then
      var on := !s.planeActive;
      s.(planeActive := on, capsuleActive := false, sphereActive := false,
         timer := 0.0, viewingAngle := if on then CLOSE_ANGLE else WIDE_ANGLE, windEnabled := true)
    else s
  }

  /** Whatever keys are pressed, at most one collider stays on once at most
      one was: the collider keys switch the others off and no other key
      touches the three switches. */
  lemma {:induction false} OneColliderKept(s: Settings, keys: seq<int>)
    requires AtMostOneCollider(s)
    ensures AtMostOneCollider(Typed(s, keys))
    decreases |keys|
  {
    if keys != [] {
      var t := KeyEffect(s, keys[0], PRESS);
      assert t.capsuleActive == s.capsuleActive || IsColliderKey(keys[0]);
      OneColliderKept(t, keys[1..]);
    }
  }

  /** The switches after pressing each key of `keys` in turn. */
  function Typed(s: Settings, keys: seq<int>): Settings
    decreases |keys|
  {
    if keys == [] then s else Typed(KeyEffect(s, keys[0], PRESS), keys[1..])
  }

  /** Pressing the same collider key twice gives that collider back its
      state and leaves the other two off. */
  lemma ToggleTwice(s: Settings, key: int)
    requires IsColliderKey(key)
    ensures var r := KeyEffect(KeyEffect(s, key, PRESS), key, PRESS);
      && r.capsuleActive == (key == KEY_C && s.capsuleActive)
      && r.sphereActive == (key == KEY_V && s.sphereActive)
      && r.planeActive == (key == KEY_B && s.planeActive)
      && r.timer == 0.0
  {
  }

  /** The program's globals around the handler: the switches, the three
      colliders, the character and the integration scheme it is reset with
      (Main.cpp:37-56). */
  class Controls {
    var windEnabled: bool
    var printElapsedTime: bool
    var dragEnabled: bool
    var capsuleActive: bool
    var sphereActive: bool
    var planeActive: bool
    var timer: real
    var viewingAngle: real
    const character: Character
    const sphereCollider: SphereCollider
    const capsuleCollider: CapsuleCollider
    const planeCollider: PlaneCollider
    const currentIntegrationScheme: IntegrationScheme

    /** The three colliders are three objects, and the character is valid. */
    ghost predicate Valid()
      reads character, character.body.solver, character.body.constraints
    {
      character.Valid() && Distinct()
    }

    /** The three colliders are three objects. */
    predicate Distinct() {
      && sphereCollider.base != capsuleCollider.base && sphereCollider.base != planeCollider.base
      && capsuleCollider.base != planeCollider.base
    }

    /** The switches as a value. */
    function Current(): Settings
      reads this
    {
      Settings(windEnabled, printElapsedTime, dragEnabled, capsuleActive, sphereActive, planeActive,
               timer, viewingAngle)
    }

    /** Each collider is active exactly while its switch is on. */
    predicate Shown()
      reads this, sphereCollider.base, capsuleCollider.base, planeCollider.base
    {
      && sphereCollider.base.active == sphereActive && capsuleCollider.base.active == capsuleActive
      && planeCollider.base.active == planeActive
    }

    /** The initial values of Main.cpp:45-56, around colliders and a
        character made elsewhere. */
    constructor (character: Character, sphereCollider: SphereCollider, capsuleCollider: CapsuleCollider,
                 planeCollider: PlaneCollider)
      ensures Current() == Settings(false, false, true, false, false, false, 0.0, WIDE_ANGLE)
      ensures this.character == character && this.sphereCollider == sphereCollider
      ensures this.capsuleCollider == capsuleCollider && this.planeCollider == planeCollider
      ensures currentIntegrationScheme == Verlet
    {
      windEnabled := false;
      printElapsedTime := false;
      dragEnabled := true;
      capsuleActive := false;
      sphereActive := false;
      planeActive := false;
      timer := 0.0;
      viewingAngle := WIDE_ANGLE;
      this.character := character;
      this.sphereCollider := sphereCollider;
      this.capsuleCollider := capsuleCollider;
      this.planeCollider := planeCollider;
      currentIntegrationScheme := Verlet;
    }

    /** key_callback (Main.cpp:58-113): the switches move as KeyEffect
        says; a collider key hands each collider its switch; I resets the
        character with the current scheme. */
    method KeyCallback(key: int, action: int)
      requires Valid()
      modifies this, sphereCollider.base, capsuleCollider.base, planeCollider.base
      modifies character.body.solver`firstTimeStep, character.body.solver`integrationScheme
      modifies character.body.positions, character.body.oldPositions
      modifies character.body.velocities, character.body.accelerations
      ensures Valid()
      ensures Current() == KeyEffect(old(Current()), key, action)
      ensures if action == PRESS && IsColliderKey(key) then Shown()
        else && sphereCollider.base.active == old(sphereCollider.base.active)
             && capsuleCollider.base.active == old(capsuleCollider.base.active)
             && planeCollider.base.active == old(planeCollider.base.active)
      ensures if action == PRESS && key == KEY_I then
          && character.Posed() && character.body.solver.firstTimeStep
          && character.body.solver.integrationScheme == currentIntegrationScheme
        else
          unchanged(character.body.solver, character.body.positions, character.body.oldPositions,
                    character.body.velocities, character.body.accelerations)
    {
      if action == PRESS {
        if key == KEY_I {
          ResetCharacter();
        } else if IsSwitchKey(key) {
          FlipSwitch(key);
        } else if IsColliderKey(key) {
          PressColliderKey(key);
        }
      }
    }

    /** The I key (Main.cpp:61-64): the character is reset with the
        current scheme and the timer restarts. */
    method ResetCharacter()
      requires Valid()
      modifies this`timer
      modifies character.body.solver`firstTimeStep, character.body.solver`integrationScheme
      modifies character.body.positions, character.body.oldPositions
      modifies character.body.velocities, character.body.accelerations
      ensures Valid() && Current() == KeyEffect(old(Current()), KEY_I, PRESS)
      ensures && character.Posed() && character.body.solver.firstTimeStep
              && character.body.solver.integrationScheme == currentIntegrationScheme
    {
      character.Reinitialize(currentIntegrationScheme);
      timer := 0.0;
    }

    /** SPACE, P and D (Main.cpp:66-77): each flips its switch. */
    method FlipSwitch(key: int)
      requires IsSwitchKey(key)
      modifies this`windEnabled, this`printElapsedTime, this`dragEnabled
      ensures Current() == KeyEffect(old(Current()), key, PRESS)
    {
      if key == KEY_SPACE {
        windEnabled := !windEnabled;
      } else if key == KEY_P {
        printElapsedTime := !printElapsedTime;
      } else {
        dragEnabled := !dragEnabled;
      }
    }

    /** One of the collider keys (Main.cpp:78-111): its switch toggles, the
        other two go off, the timer restarts, the angle follows the switch,
        each collider gets its switch, and B turns the wind on. */
    method PressColliderKey(key: int)
      requires Distinct() && IsColliderKey(key)
      modifies this`capsuleActive, this`sphereActive, this`planeActive, this`timer, this`viewingAngle
      modifies this`windEnabled, sphereCollider.base, capsuleCollider.base, planeCollider.base
      ensures Current() == KeyEffect(old(Current()), key, PRESS) && Shown()
    {
      if key == KEY_C {
        capsuleActive := !capsuleActive;
        sphereActive := false;
        planeActive := false;
        timer := 0.0;
        viewingAngle := if capsuleActive then CLOSE_ANGLE else WIDE_ANGLE;
        ShowColliders();
      } else if key == KEY_V {
        sphereActive := !sphereActive;
        capsuleActive := false;
        planeActive := false;
        timer := 0.0;
        viewingAngle := if sphereActive then CLOSE_ANGLE else WIDE_ANGLE;
        ShowColliders();
      } else {
        planeActive := !planeActive;
        capsuleActive := false;
        sphereActive := false;
        timer := 0.0;
        viewingAngle := if planeActive then CLOSE_ANGLE else WIDE_ANGLE;
        ShowColliders();
        windEnabled := true;
      }
    }

    /** The three setActive calls of each collider key (Main.cpp:84-86,
        95-97, 106-108). */
    method ShowColliders()
      requires Distinct()
      modifies sphereCollider.base, capsuleCollider.base, planeCollider.base
      ensures Shown()
    {
      sphereCollider.base.SetActive(sphereActive);
      capsuleCollider.base.SetActive(capsuleActive);
      planeCollider.base.SetActive(planeActive);
    }
  }
}
