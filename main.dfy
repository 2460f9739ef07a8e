/** The input-mode state machine of Main.cpp: the globals the GLFW callbacks,
    the menu's demo buttons and the help window update, kept in one
    `Application` object. Each callback is a method whose new state is tied to a
    pure step function; the properties of the machine are proved about those. */
module Input {
  import opened Geometry
  import opened Camera

  /** EState */
  datatype EState = OnGame | OnMenu | OnDemo

  // The GLFW codes the callbacks compare against (values of glfw3.h).
  const GLFW_PRESS: int := 1
  const GLFW_KEY_ESCAPE: int := 256
  const GLFW_KEY_R: int := 82
  const GLFW_KEY_H: int := 72
  const GLFW_KEY_W: int := 87
  const GLFW_KEY_S: int := 83
  const GLFW_KEY_A: int := 65
  const GLFW_KEY_D: int := 68
  const GLFW_KEY_E: int := 69
  const GLFW_KEY_Q: int := 81
  const GLFW_KEY_LEFT_SHIFT: int := 340

  /** SCR_WIDTH and SCR_HEIGHT */
  const SCR_WIDTH: int := 1920
  const SCR_HEIGHT: int := 1080

  /** IM_ARRAYSIZE(FPSValues) */
  const FPS_VALUES_COUNT: int := 120

  /** The part of the globals the mode machine moves between. */
  datatype Controls = Controls(state: EState, firstMouse: bool, terrainTime: real, showHelp: bool,
                               dlDemo: bool, plDemo: bool, slDemo: bool)

  /** The globals as the program starts. */
  const INITIAL_CONTROLS: Controls := Controls(OnGame, true, 10.0, true, false, false, false)

  /** A demo runs exactly while the state is OnDemo. */
  predicate Consistent(c: Controls) {
    (c.state == OnDemo) == (c.dlDemo || c.plDemo || c.slDemo)
  }

  /** KeyCallback on the mode globals. */
  function KeyStep(c: Controls, key: int, action: int): (r: Controls)
    // only presses do anything
    ensures action != GLFW_PRESS ==> r == c
    // Escape: game -> menu (no fall-through back to the game), menu -> game
    // with the mouse re-anchored, demo -> menu with every demo stopped
    ensures key == GLFW_KEY_ESCAPE && action == GLFW_PRESS && c.state == OnGame ==> r == c.(state := OnMenu)
    ensures key == GLFW_KEY_ESCAPE && action == GLFW_PRESS && c.state == OnMenu
         ==> r == c.(state := OnGame, firstMouse := true)
    ensures key == GLFW_KEY_ESCAPE && action == GLFW_PRESS && c.state == OnDemo
         ==> r == c.(state := OnMenu, dlDemo := false, plDemo := false, slDemo := false)
    // R fast-forwards the terrain by 1000, in the game only
    ensures key == GLFW_KEY_R && action == GLFW_PRESS
         ==> r == c.(terrainTime := if c.state == OnGame then c.terrainTime + 1000.0 else c.terrainTime)
    // H toggles the help window in every state
    ensures key == GLFW_KEY_H && action == GLFW_PRESS ==> r == c.(showHelp := !c.showHelp)
    // any other key changes nothing
    ensures key != GLFW_KEY_ESCAPE && key != GLFW_KEY_R && key != GLFW_KEY_H ==> r == c
  {
    var pressed := action == GLFW_PRESS;
    var c :=
      if c.state == OnGame then
        var c := if key == GLFW_KEY_ESCAPE && pressed then c.(state := OnMenu) else c;
        if key == GLFW_KEY_R && pressed then c.(terrainTime := c.terrainTime + 1000.0) else c
      else if c.state == OnMenu then
        if key == GLFW_KEY_ESCAPE && pressed then c.(state := OnGame, firstMouse := true) else c
      else
        if key == GLFW_KEY_ESCAPE && pressed
        then c.(state := OnMenu, dlDemo := false, plDemo := false, slDemo := false)
        else c;
    if key == GLFW_KEY_H && pressed then c.(showHelp := !c.showHelp) else c
  }

  /** The demo buttons of one frame of the main loop: the Demos window exists
      only in the menu, and each clicked button enters OnDemo with its own flag. */
  function MenuStep(c: Controls, dlClicked: bool, plClicked: bool, slClicked: bool): (r: Controls)
    ensures c.state != OnMenu ==> r == c
    ensures c.state == OnMenu && !(dlClicked || plClicked || slClicked) ==> r == c
    ensures c.state == OnMenu && (dlClicked || plClicked || slClicked)
         ==> r == c.(state := OnDemo, dlDemo := c.dlDemo || dlClicked,
                     plDemo := c.plDemo || plClicked, slDemo := c.slDemo || slClicked)
  {
    if c.state != OnMenu then c
    else
      var c := if dlClicked then c.(state := OnDemo, dlDemo := true) else c;
      var c := if plClicked then c.(state := OnDemo, plDemo := true) else c;
      if slClicked then c.(state := OnDemo, slDemo := true) else c
  }

  /** Pressing H twice restores the help flag and everything else. */
  lemma HelpToggleInvolution(c: Controls)
    ensures KeyStep(KeyStep(c, GLFW_KEY_H, GLFW_PRESS), GLFW_KEY_H, GLFW_PRESS) == c
  {
    var once := KeyStep(c, GLFW_KEY_H, GLFW_PRESS);
    assert once == c.(showHelp := !c.showHelp);
  }

  /** Escape from the game and Escape again returns to the game, with the next
      mouse event taken as the new anchor. */
  lemma EscapeRoundTrip(c: Controls)
    requires c.state == OnGame
    ensures KeyStep(KeyStep(c, GLFW_KEY_ESCAPE, GLFW_PRESS), GLFW_KEY_ESCAPE, GLFW_PRESS)
         == c.(firstMouse := true)
  {
    var menu := KeyStep(c, GLFW_KEY_ESCAPE, GLFW_PRESS);
    assert menu == c.(state := OnMenu);
  }

  /** Escape keeps "a demo runs exactly in OnDemo". */
  lemma KeyStepConsistent(c: Controls, key: int, action: int)
    requires Consistent(c)
    ensures Consistent(KeyStep(c, key, action))
  {
  }

  /** The demo buttons keep "a demo runs exactly in OnDemo". */
  lemma MenuStepConsistent(c: Controls, dlClicked: bool, plClicked: bool, slClicked: bool)
    requires Consistent(c)
    ensures Consistent(MenuStep(c, dlClicked, plClicked, slClicked))
  {
  }

  /** An input the mode machine reacts to. */
  datatype Event = KeyEvent(key: int, action: int) | MenuFrame(dlClicked: bool, plClicked: bool, slClicked: bool)

  function Step(c: Controls, e: Event): Controls {
    match e
    case KeyEvent(key, action) => KeyStep(c, key, action)
    case MenuFrame(dl, pl, sl) => MenuStep(c, dl, pl, sl)
  }

  /** The mode globals after a sequence of events. */
  function Run(c: Controls, events: seq<Event>): Controls
    decreases |events|
  {
    if |events| == 0 then c else Step(Run(c, events[..|events| - 1]), events[|events| - 1])
  }

  /** From the start of the program, whatever happens, a demo runs exactly
      while the state is OnDemo; so leaving OnDemo always stops every demo. */
  lemma {:induction false} RunConsistent(events: seq<Event>)
    ensures Consistent(Run(INITIAL_CONTROLS, events))
    decreases |events|
  {
    if |events| > 0 {
      var before := Run(INITIAL_CONTROLS, events[..|events| - 1]);
      RunConsistent(events[..|events| - 1]);
      match events[|events| - 1]
      case KeyEvent(key, action) => KeyStepConsistent(before, key, action);
      case MenuFrame(dl, pl, sl) => MenuStepConsistent(before, dl, pl, sl);
    }
  }

  /** The next write position of the FPS ring buffer. */
  function NextFPSOffset(offset: int): (r: int)
    requires 0 <= offset < FPS_VALUES_COUNT
    ensures 0 <= r < FPS_VALUES_COUNT
    ensures r == if offset == FPS_VALUES_COUNT - 1 then 0 else offset + 1
  {
    (offset + 1) % FPS_VALUES_COUNT
  }

  /** The write position after `n` frames with the help window shown. */
  function AdvanceFPSOffset(offset: int, n: nat): int
    requires 0 <= offset < FPS_VALUES_COUNT
    ensures 0 <= AdvanceFPSOffset(offset, n) < FPS_VALUES_COUNT
  {
    if n == 0 then offset else NextFPSOffset(AdvanceFPSOffset(offset, n - 1))
  }

  /** `n` updates move the offset `n` places round the ring; after 120 it is
      back where it started. */
  lemma {:induction false} AdvanceFPSOffsetModular(offset: int, n: nat)
    requires 0 <= offset < FPS_VALUES_COUNT
    ensures AdvanceFPSOffset(offset, n) == (offset + n) % FPS_VALUES_COUNT
    ensures n == FPS_VALUES_COUNT ==> AdvanceFPSOffset(offset, n) == offset
  {
    if n > 0 {
      AdvanceFPSOffsetModular(offset, n - 1);
      var k := (offset + n - 1) % FPS_VALUES_COUNT;
      var q := (offset + n - 1) / FPS_VALUES_COUNT;
      assert offset + n - 1 == q * FPS_VALUES_COUNT + k;
      if k == FPS_VALUES_COUNT - 1 {
        assert offset + n == (q + 1) * FPS_VALUES_COUNT;
      } else {
        assert offset + n == q * FPS_VALUES_COUNT + (k + 1);
      }
    }
  }

  /** Camera position after ProcessInput with the keys in `held` down: the W, S,
      A, D, E and Q movements, in that order. */
  function HeldPosition(p: Vec3, front: Vec3, right: Vec3, up: Vec3, held: set<int>, velocity: real): Vec3 {
    var p := if GLFW_KEY_W in held then Moved(p, front, right, up, Forward, velocity) else p;
    var p := if GLFW_KEY_S in held then Moved(p, front, right, up, Backward, velocity) else p;
    var p := if GLFW_KEY_A in held then Moved(p, front, right, up, Left, velocity) else p;
    var p := if GLFW_KEY_D in held then Moved(p, front, right, up, Right, velocity) else p;
    var p := if GLFW_KEY_E in held then Moved(p, front, right, up, Up, velocity) else p;
    if GLFW_KEY_Q in held then Moved(p, front, right, up, Down, velocity) else p
  }

  /** 1 when the key is held, 0 otherwise. */
  function Held(held: set<int>, key: int): real {
    if key in held then 1.0 else 0.0
  }

  /** Two opposite key movements along one axis, in either order, add up to
      one step scaled by the difference of the keys. */
  lemma PairNet(p: Vec3, axis: Vec3, v: real, plus: bool, minus: bool)
    ensures (var q := if plus then Add(p, Scale(axis, v)) else p;
             if minus then Sub(q, Scale(axis, v)) else q)
         == Add(p, Scale(axis, v * ((if plus then 1.0 else 0.0) - (if minus then 1.0 else 0.0))))
    ensures (var q := if minus then Sub(p, Scale(axis, v)) else p;
             if plus then Add(q, Scale(axis, v)) else q)
         == Add(p, Scale(axis, v * ((if plus then 1.0 else 0.0) - (if minus then 1.0 else 0.0))))
  {
    if plus && minus {
      assert v * (1.0 - 1.0) == 0.0;
    } else if plus {
      assert v * (1.0 - 0.0) == v;
    } else if minus {
      assert v * (0.0 - 1.0) == -v;
    } else {
      assert v * (0.0 - 0.0) == 0.0;
    }
  }

  /** The net displacement of ProcessInput: each axis moves by the difference of
      its two keys, so opposite keys held together cancel. */
  lemma HeldPositionNet(p: Vec3, front: Vec3, right: Vec3, up: Vec3, held: set<int>, velocity: real)
    ensures HeldPosition(p, front, right, up, held, velocity)
         == Add(Add(Add(p, Scale(front, velocity * (Held(held, GLFW_KEY_W) - Held(held, GLFW_KEY_S)))),
                        Scale(right, velocity * (Held(held, GLFW_KEY_D) - Held(held, GLFW_KEY_A)))),
                    Scale(up, velocity * (Held(held, GLFW_KEY_E) - Held(held, GLFW_KEY_Q))))
  {
    PairNet(p, front, velocity, GLFW_KEY_W in held, GLFW_KEY_S in held);
    var p2 := Add(p, Scale(front, velocity * (Held(held, GLFW_KEY_W) - Held(held, GLFW_KEY_S))));
    PairNet(p2, right, velocity, GLFW_KEY_D in held, GLFW_KEY_A in held);
    var p4 := Add(p2, Scale(right, velocity * (Held(held, GLFW_KEY_D) - Held(held, GLFW_KEY_A))));
    PairNet(p4, up, velocity, GLFW_KEY_E in held, GLFW_KEY_Q in held);
  }

  /** The globals of Main.cpp that the callbacks and the menu update. */
  class Application {
    var CurrentState: EState
    var FirstMouse: bool
    var TerrainTime: real
    var bShowHelp: bool
    var bDLDemo: bool
    var bPLDemo: bool
    var bSLDemo: bool
    var LastX: real
    var LastY: real
    var DeltaTime: real
    var LastFrame: real
    var FPSValues: array<real>
    var FPSValuesOffset: int
    var Camera: GCamera

    /** The globals the mode machine moves between. */
    function Mode(): Controls
      reads this`CurrentState, this`FirstMouse, this`TerrainTime, this`bShowHelp
      reads this`bDLDemo, this`bPLDemo, this`bSLDemo
    {
      Controls(CurrentState, FirstMouse, TerrainTime, bShowHelp, bDLDemo, bPLDemo, bSLDemo)
    }

    /** The ring buffer has its 120 slots and a write position inside it, a
        demo runs exactly while OnDemo, and the camera's zoom is in range. */
    ghost predicate Valid()
      reads this`FPSValues, this`FPSValuesOffset, this`Camera, Camera`Zoom
      reads this`CurrentState, this`FirstMouse, this`TerrainTime, this`bShowHelp
      reads this`bDLDemo, this`bPLDemo, this`bSLDemo
    {
      && FPSValues.Length == FPS_VALUES_COUNT
      && 0 <= FPSValuesOffset < FPS_VALUES_COUNT
      && Consistent(Mode())
      && Camera.ZoomInRange()
    }

    /** The globals' initialisers, with the camera placed at (0, 12, 26). */
    constructor (m: Numerics)
      ensures Valid() && fresh(FPSValues) && fresh(Camera)
      ensures Mode() == INITIAL_CONTROLS
      ensures FPSValues[..] == seq(FPS_VALUES_COUNT, _ => 0.0) && FPSValuesOffset == 0
      ensures LastX == SCR_WIDTH as real / 2.0 && LastY == SCR_HEIGHT as real / 2.0
      ensures DeltaTime == 0.0 && LastFrame == 0.0
      ensures Camera.Position == Vec3(0.0, 12.0, 26.0) && Camera.WorldUp == Vec3(0.0, 1.0, 0.0)
      ensures Camera.Yaw == YAW && Camera.Pitch == PITCH && Camera.Zoom == ZOOM
      ensures Camera.MovementSpeed == SPEED && Camera.MouseSensitivity == SENSITIVITY
    {
      CurrentState := OnGame;
      LastX := SCR_WIDTH as real / 2.0;
      LastY := SCR_HEIGHT as real / 2.0;
      Camera := new GCamera(m, Vec3(0.0, 12.0, 26.0));
      FirstMouse := true;
      DeltaTime := 0.0;
      LastFrame := 0.0;
      TerrainTime := 10.0;
      bShowHelp := true;
      FPSValues := new real[FPS_VALUES_COUNT](_ => 0.0);
      FPSValuesOffset := 0;
      bDLDemo := false;
      bPLDemo := false;
      bSLDemo := false;
    }

    /** KeyCallback: Escape moves between the modes, R fast-forwards the
        terrain in the game, H toggles the help window. */
    method KeyCallback(Key: int, Action: int)
      requires Valid()
      modifies this`CurrentState, this`FirstMouse, this`TerrainTime, this`bShowHelp
      modifies this`bDLDemo, this`bPLDemo, this`bSLDemo
      ensures Mode() == KeyStep(old(Mode()), Key, Action)
      ensures Valid()
    {
      if CurrentState == OnGame {
        if Key == GLFW_KEY_ESCAPE && Action == GLFW_PRESS {
          CurrentState := OnMenu;
        }
        if Key == GLFW_KEY_R && Action == GLFW_PRESS {
          TerrainTime := TerrainTime + 1000.0;
        }
      } else if CurrentState == OnMenu {
        if Key == GLFW_KEY_ESCAPE && Action == GLFW_PRESS {
          CurrentState := OnGame;
          FirstMouse := true;
        }
      } else if CurrentState == OnDemo {
        if Key == GLFW_KEY_ESCAPE && Action == GLFW_PRESS {
          CurrentState := OnMenu;
          bDLDemo := false;
          bPLDemo := false;
          bSLDemo := false;
        }
      }
      if Key == GLFW_KEY_H && Action == GLFW_PRESS {
        bShowHelp := !bShowHelp;
      }
      KeyStepConsistent(old(Mode()), Key, Action);
    }

    /** MouseCallback: in the game, turns the camera by the cursor's movement
        since the last event (none for the first event after entering the
        game); in any other mode nothing changes. */
    method MouseCallback(m: Numerics, PositionX: real, PositionY: real)
      requires Valid()
      modifies this`FirstMouse, this`LastX, this`LastY
      modifies Camera`Yaw, Camera`Pitch, Camera`Front, Camera`Right, Camera`Up
      ensures Valid()
      ensures CurrentState != OnGame ==> unchanged(this) && unchanged(Camera)
      ensures CurrentState == OnGame ==>
        && !FirstMouse && LastX == PositionX && LastY == PositionY
        && Camera.Yaw == old(Camera.Yaw) + Turn(PositionX - (if old(FirstMouse) then PositionX else old(LastX)), Camera.MouseSensitivity)
        && Camera.Pitch == TurnedPitch(old(Camera.Pitch),
                                       Turn((if old(FirstMouse) then PositionY else old(LastY)) - PositionY, Camera.MouseSensitivity),
                                       true)
        && IsBasis(m, Camera.Yaw, Camera.Pitch, Camera.WorldUp, Camera.Front, Camera.Right, Camera.Up)
    {
      if CurrentState == OnGame {
        if FirstMouse {
          LastX := PositionX;
          LastY := PositionY;
          FirstMouse := false;
        }
        var OffsetX := PositionX - LastX;
        var OffsetY := LastY - PositionY;
        LastX := PositionX;
        LastY := PositionY;
        Camera.ProcessMouseMovement(m, OffsetX, OffsetY);
      }
    }

    /** ScrollCallback: in the game, zooms the camera; otherwise nothing
        changes here. */
    method ScrollCallback(OffsetY: real)
      requires Valid()
      modifies Camera`Zoom
      ensures Valid()
      ensures CurrentState != OnGame ==> Camera.Zoom == old(Camera.Zoom)
      ensures CurrentState == OnGame ==> Camera.Zoom == ScrolledZoom(old(Camera.Zoom), OffsetY)
    {
      if CurrentState == OnGame {
        Camera.ProcessMouseScroll(OffsetY);
      }
    }

    /** ProcessInput with the keys in `held` down: in the game, Shift triples
        DeltaTime and each movement key moves the camera; in any other mode
        nothing changes. */
    method ProcessInput(held: set<int>)
      requires Valid()
      modifies this`DeltaTime, Camera`Position
      ensures Valid()
      ensures CurrentState != OnGame ==> DeltaTime == old(DeltaTime) && Camera.Position == old(Camera.Position)
      ensures CurrentState == OnGame ==>
        && DeltaTime == (if GLFW_KEY_LEFT_SHIFT in held then old(DeltaTime) * 3.0 else old(DeltaTime))
        && Camera.Position == HeldPosition(old(Camera.Position), Camera.Front, Camera.Right, Camera.Up,
                                           held, Velocity(Camera.MovementSpeed, DeltaTime))
    {
      if CurrentState == OnGame {
        if GLFW_KEY_LEFT_SHIFT in held {
          DeltaTime := DeltaTime * 3.0;
        }
        MoveCamera(held);
      }
    }

    /** The movement keys of ProcessInput, in the order it tests them. */
    method MoveCamera(held: set<int>)
      modifies Camera`Position
      ensures Camera.Position == HeldPosition(old(Camera.Position), Camera.Front, Camera.Right, Camera.Up,
                                              held, Velocity(Camera.MovementSpeed, DeltaTime))
    {
      ghost var front, right, up := Camera.Front, Camera.Right, Camera.Up;
      ghost var v := Velocity(Camera.MovementSpeed, DeltaTime);
      ghost var p := Camera.Position;
      if GLFW_KEY_W in held {
        Camera.ProcessKeyboard(Forward, DeltaTime);
        p := Moved(p, front, right, up, Forward, v);
      }
      assert Camera.Position == p;
      if GLFW_KEY_S in held {
        Camera.ProcessKeyboard(Backward, DeltaTime);
        p := Moved(p, front, right, up, Backward, v);
      }
      assert Camera.Position == p;
      if GLFW_KEY_A in held {
        Camera.ProcessKeyboard(Left, DeltaTime);
        p := Moved(p, front, right, up, Left, v);
      }
      assert Camera.Position == p;
      if GLFW_KEY_D in held {
        Camera.ProcessKeyboard(Right, DeltaTime);
        p := Moved(p, front, right, up, Right, v);
      }
      assert Camera.Position == p;
      if GLFW_KEY_E in held {
        Camera.ProcessKeyboard(Up, DeltaTime);
        p := Moved(p, front, right, up, Up, v);
      }
      assert Camera.Position == p;
      if GLFW_KEY_Q in held {
        Camera.ProcessKeyboard(Down, DeltaTime);
        p := Moved(p, front, right, up, Down, v);
      }
    }

    /** The FPS part of ShowHelp: stores the frame rate at the write position
        and advances it round the 120-slot ring. */
    method ShowHelp(Framerate: real)
      requires Valid()
      modifies this`FPSValuesOffset, FPSValues
      ensures Valid()
      ensures FPSValues[..] == old(FPSValues[..])[old(FPSValuesOffset) := Framerate]
      ensures FPSValuesOffset == NextFPSOffset(old(FPSValuesOffset))
    {
      FPSValues[FPSValuesOffset] := Framerate;
      FPSValuesOffset := (FPSValuesOffset + 1) % FPS_VALUES_COUNT;
    }

    /** The state-changing start of one frame of the main loop: the help window
        (when shown) records the frame rate, the menu's demo buttons (when the
        menu is open) start a demo, and the frame time is measured. */
    method Frame(Framerate: real, dlClicked: bool, plClicked: bool, slClicked: bool, CurrentFrame: real)
      requires Valid()
      modifies this`FPSValuesOffset, FPSValues, this`CurrentState, this`bDLDemo, this`bPLDemo, this`bSLDemo
      modifies this`DeltaTime, this`LastFrame
      ensures Valid()
      ensures Mode() == MenuStep(old(Mode()), dlClicked, plClicked, slClicked)
      ensures bShowHelp ==> FPSValues[..] == old(FPSValues[..])[old(FPSValuesOffset) := Framerate]
                            && FPSValuesOffset == NextFPSOffset(old(FPSValuesOffset))
      ensures !bShowHelp ==> FPSValues[..] == old(FPSValues[..]) && FPSValuesOffset == old(FPSValuesOffset)
      ensures DeltaTime == CurrentFrame - old(LastFrame) && LastFrame == CurrentFrame
    {
      if bShowHelp {
        ShowHelp(Framerate);
      }
      DemoButtons(dlClicked, plClicked, slClicked);
      DeltaTime := CurrentFrame - LastFrame;
      LastFrame := CurrentFrame;
    }

    /** The Demos window, drawn only while the menu is open: each clicked
        button enters OnDemo and starts its own demo. */
    method DemoButtons(dlClicked: bool, plClicked: bool, slClicked: bool)
      requires Valid()
      modifies this`CurrentState, this`bDLDemo, this`bPLDemo, this`bSLDemo
      ensures Valid()
      ensures Mode() == MenuStep(old(Mode()), dlClicked, plClicked, slClicked)
    {
      if CurrentState == OnMenu {
        if dlClicked {
          CurrentState := OnDemo;
          bDLDemo := true;
        }
        if plClicked {
          CurrentState := OnDemo;
          bPLDemo := true;
        }
        if slClicked {
          CurrentState := OnDemo;
          bSLDemo := true;
        }
      }
      MenuStepConsistent(old(Mode()), dlClicked, plClicked, slClicked);
    }
  }
}
