/** The particle-scene controller behind the hero banner
    (src/lib/animations/heroAnimation.ts, `initHeroAnimation`), as an abstract
    state machine. The rendering library is reduced to the fields the
    controller sets: background colour, the particle material's four
    theme-dependent parameters, the mesh's point data and rotation, camera
    aspect and the three buffer sizes, the renderer's dispose count. Every
    browser callback (pointer move, resize, class mutation, texture load,
    animation frame) is a method the environment calls; what it reads from the
    window, the clock or `Math.random` is passed in. */
module HeroAnimation {
  import opened Dom
  import StartupTheme

  // Colours, as 24-bit RGB values.
  const DarkBackground: int := 0x0a0a0a
  const LightBackground: int := 0xfffada
  const DarkParticleColor: int := 0x2563eb
  const LightParticleColor: int := 0x3b82f6

  /** Number of particles; the position buffer has three slots per particle. */
  const ParticleCount: nat := 1500
  const PositionSlots: nat := 3 * ParticleCount
  /** `Math.random()` is called four times per particle: x, y, z, scale. */
  const DrawsPerParticle: nat := 4
  const DrawCount: nat := DrawsPerParticle * ParticleCount

  datatype Blending = NormalBlending | AdditiveBlending

  /** The theme-dependent part of a `PointsMaterial`. */
  datatype MaterialParams = MaterialParams(color: int, blending: Blending, opacity: real, size: real)

  /** The scene background of lines 11 and 19. */
  function BackgroundFor(dark: bool): (c: int)
    ensures c == DarkBackground || c == LightBackground
    ensures (c == DarkBackground) == dark
  {
    if dark then DarkBackground else LightBackground
  }

  /** The two presets that `updateBackground` applies (lines 23-28). */
  function Preset(dark: bool): (m: MaterialParams)
    ensures m.color == (if dark then DarkParticleColor else LightParticleColor)
    ensures (m.blending == AdditiveBlending) == dark
    ensures 0.0 < m.opacity <= 1.0 && m.size > 0.0
  {
    if dark then MaterialParams(DarkParticleColor, AdditiveBlending, 0.9, 2.5)
    else MaterialParams(LightParticleColor, NormalBlending, 0.8, 2.2)
  }

  /** The parameters the material is created with (lines 111-120): colour,
      blending and opacity follow the theme captured when the controller was
      set up, and the size is 2.5 whatever the theme. */
  function CreationParams(initDark: bool): (m: MaterialParams)
    ensures m.size == 2.5
    ensures m == Preset(initDark).(size := 2.5)
  {
    MaterialParams(if initDark then DarkParticleColor else LightParticleColor,
                   if initDark then AdditiveBlending else NormalBlending,
                   if initDark then 0.9 else 0.8,
                   2.5)
  }

  /** The presets differ in every one of the four parameters. */
  lemma PresetsDifferEverywhere()
    ensures Preset(true).color != Preset(false).color
    ensures Preset(true).blending != Preset(false).blending
    ensures Preset(true).opacity != Preset(false).opacity
    ensures Preset(true).size != Preset(false).size
  {
  }

  /** Creation agrees with the preset of the captured theme except in size,
      so in a light theme the freshly created material is neither preset. */
  lemma CreationParamsAgainstPresets()
    ensures CreationParams(true) == Preset(true)
    ensures CreationParams(false) != Preset(false) && CreationParams(false) != Preset(true)
  {
  }

  // ---------------------------------------------------------------------------
  // The particle buffers (lines 95-105)

  /** Width of the box the particles are spread over, per axis (x, y, z). */
  function AxisExtent(axis: nat): real {
    if axis == 0 then 60.0 else if axis == 1 then 100.0 else 20.0
  }

  /** Half-width of the box per axis: the bounds the coordinates keep to. */
  function AxisBound(axis: nat): real {
    if axis == 0 then 30.0 else if axis == 1 then 50.0 else 10.0
  }

  /** Position slot `s` holds axis `s % 3` of particle `s / 3`, computed from
      that particle's draw for this axis. */
  function Coordinate(draws: seq<real>, s: nat): real
    requires |draws| == DrawCount && s < PositionSlots
  {
    (draws[DrawsPerParticle * (s / 3) + s % 3] - 0.5) * AxisExtent(s % 3)
  }

  /** The scale of particle `p` is its fourth draw. */
  function ScaleOf(draws: seq<real>, p: nat): real
    requires |draws| == DrawCount && p < ParticleCount
  {
    draws[DrawsPerParticle * p + 3]
  }

  function Positions(draws: seq<real>): seq<real>
    requires |draws| == DrawCount
  {
    seq(PositionSlots, s requires 0 <= s < PositionSlots => Coordinate(draws, s))
  }

  function Scales(draws: seq<real>): seq<real>
    requires |draws| == DrawCount
  {
    seq(ParticleCount, p requires 0 <= p < ParticleCount => ScaleOf(draws, p))
  }

  /** What `Math.random()` promises: every draw lies in [0, 1). */
  ghost predicate UnitDraws(draws: seq<real>) {
    forall j :: 0 <= j < |draws| ==> 0.0 <= draws[j] < 1.0
  }

  /** Every coordinate lies in its half-open box [-bound, bound), every scale
      in [0, 1). */
  ghost predicate CloudInBounds(positions: seq<real>, scales: seq<real>) {
    (forall s :: 0 <= s < |positions| ==> -AxisBound(s % 3) <= positions[s] < AxisBound(s % 3)) &&
    (forall p :: 0 <= p < |scales| ==> 0.0 <= scales[p] < 1.0)
  }

  /** Draws in [0, 1) give x in [-30, 30), y in [-50, 50), z in [-10, 10) and
      scales in [0, 1). */
  lemma CloudWithinBounds(draws: seq<real>)
    requires |draws| == DrawCount && UnitDraws(draws)
    ensures CloudInBounds(Positions(draws), Scales(draws))
  {
  }

  /** The fill loop of lines 97-105: a position buffer of 4500 slots and a
      scale buffer of 1500, filled in one pass with `i` stepping by 3.
      `draws` are the results of the `Math.random()` calls, in call order.
      The ghost write logs record the index of every store: each index of
      each buffer is written exactly once, in increasing order. */
  method FillParticleBuffers(draws: seq<real>)
    returns (pos: array<real>, scale: array<real>, ghost posWrites: seq<int>, ghost scaleWrites: seq<int>)
    requires |draws| == DrawCount
    ensures pos.Length == PositionSlots && scale.Length == ParticleCount
    ensures forall s :: 0 <= s < PositionSlots ==> pos[s] == Coordinate(draws, s)
    ensures forall p :: 0 <= p < ParticleCount ==> scale[p] == ScaleOf(draws, p)
    ensures pos[..] == Positions(draws) && scale[..] == Scales(draws)
    ensures |posWrites| == PositionSlots && forall j :: 0 <= j < |posWrites| ==> posWrites[j] == j
    ensures |scaleWrites| == ParticleCount && forall j :: 0 <= j < |scaleWrites| ==> scaleWrites[j] == j
  {
    pos := new real[PositionSlots];
    scale := new real[ParticleCount];
    posWrites, scaleWrites := [], [];
    var i := 0;
    var next := 0;  // index of the next `Math.random()` result
    while i < PositionSlots
      invariant 0 <= i <= PositionSlots && i % 3 == 0
      invariant next == DrawsPerParticle * (i / 3)
      invariant forall s :: 0 <= s < i ==> pos[s] == Coordinate(draws, s)
      invariant forall p :: 0 <= p < i / 3 ==> scale[p] == ScaleOf(draws, p)
      invariant |posWrites| == i && forall j :: 0 <= j < i ==> posWrites[j] == j
      invariant |scaleWrites| == i / 3 && forall j :: 0 <= j < i / 3 ==> scaleWrites[j] == j
    {
      pos[i] := (draws[next] - 0.5) * 60.0;
      pos[i + 1] := (draws[next + 1] - 0.5) * 100.0;
      pos[i + 2] := (draws[next + 2] - 0.5) * 20.0;
      scale[i / 3] := draws[next + 3];
      posWrites := posWrites + [i, i + 1, i + 2];
      scaleWrites := scaleWrites + [i / 3];
      next := next + DrawsPerParticle;
      i := i + 3;
    }
    assert pos[..] == Positions(draws);
    assert scale[..] == Scales(draws);
  }

  // ---------------------------------------------------------------------------
  // Pointer and frame formulas

  /** The stored pointer position, in normalised device coordinates. */
  datatype Pointer = Pointer(x: real, y: real)

  /** The mapping of lines 69-70 from client pixels to [-1, 1] on each axis,
      with y pointing up. */
  function NormalizePointer(clientX: real, clientY: real, innerWidth: real, innerHeight: real): (p: Pointer)
    requires innerWidth > 0.0 && innerHeight > 0.0
    ensures 0.0 <= clientX <= innerWidth ==> -1.0 <= p.x <= 1.0
    ensures 0.0 <= clientY <= innerHeight ==> -1.0 <= p.y <= 1.0
    ensures clientX == 0.0 ==> p.x == -1.0
    ensures clientX == innerWidth ==> p.x == 1.0
    ensures clientY == 0.0 ==> p.y == 1.0
    ensures clientY == innerHeight ==> p.y == -1.0
  {
    Pointer((clientX / innerWidth) * 2.0 - 1.0, -(clientY / innerHeight) * 2.0 + 1.0)
  }

  /** Moving the pointer down lowers y and moving it right raises x. */
  lemma PointerOrientation(x1: real, y1: real, x2: real, y2: real, w: real, h: real)
    requires w > 0.0 && h > 0.0
    ensures x1 < x2 ==> NormalizePointer(x1, y1, w, h).x < NormalizePointer(x2, y2, w, h).x
    ensures y1 < y2 ==> NormalizePointer(x1, y1, w, h).y > NormalizePointer(x2, y2, w, h).y
  {
    if x1 < x2 { assert x1 / w < x2 / w; }
    if y1 < y2 { assert y1 / h < y2 / h; }
  }

  /** The mesh rotation set by one frame (lines 130-131). */
  function RotationX(elapsed: real, pointer: Pointer): real { elapsed * 0.3 + pointer.y * 0.009 }
  function RotationY(elapsed: real, pointer: Pointer): real { elapsed * 0.5 + pointer.x * 0.009 }

  /** Elapsed time drives the rotation and the pointer only nudges it: for a
      pointer inside the window each angle stays within 0.009 rad of its
      time-only value, and a centred pointer adds nothing. */
  lemma RotationNearTimeOnly(elapsed: real, clientX: real, clientY: real, w: real, h: real)
    requires w > 0.0 && h > 0.0
    requires 0.0 <= clientX <= w && 0.0 <= clientY <= h
    ensures var p := NormalizePointer(clientX, clientY, w, h);
      elapsed * 0.3 - 0.009 <= RotationX(elapsed, p) <= elapsed * 0.3 + 0.009 &&
      elapsed * 0.5 - 0.009 <= RotationY(elapsed, p) <= elapsed * 0.5 + 0.009
    ensures clientX == w / 2.0 ==> RotationY(elapsed, NormalizePointer(clientX, clientY, w, h)) == elapsed * 0.5
    ensures clientY == h / 2.0 ==> RotationX(elapsed, NormalizePointer(clientX, clientY, w, h)) == elapsed * 0.3
  {
  }

  // ---------------------------------------------------------------------------
  // Controller state

  /** Where the texture load stands. */
  datatype LoadState = Loading | Loaded | Failed

  /** A width and height in pixels. */
  datatype Size = Size(width: int, height: int)

  datatype EventType = MouseMoveEvent | ResizeEvent

  /** The functions the controller hands to `addEventListener` and
      `removeEventListener`, by identity: the pointer arrow of line 68, the
      `handleResize` closure, and the fresh empty arrow of line 151. */
  datatype Handler = PointerHandler | ResizeHandler | EmptyHandler

  datatype Listener = Listener(event: EventType, handler: Handler)

  /** The particle material; `updateBackground` overwrites its fields. */
  class PointsMaterial {
    var color: int
    var blending: Blending
    var opacity: real
    var size: real

    constructor (p: MaterialParams)
      ensures Params() == p
    {
      color, blending, opacity, size := p.color, p.blending, p.opacity, p.size;
    }

    function Params(): MaterialParams
      reads this
    {
      MaterialParams(color, blending, opacity, size)
    }
  }

  /** The point mesh: geometry fixed at creation, rotation set every frame. */
  class ParticleMesh {
    const positions: seq<real>
    const scales: seq<real>
    const material: PointsMaterial
    var rotationX: real
    var rotationY: real

    constructor (positions: seq<real>, scales: seq<real>, material: PointsMaterial)
      ensures this.positions == positions && this.scales == scales && this.material == material
      ensures rotationX == 0.0 && rotationY == 0.0
    {
      this.positions, this.scales, this.material := positions, scales, material;
      rotationX, rotationY := 0.0, 0.0;
    }
  }

  /** The closure state of one `initHeroAnimation` call. */
  class HeroScene {
    /** The root element whose `dark` class is the theme. */
    const root: ClassList
    /** `isDark`, read once at set-up (line 10). */
    const initDark: bool

    var background: int
    var material: PointsMaterial?
    var mesh: ParticleMesh?
    var pointer: Pointer
    var cameraAspect: real
    var rendererSize: Size
    var composerSize: Size
    var bloomSize: Size
    var load: LoadState
    /** The window's registered listeners that belong to this controller. */
    var windowListeners: set<Listener>
    /** Whether the class-attribute observer is connected. */
    var observing: bool
    var disposeCount: nat
    /** Whether an animation-frame callback is pending. */
    var frameScheduled: bool
    var framesRendered: nat
    /** Diagnostics written to the console. */
    var errorsLogged: nat

    /** Material and mesh exist together, the mesh uses the material, and its
        buffers have the configured sizes and keep to their bounds. */
    ghost predicate Coherent()
      reads this, mesh
    {
      (material == null <==> mesh == null) &&
      (mesh != null ==>
        mesh.material == material &&
        |mesh.positions| == PositionSlots && |mesh.scales| == ParticleCount &&
        CloudInBounds(mesh.positions, mesh.scales))
    }

    /** The background and, once it exists, the material carry one of the two
        theme presets. */
    ghost predicate Themed()
      reads this, material
    {
      (background == DarkBackground || background == LightBackground) &&
      (material != null ==> material.Params() == Preset(true) || material.Params() == Preset(false))
    }

    /** The controller invariant between callbacks. */
    ghost predicate Valid()
      reads this, material, mesh
      ensures Valid() && frameScheduled ==> mesh != null && material != null
      ensures Valid() && load != Loaded ==> mesh == null && !frameScheduled && framesRendered == 0
    {
      Coherent() && Themed() &&
      (load == Loaded <==> mesh != null) &&
      (frameScheduled <==> load == Loaded) &&
      (load != Loaded ==> framesRendered == 0)
    }

    /** Whether the document is currently in the dark theme. */
    function DarkNow(): bool
      reads root
    {
      root.Contains(DarkClass)
    }

    /** Lines 9-87: scene, observer, camera, renderer, composer and bloom
        pass, the two window listeners and an initial resize; the texture load
        is then pending. `width` and `height` are the window's inner size. */
    constructor (root: ClassList, width: int, height: int)
      requires height > 0
      ensures this.root == root && initDark == root.Contains(DarkClass)
      ensures Valid()
      ensures background == BackgroundFor(initDark)
      ensures material == null && mesh == null && load == Loading
      ensures pointer == Pointer(0.0, 0.0)
      ensures cameraAspect == width as real / height as real
      ensures rendererSize == Size(width, height) && composerSize == Size(width, height) && bloomSize == Size(width, height)
      ensures windowListeners == {Listener(MouseMoveEvent, PointerHandler), Listener(ResizeEvent, ResizeHandler)}
      ensures observing && disposeCount == 0
      ensures !frameScheduled && framesRendered == 0 && errorsLogged == 0
    {
      this.root := root;
      var isDark := root.Contains(DarkClass);
      initDark := isDark;
      background := BackgroundFor(isDark);
      material, mesh := null, null;
      observing := true;
      cameraAspect := width as real / height as real;
      rendererSize := Size(width, height);
      composerSize := Size(width, height);
      bloomSize := Size(width, height);
      pointer := Pointer(0.0, 0.0);
      windowListeners := {Listener(MouseMoveEvent, PointerHandler)};
      load := Loading;
      disposeCount, frameScheduled, framesRendered, errorsLogged := 0, false, 0, 0;
      new;
      windowListeners := windowListeners + {Listener(ResizeEvent, ResizeHandler)};
      HandleResize(width, height);
    }

    /** `updateBackground` (lines 17-30): reads the theme at call time, sets
        the background and, only if the material exists, the material's four
        parameters to that theme's preset. */
    method UpdateBackground()
      requires Coherent()
      modifies this`background, material
      ensures Coherent() && Themed()
      ensures background == BackgroundFor(DarkNow())
      ensures material != null ==> material.Params() == Preset(DarkNow())
    {
      var isDarkNow := root.Contains(DarkClass);
      background := BackgroundFor(isDarkNow);
      if material != null {
        material.color := if isDarkNow then DarkParticleColor else LightParticleColor;
        material.blending := if isDarkNow then AdditiveBlending else NormalBlending;
        material.opacity := if isDarkNow then 0.9 else 0.8;
        material.size := if isDarkNow then 2.5 else 2.2;
      }
    }

    /** The mutation observer's callback: runs `updateBackground` while the
        observer is connected, and nothing after teardown. */
    method ClassAttributeChanged()
      requires Valid()
      modifies this`background, material
      ensures Valid()
      ensures old(observing) ==> background == BackgroundFor(DarkNow())
      ensures old(observing) && material != null ==> material.Params() == Preset(DarkNow())
      ensures !old(observing) ==> background == old(background)
      ensures !old(observing) && material != null ==> material.Params() == old(material.Params())
    {
      if observing {
        UpdateBackground();
      }
    }

    /** The `mousemove` arrow (lines 68-71): the last event wins. */
    method OnPointerMove(clientX: real, clientY: real, innerWidth: int, innerHeight: int)
      requires innerWidth > 0 && innerHeight > 0
      modifies this`pointer
      ensures pointer == NormalizePointer(clientX, clientY, innerWidth as real, innerHeight as real)
    {
      pointer := Pointer((clientX / innerWidth as real) * 2.0 - 1.0,
                         -(clientY / innerHeight as real) * 2.0 + 1.0);
    }

    /** The window dispatching a `mousemove` event: the pointer handler runs
        whenever it is still registered. */
    method DispatchPointerMove(clientX: real, clientY: real, innerWidth: int, innerHeight: int)
      requires Valid() && innerWidth > 0 && innerHeight > 0
      modifies this`pointer
      ensures Valid()
      ensures Listener(MouseMoveEvent, PointerHandler) in windowListeners ==>
        pointer == NormalizePointer(clientX, clientY, innerWidth as real, innerHeight as real)
      ensures Listener(MouseMoveEvent, PointerHandler) !in windowListeners ==> pointer == old(pointer)
    {
      if Listener(MouseMoveEvent, PointerHandler) in windowListeners {
        OnPointerMove(clientX, clientY, innerWidth, innerHeight);
      }
    }

    /** `handleResize` (lines 74-84): the result depends on the new viewport
        only, so repeating it with the same size changes nothing. */
    method HandleResize(width: int, height: int)
      requires height > 0
      modifies this`cameraAspect, this`rendererSize, this`composerSize, this`bloomSize
      ensures cameraAspect == width as real / height as real
      ensures rendererSize == Size(width, height) && composerSize == Size(width, height) && bloomSize == Size(width, height)
    {
      cameraAspect := width as real / height as real;
      rendererSize := Size(width, height);
      composerSize := Size(width, height);
      bloomSize := Size(width, height);
    }

    /** The window dispatching a `resize` event. */
    method DispatchResize(width: int, height: int)
      requires Valid() && height > 0
      modifies this`cameraAspect, this`rendererSize, this`composerSize, this`bloomSize
      ensures Valid()
      ensures Listener(ResizeEvent, ResizeHandler) in windowListeners ==>
        cameraAspect == width as real / height as real &&
        rendererSize == Size(width, height) && composerSize == Size(width, height) && bloomSize == Size(width, height)
      ensures Listener(ResizeEvent, ResizeHandler) !in windowListeners ==>
        cameraAspect == old(cameraAspect) && rendererSize == old(rendererSize) &&
        composerSize == old(composerSize) && bloomSize == old(bloomSize)
    {
      if Listener(ResizeEvent, ResizeHandler) in windowListeners {
        HandleResize(width, height);
      }
    }

    /** `animate` (lines 127-135): rotate the mesh if there is one, render,
        and request the next frame. Nothing checks whether the controller was
        torn down. */
    method Animate(elapsed: real)
      requires Coherent()
      modifies this`framesRendered, this`frameScheduled, mesh
      ensures Coherent()
      ensures mesh != null ==> mesh.rotationX == RotationX(elapsed, pointer) && mesh.rotationY == RotationY(elapsed, pointer)
      ensures framesRendered == old(framesRendered) + 1 && frameScheduled
    {
      if mesh != null {
        mesh.rotationX := elapsed * 0.3 + pointer.y * 0.009;
        mesh.rotationY := elapsed * 0.5 + pointer.x * 0.009;
      }
      framesRendered := framesRendered + 1;
      frameScheduled := true;
    }

    /** The host running the pending animation-frame callback, if any.
        `elapsed` is the clock's reading. */
    method AnimationFrame(elapsed: real)
      requires Valid()
      modifies this`framesRendered, this`frameScheduled, mesh
      ensures Valid()
      ensures frameScheduled == old(frameScheduled)
      ensures framesRendered == old(framesRendered) + (if old(frameScheduled) then 1 else 0)
      ensures old(frameScheduled) ==> mesh.rotationX == RotationX(elapsed, pointer) && mesh.rotationY == RotationY(elapsed, pointer)
    {
      if frameScheduled {
        frameScheduled := false;
        Animate(elapsed);
      }
    }

    /** The texture loader's success callback (lines 93-141). `draws` are the
        `Math.random()` results in call order and `elapsed` the clock reading
        of the first frame. The material is created from the theme captured
        at set-up and then corrected by `updateBackground`, so it ends with
        the preset of the theme current when the load completes. */
    method OnTextureLoad(draws: seq<real>, elapsed: real)
      requires Valid() && load == Loading
      requires |draws| == DrawCount && UnitDraws(draws)
      modifies this
      ensures Valid() && load == Loaded
      ensures fresh(material) && fresh(mesh)
      ensures material.Params() == Preset(DarkNow())
      ensures background == BackgroundFor(DarkNow())
      ensures mesh.positions == Positions(draws) && mesh.scales == Scales(draws)
      ensures mesh.rotationX == RotationX(elapsed, pointer) && mesh.rotationY == RotationY(elapsed, pointer)
      ensures framesRendered == 1 && frameScheduled
      ensures pointer == old(pointer) && cameraAspect == old(cameraAspect)
      ensures rendererSize == old(rendererSize) && composerSize == old(composerSize) && bloomSize == old(bloomSize)
      ensures windowListeners == old(windowListeners) && observing == old(observing)
      ensures disposeCount == old(disposeCount) && errorsLogged == old(errorsLogged)
    {
      load := Loaded;
      CreateParticles(draws);
      Animate(elapsed);
      UpdateBackground();
    }

    /** Lines 94-123: fill the buffers, create the material from the theme
        captured at set-up, and add the mesh to the scene. */
    method CreateParticles(draws: seq<real>)
      requires |draws| == DrawCount && UnitDraws(draws)
      modifies this`material, this`mesh
      ensures Coherent()
      ensures fresh(material) && fresh(mesh)
      ensures material.Params() == CreationParams(initDark)
      ensures mesh.positions == Positions(draws) && mesh.scales == Scales(draws)
      ensures mesh.rotationX == 0.0 && mesh.rotationY == 0.0
    {
      var pos, scale, posWrites, scaleWrites := FillParticleBuffers(draws);
      CloudWithinBounds(draws);
      material := new PointsMaterial(CreationParams(initDark));
      mesh := new ParticleMesh(pos[..], scale[..], material);
    }

    /** The texture loader's error callback (lines 143-145): one diagnostic,
        and the scene stays without particles and without a frame loop. */
    method OnTextureError()
      requires Valid() && load == Loading
      modifies this`load, this`errorsLogged
      ensures Valid() && load == Failed
      ensures errorsLogged == old(errorsLogged) + 1
      ensures material == null && mesh == null && !frameScheduled && framesRendered == 0
    {
      load := Failed;
      errorsLogged := errorsLogged + 1;
    }

    /** The returned cleanup (lines 149-154). The `mousemove` removal passes a
        new empty function, which was never registered, so the pointer
        listener stays; the frame loop is not stopped; each call disposes the
        renderer once more. */
    method Teardown()
      requires Valid()
      modifies this`windowListeners, this`observing, this`disposeCount
      ensures Valid()
      ensures windowListeners == old(windowListeners) - {Listener(ResizeEvent, ResizeHandler), Listener(MouseMoveEvent, EmptyHandler)}
      ensures Listener(ResizeEvent, ResizeHandler) !in windowListeners
      ensures Listener(MouseMoveEvent, PointerHandler) in windowListeners <==> Listener(MouseMoveEvent, PointerHandler) in old(windowListeners)
      ensures !observing
      ensures disposeCount == old(disposeCount) + 1
      ensures frameScheduled == old(frameScheduled)
    {
      windowListeners := windowListeners - {Listener(ResizeEvent, ResizeHandler)};
      windowListeners := windowListeners - {Listener(MouseMoveEvent, EmptyHandler)};
      observing := false;
      disposeCount := disposeCount + 1;
    }
  }

  // ---------------------------------------------------------------------------
  // Runs of the controller

  /** The theme switches to dark while the texture is still loading: the
      controller was set up light, yet the particles end with the dark
      preset. */
  method ThemeSwitchWhileLoading(draws: seq<real>)
    returns (capturedDark: bool, backgroundBeforeLoad: int, finalParams: MaterialParams, finalBackground: int)
    requires |draws| == DrawCount && UnitDraws(draws)
    ensures !capturedDark && backgroundBeforeLoad == DarkBackground
    ensures finalParams == Preset(true) && finalBackground == DarkBackground
  {
    var root := new ClassList([]);
    var scene := new HeroScene(root, 1920, 1080);
    capturedDark := scene.initDark;
    root.Add(DarkClass);
    scene.ClassAttributeChanged();
    backgroundBeforeLoad := scene.background;
    scene.OnTextureLoad(draws, 0.0);
    finalParams := scene.material.Params();
    finalBackground := scene.background;
  }

  /** A failed load leaves a background-only scene: frames never run and one
      diagnostic is written; theme changes still recolour the background. */
  method FailedLoad() returns (hasParticles: bool, frames: nat, diagnostics: nat, finalBackground: int)
    ensures !hasParticles && frames == 0 && diagnostics == 1
    ensures finalBackground == DarkBackground
  {
    var root := new ClassList([]);
    var scene := new HeroScene(root, 800, 600);
    scene.OnTextureError();
    scene.AnimationFrame(1.0);
    scene.AnimationFrame(2.0);
    root.Add(DarkClass);
    scene.ClassAttributeChanged();
    hasParticles := scene.mesh != null;
    frames := scene.framesRendered;
    diagnostics := scene.errorsLogged;
    finalBackground := scene.background;
  }

  /** After teardown, resize and theme changes are ignored, but a pointer
      move still updates the stored pointer: its listener was never removed. */
  method ListenersAfterTeardown() returns (pointerX: real, aspect: real, background: int)
    ensures pointerX == 1.0
    ensures aspect == 2.0
    ensures background == LightBackground
  {
    var root := new ClassList([]);
    var scene := new HeroScene(root, 1000, 500);
    assert scene.cameraAspect == 2.0;
    scene.Teardown();
    scene.DispatchPointerMove(1000.0, 0.0, 1000, 500);
    pointerX := scene.pointer.x;
    scene.DispatchResize(300, 600);
    aspect := scene.cameraAspect;
    root.Add(DarkClass);
    scene.ClassAttributeChanged();
    background := scene.background;
  }

  /** A frame loop started before teardown keeps rendering after it, and a
      second teardown disposes the renderer again. */
  method FrameLoopOutlivesTeardown(draws: seq<real>) returns (frames: nat, stillScheduled: bool, disposals: nat)
    requires |draws| == DrawCount && UnitDraws(draws)
    ensures frames == 2 && stillScheduled
    ensures disposals == 2
  {
    var root := new ClassList([]);
    var scene := new HeroScene(root, 1000, 500);
    scene.OnTextureLoad(draws, 0.0);
    assert scene.framesRendered == 1 && scene.frameScheduled;
    scene.Teardown();
    scene.AnimationFrame(0.5);
    assert scene.framesRendered == 2 && scene.frameScheduled;
    scene.Teardown();
    frames := scene.framesRendered;
    stillScheduled := scene.frameScheduled;
    disposals := scene.disposeCount;
  }

  /** Teardown does not cancel the texture load: a load that completes
      afterwards still builds the particles, starts the frame loop and applies
      the theme current at completion, although the observer is gone. */
  method LoadAfterTeardown(draws: seq<real>)
    returns (hasParticles: bool, frames: nat, loopScheduled: bool, params: MaterialParams, observerConnected: bool)
    requires |draws| == DrawCount && UnitDraws(draws)
    ensures hasParticles && frames == 1 && loopScheduled
    ensures params == Preset(true) && !observerConnected
  {
    var root := new ClassList([]);
    var scene := new HeroScene(root, 1000, 500);
    scene.Teardown();
    root.Add(DarkClass);
    scene.ClassAttributeChanged();
    scene.OnTextureLoad(draws, 0.0);
    hasParticles := scene.mesh != null;
    frames := scene.framesRendered;
    loopScheduled := scene.frameScheduled;
    params := scene.material.Params();
    observerConnected := scene.observing;
  }

  /** The startup theme decision seeds the scene: set up after it, the
      controller starts with the matching background. */
  method SceneAfterStartup(saved: StartupTheme.Option<string>, prefersDark: bool)
    returns (startedDark: bool, background: int)
    ensures startedDark == StartupTheme.StartsDark(saved, prefersDark)
    ensures background == BackgroundFor(startedDark)
  {
    var root := new ClassList([]);
    StartupTheme.ApplyStartupTheme(root, saved, prefersDark);
    var scene := new HeroScene(root, 1280, 720);
    startedDark := scene.initDark;
    background := scene.background;
  }

  /** A resize from 1920x1080 to 375x812 before the texture arrives. */
  method ResizeBeforeLoad() returns (before: real, after: real, bloom: Size, renderer: Size)
    ensures before == 16.0 / 9.0 && after == 375.0 / 812.0
    ensures bloom == Size(375, 812) && renderer == Size(375, 812)
  {
    var root := new ClassList([]);
    var scene := new HeroScene(root, 1920, 1080);
    before := scene.cameraAspect;
    scene.DispatchResize(375, 812);
    scene.DispatchResize(375, 812);
    after := scene.cameraAspect;
    bloom := scene.bloomSize;
    renderer := scene.rendererSize;
  }
}
