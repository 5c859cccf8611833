# Portfolio site: particle scene, contact form and startup theme in Dafny

This project models the three parts of the portfolio site that have behaviour
to state, and proves properties of the models:

- **The hero particle-scene controller** (`initHeroAnimation`). It is modelled
  as a state machine, not as a renderer. The state holds the scene background
  colour and an optional particle material with four theme-dependent
  parameters (colour, blending, opacity, size). It also holds the particle
  mesh (position and scale buffers, rotation), the last normalised pointer,
  the camera aspect and the renderer, composer and bloom-pass sizes. Finally it
  holds the texture-load lifecycle (loading, loaded, failed), the window
  listeners and theme observer that are live, the renderer's dispose count,
  and whether an animation frame is pending. Every browser callback is a
  method that the environment calls: pointer move, resize, class-attribute
  mutation, texture load success or failure, animation frame, and the
  returned cleanup.
- **The contact form.** This is a class with the three-field form data, the
  four-valued status and the count of pending simulated-send timers. It has
  one method per handler. A `Render` function says which controls are on
  screen for each status. `Interact` delivers a user action only through a
  control that is shown and enabled.
- **The startup theme decision.** A predicate over the saved preference
  (absent or a string) and the system's prefers-dark setting decides whether
  the root element's class list gains or loses `dark`.

The root element's class list is modelled once, in module `Dom`, as an
ordered list of distinct names. The startup code writes it and the scene
controller reads it, so the theme the controller sees is the one the startup
code set.

Files: `dom.dfy` (module `Dom`), `startup_theme.dfy` (module `StartupTheme`),
`hero_animation.dfy` (module `HeroAnimation`), `contact.dfy` (module
`Contact`).

Inputs the model takes as parameters:
- the window's inner size and the pointer's client coordinates;
- the clock reading of each frame;
- the results of `Math.random()`, as a sequence in call order (x, y, z and
  scale for each particle);
- the outcome of the simulated send (`Math.random() > 0.2`), as a boolean;
- the `localStorage` value and the `matchMedia` result.

The model follows the code in two places where one might expect
otherwise:
- **Material creation.** The material is created from the theme captured when
  the controller is set up (line 10), not the theme current at load. Its size
  is 2.5 in both themes. The `updateBackground()` call at the end of the load
  callback then applies the current theme's preset.
  `HeroScene.OnTextureLoad` proves the end state. `CreationParamsAgainstPresets`
  shows that in a light theme the freshly created material matches neither
  preset. The one frame rendered inside the load callback (line 137) runs
  before that correction.
- **Teardown.** Teardown does not remove the pointer listener, because line 151
  passes a new function. It does not stop a running frame loop. It is not
  idempotent: every call disposes the renderer again. It leaves an in-flight texture load
  alone: a load that finishes after teardown still builds the particles, starts
  the frame loop and applies the theme current at completion
  (`LoadAfterTeardown`).

## Model

| member | source | states |
|---|---|---|
| `HeroAnimation.BackgroundFor` | src/lib/animations/heroAnimation.ts:11 | The background is one of the two theme colours, and it is 0x0a0a0a exactly in the dark theme. |
| `HeroAnimation.Preset` | src/lib/animations/heroAnimation.ts:23-28 | A theme preset has the theme's particle colour (0x2563eb dark, 0x3b82f6 light), is additive exactly in dark, and has an opacity in (0,1] and a positive size. |
| `HeroAnimation.CreationParams` | src/lib/animations/heroAnimation.ts:111-120 | The creation parameters have size 2.5 and otherwise equal the captured theme's preset. |
| `HeroAnimation.PresetsDifferEverywhere` | src/lib/animations/heroAnimation.ts:23-28 | The dark preset (0x2563eb, additive, 0.9, 2.5) and the light preset (0x3b82f6, normal, 0.8, 2.2) differ in all four parameters. |
| `HeroAnimation.CreationParamsAgainstPresets` | src/lib/animations/heroAnimation.ts:111-120 | Creation parameters equal the captured theme's preset with size forced to 2.5. In dark this is the dark preset. In light it is neither preset. |
| `HeroAnimation.CloudWithinBounds` | src/lib/animations/heroAnimation.ts:100-105 | If every draw is in [0,1), then every x is in [-30,30), every y in [-50,50), every z in [-10,10) and every scale in [0,1). |
| `HeroAnimation.FillParticleBuffers` | src/lib/animations/heroAnimation.ts:97-105 | The loop fills a 4500-slot position buffer and a 1500-slot scale buffer. Slot s holds axis s%3 of particle s/3, computed from that particle's draw, and scale p holds particle p's fourth draw. The write logs show that each index of each buffer is written exactly once, in order. |
| `HeroAnimation.NormalizePointer` | src/lib/animations/heroAnimation.ts:69-70 | For a pointer inside the viewport, both coordinates lie in [-1,1]. The left edge maps to x=-1 and the right edge to x=1. The top edge maps to y=1 and the bottom edge to y=-1. |
| `HeroAnimation.PointerOrientation` | src/lib/animations/heroAnimation.ts:69-70 | x increases strictly with clientX, and y decreases strictly with clientY (the y axis is inverted). |
| `HeroAnimation.RotationNearTimeOnly` | src/lib/animations/heroAnimation.ts:130-131 | For a pointer inside the window, each rotation angle stays within 0.009 rad of its time-only value (0.3t about x, 0.5t about y). A pointer at the centre line of an axis adds nothing to the angle it drives. |
| `HeroAnimation.PointsMaterial.constructor` | src/lib/animations/heroAnimation.ts:111-120 | A new material holds exactly the parameters it was given. |
| `HeroAnimation.ParticleMesh.constructor` | src/lib/animations/heroAnimation.ts:122 | A new mesh holds the given buffers and material, with zero rotation. |
| `HeroAnimation.HeroScene.Valid` | src/lib/animations/heroAnimation.ts:14-15 | Between callbacks, a pending frame implies that the mesh and material exist. Before a successful load, and after a failed one, there is no mesh, no frame is pending and none has been rendered. |
| `HeroAnimation.HeroScene.constructor` | src/lib/animations/heroAnimation.ts:9-87 | Set-up captures `isDark` from the class list and sets the background from it. Material and mesh are absent and the load is pending. The pointer is (0,0). Aspect is w/h and all three sizes are (w,h). The pointer and resize listeners are registered and the observer is connected. Nothing is disposed and no frame is pending. |
| `HeroAnimation.HeroScene.UpdateBackground` | src/lib/animations/heroAnimation.ts:17-30 | Reads the theme at call time and sets the background to 0x0a0a0a (dark) or 0xfffada (light). If a material exists, it gets exactly that theme's preset. Nothing else changes. |
| `HeroAnimation.HeroScene.ClassAttributeChanged` | src/lib/animations/heroAnimation.ts:32-36 | While the observer is connected, a class change runs `updateBackground`. After teardown it changes neither the background nor the material. |
| `HeroAnimation.HeroScene.OnPointerMove` | src/lib/animations/heroAnimation.ts:67-71 | The stored pointer becomes the normalised position of this event. The previous value is overwritten and nothing else changes. |
| `HeroAnimation.HeroScene.DispatchPointerMove` | src/lib/animations/heroAnimation.ts:68-71 | A pointer event updates the pointer exactly when the pointer listener is still registered. |
| `HeroAnimation.HeroScene.HandleResize` | src/lib/animations/heroAnimation.ts:74-84 | Sets aspect = width/height and gives the renderer, composer and bloom pass the size (width, height). The new state depends only on the viewport, so repeating the call is idempotent. |
| `HeroAnimation.HeroScene.DispatchResize` | src/lib/animations/heroAnimation.ts:86-87 | A resize event runs `handleResize` exactly when its listener is registered. Otherwise the camera and sizes are unchanged. |
| `HeroAnimation.HeroScene.Animate` | src/lib/animations/heroAnimation.ts:127-135 | If a mesh exists, its rotation is set to (0.3t + 0.009·pointer.y, 0.5t + 0.009·pointer.x). One more frame is rendered and the next one is requested, with no stop flag consulted. |
| `HeroAnimation.HeroScene.AnimationFrame` | src/lib/animations/heroAnimation.ts:133-134 | A pending frame callback renders one frame and reschedules itself, so once started it stays scheduled. With nothing pending, nothing happens. |
| `HeroAnimation.HeroScene.CreateParticles` | src/lib/animations/heroAnimation.ts:94-123 | Creates a mesh over the filled buffers and a material with the creation parameters of the theme captured at set-up. |
| `HeroAnimation.HeroScene.OnTextureLoad` | src/lib/animations/heroAnimation.ts:93-141 | After a successful load the material has the preset of the theme current at completion, and the background matches it. The buffers are the fill loop's, the first frame has been rendered and the loop is scheduled. Pointer, sizes, listeners, observer, dispose count and diagnostics are unchanged. |
| `HeroAnimation.HeroScene.OnTextureError` | src/lib/animations/heroAnimation.ts:143-145 | On load failure, one diagnostic is logged. No material or mesh is created, no frame is rendered and the loop is never started. |
| `HeroAnimation.HeroScene.Teardown` | src/lib/animations/heroAnimation.ts:149-154 | Removes the resize listener, disconnects the observer and disposes the renderer once more. The pointer listener stays registered, because the function removed is a new one. A pending frame stays pending. |
| `HeroAnimation.ThemeSwitchWhileLoading` | src/lib/animations/heroAnimation.ts:110-140 | Set up in light, switched to dark before the texture arrives: the captured flag is light, but the particles end with the dark preset on a dark background. |
| `HeroAnimation.FailedLoad` | src/lib/animations/heroAnimation.ts:143-145 | After a failed load and two frame opportunities there are no particles, no frames and exactly one diagnostic. Theme changes still recolour the background. |
| `HeroAnimation.ListenersAfterTeardown` | src/lib/animations/heroAnimation.ts:149-154 | After teardown, resize and theme changes are ignored, but a pointer move still updates the stored pointer. |
| `HeroAnimation.LoadAfterTeardown` | src/lib/animations/heroAnimation.ts:93-154 | A texture load that completes after teardown still builds the particles, renders a frame and schedules the loop. It applies the theme current at completion, here dark, although the observer is disconnected. |
| `HeroAnimation.FrameLoopOutlivesTeardown` | src/lib/animations/heroAnimation.ts:127-154 | A frame loop started before teardown renders again after it and stays scheduled. A second teardown disposes a second time. |
| `HeroAnimation.SceneAfterStartup` | src/lib/animations/heroAnimation.ts:10-11 | A controller set up after the startup theme decision starts with the background of that decision. |
| `HeroAnimation.ResizeBeforeLoad` | src/lib/animations/heroAnimation.ts:74-87 | Going from 1920×1080 to 375×812 while loading changes the aspect from 16/9 to 375/812, and renderer and bloom sizes to 375×812. Repeating the resize changes nothing. |
| `Contact.WithField` | src/components/sections/Contact.tsx:24 | The updater replaces only the field named by the input. The other two fields keep their values. |
| `Contact.LastEditWins` | src/components/sections/Contact.tsx:24 | Two edits of the same field leave only the last value. |
| `Contact.EditWithSameValue` | src/components/sections/Contact.tsx:24 | Writing back a field's own value leaves the form data unchanged. |
| `Contact.Render` | src/components/sections/Contact.tsx:75-177 | The form is shown iff the status is not `success`. The error banner is shown iff the status is `error`. The submit button is disabled iff the status is `submitting`. |
| `Contact.RequiredFilled` | src/components/sections/Contact.tsx:108-138 | The `required` check passes iff none of the three fields is empty. |
| `Contact.ResubmitFromIdleOrErrorOnly` | src/components/sections/Contact.tsx:156-158 | The submit control is usable exactly in `idle` and `error`. |
| `Contact.ContactForm.Valid` | src/components/sections/Contact.tsx:12-47 | At most one timer is pending, and one is pending exactly while submitting. In `success` all three fields are empty. |
| `Contact.ContactForm.constructor` | src/components/sections/Contact.tsx:15-20 | Initial state: name, email and message are empty, the status is `idle` and no timer is pending. |
| `Contact.ContactForm.HandleChange` | src/components/sections/Contact.tsx:22-25 | The data become the old data with the named field replaced. The status is unchanged. |
| `Contact.ContactForm.HandleSubmit` | src/components/sections/Contact.tsx:27-48 | The status becomes `submitting` at once, the data are untouched and one timer is scheduled. |
| `Contact.ContactForm.TimerFires` | src/components/sections/Contact.tsx:40-47 | On success the status becomes `success` and all three fields are emptied. On failure the status becomes `error` and the fields are kept. Either way one timer fewer is pending. |
| `Contact.ContactForm.SendAnother` | src/components/sections/Contact.tsx:88-89 | The status returns to `idle`. The fields, already empty after a success, are unchanged. |
| `Contact.ContactForm.Interact` | src/components/sections/Contact.tsx:95-158 | Edits apply unless the success panel is shown. Submit starts a send only from `idle` or `error` with all required fields filled. "Send Another" acts only on the success panel. The invariant "a timer is pending exactly while submitting, and success implies an empty form" is kept. |
| `Contact.FailThenRetry` | src/components/sections/Contact.tsx:27-89 | A failed send keeps the typed data and shows the banner. A second press while submitting does nothing. The retry succeeds and empties the form. "Send Another Message" returns to an empty `idle` form. |
| `StartupTheme.Truthy` | src/main.tsx:4 | `!savedTheme` is false exactly for a present, non-empty string. |
| `StartupTheme.StartsDark` | src/main.tsx:4 | Dark applies iff the saved value is "dark", or the saved value is absent or empty and the system prefers dark. |
| `StartupTheme.SavedDarkWins` | src/main.tsx:4-5 | A saved "dark" gives dark whatever the system setting. |
| `StartupTheme.SavedLightWins` | src/main.tsx:4-7 | A saved "light" gives light even when the system prefers dark. |
| `StartupTheme.OtherSavedStringGivesLight` | src/main.tsx:4-7 | Any other non-empty saved string, such as "blue", gives light. |
| `StartupTheme.AbsentAndEmptyAgree` | src/main.tsx:2-4 | An absent key and an empty string both leave the decision to the system setting. |
| `StartupTheme.StartupTokens` | src/main.tsx:4-8 | Afterwards the class list contains `dark` iff the condition holds. Every other class is present iff it was before, and the list stays duplicate-free. |
| `StartupTheme.ApplyStartupTheme` | src/main.tsx:2-8 | Exactly one of add and remove runs. The root's class list becomes `StartupTokens` of the old list, so it contains `dark` iff the condition holds. |
| `Dom.With` | src/main.tsx:5 | `classList.add` makes the name present, keeps every other name and changes nothing if the name was already there. |
| `Dom.Without` | src/main.tsx:7 | `classList.remove` makes the name absent and keeps every other name. It changes nothing if the name was absent, and keeps the list duplicate-free. |
| `Dom.RemoveUndoesAdd` | src/main.tsx:5-7 | Removing a name that was just added restores the original list. |
| `Dom.ClassList.Contains` | src/lib/animations/heroAnimation.ts:10 | `classList.contains` holds iff the name occurs in the list. When it holds, adding the name changes nothing; when it does not, removing it changes nothing. |
| `Dom.ClassList.Add` | src/main.tsx:5 | The class list becomes `With` of the old list. |
| `Dom.ClassList.Remove` | src/main.tsx:7 | The class list becomes `Without` of the old list. |

## Left out

- Three.js internals are represented only by the fields the controller sets: scene, camera projection, WebGL renderer, effect composer, render pass, bloom pass, texture loader and clock. The rendered image is not modelled.
- Pixel-ratio capping, the bloom constants, the camera's field of view, near and far planes and position, and material flags such as transparency and depth writing are not modelled. They do not affect any stated property.
- Floating point is not modelled. Coordinates, presets, aspect and rotation are exact reals, and `Float32Array` rounding is not represented. Because of that rounding, a scale draw of at least 1−2⁻²⁵ is stored as 1.0, and x, y or z near the top of its range can be stored as exactly 30.0, 50.0 or 10.0. The half-open upper bounds of `CloudWithinBounds` and `FillParticleBuffers` hold for the real-valued model only.
- `requestAnimationFrame`, `MutationObserver`, `addEventListener` and `setTimeout` are not modelled as schedulers. Each callback is a method the environment may call.
- The mutation observer's filter (only the `class` attribute) is left to the caller, who calls `ClassAttributeChanged` after a class change.
- The console message of a failed load is counted but its text is not kept.
- `HeroAnimation.HeroScene.HandleResize`, `DispatchResize` and the constructor require a positive window height. In the source, a height of 0 gives an aspect of Infinity or NaN, which reals cannot express.
- `HeroAnimation.HeroScene.OnPointerMove` and `DispatchPointerMove` require a positive window size for the same reason.
- `HeroAnimation.HeroScene.OnTextureLoad` requires draws in [0,1), which is what `Math.random()` guarantees. It also requires the load to be pending, because the loader calls exactly one of its callbacks once.
- `HeroAnimation.HeroScene.OnTextureError` requires the load to be pending, for the same reason.
- `Contact.ContactForm.TimerFires` requires a pending timer, because the browser only runs timers that were scheduled.
- Only the `required` check of HTML form validation is modelled. The `type="email"` format check is browser behaviour and is not.
- The 1.5 s timer delay is not modelled, and neither is a timer firing after the component unmounts.
- All anime.js and framer-motion animations are cosmetic and not modelled.
- The React root render in `src/main.tsx` (lines 12-24) is out of scope.
- Presentation-only components are not part of this model: `App.tsx`, `Hero.tsx`, `About.tsx`, `Skills.tsx`, `Projects.tsx`, `Footer.tsx`, `Loader.tsx` and `CustomCursor.tsx`.
