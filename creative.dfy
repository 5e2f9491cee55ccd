/** The scroll choreography of the "Creative" section
    (`src/components/sections/Creative.tsx`).

    Every GSAP tween is reduced to the target value it sets: a background's
    target opacity is 0 or 1, a shape is either hidden or back at its resting
    opacity.  Setting the section up registers scroll triggers and tweens,
    kept in order as a registry; a scroll event then runs the callbacks of
    the registered triggers it concerns. */
module Creative {

  // ---------------------------------------------------------------------------
  // Panels and their text elements.

  /** Which of the queried children an installation panel has. */
  datatype Panel = Panel(hasBackdrop: bool, hasLabel: bool, hasTitle: bool, hasTagline: bool, hasMeta: bool)

  datatype TextRole = Label | Title | Tagline | Meta

  /** The position of a role in `[label, title, tagline, meta]`. */
  function Rank(r: TextRole): nat {
    match r
    case Label => 0
    case Title => 1
    case Tagline => 2
    case Meta => 3
  }

  /** Whether `panel.querySelector` found the element of this role. */
  predicate Present(p: Panel, r: TextRole) {
    match r
    case Label => p.hasLabel
    case Title => p.hasTitle
    case Tagline => p.hasTagline
    case Meta => p.hasMeta
  }

  /** `[label, title, tagline, meta]` */
  const TextCandidates := [Label, Title, Tagline, Meta]

  /** `candidates.filter(Boolean)`: the candidates that were found, in order. */
  function KeepPresent(p: Panel, candidates: seq<TextRole>): (roles: seq<TextRole>)
    ensures |roles| <= |candidates|
  {
    if candidates == [] then []
    else (if Present(p, candidates[0]) then [candidates[0]] else []) + KeepPresent(p, candidates[1..])
  }

  /** The list of text elements the panel's tweens stagger over. */
  function TextElements(p: Panel): (roles: seq<TextRole>)
    ensures |roles| <= 4
  {
    KeepPresent(p, TextCandidates)
  }

  /** Ordered by `Rank`, strictly. */
  predicate InRankOrder(roles: seq<TextRole>) {
    forall a, b :: 0 <= a < b < |roles| ==> Rank(roles[a]) < Rank(roles[b])
  }

  /** Filtering keeps exactly the present candidates. */
  lemma {:induction false} KeepPresentMembers(p: Panel, candidates: seq<TextRole>)
    ensures forall r :: r in KeepPresent(p, candidates) <==> r in candidates && Present(p, r)
  {
    if candidates != [] {
      KeepPresentMembers(p, candidates[1..]);
      assert candidates == [candidates[0]] + candidates[1..];
    }
  }

  /** Filtering keeps the candidates in their order. */
  lemma {:induction false} KeepPresentOrdered(p: Panel, candidates: seq<TextRole>)
    requires InRankOrder(candidates)
    ensures InRankOrder(KeepPresent(p, candidates))
  {
    if candidates != [] {
      var rest := candidates[1..];
      assert InRankOrder(rest) by {
        forall a, b | 0 <= a < b < |rest| ensures Rank(rest[a]) < Rank(rest[b]) {
          assert rest[a] == candidates[a + 1] && rest[b] == candidates[b + 1];
        }
      }
      KeepPresentOrdered(p, rest);
      KeepPresentMembers(p, rest);
      var kept := KeepPresent(p, rest);
      forall r | r in kept ensures Rank(candidates[0]) < Rank(r) {
        var j :| 0 <= j < |rest| && rest[j] == r;
        assert candidates[j + 1] == r;
      }
    }
  }

  /** The text elements are the present ones, in source order, without repeats. */
  lemma TextElementsInOrder(p: Panel)
    ensures InRankOrder(TextElements(p))
    ensures forall r :: r in TextElements(p) <==> Present(p, r)
  {
    KeepPresentMembers(p, TextCandidates);
    KeepPresentOrdered(p, TextCandidates);
  }

  // ---------------------------------------------------------------------------
  // Scrub ranges: "top 80%" means "when the panel's top edge reaches 80% of
  // the viewport's height".  While the page scrolls down the edge moves up,
  // so a range whose start percentage exceeds its end is passed through.

  datatype Edge = Top | Bottom

  datatype ScrubRange = ScrubRange(edge: Edge, startPct: int, endPct: int)

  /** A range the scroll position actually passes through, inside the viewport. */
  predicate NonEmpty(r: ScrubRange) {
    0 <= r.endPct < r.startPct <= 100
  }

  /** Text fade-in of the element at `index`: `top 80-5i%` to `top 35-3i%`. */
  function TextInRange(index: nat): (r: ScrubRange)
    ensures r.edge == Top
    ensures index < 4 ==> NonEmpty(r)
  {
    ScrubRange(Top, 80 - index * 5, 35 - index * 3)
  }

  /** Text fade-out of the element at `index`: `bottom 70-3i%` to `bottom 30-2i%`. */
  function TextOutRange(index: nat): (r: ScrubRange)
    ensures r.edge == Bottom
    ensures index < 4 ==> NonEmpty(r)
  {
    ScrubRange(Bottom, 70 - index * 3, 30 - index * 2)
  }

  const BackdropInRange := ScrubRange(Top, 85, 40)
  const BackdropOutRange := ScrubRange(Bottom, 65, 25)

  /** The vertical offset a text element enters from, `30 + i * 8` pixels below. */
  function TextInY(index: nat): int {
    30 + index * 8
  }

  /** The vertical offset a text element leaves to, `-25 - i * 6` pixels. */
  function TextOutY(index: nat): int {
    -25 - index * 6
  }

  /** Later elements enter from further below and leave to further above. */
  lemma TextOffsetsStagger(a: nat, b: nat)
    requires a < b
    ensures 0 < TextInY(a) < TextInY(b)
    ensures TextOutY(b) < TextOutY(a) < 0
  {
  }

  // ---------------------------------------------------------------------------
  // What setting the section up registers.

  datatype TweenTarget = Backdrop | Text(role: TextRole)

  datatype Registration =
    | ShapeGuard          // the section trigger that hides the shapes
    | HeaderReveal        // the header's entrance tween
    | Master              // the section trigger that hides every background
    | Crossfade(panel: nat)
    | Scrub(panel: nat, target: TweenTarget, range: ScrubRange,
            fromOpacity: int, toOpacity: int, fromY: int, toY: int)

  function BackdropFadeIn(i: nat): Registration {
    Scrub(i, Backdrop, BackdropInRange, 0, 1, 0, 0)
  }

  function BackdropFadeOut(i: nat): Registration {
    Scrub(i, Backdrop, BackdropOutRange, 1, 0, 0, 0)
  }

  /** The fade-in tween of the text element at `index`. */
  function TextFadeIn(i: nat, role: TextRole, index: nat): Registration {
    Scrub(i, Text(role), TextInRange(index), 0, 1, TextInY(index), 0)
  }

  /** The fade-out tween of the text element at `index`. */
  function TextFadeOut(i: nat, role: TextRole, index: nat): Registration {
    Scrub(i, Text(role), TextOutRange(index), 1, 0, 0, TextOutY(index))
  }

  /** A registration belongs to panel `i` and, when it is a scrubbed tween,
      runs over a range the scroll position passes through. */
  predicate BelongsTo(r: Registration, i: nat) {
    (r.Crossfade? || r.Scrub?) && r.panel == i && (r.Scrub? ==> NonEmpty(r.range))
  }

  /** `textElements.forEach` registering the fade-ins of `roles`, the first
      of them being the element at `index`; while the elements stay within
      the first four, their ranges never cross. */
  function TextFadesIn(i: nat, roles: seq<TextRole>, index: nat): (regs: seq<Registration>)
    ensures forall r :: r in regs ==> r.Scrub? && r.panel == i && (index + |roles| <= 4 ==> NonEmpty(r.range))
  {
    if roles == [] then []
    else [TextFadeIn(i, roles[0], index)] + TextFadesIn(i, roles[1..], index + 1)
  }

  /** `textElements.forEach` registering the fade-outs of `roles`, the first
      of them being the element at `index`. */
  function TextFadesOut(i: nat, roles: seq<TextRole>, index: nat): (regs: seq<Registration>)
    ensures forall r :: r in regs ==> r.Scrub? && r.panel == i && (index + |roles| <= 4 ==> NonEmpty(r.range))
  {
    if roles == [] then []
    else [TextFadeOut(i, roles[0], index)] + TextFadesOut(i, roles[1..], index + 1)
  }

  /** `if (backdrop)`: the backdrop's fade-in, when the panel has one. */
  function BackdropFadesIn(i: nat, p: Panel): seq<Registration> {
    if p.hasBackdrop then [BackdropFadeIn(i)] else []
  }

  /** `if (backdrop)`: the backdrop's fade-out, when the panel has one. */
  function BackdropFadesOut(i: nat, p: Panel): seq<Registration> {
    if p.hasBackdrop then [BackdropFadeOut(i)] else []
  }

  /** The scrubbed tweens of panel `i`, in source order: backdrop in, text
      in, backdrop out, text out.  Each is the panel's own. */
  function PanelTweens(i: nat, p: Panel): (regs: seq<Registration>)
    ensures forall r :: r in regs ==> r.Scrub? && BelongsTo(r, i)
  {
    var texts := TextElements(p);
    BackdropFadesIn(i, p) + (TextFadesIn(i, texts, 0) + (BackdropFadesOut(i, p) + TextFadesOut(i, texts, 0)))
  }

  /** What the `panels.forEach` callback registers for panel `i` when there
      are `bgCount` backgrounds: nothing at all without a background at its
      index, otherwise the crossfade trigger and then the panel's tweens. */
  function PanelRegistrations(i: nat, p: Panel, bgCount: nat): (regs: seq<Registration>)
    ensures forall r :: r in regs ==> i < bgCount && BelongsTo(r, i)
  {
    if i >= bgCount then [] else [Crossfade(i)] + PanelTweens(i, p)
  }

  /** The registrations of the panels from index `k` on. */
  function PanelsRegistrations(panels: seq<Panel>, bgCount: nat, k: nat): seq<Registration>
    decreases |panels| - k
  {
    if k >= |panels| then []
    else PanelRegistrations(k, panels[k], bgCount) + PanelsRegistrations(panels, bgCount, k + 1)
  }

  /** Each registration of the panels from index `k` on belongs to one of
      them that has a background. */
  lemma {:induction false} PanelsRegistrationsBelong(panels: seq<Panel>, bgCount: nat, k: nat, r: Registration)
    requires r in PanelsRegistrations(panels, bgCount, k)
    ensures (r.Crossfade? || r.Scrub?) && k <= r.panel < |panels| && r.panel < bgCount && BelongsTo(r, r.panel)
    decreases |panels| - k
  {
    if k < |panels| {
      var first := PanelRegistrations(k, panels[k], bgCount);
      var rest := PanelsRegistrations(panels, bgCount, k + 1);
      assert PanelsRegistrations(panels, bgCount, k) == first + rest;
      if r in rest {
        PanelsRegistrationsBelong(panels, bgCount, k + 1, r);
      } else {
        assert r in first;
      }
    }
  }

  /** The section-wide triggers, registered before the panels. */
  function SectionTriggers(hasContainer: bool): seq<Registration> {
    [ShapeGuard, HeaderReveal] + (if hasContainer then [Master] else [])
  }

  /** Everything the `useGSAP` callback registers. */
  function Registrations(reducedMotion: bool, panels: seq<Panel>, bgCount: nat, hasContainer: bool): seq<Registration> {
    if reducedMotion then []
    else SectionTriggers(hasContainer) + PanelsRegistrations(panels, bgCount, 0)
  }

  lemma {:induction false} CrossfadeInPanelsRegistrations(panels: seq<Panel>, bgCount: nat, k: nat, i: nat)
    requires k <= i < |panels| && i < bgCount
    ensures Crossfade(i) in PanelsRegistrations(panels, bgCount, k)
    decreases |panels| - k
  {
    var first := PanelRegistrations(k, panels[k], bgCount);
    var rest := PanelsRegistrations(panels, bgCount, k + 1);
    assert PanelsRegistrations(panels, bgCount, k) == first + rest;
    if k < i {
      CrossfadeInPanelsRegistrations(panels, bgCount, k + 1, i);
      assert Crossfade(i) in rest;
    } else {
      assert first[0] == Crossfade(i);
      assert Crossfade(i) in first;
    }
  }

  /** Panel `i` has a crossfade trigger exactly when motion is allowed and
      there is both a panel and a background at index `i`. */
  lemma CrossfadeRegisteredIff(reducedMotion: bool, panels: seq<Panel>, bgCount: nat, hasContainer: bool, i: nat)
    ensures Crossfade(i) in Registrations(reducedMotion, panels, bgCount, hasContainer)
            <==> !reducedMotion && i < |panels| && i < bgCount
  {
    if !reducedMotion {
      if i < |panels| && i < bgCount {
        CrossfadeInPanelsRegistrations(panels, bgCount, 0, i);
      }
      if Crossfade(i) in PanelsRegistrations(panels, bgCount, 0) {
        PanelsRegistrationsBelong(panels, bgCount, 0, Crossfade(i));
      }
    }
  }

  /** The master trigger is registered exactly when motion is allowed and
      the backgrounds container exists. */
  lemma MasterRegisteredIff(reducedMotion: bool, panels: seq<Panel>, bgCount: nat, hasContainer: bool)
    ensures Master in Registrations(reducedMotion, panels, bgCount, hasContainer) <==> !reducedMotion && hasContainer
  {
    if !reducedMotion && Master in PanelsRegistrations(panels, bgCount, 0) {
      PanelsRegistrationsBelong(panels, bgCount, 0, Master);
    }
  }

  /** The shape guard is registered exactly when motion is allowed. */
  lemma ShapeGuardRegisteredIff(reducedMotion: bool, panels: seq<Panel>, bgCount: nat, hasContainer: bool)
    ensures ShapeGuard in Registrations(reducedMotion, panels, bgCount, hasContainer) <==> !reducedMotion
  {
    if !reducedMotion && ShapeGuard in PanelsRegistrations(panels, bgCount, 0) {
      PanelsRegistrationsBelong(panels, bgCount, 0, ShapeGuard);
    }
  }

  /** A panel with no background at its index, or any panel under reduced
      motion, registers nothing; every scrubbed tween that is registered runs
      over a range the scroll position passes through. */
  lemma RegisteredTweensBelong(reducedMotion: bool, panels: seq<Panel>, bgCount: nat, hasContainer: bool, r: Registration)
    requires r in Registrations(reducedMotion, panels, bgCount, hasContainer)
    ensures (r.Crossfade? || r.Scrub?) ==> !reducedMotion && r.panel < |panels| && r.panel < bgCount
    ensures r.Scrub? ==> NonEmpty(r.range)
  {
    if !reducedMotion && r in PanelsRegistrations(panels, bgCount, 0) {
      PanelsRegistrationsBelong(panels, bgCount, 0, r);
    }
  }

  // ---------------------------------------------------------------------------
  // Scroll events and what the callbacks do to the targets.

  /** The four ScrollTrigger callbacks. */
  datatype Phase = Enter | Leave | EnterBack | LeaveBack {
    predicate Entering() { this == Enter || this == EnterBack }
  }

  datatype ScrollEvent =
    | SectionEvent(phase: Phase)           // the section's `top bottom` .. `bottom top` range
    | PanelEvent(panel: nat, phase: Phase) // panel `panel`'s `top 60%` .. `bottom 40%` range

  const Transparent := 0
  const Opaque := 1

  /** The target opacity is one of the two values the tweens set. */
  ghost predicate AllBinary(bgs: seq<int>) {
    forall k :: 0 <= k < |bgs| ==> bgs[k] == Transparent || bgs[k] == Opaque
  }

  /** At most one background is shown. */
  ghost predicate AtMostOneShown(bgs: seq<int>) {
    forall a, b :: 0 <= a < |bgs| && 0 <= b < |bgs| && bgs[a] == Opaque && bgs[b] == Opaque ==> a == b
  }

  /** `hideAllBackgrounds()` */
  function HideAll(n: nat): (bgs: seq<int>)
    ensures |bgs| == n && forall k :: 0 <= k < n ==> bgs[k] == Transparent
  {
    seq(n, _ => Transparent)
  }

  /** Hiding them all, then showing background `i`. */
  function ShowOnly(n: nat, i: nat): seq<int>
    requires i < n
  {
    HideAll(n)[i := Opaque]
  }

  /** The background targets after one event, given what is registered. */
  function StepBackgrounds(bgs: seq<int>, registry: seq<Registration>, ev: ScrollEvent): (next: seq<int>)
    ensures |next| == |bgs|
  {
    match ev
    case SectionEvent(phase) =>
      if Master in registry && !phase.Entering() then HideAll(|bgs|) else bgs
    case PanelEvent(i, phase) =>
      if Crossfade(i) in registry && i < |bgs| then
        if phase.Entering() then ShowOnly(|bgs|, i) else bgs[i := Transparent]
      else bgs
  }

  function StepAll(bgs: seq<int>, registry: seq<Registration>, events: seq<ScrollEvent>): (next: seq<int>)
    ensures |next| == |bgs|
    decreases |events|
  {
    if events == [] then bgs
    else StepAll(StepBackgrounds(bgs, registry, events[0]), registry, events[1..])
  }

  /** Entering panel `i` shows background `i` and hides every other one. */
  lemma PanelEnterShowsOnlyItself(bgs: seq<int>, registry: seq<Registration>, i: nat, phase: Phase)
    requires Crossfade(i) in registry && i < |bgs| && phase.Entering()
    ensures var next := StepBackgrounds(bgs, registry, PanelEvent(i, phase));
      next[i] == Opaque && forall k :: 0 <= k < |bgs| && k != i ==> next[k] == Transparent
  {
  }

  /** Leaving panel `i` hides background `i` and leaves every other one as it was. */
  lemma PanelLeaveHidesOnlyItself(bgs: seq<int>, registry: seq<Registration>, i: nat, phase: Phase)
    requires Crossfade(i) in registry && i < |bgs| && !phase.Entering()
    ensures var next := StepBackgrounds(bgs, registry, PanelEvent(i, phase));
      next[i] == Transparent && forall k :: 0 <= k < |bgs| && k != i ==> next[k] == bgs[k]
  {
  }

  /** Leaving the section, either way, hides every background once the
      master trigger is registered. */
  lemma SectionLeaveHidesAll(bgs: seq<int>, registry: seq<Registration>, phase: Phase)
    requires Master in registry && !phase.Entering()
    ensures forall k :: 0 <= k < |bgs| ==> StepBackgrounds(bgs, registry, SectionEvent(phase))[k] == Transparent
  {
  }

  lemma StepKeepsAtMostOneShown(bgs: seq<int>, registry: seq<Registration>, ev: ScrollEvent)
    requires AllBinary(bgs) && AtMostOneShown(bgs)
    ensures AllBinary(StepBackgrounds(bgs, registry, ev)) && AtMostOneShown(StepBackgrounds(bgs, registry, ev))
  {
  }

  /** Starting from every background hidden (the `opacity-0` class), no
      sequence of section and panel events ever shows two backgrounds. */
  lemma {:induction false} AtMostOneBackgroundShown(bgs: seq<int>, registry: seq<Registration>, events: seq<ScrollEvent>)
    requires AllBinary(bgs) && AtMostOneShown(bgs)
    ensures AllBinary(StepAll(bgs, registry, events)) && AtMostOneShown(StepAll(bgs, registry, events))
    decreases |events|
  {
    if events != [] {
      StepKeepsAtMostOneShown(bgs, registry, events[0]);
      AtMostOneBackgroundShown(StepBackgrounds(bgs, registry, events[0]), registry, events[1..]);
    }
  }

  lemma FromHiddenAtMostOneShown(n: nat, registry: seq<Registration>, events: seq<ScrollEvent>)
    ensures AtMostOneShown(StepAll(HideAll(n), registry, events))
  {
    AtMostOneBackgroundShown(HideAll(n), registry, events);
  }

  /** A shape's target: hidden or at its resting opacity, and whether
      pointer events have been switched off on it. */
  datatype ShapeTarget = ShapeTarget(hidden: bool, pointerEventsOff: bool)

  const RestingShape := ShapeTarget(false, false)

  /** The shape guard's callbacks: entering hides the shape, the forward
      entry also switching its pointer events off; leaving either way
      restores its opacity and leaves its pointer events as they are. */
  function ShapeAfter(s: ShapeTarget, phase: Phase): (t: ShapeTarget)
    ensures t.hidden <==> phase.Entering()
    ensures t.pointerEventsOff <==> s.pointerEventsOff || phase == Enter
  {
    match phase
    case Enter => ShapeTarget(true, true)
    case EnterBack => s.(hidden := true)
    case Leave => s.(hidden := false)
    case LeaveBack => s.(hidden := false)
  }

  function ShapesAfter(shapes: seq<ShapeTarget>, phase: Phase): seq<ShapeTarget> {
    seq(|shapes|, k requires 0 <= k < |shapes| => ShapeAfter(shapes[k], phase))
  }

  /** The shape targets after one event, given what is registered. */
  function StepShapes(shapes: seq<ShapeTarget>, registry: seq<Registration>, ev: ScrollEvent): seq<ShapeTarget> {
    if ev.SectionEvent? && ShapeGuard in registry then ShapesAfter(shapes, ev.phase) else shapes
  }

  /** Entering the section, either way, hides every floating and art shape
      once the shape guard is registered; leaving it, either way, shows them. */
  lemma SectionEventSetsShapes(shapes: seq<ShapeTarget>, registry: seq<Registration>, phase: Phase)
    requires ShapeGuard in registry
    ensures var next := StepShapes(shapes, registry, SectionEvent(phase));
      |next| == |shapes| && forall k :: 0 <= k < |shapes| ==> (next[k].hidden <==> phase.Entering())
  {
  }

  /** Once pointer events are off on a shape, no event turns them back on. */
  lemma PointerEventsStayOff(shapes: seq<ShapeTarget>, registry: seq<Registration>, ev: ScrollEvent, k: nat)
    requires k < |shapes| && shapes[k].pointerEventsOff
    ensures |StepShapes(shapes, registry, ev)| == |shapes| && StepShapes(shapes, registry, ev)[k].pointerEventsOff
  {
    if ev.SectionEvent? && ShapeGuard in registry {
      assert StepShapes(shapes, registry, ev)[k] == ShapeAfter(shapes[k], ev.phase);
    }
  }

  // ---------------------------------------------------------------------------
  // The section as a stateful object.

  lemma Associative<T>(a: seq<T>, b: seq<T>, c: seq<T>)
    ensures a + b + c == a + (b + c)
  {
  }

  predicate CrossfadeFits(r: Registration, bgCount: nat) {
    r.Crossfade? ==> r.panel < bgCount
  }

  /** Every crossfade trigger of `regs` has a background. */
  ghost predicate AllFit(regs: seq<Registration>, bgCount: nat) {
    forall r :: r in regs ==> CrossfadeFits(r, bgCount)
  }

  lemma AllFitAppend(a: seq<Registration>, b: seq<Registration>, bgCount: nat)
    requires AllFit(a, bgCount) && AllFit(b, bgCount)
    ensures AllFit(a + b, bgCount)
  {
  }

  lemma PanelsFit(panels: seq<Panel>, bgCount: nat)
    ensures AllFit(PanelsRegistrations(panels, bgCount, 0), bgCount)
  {
    forall r | r in PanelsRegistrations(panels, bgCount, 0) ensures CrossfadeFits(r, bgCount) {
      PanelsRegistrationsBelong(panels, bgCount, 0, r);
    }
  }

  class CreativeSection {
    const backgrounds: array<int>          // `[data-installation-bg]` target opacities
    const floatShapes: array<ShapeTarget>  // `[data-float-shape]`
    const artShapes: array<ShapeTarget>    // `.art-shape`
    var registry: seq<Registration>

    ghost predicate Valid()
      reads this, backgrounds
    {
      && floatShapes != artShapes
      && AllFit(registry, backgrounds.Length)
      && AllBinary(backgrounds[..])
      && AtMostOneShown(backgrounds[..])
    }

    /** The rendered section: every background starts hidden and every shape
        at rest; nothing is registered yet. */
    constructor (bgCount: nat, floatCount: nat, artCount: nat)
      ensures Valid()
      ensures backgrounds.Length == bgCount && backgrounds[..] == HideAll(bgCount)
      ensures floatShapes[..] == seq(floatCount, _ => RestingShape)
      ensures artShapes[..] == seq(artCount, _ => RestingShape)
      ensures registry == []
      ensures fresh(backgrounds) && fresh(floatShapes) && fresh(artShapes)
    {
      backgrounds := new int[bgCount](_ => Transparent);
      floatShapes := new ShapeTarget[floatCount](_ => RestingShape);
      artShapes := new ShapeTarget[artCount](_ => RestingShape);
      registry := [];
    }

    /** The `useGSAP` callback. */
    method Setup(reducedMotion: bool, panels: seq<Panel>, hasContainer: bool)
      requires Valid()
      modifies this
      ensures Valid()
      ensures registry == old(registry) + Registrations(reducedMotion, panels, backgrounds.Length, hasContainer)
    {
      if reducedMotion {
        return;
      }
      RegisterSectionTriggers(hasContainer);
      RegisterPanels(panels);
      ghost var head := SectionTriggers(hasContainer);
      ghost var tail := PanelsRegistrations(panels, backgrounds.Length, 0);
      Associative(old(registry), head, tail);
      PanelsFit(panels, backgrounds.Length);
      AllFitAppend(head, tail, backgrounds.Length);
      AllFitAppend(old(registry), head + tail, backgrounds.Length);
    }

    /** The shape guard, the header reveal and, when the backgrounds
        container exists, the master trigger. */
    method RegisterSectionTriggers(hasContainer: bool)
      modifies this
      ensures registry == old(registry) + SectionTriggers(hasContainer)
    {
      registry := registry + [ShapeGuard, HeaderReveal];
      if hasContainer {
        registry := registry + [Master];
      }
    }

    /** `panels.forEach` */
    method RegisterPanels(panels: seq<Panel>)
      modifies this
      ensures registry == old(registry) + PanelsRegistrations(panels, backgrounds.Length, 0)
    {
      var i := 0;
      while i < |panels|
        invariant 0 <= i <= |panels|
        invariant registry + PanelsRegistrations(panels, backgrounds.Length, i) == old(registry) + PanelsRegistrations(panels, backgrounds.Length, 0)
      {
        Associative(registry, PanelRegistrations(i, panels[i], backgrounds.Length), PanelsRegistrations(panels, backgrounds.Length, i + 1));
        RegisterPanel(i, panels[i]);
        i := i + 1;
      }
      assert registry + [] == registry;
    }

    /** The `panels.forEach` callback for panel `i`. */
    method RegisterPanel(i: nat, p: Panel)
      modifies this
      ensures registry == old(registry) + PanelRegistrations(i, p, backgrounds.Length)
    {
      if i >= backgrounds.Length {
        return;
      }
      var texts := TextElements(p);
      ghost var start := registry;
      registry := registry + [Crossfade(i)];
      ghost var afterCrossfade := registry;
      if p.hasBackdrop {
        registry := registry + [BackdropFadeIn(i)];
      }
      ghost var afterBackdrop := registry;
      RegisterTextFadesIn(i, texts);
      ghost var afterTexts := registry;
      if p.hasBackdrop {
        registry := registry + [BackdropFadeOut(i)];
      }
      RegisterTextFadesOut(i, texts);
      ghost var outs := BackdropFadesOut(i, p) + TextFadesOut(i, texts, 0);
      Associative(afterTexts, BackdropFadesOut(i, p), TextFadesOut(i, texts, 0));
      Associative(afterBackdrop, TextFadesIn(i, texts, 0), outs);
      Associative(afterCrossfade, BackdropFadesIn(i, p), TextFadesIn(i, texts, 0) + outs);
      Associative(start, [Crossfade(i)], PanelTweens(i, p));
    }

    /** The first `textElements.forEach`: a fade-in per text element. */
    method RegisterTextFadesIn(i: nat, texts: seq<TextRole>)
      modifies this
      ensures registry == old(registry) + TextFadesIn(i, texts, 0)
    {
      var k := 0;
      while k < |texts|
        invariant 0 <= k <= |texts|
        invariant registry + TextFadesIn(i, texts[k..], k) == old(registry) + TextFadesIn(i, texts, 0)
      {
        assert texts[k..][1..] == texts[k + 1..];
        Associative(registry, [TextFadeIn(i, texts[k], k)], TextFadesIn(i, texts[k + 1..], k + 1));
        registry := registry + [TextFadeIn(i, texts[k], k)];
        k := k + 1;
      }
      assert registry + [] == registry;
    }

    /** The second `textElements.forEach`: a fade-out per text element. */
    method RegisterTextFadesOut(i: nat, texts: seq<TextRole>)
      modifies this
      ensures registry == old(registry) + TextFadesOut(i, texts, 0)
    {
      var k := 0;
      while k < |texts|
        invariant 0 <= k <= |texts|
        invariant registry + TextFadesOut(i, texts[k..], k) == old(registry) + TextFadesOut(i, texts, 0)
      {
        assert texts[k..][1..] == texts[k + 1..];
        Associative(registry, [TextFadeOut(i, texts[k], k)], TextFadesOut(i, texts[k + 1..], k + 1));
        registry := registry + [TextFadeOut(i, texts[k], k)];
        k := k + 1;
      }
      assert registry + [] == registry;
    }

    /** `hideAllBackgrounds` */
    method HideAllBackgrounds()
      modifies backgrounds
      ensures backgrounds[..] == HideAll(backgrounds.Length)
    {
      var k := 0;
      while k < backgrounds.Length
        invariant 0 <= k <= backgrounds.Length
        invariant forall j :: 0 <= j < k ==> backgrounds[j] == Transparent
      {
        backgrounds[k] := Transparent;
        k := k + 1;
      }
    }

    /** One shape-guard tween over every shape of `shapes`. */
    static method ApplyShapeCallback(shapes: array<ShapeTarget>, phase: Phase)
      modifies shapes
      ensures shapes[..] == ShapesAfter(old(shapes[..]), phase)
    {
      var k := 0;
      while k < shapes.Length
        invariant 0 <= k <= shapes.Length
        invariant forall j :: 0 <= j < k ==> shapes[j] == ShapeAfter(old(shapes[j]), phase)
        invariant forall j :: k <= j < shapes.Length ==> shapes[j] == old(shapes[j])
      {
        shapes[k] := ShapeAfter(shapes[k], phase);
        k := k + 1;
      }
    }

    /** Runs the callbacks the registered triggers have for `ev`. */
    method Dispatch(ev: ScrollEvent)
      requires Valid()
      modifies backgrounds, floatShapes, artShapes
      ensures Valid()
      ensures backgrounds[..] == StepBackgrounds(old(backgrounds[..]), registry, ev)
      ensures floatShapes[..] == StepShapes(old(floatShapes[..]), registry, ev)
      ensures artShapes[..] == StepShapes(old(artShapes[..]), registry, ev)
    {
      ghost var bgs := backgrounds[..];
      StepKeepsAtMostOneShown(bgs, registry, ev);
      match ev
      case SectionEvent(phase) =>
        if ShapeGuard in registry {
          ApplyShapeCallback(floatShapes, phase);
          ApplyShapeCallback(artShapes, phase);
        }
        if Master in registry && !phase.Entering() {
          HideAllBackgrounds();
        }
      case PanelEvent(i, phase) =>
        if Crossfade(i) in registry {
          assert CrossfadeFits(Crossfade(i), backgrounds.Length);
          if phase.Entering() {
            HideAllBackgrounds();
            backgrounds[i] := Opaque;
          } else {
            backgrounds[i] := Transparent;
          }
        }
    }
  }
}
