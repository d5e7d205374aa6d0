/** The interaction store of the vault hero: one mutable record holding the
    door offset, the normalised mouse position, the scroll progress, the
    animation flag and the flashlight configuration. Each action overwrites the
    fields it names (a shallow merge into the record) and leaves the others
    alone. The pure `With*` functions say what each action does to a snapshot
    of the record; the methods of `Store` perform it in place. */
module VaultStore {
  import opened MathUtils
  import opened Wrappers

  datatype Mouse = Mouse(x: real, y: real)

  datatype Flashlight = Flashlight(enabled: bool, radius: real, opacity: real, sharpness: real)

  /** A partial flashlight configuration: `None` is a key absent from the object. */
  datatype FlashlightPatch = FlashlightPatch(
    enabled: Option<bool>,
    radius: Option<real>,
    opacity: Option<real>,
    sharpness: Option<real>)

  datatype VaultState = VaultState(
    vaultOffset: real,
    mouse: Mouse,
    scrollProgress: real,
    isAnimating: bool,
    flashlight: Flashlight)

  const DefaultFlashlight := Flashlight(true, 300.0, 0.9, 0.5)

  /** The state the store is created with and that `reset` restores. */
  const Initial := VaultState(0.0, Mouse(0.0, 0.0), 0.0, false, DefaultFlashlight)

  const NoPatch := FlashlightPatch(None, None, None, None)

  /** The ranges the setters clamp to. */
  predicate InRange(s: VaultState) {
    && -1.0 <= s.mouse.x <= 1.0
    && -1.0 <= s.mouse.y <= 1.0
    && 0.0 <= s.scrollProgress <= 1.0
    && 0.0 <= s.vaultOffset <= 1.0
  }

  /** The relation `setScrollProgress` establishes between its three fields. */
  predicate Synced(s: VaultState) {
    s.vaultOffset == s.scrollProgress && s.isAnimating == (0.0 < s.scrollProgress < 1.0)
  }

  /** `{ ...f, ...p }` */
  function MergeFlashlight(f: Flashlight, p: FlashlightPatch): (r: Flashlight)
    ensures p.enabled.Some? ==> r.enabled == p.enabled.value
    ensures p.enabled.None? ==> r.enabled == f.enabled
    ensures p.radius.Some? ==> r.radius == p.radius.value
    ensures p.radius.None? ==> r.radius == f.radius
    ensures p.opacity.Some? ==> r.opacity == p.opacity.value
    ensures p.opacity.None? ==> r.opacity == f.opacity
    ensures p.sharpness.Some? ==> r.sharpness == p.sharpness.value
    ensures p.sharpness.None? ==> r.sharpness == f.sharpness
  {
    Flashlight(
      p.enabled.GetOr(f.enabled),
      p.radius.GetOr(f.radius),
      p.opacity.GetOr(f.opacity),
      p.sharpness.GetOr(f.sharpness))
  }

  /** `{ ...p, ...q }`: the keys of `q` win. */
  function CombinePatches(p: FlashlightPatch, q: FlashlightPatch): FlashlightPatch {
    FlashlightPatch(
      if q.enabled.Some? then q.enabled else p.enabled,
      if q.radius.Some? then q.radius else p.radius,
      if q.opacity.Some? then q.opacity else p.opacity,
      if q.sharpness.Some? then q.sharpness else p.sharpness)
  }

  /** Merging an empty patch keeps the configuration, merging the same patch
      twice is merging it once, and two merges in a row are one merge of the
      combined patch. */
  lemma MergeLaws(f: Flashlight, p: FlashlightPatch, q: FlashlightPatch)
    ensures MergeFlashlight(f, NoPatch) == f
    ensures MergeFlashlight(MergeFlashlight(f, p), p) == MergeFlashlight(f, p)
    ensures MergeFlashlight(MergeFlashlight(f, p), q) == MergeFlashlight(f, CombinePatches(p, q))
  {
  }

  /** setVaultOffset */
  function WithVaultOffset(s: VaultState, offset: real): (r: VaultState)
    ensures 0.0 <= r.vaultOffset <= 1.0
    ensures 0.0 <= offset <= 1.0 ==> r.vaultOffset == offset
    ensures r.(vaultOffset := s.vaultOffset) == s
  {
    s.(vaultOffset := Clamp(offset, 0.0, 1.0))
  }

  /** setMouse */
  function WithMouse(s: VaultState, x: real, y: real): (r: VaultState)
    ensures -1.0 <= r.mouse.x <= 1.0 && -1.0 <= r.mouse.y <= 1.0
    ensures -1.0 <= x <= 1.0 ==> r.mouse.x == x
    ensures -1.0 <= y <= 1.0 ==> r.mouse.y == y
    ensures r.(mouse := s.mouse) == s
  {
    s.(mouse := Mouse(Clamp(x, -1.0, 1.0), Clamp(y, -1.0, 1.0)))
  }

  /** setScrollProgress: the clamped progress is written to both the progress
      and the offset, and the animation flag is derived from it. */
  function WithScrollProgress(s: VaultState, progress: real): (r: VaultState)
    ensures Synced(r)
    ensures 0.0 <= r.scrollProgress <= 1.0
    ensures 0.0 <= progress <= 1.0 ==> r.scrollProgress == progress
    ensures progress <= 0.0 ==> r.scrollProgress == 0.0 && !r.isAnimating
    ensures progress >= 1.0 ==> r.scrollProgress == 1.0 && !r.isAnimating
    ensures r.mouse == s.mouse && r.flashlight == s.flashlight
  {
    var clamped := Clamp(progress, 0.0, 1.0);
    s.(scrollProgress := clamped, vaultOffset := clamped, isAnimating := clamped > 0.0 && clamped < 1.0)
  }

  /** setIsAnimating */
  function WithIsAnimating(s: VaultState, isAnimating: bool): (r: VaultState)
    ensures r.isAnimating == isAnimating
    ensures r.(isAnimating := s.isAnimating) == s
  {
    s.(isAnimating := isAnimating)
  }

  /** setFlashlight: a shallow merge into the flashlight record; nothing is clamped. */
  function WithFlashlight(s: VaultState, config: FlashlightPatch): (r: VaultState)
    ensures r.flashlight == MergeFlashlight(s.flashlight, config)
    ensures r.(flashlight := s.flashlight) == s
  {
    s.(flashlight := MergeFlashlight(s.flashlight, config))
  }

  /** Every action keeps every clamped field in its range, and the only
      actions that can break `Synced` are setVaultOffset and setIsAnimating. */
  lemma ActionsKeepInRange(s: VaultState, a: real, b: real, flag: bool, p: FlashlightPatch)
    requires InRange(s)
    ensures InRange(WithVaultOffset(s, a))
    ensures InRange(WithMouse(s, a, b))
    ensures InRange(WithScrollProgress(s, a))
    ensures InRange(WithIsAnimating(s, flag))
    ensures InRange(WithFlashlight(s, p))
    ensures InRange(Initial)
    ensures Synced(s) ==> Synced(WithMouse(s, a, b)) && Synced(WithFlashlight(s, p))
  {
  }

  /** Repeating a setter with the same input changes nothing. */
  lemma SettersIdempotent(s: VaultState, a: real, b: real, flag: bool, p: FlashlightPatch)
    ensures WithVaultOffset(WithVaultOffset(s, a), a) == WithVaultOffset(s, a)
    ensures WithMouse(WithMouse(s, a, b), a, b) == WithMouse(s, a, b)
    ensures WithScrollProgress(WithScrollProgress(s, a), a) == WithScrollProgress(s, a)
    ensures WithIsAnimating(WithIsAnimating(s, flag), flag) == WithIsAnimating(s, flag)
    ensures WithFlashlight(WithFlashlight(s, p), p) == WithFlashlight(s, p)
  {
    ClampIdempotent(a, 0.0, 1.0);
    ClampIdempotent(a, -1.0, 1.0);
    ClampIdempotent(b, -1.0, 1.0);
    MergeLaws(s.flashlight, p, p);
  }

  /** setVaultOffset and setIsAnimating write one field only, so each can leave
      the store with an offset or a flag that no longer follows the progress. */
  lemma DirectSettersCanDesync()
    ensures Synced(WithScrollProgress(Initial, 0.5))
    ensures !Synced(WithVaultOffset(WithScrollProgress(Initial, 0.5), 0.2))
    ensures Synced(Initial) && !Synced(WithIsAnimating(Initial, true))
  {
  }

  /** The values the store's unit tests expect. */
  lemma StoreExamples()
    ensures WithMouse(Initial, 0.5, -0.5).mouse == Mouse(0.5, -0.5)
    ensures WithMouse(Initial, 2.0, -2.0).mouse == Mouse(1.0, -1.0)
    ensures var s := WithScrollProgress(Initial, 0.5);
      s.scrollProgress == 0.5 && s.vaultOffset == 0.5 && s.isAnimating
    ensures var s := WithScrollProgress(Initial, 1.5);
      s.scrollProgress == 1.0 && s.vaultOffset == 1.0 && !s.isAnimating
  {
  }

  /** The store instance. */
  class Store {
    var vaultOffset: real
    var mouse: Mouse
    var scrollProgress: real
    var isAnimating: bool
    var flashlight: Flashlight

    function State(): VaultState
      reads this
    {
      VaultState(vaultOffset, mouse, scrollProgress, isAnimating, flashlight)
    }

    constructor ()
      ensures State() == Initial
    {
      vaultOffset := 0.0;
      mouse := Mouse(0.0, 0.0);
      scrollProgress := 0.0;
      isAnimating := false;
      flashlight := DefaultFlashlight;
    }

    method SetVaultOffset(offset: real)
      modifies this
      ensures State() == WithVaultOffset(old(State()), offset)
    {
      vaultOffset := Max(0.0, Min(1.0, offset));
    }

    method SetMouse(x: real, y: real)
      modifies this
      ensures State() == WithMouse(old(State()), x, y)
    {
      mouse := Mouse(Max(-1.0, Min(1.0, x)), Max(-1.0, Min(1.0, y)));
    }

    method SetScrollProgress(progress: real)
      modifies this
      ensures State() == WithScrollProgress(old(State()), progress)
    {
      var clampedProgress := Max(0.0, Min(1.0, progress));
      var offset := clampedProgress;
      scrollProgress := clampedProgress;
      vaultOffset := offset;
      isAnimating := clampedProgress > 0.0 && clampedProgress < 1.0;
    }

    method SetIsAnimating(flag: bool)
      modifies this
      ensures State() == WithIsAnimating(old(State()), flag)
    {
      isAnimating := flag;
    }

    method SetFlashlight(config: FlashlightPatch)
      modifies this
      ensures State() == WithFlashlight(old(State()), config)
    {
      flashlight := MergeFlashlight(flashlight, config);
    }

    /** Restores the initial state whatever the current one is, so a second
        reset changes nothing. */
    method Reset()
      modifies this
      ensures State() == Initial
    {
      vaultOffset := 0.0;
      mouse := Mouse(0.0, 0.0);
      scrollProgress := 0.0;
      isAnimating := false;
      flashlight := Flashlight(true, 300.0, 0.9, 0.5);
    }
  }
}
