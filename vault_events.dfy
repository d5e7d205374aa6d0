/** The pointer tracker of the vault hero: on every mouse move over the
    `vault-hero` element the pointer is mapped to [-1, 1] on each axis relative
    to the element's box (centre (0, 0)) and written to the store, which clamps
    it; on mouse leave the pointer is reset to (0, 0). The element's box is read
    at each event, so it is a parameter of the handler. */
module VaultEvents {
  import opened MathUtils
  import opened Wrappers
  import opened Dom
  import opened VaultStore

  /** The box `getBoundingClientRect` reports. */
  datatype Rect = Rect(left: real, top: real, width: real, height: real)

  /** `((client - (start + extent / 2)) / extent) * 2`: the position of `client`
      along a box edge that starts at `start` and is `extent` long, with the
      box's two ends at -1 and +1. */
  function NormalizeAxis(client: real, start: real, extent: real): (n: real)
    requires extent > 0.0
    ensures start + (n + 1.0) * extent / 2.0 == client
  {
    ((client - (start + extent / 2.0)) / extent) * 2.0
  }

  /** The centre of the box maps to 0, its first edge to -1 and its far edge to +1. */
  lemma NormalizeLandmarks(start: real, extent: real)
    requires extent > 0.0
    ensures NormalizeAxis(start + extent / 2.0, start, extent) == 0.0
    ensures NormalizeAxis(start, start, extent) == -1.0
    ensures NormalizeAxis(start + extent, start, extent) == 1.0
  {
  }

  /** The normalisation is strictly increasing in the pointer coordinate. */
  lemma NormalizeStrictlyIncreasing(a: real, b: real, start: real, extent: real)
    requires extent > 0.0 && a < b
    ensures NormalizeAxis(a, start, extent) < NormalizeAxis(b, start, extent)
  {
    var na, nb := NormalizeAxis(a, start, extent), NormalizeAxis(b, start, extent);
    if nb <= na {
      MulMonotone(nb + 1.0, na + 1.0, extent / 2.0);
      assert false;
    }
  }

  lemma MulMonotone(u: real, v: real, c: real)
    requires u <= v && c >= 0.0
    ensures u * c <= v * c
  {
    MulNonNegative(v - u, c);
  }

  /** A pointer lands in [-1, 1] exactly when it lies within the box. */
  lemma NormalizeInsideBox(client: real, start: real, extent: real)
    requires extent > 0.0
    ensures start <= client <= start + extent <==> -1.0 <= NormalizeAxis(client, start, extent) <= 1.0
  {
    var n := NormalizeAxis(client, start, extent);
    var h := extent / 2.0;
    assert client == start + (n + 1.0) * h;
    if -1.0 <= n <= 1.0 {
      MulMonotone(0.0, n + 1.0, h);
      MulMonotone(n + 1.0, 2.0, h);
    }
    if n < -1.0 {
      MulStrict(n + 1.0, 0.0, h);
    }
    if n > 1.0 {
      MulStrict(2.0, n + 1.0, h);
    }
  }

  lemma MulStrict(u: real, v: real, c: real)
    requires u < v && c > 0.0
    ensures u * c < v * c
  {
  }

  /** The mouse a move event leaves in the store: in [-1, 1]² for any pointer
      position, and exactly the normalised position when the pointer is inside
      the box. */
  lemma MoveStoresClampedPosition(s: VaultState, rect: Rect, clientX: real, clientY: real)
    requires rect.width > 0.0 && rect.height > 0.0
    ensures var r := WithMouse(s, NormalizeAxis(clientX, rect.left, rect.width),
                                  NormalizeAxis(clientY, rect.top, rect.height));
      && -1.0 <= r.mouse.x <= 1.0 && -1.0 <= r.mouse.y <= 1.0
      && (rect.left <= clientX <= rect.left + rect.width && rect.top <= clientY <= rect.top + rect.height
          ==> r.mouse == Mouse(NormalizeAxis(clientX, rect.left, rect.width),
                               NormalizeAxis(clientY, rect.top, rect.height)))
  {
    NormalizeInsideBox(clientX, rect.left, rect.width);
    NormalizeInsideBox(clientY, rect.top, rect.height);
  }

  /** handleMouseMove */
  method HandleMouseMove(store: Store, rect: Rect, clientX: real, clientY: real)
    requires rect.width > 0.0 && rect.height > 0.0
    modifies store
    ensures store.State() == WithMouse(old(store.State()),
      NormalizeAxis(clientX, rect.left, rect.width), NormalizeAxis(clientY, rect.top, rect.height))
  {
    var centerX := rect.left + rect.width / 2.0;
    var centerY := rect.top + rect.height / 2.0;
    var normalizedX := ((clientX - centerX) / rect.width) * 2.0;
    var normalizedY := ((clientY - centerY) / rect.height) * 2.0;
    store.SetMouse(normalizedX, normalizedY);
  }

  /** handleMouseLeave: the pointer goes back to the centre. */
  method HandleMouseLeave(store: Store)
    modifies store
    ensures store.State() == WithMouse(old(store.State()), 0.0, 0.0)
    ensures store.mouse == Mouse(0.0, 0.0)
  {
    store.SetMouse(0.0, 0.0);
  }

  /** `containerRef` */
  class ContainerRef {
    var current: EventTarget?

    constructor ()
      ensures current == null
    {
      current := null;
    }
  }

  /** The two listeners one run of the effect registers; `run` identifies the
      closures created by that run. */
  function MoveListener(run: nat): Listener { Listener(MouseMove, run) }
  function LeaveListener(run: nat): Listener { Listener(MouseLeave, run) }

  /** What the effect's cleanup function needs: the element and its two listeners. */
  datatype Subscription = Subscription(container: EventTarget, move: Listener, leave: Listener)

  /** The effect at mount. `hero` is what `document.getElementById('vault-hero')`
      returned; when it is absent nothing is registered and there is nothing to
      tear down. */
  method Mount(hero: EventTarget?, containerRef: ContainerRef, run: nat)
    returns (sub: Option<Subscription>)
    requires hero != null ==> MoveListener(run) !in hero.listeners && LeaveListener(run) !in hero.listeners
    modifies containerRef, hero
    ensures hero == null ==> sub == None && unchanged(containerRef)
    ensures hero != null ==>
      && sub == Some(Subscription(hero, MoveListener(run), LeaveListener(run)))
      && containerRef.current == hero
      && hero.listeners == old(hero.listeners) + [MoveListener(run), LeaveListener(run)]
  {
    if hero == null {
      return None;
    }
    containerRef.current := hero;
    hero.AddEventListener(MoveListener(run));
    hero.AddEventListener(LeaveListener(run));
    sub := Some(Subscription(hero, MoveListener(run), LeaveListener(run)));
  }

  /** The effect's cleanup: removes the two listeners the mount added and no
      other; by `Dom.UndoAppend`, right after a mount this gives back the
      registrations the element had before it. */
  method Teardown(sub: Subscription)
    modifies sub.container
    ensures sub.container.listeners == Without(Without(old(sub.container.listeners), sub.move), sub.leave)
    ensures sub.move !in sub.container.listeners && sub.leave !in sub.container.listeners
  {
    sub.container.RemoveEventListener(sub.move);
    sub.container.RemoveEventListener(sub.leave);
  }
}
