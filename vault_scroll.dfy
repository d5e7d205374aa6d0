/** The scroll tracker of the vault hero: progress is the window's vertical
    scroll offset divided by the viewport height, clamped to [0, 1], and is
    written to the store on every scroll event and once when the hook mounts. */
module VaultScroll {
  import opened MathUtils
  import opened Dom
  import opened VaultStore

  /** `Math.min(Math.max(scrollY / innerHeight, 0), 1)` */
  function ScrollProgress(scrollY: real, innerHeight: real): (p: real)
    requires innerHeight > 0.0
    ensures 0.0 <= p <= 1.0
    ensures scrollY <= 0.0 ==> p == 0.0
    ensures scrollY >= innerHeight ==> p == 1.0
    ensures 0.0 <= scrollY <= innerHeight ==> p * innerHeight == scrollY
  {
    Min(Max(scrollY / innerHeight, 0.0), 1.0)
  }

  /** Scrolling further down never decreases the progress. */
  lemma ScrollProgressMonotone(a: real, b: real, innerHeight: real)
    requires innerHeight > 0.0 && a <= b
    ensures ScrollProgress(a, innerHeight) <= ScrollProgress(b, innerHeight)
  {
    assert a / innerHeight <= b / innerHeight by {
      assert b / innerHeight - a / innerHeight == (b - a) / innerHeight;
    }
  }

  /** The values the hook's tests expect for a 1000-pixel viewport. */
  lemma ScrollExamples()
    ensures ScrollProgress(500.0, 1000.0) == 0.5
    ensures ScrollProgress(1500.0, 1000.0) == 1.0
    ensures ScrollProgress(-100.0, 1000.0) == 0.0
  {
  }

  /** The store clamps again, which changes nothing: both the stored progress
      and the stored offset are the computed progress. */
  lemma StoredProgressIsComputed(s: VaultState, scrollY: real, innerHeight: real)
    requires innerHeight > 0.0
    ensures var p := ScrollProgress(scrollY, innerHeight);
      WithScrollProgress(s, p).scrollProgress == p && WithScrollProgress(s, p).vaultOffset == p
  {
  }

  /** handleScroll, with the window's `scrollY` and `innerHeight` at the event. */
  method HandleScroll(store: Store, scrollY: real, innerHeight: real)
    requires innerHeight > 0.0
    modifies store
    ensures store.State() == WithScrollProgress(old(store.State()), ScrollProgress(scrollY, innerHeight))
    ensures store.scrollProgress == ScrollProgress(scrollY, innerHeight)
    ensures store.vaultOffset == store.scrollProgress
  {
    var scrollHeight := innerHeight;
    var currentScroll := scrollY;
    var progress := Min(Max(currentScroll / scrollHeight, 0.0), 1.0);
    store.SetScrollProgress(progress);
  }

  /** The single scroll listener one run of the effect registers. */
  function ScrollListener(run: nat): Listener { Listener(Scroll, run) }

  /** The effect at mount: registers the scroll listener on the window and runs
      the handler once, so the store follows the scroll position before any
      scroll event. */
  method Mount(window: EventTarget, store: Store, run: nat, scrollY: real, innerHeight: real)
    returns (listener: Listener)
    requires innerHeight > 0.0
    requires ScrollListener(run) !in window.listeners
    modifies window, store
    ensures listener == ScrollListener(run)
    ensures window.listeners == old(window.listeners) + [listener]
    ensures store.State() == WithScrollProgress(old(store.State()), ScrollProgress(scrollY, innerHeight))
  {
    listener := ScrollListener(run);
    window.AddEventListener(listener);
    HandleScroll(store, scrollY, innerHeight);
  }

  /** The effect's cleanup: removes the scroll listener and no other; right after
      a mount this gives back the window's earlier registrations. */
  method Teardown(window: EventTarget, listener: Listener)
    modifies window
    ensures window.listeners == Without(old(window.listeners), listener)
    ensures listener !in window.listeners
  {
    window.RemoveEventListener(listener);
  }
}
