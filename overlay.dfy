/**
 * The two pieces of component state that decide which overlay is shown: the
 * inventory grid (`isInventoryOpen`) and the item inspector (`selectedItem`
 * non-null), with the four handlers that change them, as values.
 */
module Overlay {
  import opened Catalog

  datatype OverlayState = OverlayState(isInventoryOpen: bool, selectedItem: Option<Item>)

  /** `useState(false)` and `useState(null)`. */
  const Initial: OverlayState := OverlayState(false, None)

  /** The handlers. `closeItem`'s argument (the click event) is never read, so it carries none. */
  datatype Transition = OpenInventory | CloseInventory | OpenItem(item: Item) | CloseItem

  /**
   * The state after one handler. Each handler's state updates are batched
   * into one render, so their order inside the handler does not matter.
   */
  function Apply(s: OverlayState, t: Transition): (r: OverlayState)
    ensures r.isInventoryOpen <==> t.OpenInventory? || t.CloseItem?
    ensures t.OpenInventory? ==> r.selectedItem == s.selectedItem
    ensures !t.OpenInventory? ==> r.selectedItem == (if t.OpenItem? then Some(t.item) else None)
  {
    match t
    case OpenInventory => s.(isInventoryOpen := true)
    case CloseInventory => OverlayState(false, None)
    case OpenItem(item) => OverlayState(false, Some(item))
    case CloseItem => OverlayState(true, None)
  }

  /** The state after a sequence of handlers, the last one applied last. */
  function Run(s: OverlayState, ts: seq<Transition>): (r: OverlayState)
    ensures ts == [] ==> r == s
    ensures ts != [] && !ts[|ts| - 1].OpenInventory? ==> r == Apply(Initial, ts[|ts| - 1])
    ensures (forall i :: 0 <= i < |ts| ==> ts[i].OpenInventory?) ==> r.selectedItem == s.selectedItem
    decreases |ts|
  {
    if ts == [] then s else Apply(Run(s, ts[..|ts| - 1]), ts[|ts| - 1])
  }

  /** The grid and the inspector are not both shown. */
  predicate Exclusive(s: OverlayState) {
    !(s.isInventoryOpen && s.selectedItem.Some?)
  }

  /**
   * Every handler other than `openInventory` leaves the two overlays apart,
   * from any state, and `openInventory` does so exactly when no item is
   * selected: it never clears the selection.
   */
  lemma TransitionsAndExclusion(s: OverlayState, t: Transition)
    ensures !t.OpenInventory? ==> Exclusive(Apply(s, t))
    ensures t.OpenInventory? ==> (Exclusive(Apply(s, t)) <==> s.selectedItem.None?)
  {
  }

  /** Each handler taken alone from the initial state leaves the overlays apart. */
  lemma FirstStepExclusive(t: Transition)
    ensures Exclusive(Apply(Initial, t))
  {
  }

  /** Opening an item and then pressing the inventory button shows both overlays. */
  lemma OpenInventoryAfterItem(item: Item)
    ensures var s := Run(Initial, [OpenItem(item), OpenInventory]);
            s.isInventoryOpen && s.selectedItem == Some(item) && !Exclusive(s)
  {
    assert [OpenItem(item), OpenInventory][..1] == [OpenItem(item)];
    assert [OpenItem(item)][..0] == [];
  }

  /**
   * Position `k` holds an `openItem` that is still in effect at the end of
   * `ts`: everything after it is `openInventory`.
   */
  ghost predicate Pending(ts: seq<Transition>, k: int) {
    0 <= k < |ts| && ts[k].OpenItem? && forall j :: k < j < |ts| ==> ts[j].OpenInventory?
  }

  /** From any start, the grid is open exactly when the last handler was `openInventory` or `closeItem`. */
  lemma {:induction false} InventoryOpenAfterRun(s: OverlayState, ts: seq<Transition>)
    requires ts != []
    ensures Run(s, ts).isInventoryOpen <==> ts[|ts| - 1].OpenInventory? || ts[|ts| - 1].CloseItem?
  {
  }

  /** The selected item at the end of a run started with nothing selected is the pending `openItem`'s item, if any. */
  lemma {:induction false} SelectionAfterRun(s: OverlayState, ts: seq<Transition>)
    requires s.selectedItem.None?
    ensures Run(s, ts).selectedItem.Some? <==> exists k :: Pending(ts, k)
    ensures forall k :: Pending(ts, k) ==> Run(s, ts).selectedItem == Some(ts[k].item)
  {
    if ts != [] {
      var init := ts[..|ts| - 1];
      var last := ts[|ts| - 1];
      SelectionAfterRun(s, init);
      forall k | Pending(init, k) && last.OpenInventory?
        ensures Pending(ts, k)
      {
      }
      forall k | Pending(ts, k) && k < |ts| - 1
        ensures Pending(init, k) && last.OpenInventory?
      {
      }
      if last.OpenItem? {
        assert Pending(ts, |ts| - 1);
      }
    }
  }

  /**
   * The overlays end up shown together exactly when an `openItem` is followed
   * by at least one `openInventory` and by nothing else.
   */
  lemma {:induction false} BothOverlaysShown(ts: seq<Transition>)
    ensures !Exclusive(Run(Initial, ts)) <==> exists k :: Pending(ts, k) && k < |ts| - 1
  {
    SelectionAfterRun(Initial, ts);
    if ts != [] {
      InventoryOpenAfterRun(Initial, ts);
      if exists k :: Pending(ts, k) && k < |ts| - 1 {
        var k :| Pending(ts, k) && k < |ts| - 1;
        assert ts[|ts| - 1].OpenInventory?;
      }
      if !Exclusive(Run(Initial, ts)) {
        var k :| Pending(ts, k);
        assert k != |ts| - 1;
      }
    }
  }
}
