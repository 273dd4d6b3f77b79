/**
 * The component's mutable state: the two overlay state variables, the two
 * engine refs, and what the latest inspector scene did with its loaded
 * asset. Canvas refs are parameters saying whether the canvas element is
 * mounted; the asset loader's outcome and `Math.log` are parameters too.
 */
module AppComponent {
  import opened Catalog
  import opened Overlay
  import opened Normalise

  /** A rendering engine bound to a canvas; only its identity is modelled. */
  class Engine {
    constructor ()
    {
    }
  }

  /** The inspector scene is built only for a selected item that has an asset URL, once its canvas is mounted. */
  predicate InspectorCanBuild(selected: Option<Item>, canvasMounted: bool) {
    selected.Some? && canvasMounted && HasAssetUrl(selected.value)
  }

  /** Opening any catalog item makes the inspector buildable; closing the item or the inventory never does. */
  lemma InspectorGuardAfterHandlers(s: OverlayState, i: nat, canvasMounted: bool)
    requires i < |InventoryItems|
    ensures InspectorCanBuild(Apply(s, OpenItem(InventoryItems[i])).selectedItem, canvasMounted) <==> canvasMounted
    ensures !InspectorCanBuild(Apply(s, CloseItem).selectedItem, canvasMounted)
    ensures !InspectorCanBuild(Apply(s, CloseInventory).selectedItem, canvasMounted)
  {
    CatalogWellFormed();
  }

  class App {
    var isInventoryOpen: bool
    var selectedItem: Option<Item>
    /** `reactEngine.current`: the background scene's engine. */
    var reactEngine: Engine?
    /** `inventoryEngine.current`: the engine of the latest inspector scene. */
    var inventoryEngine: Engine?
    /** The pose and animation given to the latest inspector scene's root mesh; `None` when its load failed. */
    var inspectorMesh: Option<EntryAnimation>

    ghost function View(): OverlayState
      reads this
    {
      OverlayState(isInventoryOpen, selectedItem)
    }

    /** First render: nothing open, nothing selected, no engine. */
    constructor ()
      ensures View() == Initial
      ensures reactEngine == null && inventoryEngine == null && inspectorMesh == None
    {
      isInventoryOpen := false;
      selectedItem := None;
      reactEngine := null;
      inventoryEngine := null;
      inspectorMesh := None;
    }

    /** Shows the grid; the selection is left as it was. */
    method OpenInventory()
      modifies this`isInventoryOpen
      ensures isInventoryOpen && selectedItem == old(selectedItem)
      ensures View() == Apply(old(View()), Transition.OpenInventory)
    {
      isInventoryOpen := true;
    }

    /** Hides the grid and drops any selection. */
    method CloseInventory()
      modifies this`isInventoryOpen, this`selectedItem
      ensures !isInventoryOpen && selectedItem == None
      ensures View() == Apply(old(View()), Transition.CloseInventory)
    {
      isInventoryOpen := false;
      selectedItem := None;
    }

    /** Selects `item` and hides the grid. */
    method OpenItem(item: Item)
      modifies this`isInventoryOpen, this`selectedItem
      ensures !isInventoryOpen && selectedItem == Some(item)
      ensures View() == Apply(old(View()), Transition.OpenItem(item))
    {
      selectedItem := Some(item);
      isInventoryOpen := false;
    }

    /** Drops the selection and shows the grid again. */
    method CloseItem()
      modifies this`isInventoryOpen, this`selectedItem
      ensures isInventoryOpen && selectedItem == None
      ensures View() == Apply(old(View()), Transition.CloseItem)
    {
      selectedItem := None;
      isInventoryOpen := true;
    }

    /**
     * The mount effect: an engine is created for the background canvas only
     * when the canvas is mounted and no engine exists yet, so running it
     * again never replaces an engine.
     */
    method CreateBackgroundEngine(canvasMounted: bool)
      modifies this`reactEngine
      ensures old(reactEngine) != null ==> reactEngine == old(reactEngine)
      ensures old(reactEngine) == null && canvasMounted ==> reactEngine != null && fresh(reactEngine)
      ensures old(reactEngine) == null && !canvasMounted ==> reactEngine == null
    {
      if canvasMounted && reactEngine == null {
        var engine := new Engine();
        reactEngine := engine;
      }
    }

    /**
     * The inspector effect run after `selectedItem` changes. When the guard
     * fails nothing is created. Otherwise a new engine replaces the ref, and
     * the root mesh of the loaded asset (if the load succeeded) is placed and
     * animated as `Entry` says; a failed load leaves the new scene without a
     * mesh.
     */
    method SetupInventoryScene(canvasMounted: bool, loaded: Option<BoundingVectors>, log: real -> real)
      modifies this`inventoryEngine, this`inspectorMesh
      ensures !InspectorCanBuild(selectedItem, canvasMounted) ==>
                inventoryEngine == old(inventoryEngine) && inspectorMesh == old(inspectorMesh)
      ensures InspectorCanBuild(selectedItem, canvasMounted) ==>
                inventoryEngine != null && fresh(inventoryEngine) &&
                inspectorMesh == (if loaded.Some? then Some(Entry(loaded.value, log)) else None)
    {
      if selectedItem.Some? && canvasMounted && HasAssetUrl(selectedItem.value) {
        var engine := new Engine();
        inventoryEngine := engine;
        inspectorMesh := None;
        if loaded.Some? {
          var b := loaded.value;
          var maxDimension := MaxDimension(b);
          var finalScaleFactor := if maxDimension > 0.0 then DesiredFinalSize / maxDimension else 1.0;
          var initialScaleFactor := if maxDimension > 0.0 then DesiredInitialVisualSize / maxDimension else 1.0;
          var finalScale := Vec3(finalScaleFactor, finalScaleFactor, finalScaleFactor);
          var initialScale := Vec3(initialScaleFactor, initialScaleFactor, initialScaleFactor);
          initialScale := initialScale.(z := initialScale.z * -1.0);
          finalScale := finalScale.(z := finalScale.z * -1.0);
          var scaleRatio := finalScaleFactor / initialScaleFactor;
          var animationDuration := Round(BaseDuration + log(scaleRatio) * DurationMultiplier);
          var keys := [Keyframe(0, initialScale), Keyframe(animationDuration, finalScale)];
          inspectorMesh := Some(EntryAnimation(Origin, initialScale, keys));
        }
      }
    }
  }
}
