/**
 * The node style that draws each graph node with a React component
 * (utils/ReactComponentNodeStyle.ts).
 *
 * The graph library asks the style for a visual the first time a node is drawn
 * (`CreateVisual`), hands that visual back on every later redraw (`UpdateVisual`),
 * and calls the dispose callback registered at creation when the visual leaves the
 * scene graph (`Dispose`). React is represented by `Root`, which records every
 * element rendered into it and counts unmounts; the SVG `<g>` element by `SvgGroup`,
 * which holds its translation.
 */
module NodeStyle {
  import opened Wrappers

  /** The application's payload on a node. Tags are objects: the style compares them by identity. */
  class Tag {
    var text: Option<string>

    constructor (text: Option<string>)
      ensures this.text == text
    {
      this.text := text;
    }
  }

  datatype Rect = Rect(x: int, y: int, width: int, height: int)

  /** A node of the graph. Its layout belongs to the graph library, its tag to the application. */
  class Node {
    var layout: Rect
    var tag: Tag?

    constructor (layout: Rect, tag: Tag?)
      ensures this.layout == layout && this.tag == tag
    {
      this.layout := layout;
      this.tag := tag;
    }
  }

  /** The canvas a render context draws on: a graph component with its selected nodes, or another canvas. */
  datatype CanvasComponent = GraphComponent(selectedNodes: seq<Node>) | OtherCanvas

  /** The props handed to the React component: a snapshot of the node when it is drawn. */
  datatype RenderProps = RenderProps(width: int, height: int, selected: bool, tag: Tag?)

  /** The React components the application draws nodes with. */
  datatype Component = NodeTemplateComponent | StickyNoteComponent | TextNoteComponent

  /** `createElement(type, props)`. */
  datatype Element = Element(component: Component, props: RenderProps)

  /** A React root: the elements rendered into it, in order, and how often it was unmounted. */
  class Root {
    var rendered: seq<Element>
    var unmounts: nat

    constructor ()
      ensures rendered == [] && unmounts == 0
    {
      rendered := [];
      unmounts := 0;
    }

    /** React refuses to render into a root that was unmounted. */
    method Render(element: Element)
      requires unmounts == 0
      modifies this
      ensures rendered == old(rendered) + [element] && unmounts == old(unmounts)
    {
      rendered := rendered + [element];
    }

    method Unmount()
      modifies this
      ensures rendered == old(rendered) && unmounts == old(unmounts) + 1
    {
      unmounts := unmounts + 1;
    }
  }

  /** The SVG `<g>` element a visual consists of, with the translation the library positions it by. */
  class SvgGroup {
    var translateX: int
    var translateY: int

    constructor ()
      ensures translateX == 0 && translateY == 0
    {
      translateX, translateY := 0, 0;
    }

    /** `SvgVisual.setTranslate`. */
    method SetTranslate(x: int, y: int)
      modifies this
      ensures translateX == x && translateY == y
    {
      translateX, translateY := x, y;
    }
  }

  /** The record a visual carries: the props it was last rendered with and its React root. */
  class Cache {
    var props: RenderProps
    const root: Root

    constructor (props: RenderProps, root: Root)
      ensures this.props == props && this.root == root
    {
      this.props := props;
      this.root := root;
    }
  }

  /** The visual handed to the graph library: the `<g>` element tagged with its cache. */
  class Visual {
    const svgElement: SvgGroup
    const tag: Cache

    constructor (svgElement: SvgGroup, tag: Cache)
      ensures this.svgElement == svgElement && this.tag == tag
    {
      this.svgElement := svgElement;
      this.tag := tag;
    }
  }

  /** The render context of one drawing pass: its canvas and the dispose callbacks registered with it. */
  class RenderContext {
    const canvasComponent: CanvasComponent
    var disposeCallbacks: seq<Visual>

    constructor (canvasComponent: CanvasComponent)
      ensures this.canvasComponent == canvasComponent && disposeCallbacks == []
    {
      this.canvasComponent := canvasComponent;
      disposeCallbacks := [];
    }

    /** `setDisposeCallback(visual, ...)`: the library will call the style's dispose callback for `visual`. */
    method SetDisposeCallback(visual: Visual)
      modifies this
      ensures disposeCallbacks == old(disposeCallbacks) + [visual]
    {
      disposeCallbacks := disposeCallbacks + [visual];
    }
  }

  /** The dirty check of `updateVisual`: one of the four props differs, the tag by identity. */
  predicate Dirty(cached: RenderProps, current: RenderProps) {
    cached.width != current.width || cached.height != current.height
    || cached.selected != current.selected || cached.tag != current.tag
  }

  /** The field-by-field check misses no field: it fails exactly when the two snapshots differ. */
  lemma DirtyIffPropsDiffer(cached: RenderProps, current: RenderProps)
    ensures Dirty(cached, current) <==> cached != current
  {
  }

  class ReactComponentNodeStyle {
    const component: Component
    /** How many React roots this style has created (`createRoot` calls). */
    var rootsCreated: nat

    constructor (component: Component)
      ensures this.component == component && rootsCreated == 0
    {
      this.component := component;
      rootsCreated := 0;
    }

    /**
     * The props for `node`: its current size and tag (the same object), and whether it is
     * selected, which only a graph component can say; on any other canvas it is false.
     */
    function CreateProps(context: RenderContext, node: Node): (props: RenderProps)
      reads node
      ensures props.width == node.layout.width && props.height == node.layout.height
      ensures props.tag == node.tag
      ensures props.selected <==> context.canvasComponent.GraphComponent? && node in context.canvasComponent.selectedNodes
      ensures !context.canvasComponent.GraphComponent? ==> !props.selected
    {
      RenderProps(
        node.layout.width,
        node.layout.height,
        match context.canvasComponent
        case GraphComponent(selectedNodes) => node in selectedNodes
        case OtherCanvas => false,
        node.tag)
    }

    /** The visual's root shows what its cache says: the last element rendered is this style's component with the cached props. */
    ghost predicate Shows(v: Visual)
      reads v, v.tag, v.tag.root
    {
      v.tag.root.rendered != [] && v.tag.root.rendered[|v.tag.root.rendered| - 1] == Element(component, v.tag.props)
    }

    /**
     * A new `<g>` element with a new React root that renders the component once with the
     * node's props, the same props kept in the cache, the dispose callback registered, and
     * the element translated to the node's position.
     */
    method CreateVisual(context: RenderContext, node: Node) returns (v: Visual)
      modifies this, context
      ensures fresh(v) && fresh(v.tag) && fresh(v.tag.root) && fresh(v.svgElement)
      ensures v.tag.props == CreateProps(context, node)
      ensures v.tag.root.rendered == [Element(component, v.tag.props)] && v.tag.root.unmounts == 0
      ensures v.svgElement.translateX == node.layout.x && v.svgElement.translateY == node.layout.y
      ensures context.disposeCallbacks == old(context.disposeCallbacks) + [v]
      ensures rootsCreated == old(rootsCreated) + 1
      ensures Shows(v)
    {
      var gElement := new SvgGroup();
      var props := CreateProps(context, node);
      var element := Element(component, props);
      var root := new Root();
      rootsCreated := rootsCreated + 1;
      root.Render(element);
      var cache := new Cache(props, root);
      v := new Visual(gElement, cache);
      context.SetDisposeCallback(v);
      gElement.SetTranslate(node.layout.x, node.layout.y);
    }

    /**
     * Re-renders through the same root, and replaces the cached props, exactly when the
     * node's props are dirty against the cache; always moves the element to the node's
     * position; returns the same visual and creates no root.
     */
    method UpdateVisual(context: RenderContext, oldVisual: Visual, node: Node) returns (v: Visual)
      requires oldVisual.tag.root.unmounts == 0
      modifies oldVisual.tag, oldVisual.tag.root, oldVisual.svgElement
      ensures v == oldVisual
      ensures var current := CreateProps(context, node);
        if Dirty(old(oldVisual.tag.props), current) then
          oldVisual.tag.props == current
          && oldVisual.tag.root.rendered == old(oldVisual.tag.root.rendered) + [Element(component, current)]
        else
          oldVisual.tag.props == old(oldVisual.tag.props)
          && oldVisual.tag.root.rendered == old(oldVisual.tag.root.rendered)
      ensures oldVisual.tag.root.unmounts == old(oldVisual.tag.root.unmounts)
      ensures oldVisual.svgElement.translateX == node.layout.x && oldVisual.svgElement.translateY == node.layout.y
      ensures old(Shows(oldVisual)) ==> Shows(oldVisual)
    {
      var newProps := CreateProps(context, node);
      var cache := oldVisual.tag;
      var cachedProps := cache.props;
      if cachedProps.width != newProps.width
        || cachedProps.height != newProps.height
        || cachedProps.selected != newProps.selected
        || cachedProps.tag != newProps.tag
      {
        var element := Element(component, newProps);
        oldVisual.tag.root.Render(element);
        cache.props := newProps;
      }
      oldVisual.svgElement.SetTranslate(node.layout.x, node.layout.y);
      v := oldVisual;
    }

    /** The dispose callback registered by `CreateVisual`: unmounts the removed visual's root and nothing else. */
    method Dispose(removedVisual: Visual)
      modifies removedVisual.tag.root
      ensures removedVisual.tag.root.unmounts == old(removedVisual.tag.root.unmounts) + 1
      ensures removedVisual.tag.root.rendered == old(removedVisual.tag.root.rendered)
    {
      removedVisual.tag.root.Unmount();
    }
  }

  /**
   * A node that only moves: the redraw repositions its element and renders nothing.
   * Returns the number of renders and the element's translation after the redraw.
   */
  method MoveWithoutRerender() returns (renders: nat, x: int, y: int)
    ensures renders == 1 && x == 30 && y == 40
  {
    var style := new ReactComponentNodeStyle(NodeTemplateComponent);
    var context := new RenderContext(OtherCanvas);
    var node := new Node(Rect(10, 20, 100, 60), null);
    var v := style.CreateVisual(context, node);
    node.layout := Rect(30, 40, 100, 60);
    var same := style.UpdateVisual(context, v, node);
    renders, x, y := |v.tag.root.rendered|, v.svgElement.translateX, v.svgElement.translateY;
  }

  /**
   * Tags are compared by identity: editing the tag object in place renders nothing,
   * replacing it with a new object of equal content renders once more.
   */
  method TagIdentity() returns (afterEdit: nat, afterCopy: nat)
    ensures afterEdit == 1 && afterCopy == 2
  {
    var style := new ReactComponentNodeStyle(NodeTemplateComponent);
    var context := new RenderContext(OtherCanvas);
    var tag := new Tag(Some("Start"));
    var node := new Node(Rect(10, 20, 100, 60), tag);
    var v := style.CreateVisual(context, node);
    tag.text := Some("Edited");
    var same := style.UpdateVisual(context, v, node);
    afterEdit := |v.tag.root.rendered|;
    var copy := new Tag(Some("Edited"));
    node.tag := copy;
    same := style.UpdateVisual(context, v, node);
    afterCopy := |v.tag.root.rendered|;
  }

  /**
   * A node drawn, selected on a graph component, redrawn, and removed: one root was
   * created, it rendered twice, and it was unmounted once.
   */
  method SelectAndRemove() returns (roots: nat, renders: nat, unmounts: nat, selected: bool)
    ensures roots == 1 && renders == 2 && unmounts == 1 && selected
  {
    var style := new ReactComponentNodeStyle(NodeTemplateComponent);
    var node := new Node(Rect(10, 20, 100, 60), null);
    var drawing := new RenderContext(GraphComponent([]));
    var v := style.CreateVisual(drawing, node);
    var selecting := new RenderContext(GraphComponent([node]));
    var same := style.UpdateVisual(selecting, v, node);
    selected := v.tag.props.selected;
    style.Dispose(v);
    roots, renders, unmounts := style.rootsCreated, |v.tag.root.rendered|, v.tag.root.unmounts;
  }

  /**
   * A visual redrawn `k` times while its node moves one step right each time: the style
   * still has one root, the root rendered once, and the element follows the node.
   */
  method MovingNodeKeepsOneRoot(k: nat) returns (roots: nat, renders: nat, x: int)
    ensures roots == 1 && renders == 1 && x == k
  {
    var style := new ReactComponentNodeStyle(NodeTemplateComponent);
    var context := new RenderContext(OtherCanvas);
    var node := new Node(Rect(0, 0, 100, 60), null);
    var v := style.CreateVisual(context, node);
    var i := 0;
    while i < k
      invariant 0 <= i <= k
      invariant fresh(v.tag) && fresh(v.tag.root) && fresh(v.svgElement)
      invariant style.rootsCreated == 1 && |v.tag.root.rendered| == 1 && v.tag.root.unmounts == 0
      invariant node.layout == Rect(i, 0, 100, 60) && node.tag == null
      invariant v.tag.props == RenderProps(100, 60, false, null)
      invariant v.svgElement.translateX == i
    {
      node.layout := Rect(i + 1, 0, 100, 60);
      v := style.UpdateVisual(context, v, node);
      i := i + 1;
    }
    roots, renders, x := style.rootsCreated, |v.tag.root.rendered|, v.svgElement.translateX;
  }
}
