# A model of the diagram editor's own logic

The editor is a single-page diagram editor built on the yFiles graph library and React.
Most of what it does is library code. This project models the part the repository itself
decides, and proves what that part promises:

- **`ReactComponentNodeStyle`** (`NodeStyle`): the adapter through which yFiles draws a
  node with a React component. It builds a props snapshot from a node. It creates a visual
  holding a `{props, root}` cache and a dispose callback. On a redraw it renders again only
  when a field of the snapshot changed, and it always moves the element. The adapter, the
  cache, the React root, the SVG group and the render context are classes whose fields the
  methods update. A root keeps a log of the elements it rendered and counts its unmounts.
  The style counts the roots it created.
- **The node component** (`NodeTemplate`): the Tailwind-class colour lookup with its
  fallback, the default colours, and the text shown for a node's tag.
- **The canvas page** (`Canvas`):
  - the exclusive toolbar-mode toggle;
  - the clamped zoom handlers;
  - what a click on the empty canvas creates, and where;
  - the start-up sample: five flowcharts in two sections, laid out in a three-column grid
    and joined by chain edges and random skip edges.

  The graph is a class whose node and edge sequences the operations append to. A node is
  named by its index. The two flowchart loops are methods proved equal to pure functions
  of the graph, and those functions are proved to keep every edge pointing forward and
  every parent before its child. A graph built that way has no cycle.
- **The zoom controls** (`ZoomControls`): when each button is disabled, and the label.
- **The rich-text toolbar's heading drop-down** (`EditorToolbar`): the value it shows, and
  the command it issues when a value is chosen.
- **The left panel** (`LeftPanel`): the editor-height clamp and the open/close toggle.
- **`Text`**: the pieces of JavaScript's string handling these rely on:
  - the decimal form of a number in a template literal or in JSX;
  - `parseInt` without a radix argument, `0x` prefix included;
  - `String.prototype.replace` with a one-character pattern.

  The main lemma is that `parseInt` reads back the decimal form of any integer when the
  text after it starts with neither a digit nor, after a lone `0`, an `x` or `X`.

The page's random numbers are inputs:

- `Math.floor(Math.random() * 6)` is a `roll` below 6;
- the per-round `Math.random() > 0.7` draws are a sequence of booleans.

The window height is an input as well.

## Model

| member | source | states |
|---|---|---|
| NodeStyle.ReactComponentNodeStyle.CreateProps | utils/ReactComponentNodeStyle.ts:54-63 | width and height come from the node's layout; the tag is the node's own tag object; `selected` holds exactly when the canvas is a graph component whose selection contains the node, and is false on any other canvas |
| NodeStyle.ReactComponentNodeStyle.CreateVisual | utils/ReactComponentNodeStyle.ts:65-86 | creates new visual, cache, root and element objects and exactly one root; renders once, the component with the props it keeps in the cache; registers the visual's dispose callback; moves the element to the node's (x, y); the root shows the cached props |
| NodeStyle.ReactComponentNodeStyle.UpdateVisual | utils/ReactComponentNodeStyle.ts:88-108 | for a visual whose root is still mounted (React refuses to render into an unmounted root): renders once more and replaces the cached props exactly when the props are dirty, and otherwise leaves both unchanged; never unmounts; always moves the element to the node's current (x, y); returns the same visual; creates no root, because the style itself is outside its frame; keeps "the root shows the cached props" |
| NodeStyle.ReactComponentNodeStyle.Dispose | utils/ReactComponentNodeStyle.ts:76-82 | the dispose callback unmounts the removed visual's root once and changes nothing else |
| NodeStyle.DirtyIffPropsDiffer | utils/ReactComponentNodeStyle.ts:96-101 | the four-field check, with the tag compared by identity, fails exactly when the cached and current snapshots differ |
| NodeStyle.MoveWithoutRerender | utils/ReactComponentNodeStyle.ts:96-106 | a node that only moves is repositioned and not rendered again |
| NodeStyle.TagIdentity | utils/ReactComponentNodeStyle.ts:100 | editing the tag object in place causes no render; replacing it with an equal copy causes one |
| NodeStyle.SelectAndRemove | utils/ReactComponentNodeStyle.ts:54-82 | drawing a node, selecting it and removing it creates one root, renders it twice with `selected` then true, and unmounts it once |
| NodeStyle.MovingNodeKeepsOneRoot | utils/ReactComponentNodeStyle.ts:88-107 | after one create and any number k of updates while the node moves, the style has still made one root, which has rendered once, and the element sits at the node's position |
| NodeTemplate.GetColorValue | components/yfiles/NodeTemplate.tsx:52-65 | a listed class name gives its mapped colour; any other string is returned unchanged |
| NodeTemplate.ColorValues | components/yfiles/NodeTemplate.tsx:53-62 | the eight class names give their eight hex colours |
| NodeTemplate.NoColorIsAKey | components/yfiles/NodeTemplate.tsx:53-62 | no colour in the map is itself a key of the map |
| NodeTemplate.GetColorValueIdempotent | components/yfiles/NodeTemplate.tsx:52-65 | looking a value up twice gives the same result as looking it up once |
| NodeTemplate.TextContent | components/yfiles/NodeTemplate.tsx:45 | the text is empty exactly when there is no tag, the tag has no text, or its text is empty; otherwise it is the tag's text |
| NodeTemplate.NodeTemplate | components/yfiles/NodeTemplate.tsx:9-49 | the rectangle has the props' size, the looked-up background and border colours; the text is at the centre, in the looked-up text colour, and shows the tag's text |
| NodeTemplate.DefaultColors | components/yfiles/NodeTemplate.tsx:14-21 | with the default arguments the border is #000000, the fill #ffffff and the text #000000 |
| NodeTemplate.SelectionNotShown | components/yfiles/NodeTemplate.tsx:12 | the component draws the same whether or not the node is selected |
| ZoomControls.ZoomControls | components/ZoomControls.tsx:19-78 | zoom-in is disabled exactly when zoom >= 200, zoom-out exactly when zoom <= 25, reset never; the label is the zoom's decimal form followed by `%` |
| ZoomControls.LabelShowsZoom | components/ZoomControls.tsx:41 | the label reads back, with `parseInt`, as the zoom value |
| EditorToolbar.SelectValue | components/EditorToolbar.tsx:47-50 | the value is `h1` exactly when level 1 is active, `h2` when level 2 is active and level 1 is not, `h3` likewise, and `p` exactly when none is |
| EditorToolbar.OnValueChange | components/EditorToolbar.tsx:51-60 | choosing `p`, and only `p`, sets a paragraph; any other value toggles the heading at `parseInt` of the value with its first `h` removed |
| EditorToolbar.SelectValueOffered | components/EditorToolbar.tsx:46-69 | the shown value is always one of the four items p, h1, h2, h3 |
| EditorToolbar.HeadingItemTogglesItsLevel | components/EditorToolbar.tsx:56-69 | for N in 1..3 the item `hN` is offered and choosing it toggles heading level N |
| EditorToolbar.ChoosingShownValue | components/EditorToolbar.tsx:47-60 | choosing the value the drop-down shows toggles the active heading level, or sets the paragraph again |
| LeftPanel.EditorHeightPx | components/LeftPanel.tsx:33-35 | the height is the greater of innerHeight − 140 − 10 and 100 |
| LeftPanel.UpdateHeight | components/LeftPanel.tsx:32-36 | the height becomes that number followed by `px`; whether the editor is open is kept |
| LeftPanel.UpdatedHeightAtLeastMinimum | components/LeftPanel.tsx:32-35 | the stored height reads back as the clamped number, which is never below 100 |
| LeftPanel.InitialPanelClosed | components/LeftPanel.tsx:29-30 | the panel starts closed, with a height that reads back as 400 |
| LeftPanel.ToggleTextEditor | components/LeftPanel.tsx:85 | the button negates `openTextEditor` and keeps the height |
| LeftPanel.ToggleTwice | components/LeftPanel.tsx:85 | two clicks restore the state |
| LeftPanel.EditorShown | components/LeftPanel.tsx:55-102 | the editor area is shown exactly when the editor exists and `openTextEditor` is true |
| LeftPanel.EditorShownOverPanelLife | components/LeftPanel.tsx:29-102 | the editor area is hidden in the initial panel and whenever the editor does not exist; once it exists, the button shows and hides it in turn; a window-height update never changes whether it is shown |
| Text.NatToString | components/ZoomControls.tsx:41 | the decimal form of a natural number is non-empty, all digits, without a leading zero, and is "0" exactly for zero |
| Text.IntToString | components/LeftPanel.tsx:35 | the decimal form of an integer is non-empty, all digits, with a `-` in front exactly when negative |
| Text.DigitsValueOfNatToString | components/ZoomControls.tsx:41 | the digits of a number's decimal form have that number as their value |
| Text.ParseInt | components/EditorToolbar.tsx:56 | `parseInt` gives NaN (`None`) exactly when, after the leading white space and an optional sign, no digit follows: no hexadecimal digit after a `0x` or `0X` prefix, no decimal digit otherwise |
| Text.LineSeparatorSkipped | components/EditorToolbar.tsx:56 | leading U+2028 and U+2029 are skipped as white space: "\u20285" reads as 5 and "\u2029-5" as −5 |
| Text.ParseUnsigned | components/EditorToolbar.tsx:56 | after a `0x` or `0X` prefix the value is that of the following hexadecimal digits; otherwise it is that of the leading decimal digits; `None` exactly when there are none |
| Text.HexPrefixReadsBase16 | components/EditorToolbar.tsx:56 | "0x10" reads as 16, not 0 |
| Text.SignedHexPrefix | components/EditorToolbar.tsx:56 | "-0X1f" reads as −31: the sign applies to the base-16 value and `0X` works like `0x` |
| Text.HexPrefixNeedsDigits | components/EditorToolbar.tsx:56 | "0x" and "0xg" read as NaN, while "0" reads as 0 |
| Text.ParseIntOfIntToString | components/EditorToolbar.tsx:56 | `parseInt` of an integer's decimal form is that integer, when the text that follows does not start with a digit and, after a lone `0`, not with `x` or `X` |
| Text.RemoveFirst | components/EditorToolbar.tsx:56 | a string without the character is unchanged; otherwise exactly one occurrence is removed, and it is the first character when the string starts with it |
| Text.RemoveFirstRemovesFirst | components/EditorToolbar.tsx:56 | the occurrence removed is the first one: when index k holds the first occurrence, the result is the string before k followed by the string after k |
| Canvas.SetToolbarMode | app/canvas.tsx:48-57 | afterwards at most one mode is active; choosing the active mode turns all four off; choosing another makes it the only active one |
| Canvas.ZoomIn | app/canvas.tsx:169 | the result is min(prev + 10, 200) |
| Canvas.ZoomOut | app/canvas.tsx:170 | the result is max(prev − 10, 25) |
| Canvas.ZoomStaysInRange | app/canvas.tsx:167-171 | from a zoom in [25, 200], zoom in, zoom out and reset all give a zoom in [25, 200] |
| Canvas.ZoomButtonsMatchHandlers | app/canvas.tsx:169-170 | a zoom button is disabled exactly when its handler would leave the zoom unchanged; an enabled button moves the zoom in its direction |
| Canvas.ClickActionFor | app/canvas.tsx:113-155 | a click creates an arrow exactly in arrow mode, a sticky note exactly in sticky mode without arrow mode, and a text box exactly in text mode without the other two; section mode alone, or no mode, creates nothing |
| Canvas.ClickFollowsChosenMode | app/canvas.tsx:48-57 | after `setToolbarMode` turns a mode on, a click does what that mode says |
| Canvas.InitialToolbarCreatesNothing | app/canvas.tsx:38-44 | with the initial toolbar state, every mode off, a click creates nothing |
| Canvas.ClickedShapesCoverClick | app/canvas.tsx:126-145 | the sticky note and the text box both contain the click point; the text box is centred on it |
| Canvas.HandleCanvasClicked | app/canvas.tsx:109-156 | arrow mode appends two 1×1 nodes with one port each, at (x, y) and (x + 150, y), and one edge from the first to the second; sticky mode appends the (x−75, y−50, 200, 250) sticky note with its label; text mode appends the (x−100, y−25, 200, 50) text box with its label; otherwise nothing changes; the graph stays ordered |
| Canvas.OrderedAfterClick | app/canvas.tsx:109-156 | appending parentless nodes and forward edges keeps a graph ordered |
| Canvas.OrderedHasNoCycle | app/canvas.tsx:303-313 | in an ordered graph every path of edges ends at a higher node than it starts at, so no path returns to its start |
| Canvas.FlowchartCellsDisjoint | app/canvas.tsx:292-296 | two different steps of one flowchart never overlap and never share a position |
| Canvas.FlowchartNodes | app/canvas.tsx:283-300 | a flowchart's nodes are its group under the section, followed by step i at its grid cell for each i, with label `Step i+1`, inside the group |
| Canvas.FlowchartEdgesForward | app/canvas.tsx:303-313 | every edge of a flowchart goes from one of its steps to a later step of the same flowchart |
| Canvas.FlowchartEdgesExactly | app/canvas.tsx:303-313 | the edges are exactly the chain edges i→i+1, and the branch edges i→i+2 where that round's draw was true and i < n − 2 |
| Canvas.FlowchartChainEdgeCount | app/canvas.tsx:303-307 | each round adds exactly one chain edge, so a flowchart of n steps has n − 1 of them |
| Canvas.AddFlowchart | app/canvas.tsx:278-317 | a flowchart adds roll + 6 nodes (its group and roll + 5 steps, i.e. 5 to 10) after the existing nodes and edges, which are kept |
| Canvas.AddFlowchartOrdered | app/canvas.tsx:278-317 | a flowchart added under an existing node keeps the graph ordered |
| Canvas.AddFlowcharts | app/canvas.tsx:263-268 | adding flowcharts one after another keeps the existing nodes |
| Canvas.AddFlowchartsOrdered | app/canvas.tsx:263-268 | flowcharts added under existing nodes keep the graph ordered |
| Canvas.Placements | app/canvas.tsx:256-268 | there are five placements, one per flowchart |
| Canvas.SectionAssignment | app/canvas.tsx:256-268 | flowcharts 0 to 2 sit at positions 0 to 2 under section 1; flowcharts 3 and 4 sit at positions 0 and 1 under section 2; positions 3 and 4 are never used |
| Canvas.FlowchartGroupsOrdered | app/canvas.tsx:220-276 | the start-up sample keeps an ordered graph ordered, so the sample drawn into an empty graph has no cycle |
| Canvas.CreateFlowchart | app/canvas.tsx:278-317 | the two loops leave the graph as `AddFlowchart` describes, with 5 to 10 steps |
| Canvas.CreateFlowchartGroups | app/canvas.tsx:220-276 | two section groups are created, then the five flowcharts as `Placements` assigns them; the result is the first section |

## Left out

- The yFiles host is not modelled: the graph component, input mode, `LayoutExecutor` with
  `ComponentLayout`, `fitGraphBounds` and `adjustGroupNodeLayout`. These are library calls
  and asynchronous layout. The model's node bounds are the ones the page code asks for,
  before any layout moves them.
- Group node styles and `setStyle` are not modelled (app/canvas.tsx:207-216 and 235-253).
  A group node carries no style. This means the parts of `configureGraph` that set
  defaults are not modelled either. The default node component, `NodeTemplate`, is stored
  directly on the nodes the page creates without a style.
- Ports are counted per node and not kept as objects. An edge between ports is recorded
  between their owner nodes.
- React and JSX rendering and the Tiptap editor chain are not modelled. A render is an
  entry in a root's log; an unmount is a counter. The editor's heading commands are values
  of `EditorCommand`.
- The window height is a parameter. The resize listener is not modelled, and neither are
  the registration and removal of event listeners.
- `console.log` is not modelled; it is output only.
- The license assignment at app/canvas.tsx:32 is not modelled; it is a global side effect.
- `Math.random` is replaced by inputs: a roll below 6, and one boolean per round of the edge
  loop. A draw happens every round, before the `i < n − 2` test.
- Floating point: sizes and positions are integers. The text position `width / 2` is a
  real number. NaN, and the treatment of NaN by `!==`, are not modelled.
- Text.NatToString: JavaScript writes numbers of 10^21 and above in exponent form (such as
  `1e+21`); the model always writes all the digits, since the zoom and the window
  height never come near that size.
- Text.ParseInt: the white space skipped is JavaScript's as of Unicode 15, line
  terminators U+2028 and U+2029 included; space separators added to Unicode later are
  not. Its result is an
  unbounded integer, not a double, so very long digit strings do not lose precision, and
  `-0` reads as 0 rather than negative zero. Only the call without a radix argument is
  modelled, since that is the only one the editor makes.
- NodeTemplate.GetColorValue: `colorMap` is a finite map of the eight keys. Inherited
  object properties such as `constructor` are not included.
- The flowchart names are not stored. The only use of a name, the group label, is
  commented out in the source.
- components/Toolbar.tsx, components/AnnotationToolbar.tsx and app/page.tsx are not part of this
  model. They are markup whose buttons call the zoom handlers.
- The toolbar component takes only the three zoom callbacks. The page also passes it the
  toolbar `state` and the four mode callbacks, and those are ignored. So no path through
  the interface reaches `setToolbarMode`. The toolbar state stays `AllModesOff`, and a
  canvas click creates nothing (`InitialToolbarCreatesNothing`). `SetToolbarMode` and the
  arrow, sticky and text branches of `HandleCanvasClicked` are modelled as the code writes
  them, although the program as shipped never reaches them.
- The project drop-down of the left panel is not modelled (components/LeftPanel.tsx:64-74).
  It only stores the chosen value.
- The dispose callback ignores its context argument, so `Dispose` takes none.
- NodeStyle.ReactComponentNodeStyle.UpdateVisual: "k updates keep one root" is not stated
  as a postcondition. It follows from the method's frame, which excludes the style object,
  together with a cache's `root` being a constant; `MovingNodeKeepsOneRoot` shows it for k
  updates.
