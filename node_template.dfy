/**
 * The default node component (components/yfiles/NodeTemplate.tsx): a rounded rectangle of
 * the node's size with the tag's text centred in it, coloured by Tailwind-like class names
 * that `GetColorValue` turns into hex colours.
 */
module NodeTemplate {
  import opened Wrappers
  import NodeStyle

  /** The class names `getColorValue` knows. */
  const ColorMap: map<string, string> := map[
    "bg-white" := "#ffffff",
    "bg-black" := "#000000",
    "bg-slate-100" := "#f1f5f9",
    "bg-blue-50" := "#eff6ff",
    "text-black" := "#000000",
    "text-white" := "#ffffff",
    "border-black" := "#000000",
    "border-slate-200" := "#e2e8f0"
  ]

  /** `colorMap[twClass] || twClass`: the mapped colour when there is a non-empty one, else the input. */
  function GetColorValue(twClass: string): (r: string)
    ensures twClass in ColorMap ==> r == ColorMap[twClass]
    ensures twClass !in ColorMap ==> r == twClass
  {
    if twClass in ColorMap && ColorMap[twClass] != "" then ColorMap[twClass] else twClass
  }

  lemma ColorValues()
    ensures GetColorValue("bg-white") == "#ffffff" && GetColorValue("bg-black") == "#000000"
    ensures GetColorValue("bg-slate-100") == "#f1f5f9" && GetColorValue("bg-blue-50") == "#eff6ff"
    ensures GetColorValue("text-black") == "#000000" && GetColorValue("text-white") == "#ffffff"
    ensures GetColorValue("border-black") == "#000000" && GetColorValue("border-slate-200") == "#e2e8f0"
  {
  }

  /** No colour the map produces is itself one of its keys. */
  lemma NoColorIsAKey(twClass: string)
    requires twClass in ColorMap
    ensures ColorMap[twClass] !in ColorMap
  {
  }

  /** Looking a colour up twice gives what looking it up once gives. */
  lemma GetColorValueIdempotent(twClass: string)
    ensures GetColorValue(GetColorValue(twClass)) == GetColorValue(twClass)
  {
    if twClass in ColorMap {
      NoColorIsAKey(twClass);
    }
  }

  datatype RectElement = RectElement(width: int, height: int, rx: int, fill: string, stroke: string, strokeWidth: real)
  datatype TextElement = TextElement(x: real, y: real, fill: string, fontSize: int, content: string)
  /** The SVG the component returns: `<g><rect .../><text ...>content</text></g>`. */
  datatype Markup = Markup(background: RectElement, text: TextElement)

  /** `tag?.text || ''`: the tag's text when there is a tag and its text is a non-empty string. */
  function TextContent(tag: NodeStyle.Tag?): (content: string)
    reads tag
    ensures content == "" <==> tag == null || tag.text == None || tag.text == Some("")
    ensures content != "" ==> tag.text == Some(content)
  {
    if tag != null && tag.text.Some? && tag.text.value != "" then tag.text.value else ""
  }

  /**
   * The component. The three colour arguments default to a black border, a white
   * background and black text. `props.selected` is not read.
   */
  function NodeTemplate(
    props: NodeStyle.RenderProps,
    borderColor: string := "border-black",
    backgroundColor: string := "bg-white",
    textColor: string := "text-black"): (m: Markup)
    reads props.tag
    ensures m.background.width == props.width && m.background.height == props.height
    ensures m.background.fill == GetColorValue(backgroundColor) && m.background.stroke == GetColorValue(borderColor)
    ensures 2.0 * m.text.x == props.width as real && 2.0 * m.text.y == props.height as real
    ensures m.text.fill == GetColorValue(textColor)
    ensures m.text.content == TextContent(props.tag)
  {
    Markup(
      RectElement(props.width, props.height, 8, GetColorValue(backgroundColor), GetColorValue(borderColor), 1.5),
      TextElement(props.width as real / 2.0, props.height as real / 2.0, GetColorValue(textColor), 12, TextContent(props.tag)))
  }

  /** With the default arguments the border is black, the fill white and the text black. */
  lemma DefaultColors(props: NodeStyle.RenderProps)
    ensures NodeTemplate(props).background.stroke == "#000000"
    ensures NodeTemplate(props).background.fill == "#ffffff"
    ensures NodeTemplate(props).text.fill == "#000000"
  {
    ColorValues();
  }

  /** Selection does not change what the component draws. */
  lemma SelectionNotShown(props: NodeStyle.RenderProps, borderColor: string, backgroundColor: string, textColor: string)
    ensures NodeTemplate(props.(selected := true), borderColor, backgroundColor, textColor)
         == NodeTemplate(props.(selected := false), borderColor, backgroundColor, textColor)
  {
  }
}
