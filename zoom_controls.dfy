/** The zoom buttons and the zoom read-out in the lower right corner (components/ZoomControls.tsx). */
module ZoomControls {
  import opened Wrappers
  import opened Text

  /** What the component shows for a zoom value: which buttons are disabled and the label. */
  datatype ZoomView = ZoomView(zoomInDisabled: bool, zoomLabel: string, zoomOutDisabled: bool, resetDisabled: bool)

  function ZoomControls(zoom: int): (view: ZoomView)
    ensures view.zoomInDisabled <==> zoom >= 200
    ensures view.zoomOutDisabled <==> zoom <= 25
    ensures !view.resetDisabled
    ensures view.zoomLabel == IntToString(zoom) + "%"
  {
    ZoomView(zoom >= 200, IntToString(zoom) + "%", zoom <= 25, false)
  }

  /** The label gives the zoom value back to whoever reads it as a number. */
  lemma LabelShowsZoom(zoom: int)
    ensures ParseInt(ZoomControls(zoom).zoomLabel) == Some(zoom)
  {
    ParseIntOfIntToString(zoom, "%");
  }
}
