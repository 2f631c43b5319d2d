/** The media library: which picked files are read, and the image layer a chosen image becomes. */
module MediaLibrary {
  import opened JsPrelude
  import opened SliderTypes
  import opened SliderStore
  import opened SidebarEdits

  /** `file && file.type.startsWith('image/')`: only image files are read. */
  function ReadsFile(file: Option<string>): (b: bool)
    ensures b ==> file.Some? && |file.value| >= 6 && file.value[..6] == "image/"
    ensures file.Some? && StartsWith(file.value, "image/") ==> b
  {
    file.Some? && StartsWith(file.value, "image/")
  }

  lemma MimeGateExamples()
    ensures ReadsFile(Some("image/png")) && ReadsFile(Some("image/"))
    ensures !ReadsFile(None) && !ReadsFile(Some("video/mp4")) && !ReadsFile(Some("text/image/"))
  {
    assert "text/image/"[..6] != "image/" by {
      assert "text/image/"[..6][0] == 't';
    }
    assert "video/mp4"[..6] != "image/" by {
      assert "video/mp4"[..6][0] == 'v';
    }
  }

  /** The image layer `addImageLayer` builds from a data URL. */
  function ImageLayer(id: string, url: string, zIndex: real): Layer
  {
    Layer(id, Image, url, None, Style(100.0, 100.0, 300.0, 200.0, 1.0, 0.0, zIndex, map[]),
          Animation("Fade In", "Fade Out", 600.0, 0.0, "ease-out"))
  }

  /** `addImageLayer`: nothing without a current slide; otherwise ADD_LAYER with zIndex = count + 1. */
  function AddImageLayer(state: SliderState, id: string, url: string): Option<Action>
  {
    var slide := CurrentSlide(state);
    if slide.None? then None
    else Some(AddLayer(slide.value.id, ImageLayer(id, url, (|slide.value.layers| + 1) as real)))
  }

  /**
   * With a current slide the image becomes the last layer of that slide: an
   * image layer showing the URL, 300×200 at (100, 100), opaque, unrotated,
   * stacked at count + 1, with the default 600 ms fades and no delay.
   */
  lemma AddImageLayerDefaults(state: SliderState, id: string, url: string)
    ensures AddImageLayer(state, id, url).None? <==> CurrentSlide(state).None?
    ensures CurrentSlide(state).Some? ==>
      var slide := CurrentSlide(state).value;
      var a := AddImageLayer(state, id, url).value;
      var r := Reduce(state, a);
      a.AddLayer? && a.slideId == slide.id
      && a.layer.kind == Image && a.layer.content == url && a.layer.id == id
      && a.layer.style.x == 100.0 && a.layer.style.y == 100.0
      && a.layer.style.width == 300.0 && a.layer.style.height == 200.0
      && a.layer.style.opacity == 1.0 && a.layer.style.rotation == 0.0
      && a.layer.style.zIndex == (|slide.layers| + 1) as real
      && a.layer.animation == Animation("Fade In", "Fade Out", 600.0, 0.0, "ease-out")
      && r.project.Some?
      && r.project.value.slides[state.currentSlideIndex].layers == slide.layers + [a.layer]
  {
    if CurrentSlide(state).Some? {
      var a := AddImageLayer(state, id, url).value;
      AddLayerTargetsOneSlide(state, a.slideId, a.layer);
    }
  }
}
