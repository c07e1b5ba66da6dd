/** The reference-image panel: a picture shown beside or over the canvas,
    with its placement, size, opacity and display toggles. */
module ReferenceImageStore {
  import opened Base
  import opened Circuit

  datatype Size = Size(width: real, height: real)

  /** The browser file behind the image; only its name is read. */
  datatype ImageFile = ImageFile(name: string)

  /** The saved form of the panel, as written into a project file. */
  datatype Exported = Exported(
    imageBase64: Option<string>, fileName: Option<string>,
    position: Point, size: Size, opacity: real,
    fullscreen: bool, overlay: bool, isPinned: bool, originalSize: Size)

  const DefaultSize := Size(400.0, 300.0)
  const DefaultPosition := Point(100.0, 100.0)
  const DefaultOpacity: real := 0.7
  const OpacityStep: real := 0.1

  /** `Math.max(0, Math.min(1, x))`. */
  function ClampOpacity(x: real): (r: real)
    ensures 0.0 <= r <= 1.0
    ensures 0.0 <= x <= 1.0 ==> r == x
    ensures x < 0.0 ==> r == 0.0
    ensures x > 1.0 ==> r == 1.0
  {
    if x > 1.0 then 1.0 else if x < 0.0 then 0.0 else x
  }

  /** A url counts only when it is a non-empty string. */
  predicate HasUrl(url: Option<string>) {
    url.Some? && url.value != ""
  }

  class Store {
    var file: Option<ImageFile>
    var url: Option<string>
    var position: Point
    var size: Size
    var opacity: real
    var fullscreen: bool
    var overlay: bool
    var isPinned: bool
    var showPanel: bool
    var originalSize: Size

    /** Opacity stays a fraction. */
    ghost predicate Valid()
      reads this
    {
      0.0 <= opacity <= 1.0
    }

    /** The panel with no image, everything at its default. */
    ghost predicate Initial()
      reads this
    {
      file == None && url == None && position == DefaultPosition && size == DefaultSize &&
      opacity == DefaultOpacity && !fullscreen && !overlay && !isPinned && !showPanel &&
      originalSize == DefaultSize
    }

    constructor ()
      ensures Valid() && Initial()
    {
      file, url, position, size, opacity := None, None, DefaultPosition, DefaultSize, DefaultOpacity;
      fullscreen, overlay, isPinned, showPanel, originalSize := false, false, false, false, DefaultSize;
    }

    /** Forgets the image and returns every field to its initial value. */
    method RemoveImage()
      modifies this
      ensures Valid() && Initial()
    {
      file, url, position, size, opacity := None, None, DefaultPosition, DefaultSize, DefaultOpacity;
      fullscreen, overlay, isPinned, showPanel, originalSize := false, false, false, false, DefaultSize;
    }

    method SetPosition(p: Point)
      modifies this`position
      ensures position == p
    {
      position := p;
    }

    method SetSize(s: Size)
      modifies this`size
      ensures size == s
    {
      size := s;
    }

    /** Any requested opacity is clamped into [0, 1]. */
    method SetOpacity(x: real)
      modifies this`opacity
      ensures Valid()
      ensures opacity == ClampOpacity(x)
    {
      opacity := if 1.0 < x then 1.0 else x;
      opacity := if 0.0 > opacity then 0.0 else opacity;
    }

    /** One step more opaque, stopping at 1. */
    method IncreaseOpacity()
      requires Valid()
      modifies this`opacity
      ensures Valid()
      ensures opacity == if old(opacity) + OpacityStep > 1.0 then 1.0 else old(opacity) + OpacityStep
      ensures old(opacity) <= opacity <= old(opacity) + OpacityStep
    {
      var raised := opacity + OpacityStep;
      opacity := if raised > 1.0 then 1.0 else raised;
    }

    /** One step more transparent, stopping at 0. */
    method DecreaseOpacity()
      requires Valid()
      modifies this`opacity
      ensures Valid()
      ensures opacity == if old(opacity) - OpacityStep < 0.0 then 0.0 else old(opacity) - OpacityStep
      ensures old(opacity) - OpacityStep <= opacity <= old(opacity)
    {
      var lowered := opacity - OpacityStep;
      opacity := if lowered < 0.0 then 0.0 else lowered;
    }

    method ToggleFullscreen()
      modifies this`fullscreen
      ensures fullscreen == !old(fullscreen)
    {
      fullscreen := !fullscreen;
    }

    method ToggleOverlay()
      modifies this`overlay
      ensures overlay == !old(overlay)
    {
      overlay := !overlay;
    }

    method TogglePin()
      modifies this`isPinned
      ensures isPinned == !old(isPinned)
    {
      isPinned := !isPinned;
    }

    method TogglePanel()
      modifies this`showPanel
      ensures showPanel == !old(showPanel)
    {
      showPanel := !showPanel;
    }

    /** Default placement, size and opacity, neither fullscreen nor overlaid;
        the image, pin, panel and original size stay. */
    method ResetTransform()
      modifies this`position, this`size, this`opacity, this`fullscreen, this`overlay
      ensures Valid()
      ensures position == DefaultPosition && size == DefaultSize && opacity == DefaultOpacity
      ensures !fullscreen && !overlay
    {
      position, size, opacity, fullscreen, overlay := DefaultPosition, DefaultSize, DefaultOpacity, false, false;
    }

    method SetOriginalSize(s: Size)
      modifies this`originalSize
      ensures originalSize == s
    {
      originalSize := s;
    }

    /** The saved form: the image travels as its url (with the file's name)
        only when there is a url; the seven display fields always travel. */
    function ExportState(): (r: Exported)
      reads this
      ensures r.imageBase64.Some? <==> HasUrl(url)
      ensures r.imageBase64.Some? ==> Some(r.imageBase64.value) == url
      ensures !HasUrl(url) ==> r.fileName == None
      ensures HasUrl(url) && file.Some? ==> r.fileName == Some(file.value.name)
      ensures r.position == position && r.size == size && r.opacity == opacity
      ensures r.fullscreen == fullscreen && r.overlay == overlay && r.isPinned == isPinned
      ensures r.originalSize == originalSize
    {
      if !HasUrl(url) then
        Exported(None, None, position, size, opacity, fullscreen, overlay, isPinned, originalSize)
      else
        Exported(url, if file.Some? then Some(file.value.name) else None,
          position, size, opacity, fullscreen, overlay, isPinned, originalSize)
    }
  }
}

/** Sequences of actions on the reference-image panel. */
module ReferenceImageStoreProps {
  import opened Base
  import opened ReferenceImageStore

  /** Toggling any flag twice restores it and leaves the rest alone. */
  method ToggleTwice(s: Store)
    modifies s
    ensures s.fullscreen == old(s.fullscreen) && s.overlay == old(s.overlay)
    ensures s.isPinned == old(s.isPinned) && s.showPanel == old(s.showPanel)
    ensures s.opacity == old(s.opacity) && s.url == old(s.url)
  {
    s.ToggleFullscreen(); s.ToggleFullscreen();
    s.ToggleOverlay(); s.ToggleOverlay();
    s.TogglePin(); s.TogglePin();
    s.TogglePanel(); s.TogglePanel();
  }

  /** After removing the image the saved form carries no image and the
      default display. */
  method RemoveThenExport(s: Store) returns (e: Exported)
    modifies s
    ensures e == Exported(None, None, DefaultPosition, DefaultSize, DefaultOpacity, false, false, false, DefaultSize)
  {
    s.RemoveImage();
    e := s.ExportState();
  }

  /** Ten increases from fully transparent reach full opacity. */
  method TenStepsToOpaque(s: Store)
    modifies s
    ensures s.opacity == 1.0
  {
    s.SetOpacity(0.0);
    var i := 0;
    while i < 10
      invariant 0 <= i <= 10
      invariant s.opacity == i as real * OpacityStep
    {
      s.IncreaseOpacity();
      i := i + 1;
    }
  }
}
