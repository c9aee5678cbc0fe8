/**
 * The Chocolat lightbox: index navigation, arrow activation, zoom save/restore
 * and the registry of bound DOM listeners. DOM elements are abstracted as ids
 * and listeners as the handler they run; image loading is a parameter saying
 * whether the browser decoded the image.
 */
module Chocolat {
  import opened Wrappers

  /** The parts `markup()` creates and to which `attachListeners()` binds handlers. */
  datatype Role = Wrapper | Overlay | Left | Right | CloseButton | FullscreenButton | ImageWrapper

  /** A DOM element, abstracted as an id. Markup-created parts carry the markup round that built them. */
  datatype Element =
    | Document
    | Window
    | Link(n: nat)
    | Part(role: Role, generation: nat)

  /** A bound listener, known only by the handler it runs. */
  datatype Callback =
    | OpenAt(index: nat)
    | KeyNavigation
    | NextImage
    | PreviousImage
    | CloseBox
    | ToggleFullScreen
    | ZoomOutClick
    | ZoomInClick
    | Pan
    | Resize

  /** One record of the `events` registry: `{element, eventName, cb}`. */
  datatype Binding = Binding(element: Element, eventName: string, cb: Callback)

  /** The attributes read off a gallery anchor (or given directly as an image object). */
  datatype Image = Image(title: Option<string>, src: Option<string>, srcset: Option<string>, sizes: Option<string>)

  /** The two ways the lightbox is built: from a NodeList of anchors `Link(0)`, `Link(1)`, ... or from image objects. */
  datatype Source = Anchors(anchorImages: seq<Image>) | Objects(objectImages: seq<Image>)
  {
    function Images(): seq<Image> {
      match this
      case Anchors(s) => s
      case Objects(s) => s
    }
  }

  /** A requested image index; `NaN` arises from `undefined + step`. */
  datatype Index = Num(n: int) | NaN

  /** What `load(index)` does with a request. */
  datatype LoadResult =
    | AlreadyCurrent  // the early `Promise.resolve()`
    | NoSuchImage     // `loadImage(undefined)` throws while destructuring
    | DecodeFailed    // the image promise rejects; nothing is shown
    | Displayed       // the image is shown and becomes current

  /** Which arrows carry the `active` class. */
  datatype ArrowFlags = ArrowFlags(left: bool, right: bool)

  const ClickEvent := "click.chocolat"
  const KeydownEvent := "keydown.chocolat"
  const NativeSize := "native"

  // ---------------------------------------------------------------------------
  // The listener registry
  // ---------------------------------------------------------------------------

  predicate Matches(b: Binding, element: Element, eventName: string) {
    b.element == element && b.eventName == eventName
  }

  /** No record of `events` is bound to `element` under `eventName`. */
  ghost predicate Unbound(events: seq<Binding>, element: Element, eventName: string) {
    forall j :: 0 <= j < |events| ==> !Matches(events[j], element, eventName)
  }

  /** `events.findIndex(...)`: the first record for `element` and `eventName`, or -1. */
  function FindIndex(events: seq<Binding>, element: Element, eventName: string): (i: int)
    ensures -1 <= i < |events|
    ensures 0 <= i ==> Matches(events[i], element, eventName)
    ensures forall j :: 0 <= j < |events| && (i == -1 || j < i) ==> !Matches(events[j], element, eventName)
  {
    if events == [] then -1
    else if Matches(events[0], element, eventName) then 0
    else
      var k := FindIndex(events[1..], element, eventName);
      if k == -1 then -1 else k + 1
  }

  /** The registry that `off(element, eventName)` leaves: the first matching record spliced out. */
  function Unbind(events: seq<Binding>, element: Element, eventName: string): (r: seq<Binding>)
    ensures Unbound(events, element, eventName) ==> r == events
    ensures !Unbound(events, element, eventName) ==> |r| == |events| - 1
  {
    var i := FindIndex(events, element, eventName);
    if i < 0 then events else events[..i] + events[i + 1..]
  }

  /** `off` removes exactly the first matching record, keeps every earlier and later record in order. */
  lemma UnbindRemovesFirstMatch(events: seq<Binding>, element: Element, eventName: string, i: nat)
    requires i < |events| && Matches(events[i], element, eventName)
    requires forall j :: 0 <= j < i ==> !Matches(events[j], element, eventName)
    ensures Unbind(events, element, eventName) == events[..i] + events[i + 1..]
    ensures multiset(Unbind(events, element, eventName)) + multiset{events[i]} == multiset(events)
  {
    var k := FindIndex(events, element, eventName);
    assert k == i;
    assert events == events[..i] + [events[i]] + events[i + 1..];
  }

  /** `on` followed by `off` of the same element and event name restores a registry that had no such record. */
  lemma UnbindAfterBind(events: seq<Binding>, b: Binding)
    requires Unbound(events, b.element, b.eventName)
    ensures Unbind(events + [b], b.element, b.eventName) == events
  {
    var s := events + [b];
    assert Matches(s[|events|], b.element, b.eventName);
    assert FindIndex(s, b.element, b.eventName) == |events|;
    assert s[..|events|] == events;
  }

  /** The records the constructor binds to the anchors `Link(0) .. Link(n - 1)`. */
  function AnchorBindings(n: nat): (r: seq<Binding>)
    ensures |r| == n
    ensures forall i :: 0 <= i < n ==> r[i] == Binding(Link(i), ClickEvent, OpenAt(i))
  {
    if n == 0 then [] else AnchorBindings(n - 1) + [Binding(Link(n - 1), ClickEvent, OpenAt(n - 1))]
  }

  /** The listeners `attachListeners` installs on the markup of generation `g`, in order. */
  function StandardBindings(g: nat, closeOnBackgroundClick: bool): seq<Binding> {
    ControlBindings(g) + ZoomBindings(g, closeOnBackgroundClick)
  }

  /** Keyboard navigation and the four buttons. */
  function ControlBindings(g: nat): seq<Binding> {
    [ Binding(Document, KeydownEvent, KeyNavigation),
      Binding(Part(Right, g), ClickEvent, NextImage),
      Binding(Part(Left, g), ClickEvent, PreviousImage),
      Binding(Part(CloseButton, g), ClickEvent, CloseBox),
      Binding(Part(FullscreenButton, g), ClickEvent, ToggleFullScreen) ]
  }

  /** The optional overlay close, zoom, pan and resize. */
  function ZoomBindings(g: nat, closeOnBackgroundClick: bool): seq<Binding> {
    (if closeOnBackgroundClick then [Binding(Part(Overlay, g), ClickEvent, CloseBox)] else [])
    + [ Binding(Part(Wrapper, g), ClickEvent, ZoomOutClick),
        Binding(Part(ImageWrapper, g), ClickEvent, ZoomInClick),
        Binding(Part(Wrapper, g), "mousemove.chocolat", Pan),
        Binding(Window, "resize.chocolat", Resize) ]
  }

  ghost predicate FreshFor(events: seq<Binding>, g: nat) {
    && (forall j :: 0 <= j < |events| ==> !(events[j].element.Part? && events[j].element.generation == g))
    && Unbound(events, Document, KeydownEvent)
  }

  /** Every record of markup round `g` in `events` belongs to one of the parts in `done`. */
  ghost predicate RolesBound(events: seq<Binding>, g: nat, done: set<Role>) {
    forall j :: 0 <= j < |events| && events[j].element.Part? && events[j].element.generation == g ==>
      events[j].element.role in done
  }

  // ---------------------------------------------------------------------------
  // Navigation
  // ---------------------------------------------------------------------------

  /**
   * The image `change(step)` asks `load` for, once the lightbox is visible, or None
   * when it stays put. `last` is `lastImageIndex`, which `init` has already set.
   */
  function ChangeTarget(current: Option<int>, step: int, first: int, last: int, loop: bool): (r: Option<Index>)
    ensures current.None? ==> r == Some(NaN)
    ensures current.Some? && first <= last && r.Some? ==> r.value.Num? && first <= r.value.n <= last
  {
    match current
    case None => Some(NaN)  // NaN compares false both ways and falls through to `load(NaN)`
    case Some(c) =>
      var requested := c + step;
      if requested > last then
        (if loop then Some(Num(first)) else None)
      else if requested < first then
        (if loop then Some(Num(last)) else None)
      else
        Some(Num(requested))
  }

  /** Within bounds `change` moves by `step`; past either end it wraps when looping and stays otherwise. */
  lemma ChangeRule(c: int, step: int, first: int, last: int, loop: bool)
    ensures first <= c + step <= last ==> ChangeTarget(Some(c), step, first, last, loop) == Some(Num(c + step))
    ensures c + step > last ==> ChangeTarget(Some(c), step, first, last, loop) == (if loop then Some(Num(first)) else None)
    ensures c + step <= last && c + step < first ==> ChangeTarget(Some(c), step, first, last, loop) == (if loop then Some(Num(last)) else None)
  {
  }

  /** Which arrows `arrows()` marks active once image `current` is shown. */
  function ArrowState(loop: bool, linkImages: bool, current: int, first: int, last: int): (r: ArrowFlags)
    ensures loop ==> r.left && r.right
    ensures !loop && !linkImages ==> !r.left && !r.right
    ensures !loop && linkImages ==> (r.right <==> current != last) && (r.left <==> current != first)
  {
    if loop then ArrowFlags(true, true)
    else if linkImages then ArrowFlags(current != first, current != last)
    else ArrowFlags(false, false)
  }

  /**
   * With `loop` or `linkImages` set, an arrow is active exactly when one step in its
   * direction would load an image.
   */
  lemma ArrowsMatchNavigation(loop: bool, linkImages: bool, current: int, first: int, last: int)
    requires first <= current <= last
    requires loop || linkImages
    ensures ArrowState(loop, linkImages, current, first, last).right <==> ChangeTarget(Some(current), 1, first, last, loop).Some?
    ensures ArrowState(loop, linkImages, current, first, last).left <==> ChangeTarget(Some(current), -1, first, last, loop).Some?
  {
  }

  /**
   * What `load(index)` does given the current index, the number of images, and whether decoding
   * succeeds: the current image is kept, an index with no image throws, and any other image is
   * shown exactly when it decodes.
   */
  function LoadOutcome(current: Option<int>, index: Index, count: int, decoded: bool): (r: LoadResult)
    ensures r == Displayed ==> index.Num? && 0 <= index.n < count && current != Some(index.n)
    ensures index.Num? && current == Some(index.n) ==> r == AlreadyCurrent
    ensures index.Num? && 0 <= index.n < count && current != Some(index.n) ==> (r == Displayed <==> decoded)
    ensures !(index.Num? && 0 <= index.n < count) && !(index.Num? && current == Some(index.n)) ==> r == NoSuchImage
  {
    if index.Num? && current == Some(index.n) then AlreadyCurrent
    else if !(index.Num? && 0 <= index.n < count) then NoSuchImage
    else if decoded then Displayed
    else DecodeFailed
  }

  /** JavaScript's `a || b` where `a` is `initialZoomState` (null or a string) and `b` a string. */
  function OrElse(a: Option<string>, b: string): (r: string)
    ensures a.Some? && a.value != "" ==> r == a.value
    ensures a.None? || a.value == "" ==> r == b
  {
    if a.Some? && a.value != "" then a.value else b
  }

  /** The settings and state of one lightbox instance. */
  class Lightbox {
    const images: seq<Image>
    const loop: bool
    const linkImages: bool
    const firstImageIndex: int
    const closeOnBackgroundClick: bool
    const fullScreen: bool
    /** Whether the browser offers a fullscreen API (what `openFullScreen`/`exitFullScreen` probe). */
    const fullScreenApi: bool

    var lastImageIndex: Option<int>
    var currentImageIndex: Option<int>
    var imageSize: string
    var initialZoomState: Option<string>
    var visible: bool
    var initialized: bool
    var fullScreenOpen: bool
    var leftActive: bool
    var rightActive: bool
    /** How many times `markup()` has built the lightbox's DOM. */
    var generation: nat
    var events: seq<Binding>

    ghost predicate Valid()
      reads this
    {
      && (visible ==> initialized)
      && (initialized ==> lastImageIndex == Some(|images| - 1))
      && (currentImageIndex.Some? ==> 0 <= currentImageIndex.value < |images|)
      && (!initialized ==> forall j :: 0 <= j < |events| ==> events[j].element.Link?)
    }

    constructor (source: Source, loop: bool, linkImages: bool, firstImageIndex: int, imageSize: string,
                 closeOnBackgroundClick: bool, fullScreen: bool, fullScreenApi: bool)
      ensures Valid()
      ensures images == source.Images() && this.loop == loop && this.linkImages == linkImages
      ensures this.firstImageIndex == firstImageIndex && this.imageSize == imageSize
      ensures this.closeOnBackgroundClick == closeOnBackgroundClick
      ensures this.fullScreen == fullScreen && this.fullScreenApi == fullScreenApi
      ensures events == if source.Anchors? then AnchorBindings(|images|) else []
      ensures lastImageIndex == None && currentImageIndex == None && initialZoomState == None
      ensures !visible && !initialized && !fullScreenOpen && generation == 0
      ensures !leftActive && !rightActive
    {
      images := source.Images();
      this.loop := loop;
      this.linkImages := linkImages;
      this.firstImageIndex := firstImageIndex;
      this.imageSize := imageSize;
      this.closeOnBackgroundClick := closeOnBackgroundClick;
      this.fullScreen := fullScreen;
      this.fullScreenApi := fullScreenApi;
      lastImageIndex, currentImageIndex, initialZoomState := None, None, None;
      visible, initialized, fullScreenOpen := false, false, false;
      leftActive, rightActive := false, false;
      generation := 0;
      events := [];
      new;
      if source.Anchors? {
        var i := 0;
        while i < |images|
          invariant 0 <= i <= |images|
          invariant events == AnchorBindings(i)
          modifies this`events
        {
          Off(Link(i), ClickEvent);
          On(Link(i), ClickEvent, OpenAt(i));
          i := i + 1;
        }
      }
    }

    /** `on(element, eventName, cb)`: append one record. */
    method On(element: Element, eventName: string, cb: Callback)
      modifies this`events
      ensures events == old(events) + [Binding(element, eventName, cb)]
    {
      events := events + [Binding(element, eventName, cb)];
    }

    /** `off(element, eventName)`: splice out the first matching record, if any. */
    method Off(element: Element, eventName: string)
      modifies this`events
      ensures events == Unbind(old(events), element, eventName)
      ensures Unbound(old(events), element, eventName) ==> events == old(events)
    {
      var index := FindIndex(events, element, eventName);
      if index >= 0 {
        events := events[..index] + events[index + 1..];
      }
    }

    /** An `off` followed by an `on` for a pair that nothing was bound to yet. */
    method Rebind(element: Element, eventName: string, cb: Callback)
      requires Unbound(events, element, eventName)
      modifies this`events
      ensures events == old(events) + [Binding(element, eventName, cb)]
    {
      Off(element, eventName);
      On(element, eventName, cb);
    }

    /** `markup()`: builds a fresh set of parts; only the new round number is kept. */
    method Markup()
      modifies this`generation
      ensures generation == old(generation) + 1
    {
      generation := generation + 1;
    }

    /** An `off` followed by an `on` for a part of the latest round that has no record yet. */
    method RebindPart(role: Role, cb: Callback, ghost done: set<Role>)
      requires RolesBound(events, generation, done) && role !in done
      modifies this`events
      ensures events == old(events) + [Binding(Part(role, generation), ClickEvent, cb)]
      ensures RolesBound(events, generation, done + {role})
    {
      Rebind(Part(role, generation), ClickEvent, cb);
    }

    /** `attachListeners()` on the parts of the latest markup round. */
    method AttachListeners()
      requires FreshFor(events, generation)
      modifies this`events
      ensures events == old(events) + StandardBindings(generation, closeOnBackgroundClick)
    {
      AttachControls();
      AttachZoom();
    }

    /** The first half of `attachListeners`: keyboard and buttons. */
    method AttachControls()
      requires FreshFor(events, generation)
      modifies this`events
      ensures events == old(events) + ControlBindings(generation)
      ensures RolesBound(events, generation, {Right, Left, CloseButton, FullscreenButton})
    {
      Rebind(Document, KeydownEvent, KeyNavigation);
      RebindPart(Right, NextImage, {});
      RebindPart(Left, PreviousImage, {Right});
      RebindPart(CloseButton, CloseBox, {Right, Left});
      RebindPart(FullscreenButton, ToggleFullScreen, {Right, Left, CloseButton});
    }

    /** The second half of `attachListeners`: overlay, zoom, pan and resize. */
    method AttachZoom()
      requires RolesBound(events, generation, {Right, Left, CloseButton, FullscreenButton})
      modifies this`events
      ensures events == old(events) + ZoomBindings(generation, closeOnBackgroundClick)
    {
      var g := generation;
      if closeOnBackgroundClick {
        RebindPart(Overlay, CloseBox, {Right, Left, CloseButton, FullscreenButton});
      }
      RebindPart(Wrapper, ZoomOutClick, {Right, Left, CloseButton, FullscreenButton, Overlay});
      RebindPart(ImageWrapper, ZoomInClick, {Right, Left, CloseButton, FullscreenButton, Overlay, Wrapper});
      On(Part(Wrapper, g), "mousemove.chocolat", Pan);
      On(Window, "resize.chocolat", Resize);
    }

    /** `init(i)`: build and wire the lightbox once, then load image `i`. */
    method Init(i: int, decoded: bool) returns (result: LoadResult)
      requires Valid()
      modifies this`generation, this`events, this`lastImageIndex, this`initialized
      modifies this`visible, this`fullScreenOpen, this`currentImageIndex, this`leftActive, this`rightActive
      ensures Valid() && initialized && visible
      ensures fullScreenOpen == if fullScreen then fullScreenApi else old(fullScreenOpen)
      ensures lastImageIndex == Some(|images| - 1)
      ensures !old(initialized) ==> generation == old(generation) + 1
      ensures !old(initialized) ==> events == old(events) + StandardBindings(generation, closeOnBackgroundClick)
      ensures old(initialized) ==> generation == old(generation) && events == old(events)
      ensures result == LoadOutcome(old(currentImageIndex), Num(i), |images|, decoded)
      ensures currentImageIndex == if result == Displayed then Some(i) else old(currentImageIndex)
      ensures result == Displayed ==>
        ArrowFlags(leftActive, rightActive) == ArrowState(loop, linkImages, i, firstImageIndex, |images| - 1)
      ensures result != Displayed ==> leftActive == old(leftActive) && rightActive == old(rightActive)
      ensures imageSize == old(imageSize) && initialZoomState == old(initialZoomState)
    {
      if !initialized {
        Markup();
        AttachListeners();
        lastImageIndex := Some(|images| - 1);
        initialized := true;
      }
      result := Load(Num(i), decoded);
    }

    /** `load(index)`: the index bookkeeping once the image promise settles. */
    method Load(index: Index, decoded: bool) returns (result: LoadResult)
      requires Valid() && initialized
      modifies this`visible, this`fullScreenOpen, this`currentImageIndex, this`leftActive, this`rightActive
      ensures Valid() && visible
      ensures fullScreenOpen == if fullScreen then fullScreenApi else old(fullScreenOpen)
      ensures result == LoadOutcome(old(currentImageIndex), index, |images|, decoded)
      ensures currentImageIndex == if result == Displayed then Some(index.n) else old(currentImageIndex)
      ensures result == Displayed ==>
        ArrowFlags(leftActive, rightActive) == ArrowState(loop, linkImages, index.n, firstImageIndex, |images| - 1)
      ensures result != Displayed ==> leftActive == old(leftActive) && rightActive == old(rightActive)
    {
      visible := true;
      if fullScreen {
        fullScreenOpen := fullScreenApi;
      }
      if index.Num? && currentImageIndex == Some(index.n) {
        return AlreadyCurrent;
      }
      if !(index.Num? && 0 <= index.n < |images|) {
        return NoSuchImage;
      }
      if !decoded {
        return DecodeFailed;
      }
      currentImageIndex := Some(index.n);
      Arrows();
      result := Displayed;
    }

    /** `arrows()`: set the `active` flags of the two arrows for the current image. */
    method Arrows()
      requires Valid() && initialized && currentImageIndex.Some?
      modifies this`leftActive, this`rightActive
      ensures ArrowFlags(leftActive, rightActive)
        == ArrowState(loop, linkImages, currentImageIndex.value, firstImageIndex, lastImageIndex.value)
    {
      var current, last := currentImageIndex.value, lastImageIndex.value;
      if loop {
        leftActive, rightActive := true, true;
      } else if linkImages {
        rightActive := current != last;
        leftActive := current != firstImageIndex;
      } else {
        leftActive, rightActive := false, false;
      }
    }

    /** `change(step)`: leave zoom, then move by `step` with the bounds and wrap-around rules. */
    method Change(step: int, decoded: bool) returns (result: Option<LoadResult>)
      requires Valid()
      modifies this`imageSize, this`initialZoomState
      modifies this`visible, this`fullScreenOpen, this`currentImageIndex, this`leftActive, this`rightActive
      ensures Valid()
      ensures !old(visible) ==> result == None && unchanged(this)
      ensures old(visible) ==> initialZoomState == None && imageSize == OrElse(old(initialZoomState), old(imageSize))
      ensures old(visible) ==>
        var target := ChangeTarget(old(currentImageIndex), step, firstImageIndex, |images| - 1, loop);
        && (target.None? ==> result == None && currentImageIndex == old(currentImageIndex))
        && (target.Some? ==> result == Some(LoadOutcome(old(currentImageIndex), target.value, |images|, decoded)))
        && (target.Some? && result == Some(Displayed) ==> currentImageIndex == Some(target.value.n))
        && (target.Some? && result != Some(Displayed) ==> currentImageIndex == old(currentImageIndex))
        && visible
        && (target.None? ==> fullScreenOpen == old(fullScreenOpen))
        && (target.Some? ==> fullScreenOpen == if fullScreen then fullScreenApi else old(fullScreenOpen))
        && (result == Some(Displayed) ==>
              ArrowFlags(leftActive, rightActive) == ArrowState(loop, linkImages, target.value.n, firstImageIndex, |images| - 1))
        && (result != Some(Displayed) ==> leftActive == old(leftActive) && rightActive == old(rightActive))
    {
      if !visible {
        return None;
      }
      ZoomOut();
      var target := ChangeTarget(currentImageIndex, step, firstImageIndex, lastImageIndex.value, loop);
      if target.None? {
        return None;
      }
      var r := Load(target.value, decoded);
      result := Some(r);
    }

    /** `close()`: leave fullscreen if it is open, otherwise hide the lightbox. */
    method Close()
      requires Valid()
      modifies this`visible, this`fullScreenOpen
      ensures Valid()
      ensures old(fullScreenOpen) ==> fullScreenOpen == !fullScreenApi && visible == old(visible)
      ensures !old(fullScreenOpen) ==> fullScreenOpen == old(fullScreenOpen) && !visible
    {
      if fullScreenOpen {
        fullScreenOpen := !fullScreenApi;
        return;
      }
      visible := false;
    }

    /** `zoomIn()`: remember the image size and switch to `native`. */
    method ZoomIn()
      modifies this`imageSize, this`initialZoomState
      ensures initialZoomState == Some(old(imageSize)) && imageSize == NativeSize
    {
      initialZoomState := Some(imageSize);
      imageSize := NativeSize;
    }

    /** `zoomOut()`: restore the remembered image size, if any, and forget it. */
    method ZoomOut()
      modifies this`imageSize, this`initialZoomState
      ensures imageSize == OrElse(old(initialZoomState), old(imageSize)) && initialZoomState == None
    {
      imageSize := OrElse(initialZoomState, imageSize);
      initialZoomState := None;
    }

    /** The keyboard handler bound by `attachListeners()`: arrows navigate, Escape closes. */
    method HandleKeydown(keyCode: int, decoded: bool)
      requires Valid()
      modifies this`imageSize, this`initialZoomState
      modifies this`visible, this`fullScreenOpen, this`currentImageIndex, this`leftActive, this`rightActive
      ensures Valid()
      ensures !old(initialized) || keyCode !in {37, 39, 27} ==> unchanged(this)
      ensures old(initialized) && keyCode == 27 ==>
        && (old(fullScreenOpen) ==> fullScreenOpen == !fullScreenApi && visible == old(visible))
        && (!old(fullScreenOpen) ==> fullScreenOpen == old(fullScreenOpen) && !visible)
        && currentImageIndex == old(currentImageIndex)
        && imageSize == old(imageSize) && initialZoomState == old(initialZoomState)
        && leftActive == old(leftActive) && rightActive == old(rightActive)
      ensures old(initialized) && keyCode in {37, 39} && !old(visible) ==> unchanged(this)
      ensures old(initialized) && keyCode in {37, 39} && old(visible) ==>
        var target := ChangeTarget(old(currentImageIndex), if keyCode == 37 then -1 else 1, firstImageIndex, |images| - 1, loop);
        var moved := target.Some? && LoadOutcome(old(currentImageIndex), target.value, |images|, decoded) == Displayed;
        && visible && initialZoomState == None && imageSize == OrElse(old(initialZoomState), old(imageSize))
        && currentImageIndex == (if moved then Some(target.value.n) else old(currentImageIndex))
        && (target.None? ==> fullScreenOpen == old(fullScreenOpen))
        && (target.Some? ==> fullScreenOpen == if fullScreen then fullScreenApi else old(fullScreenOpen))
        && (moved ==>
              ArrowFlags(leftActive, rightActive) == ArrowState(loop, linkImages, target.value.n, firstImageIndex, |images| - 1))
        && (!moved ==> leftActive == old(leftActive) && rightActive == old(rightActive))
    {
      if initialized {
        if keyCode == 37 {
          var _ := Change(-1, decoded);
        } else if keyCode == 39 {
          var _ := Change(1, decoded);
        } else if keyCode == 27 {
          Close();
        }
      }
    }

    /** The click handler on the image: zoom in when not zoomed and the image is zoomable. */
    method ImageClick(zoomable: bool)
      modifies this`imageSize, this`initialZoomState
      ensures old(initialZoomState) == None && zoomable ==>
        initialZoomState == Some(old(imageSize)) && imageSize == NativeSize
      ensures !(old(initialZoomState) == None && zoomable) ==> unchanged(this)
    {
      if initialZoomState == None && zoomable {
        ZoomIn();
      }
    }

    /** The click handler on the wrapper: zoom out when zoomed and visible. */
    method WrapperClick()
      modifies this`imageSize, this`initialZoomState
      ensures old(initialZoomState) == None || !visible ==> unchanged(this)
      ensures old(initialZoomState) != None && visible ==>
        imageSize == OrElse(old(initialZoomState), old(imageSize)) && initialZoomState == None
    {
      if initialZoomState == None || !visible {
        return;
      }
      ZoomOut();
    }

    /** `destroy()`: unbind every listener, then reset the index and visibility if initialised. */
    method Destroy()
      requires Valid()
      modifies this`events, this`fullScreenOpen, this`currentImageIndex, this`visible, this`initialized
      ensures Valid()
      ensures events == []
      ensures old(initialized) ==> currentImageIndex == None && !visible && !initialized
      ensures old(initialized) ==> fullScreenOpen == (if old(fullScreenOpen) then !fullScreenApi else false)
      ensures !old(initialized) ==>
        && currentImageIndex == old(currentImageIndex) && visible == old(visible)
        && initialized == old(initialized) && fullScreenOpen == old(fullScreenOpen)
    {
      var i := |events| - 1;
      while i >= 0
        invariant -1 <= i && |events| == i + 1
        invariant unchanged(this`currentImageIndex, this`visible, this`initialized, this`fullScreenOpen)
        decreases i
      {
        var b := events[i];
        Off(b.element, b.eventName);
        i := i - 1;
      }
      if !initialized {
        return;
      }
      if fullScreenOpen {
        fullScreenOpen := !fullScreenApi;
      }
      currentImageIndex := None;
      visible := false;
      initialized := false;
    }
  }

  /** A zoom in followed by a zoom out gives back the image size the lightbox had. */
  method ZoomRoundTrip(box: Lightbox)
    requires box.imageSize != ""
    modifies box`imageSize, box`initialZoomState
    ensures box.imageSize == old(box.imageSize) && box.initialZoomState == None
  {
    box.ZoomIn();
    assert box.imageSize == NativeSize;
    box.ZoomOut();
  }
}
