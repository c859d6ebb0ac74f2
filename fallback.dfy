/** The three-level fallback chains of the renderer: the rotation flag
    (minimap setting, then the viewer's preference, then the global default) and
    the overlay/background images (minimap, then viewer, then global). */
module Fallback {
  import opened Common

  /** The source's tri-state `BooleanOption`. */
  datatype BooleanOption = True | False | Unset {
    predicate IsTrue() { this == True }
  }

  /** Reference definition: the first level that is set decides; when none is
      set, the default does. */
  function FirstSet(levels: seq<BooleanOption>, default: bool): (r: bool)
    ensures (forall i :: 0 <= i < |levels| ==> levels[i] == Unset) ==> r == default
    ensures forall i :: 0 <= i < |levels| && levels[i] != Unset ==>
              (forall j :: 0 <= j < i ==> levels[j] == Unset) ==> r == levels[i].IsTrue()
  {
    if levels == [] then default
    else if levels[0] != Unset then levels[0].IsTrue()
    else FirstSet(levels[1..], default)
  }

  /** The rotation flag as the source computes it. `mapRotation` is the current
      minimap's rotation setting, `None` when the renderer's minimap is missing.
      It is the first set level of minimap then viewer, falling back to the
      global default; without a minimap the viewer is not consulted. */
  function Rotation(mapRotation: Option<BooleanOption>, viewerRotate: BooleanOption, byDefault: bool): (r: bool)
    ensures mapRotation.None? ==> r == byDefault
    ensures mapRotation.Some? ==> r == FirstSet([mapRotation.value, viewerRotate], byDefault)
  {
    var rotating := byDefault;
    if mapRotation.Some? then
      if mapRotation.value != Unset then mapRotation.value.IsTrue()
      else if viewerRotate != Unset then viewerRotate.IsTrue()
      else rotating
    else rotating
  }

  /** Reference definition: the first present level, if any. */
  function FirstPresent<T>(levels: seq<Option<T>>): (r: Option<T>)
    ensures r.Some? <==> exists i :: 0 <= i < |levels| && levels[i].Some?
    ensures forall i :: 0 <= i < |levels| && levels[i].Some? ==>
              (forall j :: 0 <= j < i ==> levels[j].None?) ==> r == levels[i]
  {
    if levels == [] then None
    else if levels[0].Some? then levels[0]
    else FirstPresent(levels[1..])
  }

  /** The overlay or background image as the source picks it: the global image
      (possibly absent), replaced by the viewer's when set, replaced by the
      minimap's when set; that is, the first present of the three levels. */
  function PickImage<T>(mapImage: Option<T>, viewerImage: Option<T>, globalImage: Option<T>): (r: Option<T>)
    ensures r == FirstPresent([mapImage, viewerImage, globalImage])
  {
    assert [globalImage][1..] == [];
    assert FirstPresent([globalImage]) == globalImage;
    assert [viewerImage, globalImage][1..] == [globalImage];
    assert [mapImage, viewerImage, globalImage][1..] == [viewerImage, globalImage];
    if mapImage.Some? then mapImage
    else if viewerImage.Some? then viewerImage
    else globalImage
  }
}
