/** The GriefDefender claim-border pixel provider: for every claim the viewing
    player may see, a colour chosen from the player's relationship to the claim,
    and four border rectangles whose thickness follows the zoom scale. */
module ClaimBorders {
  import opened Common

  /** GriefDefender's trust levels that have a configured colour. */
  datatype TrustType = Accessor | Manager | Builder | Container | Resident

  /** GriefDefender's `Tristate` value of a claim flag. */
  datatype Tristate = True | False | Undefined

  datatype Color = Color(rgb: int)

  /** A claim as the shader sees it. `userTrusts` is `getUserTrusts()`;
      `(u, t) in granted` is `isUserTrusted(u, t)`; `publicShow` is the value of
      the claim's "show to public" flag; `(minX, minZ)` is the lesser boundary
      corner, `width` its extent along x and `length` along z. */
  datatype Claim = Claim(
    owner: Uuid,
    userTrusts: set<Uuid>,
    granted: set<(Uuid, TrustType)>,
    publicShow: Tristate,
    world: Uuid,
    minX: int,
    minZ: int,
    width: int,
    length: int)

  /** The seven configured colours; each may be absent. */
  datatype Palette = Palette(
    owner: Option<Color>,
    public: Option<Color>,
    accessor: Option<Color>,
    resident: Option<Color>,
    container: Option<Color>,
    builder: Option<Color>,
    manager: Option<Color>)

  /** A coloured rectangle in world coordinates: corner (x, z), extent
      `width` along x and `height` along z. */
  datatype WorldPixel = WorldPixel(world: Uuid, x: real, z: real, width: real, height: real, color: Color)

  /** What a claim contributes: nothing at all (the loop's `continue`), or the
      borders in a colour that may itself be absent. */
  datatype Shade = Hidden | Painted(color: Option<Color>)

  function TrustColor(palette: Palette, t: TrustType): Option<Color>
  {
    match t
    case Accessor => palette.accessor
    case Manager => palette.manager
    case Builder => palette.builder
    case Container => palette.container
    case Resident => palette.resident
  }

  /** The order in which trust levels are tested. */
  const TrustPriority: seq<TrustType> := [Accessor, Manager, Builder, Container, Resident]

  /** Reference definition: the first trust level in `order` granted to `player`. */
  function FirstGranted(c: Claim, player: Uuid, order: seq<TrustType>): (r: Option<TrustType>)
    ensures r.None? <==> forall i :: 0 <= i < |order| ==> (player, order[i]) !in c.granted
    ensures r.Some? ==> exists i :: 0 <= i < |order| && order[i] == r.value
                          && (player, r.value) in c.granted
                          && forall j :: 0 <= j < i ==> (player, order[j]) !in c.granted
  {
    if order == [] then None
    else if (player, order[0]) in c.granted then Some(order[0])
    else
      var r := FirstGranted(c, player, order[1..]);
      assert r.Some? ==> exists i :: 0 <= i < |order| && order[i] == r.value
                          && (player, r.value) in c.granted
                          && forall j :: 0 <= j < i ==> (player, order[j]) !in c.granted by {
        if r.Some? {
          var k :| 0 <= k < |order[1..]| && order[1..][k] == r.value && (player, r.value) in c.granted
                   && forall j :: 0 <= j < k ==> (player, order[1..][j]) !in c.granted;
          assert order[k + 1] == r.value;
          assert forall j :: 0 <= j < k + 1 ==> (player, order[j]) !in c.granted by {
            forall j | 0 <= j < k + 1 ensures (player, order[j]) !in c.granted {
              if j > 0 { assert order[j] == order[1..][j - 1]; }
            }
          }
        }
      }
      r
  }

  /** `FirstGranted` over `TrustPriority` unfolded into the source's if-chain. */
  lemma FirstGrantedInPriority(c: Claim, player: Uuid)
    ensures FirstGranted(c, player, TrustPriority) ==
      if (player, Accessor) in c.granted then Some(Accessor)
      else if (player, Manager) in c.granted then Some(Manager)
      else if (player, Builder) in c.granted then Some(Builder)
      else if (player, Container) in c.granted then Some(Container)
      else if (player, Resident) in c.granted then Some(Resident)
      else None
  {
    var o1, o2, o3, o4, o5 := TrustPriority, [Manager, Builder, Container, Resident],
                              [Builder, Container, Resident], [Container, Resident], [Resident];
    assert o1[1..] == o2 && o2[1..] == o3 && o3[1..] == o4 && o4[1..] == o5 && o5[1..] == [];
    assert FirstGranted(c, player, o5) == if (player, Resident) in c.granted then Some(Resident) else None;
    assert FirstGranted(c, player, o4) == if (player, Container) in c.granted then Some(Container) else FirstGranted(c, player, o5);
    assert FirstGranted(c, player, o3) == if (player, Builder) in c.granted then Some(Builder) else FirstGranted(c, player, o4);
    assert FirstGranted(c, player, o2) == if (player, Manager) in c.granted then Some(Manager) else FirstGranted(c, player, o3);
  }

  /** The colour chain of the source: a trusted player gets the colour of the
      first granted level among accessor, manager, builder, container, resident
      (the public colour if none is granted); otherwise the owner gets the owner
      colour; otherwise the claim is hidden when its public flag is FALSE and
      painted in the public colour when it is TRUE or undefined. */
  function ChooseShade(c: Claim, player: Uuid, palette: Palette): (r: Shade)
    ensures r.Hidden? <==> player !in c.userTrusts && c.owner != player && c.publicShow == False
    ensures player in c.userTrusts ==>
      r == Painted(match FirstGranted(c, player, TrustPriority)
                   case Some(t) => TrustColor(palette, t)
                   case None => palette.public)
    ensures player !in c.userTrusts && c.owner == player ==> r == Painted(palette.owner)
    ensures player !in c.userTrusts && c.owner != player && c.publicShow != False ==> r == Painted(palette.public)
  {
    FirstGrantedInPriority(c, player);
    var color := palette.public;
    if player in c.userTrusts then
      if (player, Accessor) in c.granted then Painted(palette.accessor)
      else if (player, Manager) in c.granted then Painted(palette.manager)
      else if (player, Builder) in c.granted then Painted(palette.builder)
      else if (player, Container) in c.granted then Painted(palette.container)
      else if (player, Resident) in c.granted then Painted(palette.resident)
      else Painted(color)
    else if c.owner == player then Painted(palette.owner)
    else if c.publicShow == False then Hidden
    else Painted(color)
  }

  /** `pixelWidth`: rectangles are drawn twice as thick when zoomed in below one
      block per pixel. */
  function PixelWidth(scale: real): (r: real)
    ensures r == 1.0 || r == 2.0
    ensures r == 2.0 <==> scale < 1.0
  {
    if scale < 1.0 then 2.0 else 1.0
  }

  function MinReal(a: real, b: real): (r: real)
    ensures r <= a && r <= b && (r == a || r == b)
  {
    if a < b then a else b
  }

  /** Border thickness across a claim side of the given extent:
      `Math.min(scale, extent) * pixelWidth`. */
  function Thickness(scale: real, extent: int): (r: real)
  {
    MinReal(scale, extent as real) * PixelWidth(scale)
  }

  /** A border fits inside the claim's extent exactly when the scale is at
      least one block per pixel or the doubled scale fits in the extent. */
  lemma {:induction false} ThicknessFits(scale: real, extent: int)
    requires 0.0 < scale && 1 <= extent
    ensures 0.0 < Thickness(scale, extent)
    ensures Thickness(scale, extent) <= extent as real <==> (1.0 <= scale || 2.0 * scale <= extent as real)
  {
    if scale < 1.0 {
      assert MinReal(scale, extent as real) == scale;
      assert Thickness(scale, extent) == 2.0 * scale;
    } else {
      assert Thickness(scale, extent) == MinReal(scale, extent as real);
    }
  }

  /** The four rectangles of a claim's border, in the order north, south, west,
      east. North and west start at the lesser corner, south ends at
      `minZ + length` and east ends at `minX + width`; north and south span the
      claim's width and are as thick as the length allows, west and east span
      its length and are as thick as the width allows. */
  function Borders(c: Claim, color: Color, scale: real): (r: seq<WorldPixel>)
    ensures |r| == 4
    ensures forall i :: 0 <= i < |r| ==> r[i].world == c.world && r[i].color == color
    ensures r[0].x == r[2].x == c.minX as real && r[0].z == r[2].z == c.minZ as real
    ensures r[1].x == c.minX as real && r[1].z + r[1].height == (c.minZ + c.length) as real
    ensures r[3].z == c.minZ as real && r[3].x + r[3].width == (c.minX + c.width) as real
    ensures r[0].width == r[1].width == c.width as real && r[2].height == r[3].height == c.length as real
    ensures r[0].height == r[1].height == Thickness(scale, c.length)
    ensures r[2].width == r[3].width == Thickness(scale, c.width)
  {
    var thickness := Thickness(scale, c.width);
    var thicknessHeight := Thickness(scale, c.length);
    var x, z := c.minX as real, c.minZ as real;
    var north := WorldPixel(c.world, x, z, c.width as real, thicknessHeight, color);
    var south := WorldPixel(c.world, x, z + c.length as real - thicknessHeight, c.width as real, thicknessHeight, color);
    var west := WorldPixel(c.world, x, z, thickness, c.length as real, color);
    var east := WorldPixel(c.world, x + c.width as real - thickness, z, thickness, c.length as real, color);
    [north, south, west, east]
  }

  /** The rectangle lies within the claim's footprint. */
  predicate InsideClaim(p: WorldPixel, c: Claim)
  {
    c.minX as real <= p.x && p.x + p.width <= (c.minX + c.width) as real &&
    c.minZ as real <= p.z && p.z + p.height <= (c.minZ + c.length) as real
  }

  /** All four border rectangles stay inside the claim exactly when the scale is
      at least one block per pixel or the doubled scale fits in both sides. */
  lemma {:induction false} BordersInsideClaim(c: Claim, color: Color, scale: real)
    requires 0.0 < scale && 1 <= c.width && 1 <= c.length
    ensures (forall i :: 0 <= i < 4 ==> InsideClaim(Borders(c, color, scale)[i], c))
        <==> (1.0 <= scale || (2.0 * scale <= c.width as real && 2.0 * scale <= c.length as real))
  {
    var b := Borders(c, color, scale);
    ThicknessFits(scale, c.width);
    ThicknessFits(scale, c.length);
    assert InsideClaim(b[0], c) <==> Thickness(scale, c.length) <= c.length as real;
    assert InsideClaim(b[3], c) <==> Thickness(scale, c.width) <= c.width as real;
    assert InsideClaim(b[1], c) <==> Thickness(scale, c.length) <= c.length as real;
    assert InsideClaim(b[2], c) <==> Thickness(scale, c.width) <= c.width as real;
  }

  /** The pixels one claim contributes. */
  function ClaimPixels(c: Claim, player: Uuid, palette: Palette, scale: real): (r: set<WorldPixel>)
    ensures r == {} <==> !(ChooseShade(c, player, palette).Painted? && ChooseShade(c, player, palette).color.Some?)
    ensures |r| <= 4
    ensures forall p :: p in r ==> p.color == ChooseShade(c, player, palette).color.value
  {
    match ChooseShade(c, player, palette)
    case Painted(Some(color)) =>
      var b := Borders(c, color, scale);
      assert b[0] in {b[0], b[1], b[2], b[3]};
      {b[0], b[1], b[2], b[3]}
    case _ => {}
  }

  lemma PaintedPixels(c: Claim, player: Uuid, palette: Palette, scale: real, color: Color)
    requires ChooseShade(c, player, palette) == Painted(Some(color))
    ensures var b := Borders(c, color, scale);
      ClaimPixels(c, player, palette, scale) == {b[0], b[1], b[2], b[3]}
  {
  }

  /** The union of `parts`, accumulated in list order. */
  function Union<T>(parts: seq<set<T>>): set<T>
  {
    if parts == [] then {} else Union(parts[..|parts| - 1]) + parts[|parts| - 1]
  }

  /** An element is in the union exactly when some part holds it. */
  lemma {:induction false} UnionMembers<T>(parts: seq<set<T>>, x: T)
    ensures x in Union(parts) <==> exists i :: 0 <= i < |parts| && x in parts[i]
  {
    if parts != [] {
      var n := |parts| - 1;
      UnionMembers(parts[..n], x);
      if exists i :: 0 <= i < n && x in parts[..n][i] {
        var i :| 0 <= i < n && x in parts[..n][i];
        assert x in parts[i];
      }
      if exists i :: 0 <= i < |parts| && x in parts[i] {
        var i :| 0 <= i < |parts| && x in parts[i];
        if i < n { assert x in parts[..n][i]; }
      }
    }
  }

  /** The union of parts of at most `k` elements each has at most `k` times as many. */
  lemma {:induction false} UnionBound<T>(parts: seq<set<T>>, k: nat)
    requires forall i :: 0 <= i < |parts| ==> |parts[i]| <= k
    ensures |Union(parts)| <= k * |parts|
  {
    if parts != [] {
      var n := |parts| - 1;
      UnionBound(parts[..n], k);
      assert |parts[n]| <= k;
      PairUnionSize(Union(parts[..n]), parts[n]);
    }
  }

  lemma {:induction false} PairUnionSize<T>(a: set<T>, b: set<T>)
    ensures |a + b| <= |a| + |b|
  {
    if b != {} {
      var x :| x in b;
      PairUnionSize(a, b - {x});
      assert a + b == (a + (b - {x})) + {x};
    }
  }

  lemma UnionStep<T>(parts: seq<set<T>>, i: nat)
    requires i < |parts|
    ensures Union(parts[..i + 1]) == Union(parts[..i]) + parts[i]
  {
    assert parts[..i + 1][..i] == parts[..i];
  }

  /** The pixels of each claim, in list order. */
  function ClaimSets(claims: seq<Claim>, player: Uuid, palette: Palette, scale: real): (r: seq<set<WorldPixel>>)
    ensures |r| == |claims|
    ensures forall i :: 0 <= i < |claims| ==> r[i] == ClaimPixels(claims[i], player, palette, scale)
  {
    seq(|claims|, i requires 0 <= i < |claims| => ClaimPixels(claims[i], player, palette, scale))
  }

  /** `getWorldPixels` as a value: nothing when the viewer's
      `griefdefender_show_claims` setting is off, else the union of every
      claim's borders. */
  function WorldPixels(showClaims: bool, claims: seq<Claim>, player: Uuid, palette: Palette, scale: real): (r: set<WorldPixel>)
    ensures !showClaims ==> r == {}
  {
    if showClaims then Union(ClaimSets(claims, player, palette, scale)) else {}
  }

  /** With claims shown, a rectangle is drawn exactly when some claim
      contributes it. */
  lemma WorldPixelsMembers(claims: seq<Claim>, player: Uuid, palette: Palette, scale: real, p: WorldPixel)
    ensures p in WorldPixels(true, claims, player, palette, scale)
        <==> exists i :: 0 <= i < |claims| && p in ClaimPixels(claims[i], player, palette, scale)
  {
    UnionMembers(ClaimSets(claims, player, palette, scale), p);
  }

  /** At most four rectangles per claim are drawn. */
  lemma WorldPixelsSize(showClaims: bool, claims: seq<Claim>, player: Uuid, palette: Palette, scale: real)
    ensures |WorldPixels(showClaims, claims, player, palette, scale)| <= 4 * |claims|
  {
    UnionBound(ClaimSets(claims, player, palette, scale), 4);
  }

  /** The provider's loop over all claims, accumulating into a set. */
  method GetWorldPixels(showClaims: bool, claims: seq<Claim>, player: Uuid, palette: Palette, scale: real)
    returns (pixels: set<WorldPixel>)
    ensures pixels == WorldPixels(showClaims, claims, player, palette, scale)
    ensures |pixels| <= 4 * |claims|
  {
    pixels := {};
    if showClaims {
      var i := 0;
      while i < |claims|
        invariant 0 <= i <= |claims|
        invariant pixels == Union(ClaimSets(claims, player, palette, scale)[..i])
      {
        var claim := claims[i];
        UnionStep(ClaimSets(claims, player, palette, scale), i);
        var shade := ChooseShade(claim, player, palette);
        if !shade.Hidden? && shade.color.Some? {
          // north, south, west and east, added in that order
          var border := Borders(claim, shade.color.value, scale);
          PaintedPixels(claim, player, palette, scale, shade.color.value);
          pixels := pixels + {border[0], border[1], border[2], border[3]};
        } else {
          assert ClaimPixels(claim, player, palette, scale) == {};
        }
        i := i + 1;
      }
      assert ClaimSets(claims, player, palette, scale)[..|claims|] == ClaimSets(claims, player, palette, scale);
    }
    WorldPixelsSize(showClaims, claims, player, palette, scale);
  }
}
