// The fire-zone predicate of the main software: a pixel column is mapped linearly to a
// bearing across the camera's field of view, and lies in the fire zone when that bearing is
// within the fire cone. Division by a zero width, which raises in the source, is the None
// result here.
module FireZones {
  import opened Base

  /** The zone for a frame `width` pixels wide, a camera field of view and a fire cone
      (both in degrees). */
  datatype FireZone = FireZone(width: int, cameraFov: real, fireCone: real) {

    /** `width // 2`, the column straight ahead (floor division). */
    function CenterX(): (c: int)
      ensures 2 * c <= width < 2 * c + 2
    {
      width / 2
    }

    /** `pixel_to_angle`: the bearing of column `px`; None where the source divides by zero. */
    function PixelToAngle(px: int): (r: Option<real>)
      ensures r.None? <==> width == 0
    {
      if width == 0 then None
      else Some(((px - CenterX()) as real / width as real) * cameraFov)
    }

    /** `in_fire_zone`: whether the bearing of `px` lies within the fire cone. */
    function InFireZone(px: int): (r: Option<bool>)
      ensures r.None? <==> width == 0
      ensures r.Some? ==> (r.value <==> Abs(PixelToAngle(px).value) <= fireCone)
    {
      match PixelToAngle(px)
      case None => None
      case Some(a) => Some(Abs(a) <= fireCone)
    }
  }

  lemma AbsProduct(x: real, y: real)
    ensures Abs(x * y) == Abs(x) * Abs(y)
  {
    if x < 0.0 && y < 0.0 {
      assert x * y == (-x) * (-y);
    } else if x < 0.0 {
      assert -(x * y) == (-x) * y;
    } else if y < 0.0 {
      assert -(x * y) == x * (-y);
    }
  }

  /** The size of the bearing: |px - center| * |fov| / |width|. */
  lemma AngleMagnitude(z: FireZone, px: int)
    requires z.width != 0
    ensures Abs(z.PixelToAngle(px).value) * Abs(z.width as real) == Abs((px - z.CenterX()) as real) * Abs(z.cameraFov)
  {
    MagnitudeCore((px - z.CenterX()) as real, z.width as real, z.cameraFov);
  }

  lemma MagnitudeCore(d: real, w: real, f: real)
    requires w != 0.0
    ensures Abs((d / w) * f) * Abs(w) == Abs(d) * Abs(f)
  {
    DivForm(d, w, f);
    var ad, aw, af := Abs(d), Abs(w), Abs(f);
    var k := af / aw;
    assert k * aw == af;
    assert (ad * k) * aw == ad * (k * aw);
  }

  /** The centre column is at bearing 0. */
  lemma CenterIsStraightAhead(z: FireZone)
    requires z.width != 0
    ensures z.PixelToAngle(z.CenterX()) == Some(0.0)
  {
  }

  /** For a positive width and field of view, the bearing has the sign of px - center. */
  lemma AngleSign(z: FireZone, px: int)
    requires z.width > 0 && z.cameraFov > 0.0
    ensures z.PixelToAngle(px).value > 0.0 <==> px > z.CenterX()
    ensures z.PixelToAngle(px).value < 0.0 <==> px < z.CenterX()
    ensures z.PixelToAngle(px).value == 0.0 <==> px == z.CenterX()
  {
    var d := (px - z.CenterX()) as real;
    var w := z.width as real;
    var q := d / w;
    assert q * w == d;
    if px > z.CenterX() {
      assert q > 0.0;
    } else if px < z.CenterX() {
      assert q < 0.0;
    }
  }

  /** For a positive width the zone test is a cross-multiplied integer-and-real comparison:
      |px - center| * |fov| <= cone * width. */
  lemma InZoneIff(z: FireZone, px: int)
    requires z.width > 0
    ensures z.InFireZone(px) == Some(true) <==>
      Abs((px - z.CenterX()) as real) * Abs(z.cameraFov) <= z.fireCone * z.width as real
  {
    AngleMagnitude(z, px);
    var a := Abs(z.PixelToAngle(px).value);
    var w := z.width as real;
    assert Abs(w) == w;
    if a <= z.fireCone {
      assert a * w <= z.fireCone * w;
    } else {
      assert a * w > z.fireCone * w;
    }
  }

  /** The zone is a band around the centre: any column at least as close to the centre as a
      column in the zone is in the zone too. */
  lemma ZoneMonotone(z: FireZone, px: int, q: int)
    requires z.InFireZone(px) == Some(true)
    requires AbsInt(q - z.CenterX()) <= AbsInt(px - z.CenterX())
    ensures z.InFireZone(q) == Some(true)
  {
    AngleMonotone(z, px, q);
  }

  /** The size of the bearing grows with the distance from the centre column. */
  lemma AngleMonotone(z: FireZone, px: int, q: int)
    requires z.width != 0
    requires AbsInt(q - z.CenterX()) <= AbsInt(px - z.CenterX())
    ensures Abs(z.PixelToAngle(q).value) <= Abs(z.PixelToAngle(px).value)
  {
    AbsCast(px - z.CenterX());
    AbsCast(q - z.CenterX());
    RatioMonotone((q - z.CenterX()) as real, (px - z.CenterX()) as real, z.width as real, z.cameraFov);
  }

  /** Scaling by `f / w` keeps the order of magnitudes. */
  lemma RatioMonotone(dq: real, dp: real, w: real, f: real)
    requires w != 0.0 && Abs(dq) <= Abs(dp)
    ensures Abs((dq / w) * f) <= Abs((dp / w) * f)
  {
    DivForm(dq, w, f);
    DivForm(dp, w, f);
    BandStep(Abs(dq), Abs(dp), Abs(f) / Abs(w));
  }

  lemma BandStep(a: real, b: real, k: real)
    requires a <= b && k >= 0.0
    ensures a * k <= b * k
  {
  }

  lemma DivForm(d: real, w: real, f: real)
    requires w != 0.0
    ensures Abs((d / w) * f) == Abs(d) * (Abs(f) / Abs(w))
  {
    var q := d / w;
    AbsProduct(q, f);
    AbsProduct(q, w);
    assert q * w == d;
    var aq, aw, af := Abs(q), Abs(w), Abs(f);
    assert aq * aw == Abs(d);
    assert aq == Abs(d) / aw;
  }

  lemma AbsCast(i: int)
    ensures Abs(i as real) == AbsInt(i) as real
  {
  }

  /** The centre column is in the zone whenever the cone is not negative. */
  lemma CenterInZone(z: FireZone)
    requires z.width != 0 && z.fireCone >= 0.0
    ensures z.InFireZone(z.CenterX()) == Some(true)
  {
    CenterIsStraightAhead(z);
  }
}
