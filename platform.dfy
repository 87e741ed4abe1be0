/** Platforms (platform.py): static rectangles the player lands on. */
module Platforms {
  import opened Geometry
  import opened Dicts

  datatype Platform = Platform(rect: Rect)

  datatype PlatformRecord = PlatformRecord(x: Option<int>, y: Option<int>, width: Option<int>, height: Option<int>) {
    predicate IsEmpty() { x.None? && y.None? && width.None? && height.None? }
  }

  /** to_dict writes position and size. */
  function ToDict(p: Platform): (d: PlatformRecord)
    ensures !d.IsEmpty()
    ensures d.x == Some(p.rect.x) && d.y == Some(p.rect.y) && d.width == Some(p.rect.w) && d.height == Some(p.rect.h)
  {
    PlatformRecord(Some(p.rect.x), Some(p.rect.y), Some(p.rect.w), Some(p.rect.h))
  }

  /** from_dict reads back only the position; width and height keep the values the
      platform was constructed with. */
  function FromDict(p: Platform, d: PlatformRecord): (r: Platform)
    ensures r.rect.x == d.x.GetOr(p.rect.x) && r.rect.y == d.y.GetOr(p.rect.y)
    ensures r.rect.w == p.rect.w && r.rect.h == p.rect.h
  {
    Platform(p.rect.(x := d.x.GetOr(p.rect.x), y := d.y.GetOr(p.rect.y)))
  }

  /** Platform(0, 0, 1, 1, initial_data=d), how the environment rebuilds a saved platform. */
  function Restore(d: PlatformRecord): (p: Platform)
    ensures p.rect.w == 1 && p.rect.h == 1
    ensures p.rect.x == d.x.GetOr(0) && p.rect.y == d.y.GetOr(0)
  {
    var p := Platform(Rect(0, 0, 1, 1));
    if d.IsEmpty() then p else FromDict(p, d)
  }

  /** from_dict never touches the size, whatever the record says. */
  lemma FromDictKeepsSize(p: Platform, d: PlatformRecord)
    ensures FromDict(p, d).rect.w == p.rect.w && FromDict(p, d).rect.h == p.rect.h
    ensures d.x.None? ==> FromDict(p, d).rect.x == p.rect.x
    ensures d.y.None? ==> FromDict(p, d).rect.y == p.rect.y
  {
  }

  /** Save then load keeps a platform's position but turns it into a 1x1 platform: the
      round trip is exact only for platforms that were already 1x1. */
  lemma RoundTripLosesSize(p: Platform)
    ensures Restore(ToDict(p)) == Platform(p.rect.(w := 1, h := 1))
    ensures Restore(ToDict(p)) == p <==> p.rect.w == 1 && p.rect.h == 1
  {
  }
}
