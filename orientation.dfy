/**
 * `rotate_for_orientation` from gui.py: turn a photo upright according to its
 * EXIF Orientation tag. Only the decision and the resulting size are
 * modelled; `transpose` itself is Pillow's.
 */
module Orientation {
  import opened Geometry

  /** The key Pillow's `ExifTags.TAGS` gives the name "Orientation" (0x0112). */
  const OrientationTag: int := 0x0112

  /** Pillow's `transpose` methods used here; each turns counter-clockwise. */
  datatype Rotation = Identity | Rotate90 | Rotate180 | Rotate270

  /**
   * What `image._getexif()` offers: no such method (a plain `Image.Image`,
   * AttributeError), a method returning None (AttributeError on `.items()`),
   * or a tag dictionary.
   */
  datatype Exif = NoExifMethod | ExifNone | ExifTags(tags: map<int, int>)

  /** The part of a Pillow image the decision reads and changes. */
  datatype Picture = Picture(size: Size, exif: Exif)

  /** Counter-clockwise angle of a rotation, in degrees. */
  function Degrees(r: Rotation): (d: nat)
    ensures d < 360 && d % 90 == 0
  {
    match r
    case Identity => 0
    case Rotate90 => 90
    case Rotate180 => 180
    case Rotate270 => 270
  }

  /**
   * The tag-to-rotation decision: 3, 6 and 8 give a 180, 270 and 90 degree
   * turn; every other value, a missing tag or missing metadata (the caught
   * AttributeError and KeyError) leaves the image as it is.
   */
  function OrientationRotation(exif: Exif): (r: Rotation)
    ensures r != Identity ==> exif.ExifTags? && OrientationTag in exif.tags
    ensures r != Identity <==>
              exif.ExifTags? && OrientationTag in exif.tags && exif.tags[OrientationTag] in {3, 6, 8}
  {
    match exif
    case ExifTags(tags) =>
      if OrientationTag !in tags then Identity
      else if tags[OrientationTag] == 3 then Rotate180
      else if tags[OrientationTag] == 6 then Rotate270
      else if tags[OrientationTag] == 8 then Rotate90
      else Identity
    case _ => Identity
  }

  /** The size after `transpose`: a quarter turn exchanges width and height. */
  function RotatedSize(s: Size, r: Rotation): (t: Size)
    ensures t.width * t.height == s.width * s.height
    ensures Degrees(r) % 180 == 0 ==> t == s
    ensures Degrees(r) % 180 == 90 ==> t.width == s.height && t.height == s.width
  {
    if r == Rotate90 || r == Rotate270 then Size(s.height, s.width) else s
  }

  /**
   * rotate_for_orientation. A transposed image is a new plain `Image.Image`,
   * which has no `_getexif`; an image left alone is returned as it is.
   */
  function RotateForOrientation(p: Picture): (q: Picture)
    ensures OrientationRotation(p.exif) == Identity ==> q == p
    ensures q.size == RotatedSize(p.size, OrientationRotation(p.exif))
  {
    var r := OrientationRotation(p.exif);
    if r == Identity then p else Picture(RotatedSize(p.size, r), NoExifMethod)
  }

  /** Without metadata or without the tag the image comes back unchanged. */
  lemma NoMetadataIsIdentity(p: Picture)
    requires !p.exif.ExifTags? || OrientationTag !in p.exif.tags
    ensures RotateForOrientation(p) == p
  {
  }

  /**
   * Correcting twice is correcting once: the corrected image carries no
   * metadata the second call could act on.
   */
  lemma RotateForOrientationIdempotent(p: Picture)
    ensures RotateForOrientation(RotateForOrientation(p)) == RotateForOrientation(p)
  {
  }

  /**
   * Under the Exif standard's Orientation tag, value 3 means the stored image
   * must turn 180 degrees to be upright, 6 a quarter turn clockwise and 8 a
   * quarter turn counter-clockwise. The chosen counter-clockwise rotation is
   * exactly that turn.
   */
  function ClockwiseTurnToUpright(tag: int): (d: nat)
    ensures d < 360
  {
    if tag == 3 then 180 else if tag == 6 then 90 else if tag == 8 then 270 else 0
  }

  lemma RotationUprights(p: Picture)
    requires p.exif.ExifTags? && OrientationTag in p.exif.tags
    requires p.exif.tags[OrientationTag] in {1, 3, 6, 8}
    ensures (360 - Degrees(OrientationRotation(p.exif))) % 360
            == ClockwiseTurnToUpright(p.exif.tags[OrientationTag])
  {
  }
}
