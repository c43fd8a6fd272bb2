// Cube textures: six RGB faces, their raw byte layout, the `rmap` file header
// and the cross-shaped pavement of the faces on one canvas.

module CubeTextures {
  import opened Base
  import opened MeshTypes

  /** `FORMAT_TAG_RMAP`: the tag written at the head of a raw cube-texture file. */
  const FormatTagRmap: nat := 0x70616d72

  /** Version field of the data block. */
  const RawDataVersion: nat := 0x0100

  /**
   * `sizeof(CubeTexDataBlock)`: two `uint`, four `ushort` and a bounding box
   * of two vectors of three `float`s.
   */
  const DataBlockSize: nat := 4 + 4 + 2 * 4 + 2 * 3 * 4

  /** `CubeTextureFace`: the slot of each face in the faces array. */
  datatype Face = Right | Left | Top | Bottom | Back | Forward

  function FaceIndex(f: Face): (r: nat)
    ensures r < 6
  {
    match f
    case Right => 0
    case Left => 1
    case Top => 2
    case Bottom => 3
    case Back => 4
    case Forward => 5
  }

  /** Every slot holds exactly one face. */
  lemma FaceSlotsAreDistinct(f: Face, g: Face)
    ensures FaceIndex(f) == FaceIndex(g) <==> f == g
  {
  }

  /** An image of the vector library in `PDF_RGB` format with 8 bits per channel. */
  datatype Image = Image(width: int, height: int, pixels: seq<Byte>)

  /** Bytes of a `w`×`h` RGB image with one byte per channel. */
  function PixelBytes(w: nat, h: nat): nat
  {
    w * h * 3
  }

  function Zeros(n: nat): (r: seq<Byte>)
    ensures |r| == n
    ensures forall i :: 0 <= i < n ==> r[i] == 0
  {
    seq(n, _ => 0)
  }

  /** `Image::createEmpty(w, h)` on an RGB 8-bit image: every channel zero. */
  function EmptyImage(w: nat, h: nat): Image
  {
    Image(w, h, Zeros(PixelBytes(w, h)))
  }

  predicate IsRGBImage(img: Image, w: nat, h: nat)
  {
    img.width == w && img.height == h && |img.pixels| == PixelBytes(w, h)
  }

  /** `getFaceRawDataLength`: the `int` product `width * height * 3`, which must not overflow. */
  function FaceRawDataLength(w: nat, h: nat): (r: nat)
    requires PixelBytes(w, h) < I32Half
    ensures r < I32Half
    ensures r == PixelBytes(w, h)
  {
    w * h * 3
  }

  /** `getRawDataLength`: six faces, computed in `uint` and so modulo 2^32. */
  function RawDataLength(w: nat, h: nat): (r: nat)
    requires PixelBytes(w, h) < I32Half
    ensures r < U32Range
    ensures 6 * PixelBytes(w, h) < U32Range ==> r == 6 * PixelBytes(w, h)
  {
    (FaceRawDataLength(w, h) * 6) % U32Range
  }

  /** A face of 16384×16384 fits an `int`, but six of them wrap the `uint` length. */
  lemma RawDataLengthWraps()
    ensures PixelBytes(16384, 16384) < I32Half
    ensures RawDataLength(16384, 16384) == 536870912
    ensures RawDataLength(16384, 16384) < 6 * PixelBytes(16384, 16384)
  {
    assert PixelBytes(16384, 16384) == 805306368;
    assert 805306368 * 6 == 4831838208;
    assert 4831838208 % U32Range == 536870912;
  }

  /** The `uint`-to-`int` conversion of `const int dataLength = getRawDataLength()`. */
  function ToI32(n: nat): (r: int)
    requires n < U32Range
    ensures -(I32Half as int) <= r < I32Half
    ensures r >= 0 <==> n < I32Half
    ensures r % U32Range == n
  {
    if n < I32Half then n else n - U32Range
  }

  /** The faces' pixel buffers one after another. */
  function RawBytes(ps: seq<seq<Byte>>): (r: seq<Byte>)
  {
    if ps == [] then [] else RawBytes(ps[..|ps| - 1]) + ps[|ps| - 1]
  }

  /** When every face holds `len` bytes, the buffer holds `|ps| * len`. */
  lemma {:induction false} RawBytesLength(ps: seq<seq<Byte>>, len: nat)
    requires forall i :: 0 <= i < |ps| ==> |ps[i]| == len
    ensures |RawBytes(ps)| == |ps| * len
  {
    if ps != [] {
      RawBytesLength(ps[..|ps| - 1], len);
    }
  }

  /** Byte `k` of face `i` sits at offset `len * i + k` of the raw buffer. */
  lemma {:induction false} RawBytesAt(ps: seq<seq<Byte>>, len: nat, i: nat, k: nat)
    requires forall j :: 0 <= j < |ps| ==> |ps[j]| == len
    requires i < |ps| && k < len
    ensures len * i + k < |RawBytes(ps)|
    ensures RawBytes(ps)[len * i + k] == ps[i][k]
  {
    var n := |ps| - 1;
    var init := ps[..n];
    assert RawBytes(ps) == RawBytes(init) + ps[n];
    assert |RawBytes(init)| == len * n by {
      RawBytesLength(init, len);
    }
    MulSucc(len, i);
    if i == n {
      assert RawBytes(ps)[len * i + k] == ps[n][k];
    } else {
      assert len * i + k < len * n by {
        MulMonotone(len, i + 1, n);
      }
      RawBytesAt(init, len, i, k);
    }
  }

  /** Every offset of the raw buffer belongs to exactly one face: the faces cover it without overlap. */
  lemma RawOffsetOwner(len: nat, j: nat)
    requires 0 < len && j < 6 * len
    ensures j / len < 6
    ensures j == len * (j / len) + j % len && j % len < len
  {
  }

  /** The header written by `saveRawData`. */
  datatype DataBlock = DataBlock(formatTag: nat, len: nat, ver: nat, flags: nat,
                                 resX: U16, resY: U16, bounds: BoundingBox)

  /** What `saveRawData` writes to the stream, in order. */
  datatype Chunk = Header(block: DataBlock) | Payload(data: seq<Byte>)

  /** The format tag, stored little-endian, reads "rmap" at the head of the file. */
  lemma FormatTagSpellsRmap()
    ensures FormatTagRmap % 256 == 'r' as nat
    ensures FormatTagRmap / 256 % 256 == 'm' as nat
    ensures FormatTagRmap / 65536 % 256 == 'a' as nat
    ensures FormatTagRmap / 16777216 == 'p' as nat
  {
  }

  /**
   * Placement of one face on the paved canvas: `copyRect` of the face to
   * the canvas position (`x`, `y`).
   */
  datatype Placement = Placement(face: Face, x: int, y: int)

  /** `paveFaces`: a `4w`×`3h` canvas and the six face copies. */
  datatype Pavement = Pavement(width: int, height: int, copies: seq<Placement>)

  /** `paveFaces` as written: the Left face goes to (0, w). */
  function PaveFacesAsWritten(w: nat, h: nat): (p: Pavement)
    ensures p.width == 4 * w && p.height == 3 * h && |p.copies| == 6
  {
    Pavement(4 * w, 3 * h,
      [Placement(Left, 0, w), Placement(Forward, w, h), Placement(Right, 2 * w, h),
       Placement(Back, 3 * w, h), Placement(Top, w, 0), Placement(Bottom, w, 2 * h)])
  }

  /** The cross layout: Left, Forward, Right and Back along the middle row. */
  function PaveFaces(w: nat, h: nat): (p: Pavement)
    ensures p.width == 4 * w && p.height == 3 * h && |p.copies| == 6
  {
    Pavement(4 * w, 3 * h,
      [Placement(Left, 0, h), Placement(Forward, w, h), Placement(Right, 2 * w, h),
       Placement(Back, 3 * w, h), Placement(Top, w, 0), Placement(Bottom, w, 2 * h)])
  }

  /** A `w`×`h` face placed at `a` lies inside the canvas. */
  predicate Inside(a: Placement, w: nat, h: nat, p: Pavement)
  {
    0 <= a.x && a.x + w <= p.width && 0 <= a.y && a.y + h <= p.height
  }

  /** Two `w`×`h` faces placed at `a` and `b` share no pixel. */
  predicate Apart(a: Placement, b: Placement, w: nat, h: nat)
  {
    a.x + w <= b.x || b.x + w <= a.x || a.y + h <= b.y || b.y + h <= a.y
  }

  /**
   * The cross layout places each face once, inside the canvas and apart from
   * every other face, with the four side faces on the middle row in the order
   * Left, Forward, Right, Back.
   */
  lemma PavementIsACross(w: nat, h: nat)
    requires w > 0 && h > 0
    ensures var p := PaveFaces(w, h);
      (forall i, j :: 0 <= i < j < 6 ==>
         p.copies[i].face != p.copies[j].face && Apart(p.copies[i], p.copies[j], w, h))
      && (forall i :: 0 <= i < 6 ==> Inside(p.copies[i], w, h, p))
      && (forall i :: 0 <= i < 4 ==> p.copies[i].y == h && p.copies[i].x == i * w)
  {
    var p := PaveFaces(w, h);
    forall i | 0 <= i < 4
      ensures p.copies[i].x == i * w
    {
      if i == 2 { assert 2 * w == i * w; }
      if i == 3 { assert 3 * w == i * w; }
    }
  }

  /** For square faces the two layouts agree. */
  lemma PavementAsWrittenSquare(w: nat)
    ensures PaveFacesAsWritten(w, w) == PaveFaces(w, w)
  {
  }

  /**
   * As written, a 2×1 face puts Left on the bottom row, not beside Forward,
   * and a 3×1 face puts it below the canvas.
   */
  lemma PavementAsWrittenMisplacesLeft()
    ensures var p := PaveFacesAsWritten(2, 1);
      p.copies[0].face == Left && p.copies[1].face == Forward && p.copies[0].y != p.copies[1].y
    ensures var p := PaveFacesAsWritten(3, 1);
      p.copies[0].face == Left && !Inside(p.copies[0], 3, 1, p)
  {
  }

  /** The cube texture: six face images, their size and a bounding box. */
  class CubeTexture {
    var faces: seq<Option<Image>>
    var width: int
    var height: int
    var bbox: BoundingBox

    /** The face slots exist; each is a null pointer or an image. */
    ghost predicate Valid()
      reads this
    {
      |faces| == 6
    }

    /** After `createEmpty`: six RGB images of the recorded size, small enough for `int` lengths. */
    ghost predicate Created()
      reads this
    {
      |faces| == 6 && 0 <= width && 0 <= height && PixelBytes(width, height) < I32Half
      && forall i :: 0 <= i < 6 ==> faces[i].Some? && IsRGBImage(faces[i].value, width, height)
    }

    /** The pixel buffers of the six faces, by slot. */
    ghost function FacePixels(): (ps: seq<seq<Byte>>)
      reads this
      requires Created()
      ensures |ps| == 6
      ensures forall i :: 0 <= i < 6 ==> |ps[i]| == PixelBytes(width, height)
    {
      [faces[0].value.pixels, faces[1].value.pixels, faces[2].value.pixels,
       faces[3].value.pixels, faces[4].value.pixels, faces[5].value.pixels]
    }

    /** A new cube texture: null faces and a size of zero. */
    constructor()
      ensures Valid()
      ensures faces == [None, None, None, None, None, None]
      ensures width == 0 && height == 0 && bbox == DefaultBox
    {
      faces := [None, None, None, None, None, None];
      width, height := 0, 0;
      bbox := DefaultBox;
    }

    /** `createEmpty`: records the size and gives every slot a new zeroed RGB image of that size. */
    method CreateEmpty(w: int, h: int)
      requires Valid()
      requires 0 <= w && 0 <= h && PixelBytes(w, h) < I32Half
      modifies this
      ensures Created()
      ensures width == w && height == h && bbox == old(bbox)
      ensures forall i :: 0 <= i < 6 ==> faces[i] == Some(EmptyImage(w, h))
    {
      width, height := w, h;
      var i := 0;
      while i < 6
        invariant 0 <= i <= 6 && |faces| == 6
        invariant width == w && height == h && bbox == old(bbox)
        invariant forall k :: 0 <= k < i ==> faces[k] == Some(EmptyImage(w, h))
      {
        faces := faces[i := Some(EmptyImage(w, h))];
        i := i + 1;
      }
    }

    /** `clear`: zeroes every face and keeps its size. */
    method Clear()
      requires Created()
      modifies this
      ensures Created()
      ensures width == old(width) && height == old(height) && bbox == old(bbox)
      ensures forall i :: 0 <= i < 6 ==> faces[i] == Some(EmptyImage(width, height))
    {
      var i := 0;
      while i < 6
        invariant 0 <= i <= 6
        invariant Created()
        invariant width == old(width) && height == old(height) && bbox == old(bbox)
        invariant forall k :: 0 <= k < i ==> faces[k] == Some(EmptyImage(width, height))
      {
        var img := faces[i].value;
        faces := faces[i := Some(img.(pixels := Zeros(|img.pixels|)))];
        i := i + 1;
      }
    }

    /**
     * `getRawData`: face `i` is copied to `[i·L, (i+1)·L)` of the buffer,
     * `L` being the face length; bytes past the six faces are left alone.
     */
    method GetRawData(buffer: array<Byte>)
      requires Created()
      requires 6 * FaceRawDataLength(width, height) <= buffer.Length
      modifies buffer
      ensures buffer[..6 * PixelBytes(width, height)] == RawBytes(FacePixels())
      ensures buffer[6 * PixelBytes(width, height)..] == old(buffer[6 * PixelBytes(width, height)..])
    {
      var len := FaceRawDataLength(width, height);
      ghost var ps := FacePixels();
      var base := 0;
      var i := 0;
      while i < 6
        invariant 0 <= i <= 6 && base == len * i
        invariant buffer[..base] == RawBytes(ps[..i])
        invariant buffer[6 * len..] == old(buffer[6 * len..])
      {
        assert len * (i + 1) <= len * 6;
        assert ps[..i + 1][..i] == ps[..i];
        CopyInto(buffer, base, faces[i].value.pixels);
        base := base + len;
        i := i + 1;
      }
      assert ps[..6] == ps;
    }

    /**
     * `saveRawData(stream)`: the data block then the six faces' bytes.
     * A length past the `int` range makes `new byte[dataLength]` throw.
     */
    method SaveRawData() returns (r: Result<seq<Chunk>>)
      requires Created()
      requires RawDataLength(width, height) >= I32Half
               || 6 * PixelBytes(width, height) < U32Range
      ensures r.Failure? <==> RawDataLength(width, height) >= I32Half
      ensures r.Success? ==>
        r.value == [Header(DataBlock(FormatTagRmap, DataBlockSize, RawDataVersion, 0,
                                     ToU16(width), ToU16(height), bbox)),
                    Payload(RawBytes(FacePixels()))]
      ensures r.Success? ==> |r.value[1].data| == RawDataLength(width, height)
    {
      var dataLength := ToI32(RawDataLength(width, height));
      if dataLength < 0 {
        return Failure("bad_array_new_length");
      }
      var buffer := new Byte[dataLength];
      GetRawData(buffer);
      RawBytesLength(FacePixels(), PixelBytes(width, height));
      var block := DataBlock(FormatTagRmap, DataBlockSize, RawDataVersion, 0,
                             ToU16(width), ToU16(height), bbox);
      assert buffer[..] == buffer[..6 * PixelBytes(width, height)];
      r := Success([Header(block), Payload(buffer[..])]);
    }
  }

  /** The `memcpy` of one face: `data` lands at `base`; every other byte is kept. */
  method CopyInto(buffer: array<Byte>, base: nat, data: seq<Byte>)
    requires base + |data| <= buffer.Length
    modifies buffer
    ensures buffer[..base + |data|] == old(buffer[..base]) + data
    ensures buffer[base + |data|..] == old(buffer[base + |data|..])
  {
    var k := 0;
    while k < |data|
      invariant 0 <= k <= |data|
      invariant buffer[..base + k] == old(buffer[..base]) + data[..k]
      invariant buffer[base + |data|..] == old(buffer[base + |data|..])
    {
      buffer[base + k] := data[k];
      assert data[..k + 1] == data[..k] + [data[k]];
      k := k + 1;
    }
    assert data[..k] == data;
  }
}
