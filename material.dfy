/** A texture: a flat width x height x depth byte image, addressed with
    32-bit unsigned arithmetic, after CuraEngine's Material.cpp. Its float side (scaling a
    texture coordinate by the image size, normalising a byte to [0, 1]) is
    not modelled: a texture coordinate arrives already scaled and truncated,
    and a colour stays a raw byte. */
module Materials {

  const TwoTo32: int := 0x1_0000_0000

  /** Material.cpp's `unsigned int`. */
  type u32 = x: int | 0 <= x < 0x1_0000_0000

  type byte = x: int | 0 <= x < 256

  /** Wrap-around of an unsigned 32-bit result. */
  function Wrap(n: int): (r: u32)
    ensures 0 <= n < TwoTo32 ==> r == n
    ensures 0 <= n ==> r <= n
  {
    n % TwoTo32
  }

  function Min(a: int, b: int): (m: int) { if a <= b then a else b }

  /** The byte offset of channel z of pixel (x, y), computed as Material.cpp's getColorData
      does in unsigned arithmetic. Every product and sum wraps at 2^32; since
      reduction modulo 2^32 commutes with + and *, that is the exact offset
      wrapped once. */
  function ColorIndex(width: u32, depth: u32, x: u32, y: u32, z: u32): (i: u32) {
    Wrap((y * width + x) * depth + z)
  }

  lemma MulMonotone(a: nat, b: nat, c: nat)
    requires a <= b
    ensures a * c <= b * c
  {
  }

  lemma RowMajorBelowProduct(width: nat, height: nat, depth: nat, x: nat, y: nat, z: nat)
    requires x < width && y < height && z < depth
    ensures (y * width + x) * depth + z < width * height * depth
  {
    var row := y * width + x;
    assert (y + 1) * width == y * width + width;
    MulMonotone(y + 1, height, width);
    assert row + 1 <= height * width;
    assert (row + 1) * depth == row * depth + depth;
    MulMonotone(row + 1, height * width, depth);
    assert (height * width) * depth == width * height * depth;
  }

  /** Inside the image, the computed offset is below width*height*depth, whether
      or not the 32-bit arithmetic wraps; when the image has at most 2^32 bytes
      nothing wraps and the offset is the row-major one. */
  lemma ColorIndexInBounds(width: u32, height: u32, depth: u32, x: u32, y: u32, z: u32)
    requires x < width && y < height && z < depth
    ensures ColorIndex(width, depth, x, y, z) < width * height * depth
    ensures width * height * depth <= TwoTo32 ==>
      ColorIndex(width, depth, x, y, z) == (y * width + x) * depth + z
  {
    RowMajorBelowProduct(width, height, depth, x, y, z);
  }

  /** The first three channels of a pixel, for an image of depth at least 3. */
  lemma ChannelsInBounds(width: u32, height: u32, depth: u32, x: u32, y: u32)
    requires x < width && y < height && 3 <= depth
    ensures ColorIndex(width, depth, x, y, 0) < width * height * depth
    ensures ColorIndex(width, depth, x, y, 1) < width * height * depth
    ensures ColorIndex(width, depth, x, y, 2) < width * height * depth
  {
    assert ColorIndex(width, depth, x, y, 0) < width * height * depth by {
      ColorIndexInBounds(width, height, depth, x, y, 0);
    }
    assert ColorIndex(width, depth, x, y, 1) < width * height * depth by {
      ColorIndexInBounds(width, height, depth, x, y, 1);
    }
    assert ColorIndex(width, depth, x, y, 2) < width * height * depth by {
      ColorIndexInBounds(width, height, depth, x, y, 2);
    }
  }

  /** The offsets Material.cpp's getGrey reads as written: channels 0, 1 and 2,
      whatever the image's depth. */
  function GreyIndices(width: u32, depth: u32, x: u32, y: u32): (offsets: seq<u32>) {
    [ColorIndex(width, depth, x, y, 0), ColorIndex(width, depth, x, y, 1), ColorIndex(width, depth, x, y, 2)]
  }

  /** In a 1x1 single-channel image the second of those reads lies past the
      one-byte buffer. */
  lemma GreyReadsPastSingleChannelImage()
    ensures GreyIndices(1, 1, 0, 0)[1] == 1 * 1 * 1
  {
  }

  class Material {
    /** The image bytes; `null` until set. The buffer is not owned. */
    var data: array?<byte>
    var width: u32
    var height: u32
    var depth: u32

    constructor ()
      ensures data == null && width == 0 && height == 0 && depth == 0
    {
      data := null;
      width, height, depth := 0, 0, 0;
    }

    method SetData(data: array?<byte>)
      modifies this
      ensures this.data == data
      ensures width == old(width) && height == old(height) && depth == old(depth)
    {
      this.data := data;
    }

    method SetDimensions(width: u32, height: u32, depth: u32)
      modifies this
      ensures this.width == width && this.height == height && this.depth == depth
      ensures data == old(data)
    {
      this.width := width;
      this.height := height;
      this.depth := depth;
    }

    /** `px` and `py` are the scaled texture coordinates, already truncated to
        unsigned. Each is clamped to the last pixel of its axis; on an empty
        axis `size - 1` wraps to 2^32 - 1 and the coordinate passes unchanged. */
    method GetPixelCoords(px: u32, py: u32) returns (xOut: u32, yOut: u32)
      ensures width > 0 ==> xOut < width && xOut <= px && (px < width <==> xOut == px)
      ensures width > 0 && px >= width ==> xOut == width - 1
      ensures width == 0 ==> xOut == px
      ensures height > 0 ==> yOut < height && yOut <= py && (py < height <==> yOut == py)
      ensures height > 0 && py >= height ==> yOut == height - 1
      ensures height == 0 ==> yOut == py
    {
      xOut := Min(px, Wrap(width - 1));
      yOut := Min(py, Wrap(height - 1));
    }

    /** The byte at the computed offset; getColorData does not check the offset,
        so the read must lie in the buffer. */
    method GetColorData(x: u32, y: u32, z: u32) returns (c: byte)
      requires data != null && ColorIndex(width, depth, x, y, z) < data.Length
      ensures c == data[ColorIndex(width, depth, x, y, z)]
      ensures x < width && y < height && z < depth && width * height * depth <= TwoTo32 ==>
        ColorIndex(width, depth, x, y, z) == (y * width + x) * depth + z
    {
      c := data[ColorIndex(width, depth, x, y, z)];
      if x < width && y < height && z < depth {
        ColorIndexInBounds(width, height, depth, x, y, z);
      }
    }

    /** The ghost reference reading: channel z of pixel (x, y) in row-major
        layout, with no wrap-around. */
    ghost function Texel(x: u32, y: u32, z: u32): (b: byte)
      reads this, data
      requires data != null && x < width && y < height && z < depth
      requires width * height * depth <= data.Length
    {
      RowMajorBelowProduct(width, height, depth, x, y, z);
      data[(y * width + x) * depth + z]
    }

    /** Channel z of the pixel the texture coordinate falls in. getColor asserts
        that z is non-negative as a signed int and below depth; over a non-empty
        image whose buffer holds its bytes the read is then always in bounds. */
    method GetColor(px: u32, py: u32, z: u32) returns (col: byte)
      requires z < 0x8000_0000 && z < depth
      requires data != null && 0 < width && 0 < height && width * height * depth <= data.Length
      ensures ColorIndex(width, depth, Min(px, width - 1), Min(py, height - 1), z) < data.Length
      ensures col == data[ColorIndex(width, depth, Min(px, width - 1), Min(py, height - 1), z)]
      ensures width * height * depth <= TwoTo32 ==> col == Texel(Min(px, width - 1), Min(py, height - 1), z)
    {
      var x, y := GetPixelCoords(px, py);
      ColorIndexInBounds(width, height, depth, x, y, z);
      col := GetColorData(x, y, z);
    }

    method GetRed(px: u32, py: u32) returns (col: byte)
      requires 0 < depth
      requires data != null && 0 < width && 0 < height && width * height * depth <= data.Length
      ensures ColorIndex(width, depth, Min(px, width - 1), Min(py, height - 1), 0) < data.Length
      ensures col == data[ColorIndex(width, depth, Min(px, width - 1), Min(py, height - 1), 0)]
      ensures width * height * depth <= TwoTo32 ==> col == Texel(Min(px, width - 1), Min(py, height - 1), 0)
    {
      col := GetColor(px, py, 0);
    }

    method GetGreen(px: u32, py: u32) returns (col: byte)
      requires 1 < depth
      requires data != null && 0 < width && 0 < height && width * height * depth <= data.Length
      ensures ColorIndex(width, depth, Min(px, width - 1), Min(py, height - 1), 1) < data.Length
      ensures col == data[ColorIndex(width, depth, Min(px, width - 1), Min(py, height - 1), 1)]
      ensures width * height * depth <= TwoTo32 ==> col == Texel(Min(px, width - 1), Min(py, height - 1), 1)
    {
      col := GetColor(px, py, 1);
    }

    method GetBlue(px: u32, py: u32) returns (col: byte)
      requires 2 < depth
      requires data != null && 0 < width && 0 < height && width * height * depth <= data.Length
      ensures ColorIndex(width, depth, Min(px, width - 1), Min(py, height - 1), 2) < data.Length
      ensures col == data[ColorIndex(width, depth, Min(px, width - 1), Min(py, height - 1), 2)]
      ensures width * height * depth <= TwoTo32 ==> col == Texel(Min(px, width - 1), Min(py, height - 1), 2)
    {
      col := GetColor(px, py, 2);
    }

    method GetAlpha(px: u32, py: u32) returns (col: byte)
      requires 3 < depth
      requires data != null && 0 < width && 0 < height && width * height * depth <= data.Length
      ensures ColorIndex(width, depth, Min(px, width - 1), Min(py, height - 1), 3) < data.Length
      ensures col == data[ColorIndex(width, depth, Min(px, width - 1), Min(py, height - 1), 3)]
      ensures width * height * depth <= TwoTo32 ==> col == Texel(Min(px, width - 1), Min(py, height - 1), 3)
    {
      col := GetColor(px, py, 3);
    }

    /** The integer numerator of the grey value: red + green + blue of one
        pixel, hence at most 3 * 255. The image must have at least three
        channels (see GreyReadsPastSingleChannelImage for what getGrey reads
        otherwise). */
    method GetGrey(px: u32, py: u32) returns (sum: nat)
      requires 3 <= depth
      requires data != null && 0 < width && 0 < height && width * height * depth <= data.Length
      ensures sum <= 3 * 255
      ensures ColorIndex(width, depth, Min(px, width - 1), Min(py, height - 1), 0) < data.Length
      ensures ColorIndex(width, depth, Min(px, width - 1), Min(py, height - 1), 1) < data.Length
      ensures ColorIndex(width, depth, Min(px, width - 1), Min(py, height - 1), 2) < data.Length
      ensures sum == data[ColorIndex(width, depth, Min(px, width - 1), Min(py, height - 1), 0)] as int
                   + data[ColorIndex(width, depth, Min(px, width - 1), Min(py, height - 1), 1)] as int
                   + data[ColorIndex(width, depth, Min(px, width - 1), Min(py, height - 1), 2)] as int
      ensures width * height * depth <= TwoTo32 ==>
        sum == Texel(Min(px, width - 1), Min(py, height - 1), 0) + Texel(Min(px, width - 1), Min(py, height - 1), 1) + Texel(Min(px, width - 1), Min(py, height - 1), 2)
    {
      var x, y := GetPixelCoords(px, py);
      assert x == Min(px, width - 1) && y == Min(py, height - 1);
      ChannelsInBounds(width, height, depth, x, y);
      var r := GetColorData(x, y, 0);
      assert width * height * depth <= TwoTo32 ==> r == Texel(x, y, 0);
      var g := GetColorData(x, y, 1);
      assert width * height * depth <= TwoTo32 ==> g == Texel(x, y, 1);
      var b := GetColorData(x, y, 2);
      assert width * height * depth <= TwoTo32 ==> b == Texel(x, y, 2);
      sum := r as int + g as int + b as int;
    }
  }
}
