/** Decoded raster images as values: the RGBA view every decoded image is
    read through (`to_rgba8`) and single-channel 8-bit luma images. Pixels
    are stored row by row, so the pixel at column x of row y is at index
    y * width + x. */
module Raster {
  import opened Base

  datatype Rgba = Rgba(r: byte, g: byte, b: byte, a: byte)

  datatype RgbaRaster = RgbaRaster(width: nat, height: nat, pixels: seq<Rgba>)

  /** An RGBA image: exactly one pixel per position. */
  type RgbaImage = img: RgbaRaster | |img.pixels| == img.width * img.height
    witness RgbaRaster(0, 0, [])

  datatype GrayRaster = GrayRaster(width: nat, height: nat, luma: seq<byte>)

  type GrayImage = img: GrayRaster | |img.luma| == img.width * img.height
    witness GrayRaster(0, 0, [])

  /** The pixel a resampling filter produces at row-major index i of a
      target of the given width and height; the filter itself is foreign
      code. */
  type Filter = (RgbaImage, nat, nat, nat) -> Rgba

  /** `resize_exact`: an image of exactly the requested size whose every
      pixel is the filter's value for that position. */
  function ResizeExact(img: RgbaImage, newWidth: nat, newHeight: nat, filter: Filter): (out: RgbaImage)
    ensures out.width == newWidth && out.height == newHeight
    ensures forall i :: 0 <= i < |out.pixels| ==> out.pixels[i] == filter(img, newWidth, newHeight, i)
  {
    RgbaRaster(newWidth, newHeight,
      seq(newWidth * newHeight, i requires 0 <= i < newWidth * newHeight => filter(img, newWidth, newHeight, i)))
  }

  /** A single-channel image computed pixel by pixel from an RGBA image
      (`GrayImage::from_fn` with a closure that reads only its own pixel). */
  function MapToGray(img: RgbaImage, f: Rgba -> byte): (out: GrayImage)
    ensures out.width == img.width && out.height == img.height
    ensures forall i :: 0 <= i < |img.pixels| ==> out.luma[i] == f(img.pixels[i])
  {
    GrayRaster(img.width, img.height, seq(|img.pixels|, i requires 0 <= i < |img.pixels| => f(img.pixels[i])))
  }
}
