/** Accepting an uploaded image: limits, the container filter for its format, and a decode of the result. */
module Upload {
  import opened Bytes
  import Jpeg
  import Png
  import WebP

  const MAX_BYTES := 10 * 1024 * 1024
  const MAX_PIXELS := 20_000_000

  datatype Format = PNG | JPEG | WEBP | Other
  datatype Config = Config(width: int, height: int, format: Format)
  datatype Image = Image(data: bytes, format: Format, width: int, height: int)

  /** The image library: what it reads from a header and, after decoding the pixels, their bounds. */
  datatype Library = Library(config: bytes -> Option<Config>, bounds: bytes -> Option<(int, int)>, crc: Png.Checksum,
                             frame: WebP.Decoder)

  function Strip(data: bytes, format: Format, lib: Library): Result<bytes> {
    match format
    case PNG => Png.Filter(data, lib.crc)
    case JPEG => Jpeg.Filter(data)
    case WEBP => WebP.Filter(data, lib.frame)
    case Other => Err(Invalid)
  }

  method Sanitize(data: bytes, lib: Library) returns (r: Result<Image>)
    ensures r.Err? && r.error == Limit <==>
            || |data| > 10 * 1024 * 1024
            || (&& lib.config(data).Some?
                && (|| lib.config(data).value.width <= 0 || lib.config(data).value.height <= 0
                    || lib.config(data).value.width * lib.config(data).value.height > 20_000_000
                    || Strip(data, lib.config(data).value.format, lib) == Err(Limit)))
    ensures r.Ok? <==>
            && |data| <= 10 * 1024 * 1024 && lib.config(data).Some?
            && var c := lib.config(data).value;
               && c.width > 0 && c.height > 0 && c.width * c.height <= 20_000_000 && Strip(data, c.format, lib).Ok?
               && lib.bounds(Strip(data, c.format, lib).value) == Some((c.width, c.height))
    ensures r.Ok? ==>
              && |r.value.data| <= |data|
              && lib.config(data) == Some(Config(r.value.width, r.value.height, r.value.format))
              && Strip(data, r.value.format, lib) == Ok(r.value.data)
  {
    if |data| > MAX_BYTES {
      return Err(Limit);
    }
    var config := lib.config(data);
    if config.None? {
      return Err(Invalid);
    }
    var c := config.value;
    if c.width <= 0 || c.height <= 0 || c.width * c.height > MAX_PIXELS {
      return Err(Limit);
    }
    var out: Result<bytes>;
    match c.format {
      case PNG => out := Png.StripPng(data, lib.crc);
      case JPEG => out := Jpeg.StripJpeg(data);
      case WEBP => out := WebP.StripWebP(data, lib.frame);
      case Other => return Err(Invalid);
    }
    if out.Err? {
      return Err(out.error);
    }
    StripNeverGrows(data, c.format, lib);
    if |out.value| > MAX_BYTES {
      return Err(Limit);
    }
    if lib.bounds(out.value) != Some((c.width, c.height)) {
      return Err(Invalid);
    }
    return Ok(Image(out.value, c.format, c.width, c.height));
  }

  /** No filter makes a file longer, so the second length limit can never be what refuses an upload. */
  lemma StripNeverGrows(data: bytes, format: Format, lib: Library)
    ensures Strip(data, format, lib).Ok? ==> |Strip(data, format, lib).value| <= |data|
  {
    hide Png.Filter, Jpeg.Filter, WebP.Filter;
    if Strip(data, format, lib).Ok? {
      match format
      case PNG => Png.FilterNeverGrows(data, lib.crc);
      case JPEG => Jpeg.FilterNeverGrows(data);
      case WEBP => WebP.FilterNeverGrows(data, lib.frame);
    }
  }

  /** Only a WebP file can be refused for size by its filter, and only for a canvas or a frame over the pixel limit. */
  lemma StripLimits(data: bytes, format: Format, lib: Library)
    ensures Strip(data, format, lib) == Err(Limit) <==>
            && format.WEBP? && WebP.IsWebP(data)
            && var cs := WebP.Parse(data[12..]).chunks;
               exists k | 0 <= k < |cs| :: WebP.Outgrows(cs, k, true, WebP.NOTHING, lib.frame)
  {
    hide Png.Parse, Png.FilterChunks, Jpeg.FilterSegments, WebP.Filter, WebP.Outgrows;
    if format.WEBP? {
      WebP.FilterLimits(data, lib.frame);
    }
  }

  /** What was accepted once filters to itself, whatever its format. */
  lemma StripIsStable(data: bytes, format: Format, lib: Library)
    ensures Strip(data, format, lib).Ok? ==>
              Strip(Strip(data, format, lib).value, format, lib) == Strip(data, format, lib)
  {
    hide Png.Filter, Jpeg.Filter, WebP.Filter;
    if Strip(data, format, lib).Ok? {
      match format
      case PNG => Png.FilterIdempotent(data, lib.crc);
      case JPEG => Jpeg.FilterIdempotent(data);
      case WEBP => WebP.FilterIdempotent(data, lib.frame);
    }
  }
}
