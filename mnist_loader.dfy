/** The MNIST loader: decoding of the IDX files that hold the images and the
    labels. Every header field is a 32-bit big-endian integer. An image file is a
    magic number 2051, the image count, the number of rows and of columns, then the
    pixels of each image, one byte each, image after image. A label file is a magic
    number 2049, the label count, then one byte per label. The whole file is the
    byte sequence given; reading it from disk is not part of this model. */
module MnistLoader {
  import opened Wrappers

  const IMAGES_MAGIC: int := 2051
  const LABELS_MAGIC: int := 2049

  /** Why a file was refused. */
  datatype LoadError = BadMagic(magic: int) | UnexpectedEof

  /** The decoded image file: its header's rows and columns, and the images. */
  datatype Images = Images(rows: nat, cols: nat, images: seq<seq<byte>>)

  /** The unsigned big-endian 32-bit integer at `at`, as `get_u32` reads it. */
  function BeU32(data: seq<byte>, at: nat): (r: nat)
    requires at + 4 <= |data|
    ensures r < 0x1_0000_0000
  {
    data[at] as nat * 0x100_0000 + data[at + 1] as nat * 0x1_0000 + data[at + 2] as nat * 0x100 + data[at + 3] as nat
  }

  /** The signed big-endian 32-bit integer at `at` (two's complement), as `get_i32`
      reads it. */
  function BeI32(data: seq<byte>, at: nat): (r: int)
    requires at + 4 <= |data|
    ensures -0x8000_0000 <= r < 0x8000_0000
  {
    var u := BeU32(data, at);
    if u < 0x8000_0000 then u else u - 0x1_0000_0000
  }

  /** `count` consecutive chunks of `size` bytes from the front of `data`, as a
      cursor reads them; `None` when the bytes run out first. */
  function Chunks(data: seq<byte>, size: nat, count: nat): Option<seq<seq<byte>>>
    decreases count
  {
    if count == 0 then Some([])
    else if |data| < size then None
    else
      match Chunks(data[size..], size, count - 1)
      case None => None
      case Some(rest) => Some([data[..size]] + rest)
  }

  /** The chunks are there exactly when `data` holds `count * size` bytes; bytes
      after the last chunk are ignored. */
  lemma {:induction false} ChunksPresent(data: seq<byte>, size: nat, count: nat)
    ensures Chunks(data, size, count).Some? <==> count * size <= |data|
  {
    if count > 0 {
      assert count * size == (count - 1) * size + size;
      if |data| >= size {
        ChunksPresent(data[size..], size, count - 1);
      }
    }
  }

  /** There are `count` chunks, when there are any. */
  lemma {:induction false} ChunksCount(data: seq<byte>, size: nat, count: nat)
    requires Chunks(data, size, count).Some?
    ensures |Chunks(data, size, count).value| == count
  {
    if count > 0 {
      ChunksCount(data[size..], size, count - 1);
    }
  }

  /** Chunk `n` is `data[n * size .. (n + 1) * size]`. */
  lemma {:induction false} ChunksAt(data: seq<byte>, size: nat, count: nat, n: nat)
    requires Chunks(data, size, count).Some? && n < count
    ensures n * size + size <= |data|
    ensures n < |Chunks(data, size, count).value|
    ensures Chunks(data, size, count).value[n] == data[n * size .. n * size + size]
  {
    if n > 0 {
      ChunksAt(data[size..], size, count - 1, n - 1);
      assert (n - 1) * size + size == n * size;
    }
  }

  /** `prefix` in front of the chunks still to read, or `None` if they are not all
      there. */
  function Prepend(prefix: seq<seq<byte>>, rest: Option<seq<seq<byte>>>): (r: Option<seq<seq<byte>>>)
    ensures r.Some? <==> rest.Some?
    ensures r.Some? ==> |r.value| == |prefix| + |rest.value|
    ensures r.Some? ==> r.value[..|prefix|] == prefix && r.value[|prefix|..] == rest.value
  {
    match rest
    case None => None
    case Some(cs) => Some(prefix + cs)
  }

  /** What `parse_imgs_from_reader` reads without panicking: the magic number; and,
      when the magic is right, the rest of the header, a non-negative image count
      and, if there is an image, a pixel count per image that fits in a `u32`. */
  predicate ImagesReadable(data: seq<byte>) {
    |data| >= 4 &&
    (BeI32(data, 0) == IMAGES_MAGIC ==>
      |data| >= 16 && BeI32(data, 4) >= 0 &&
      (BeI32(data, 4) > 0 ==> BeU32(data, 8) * BeU32(data, 12) < 0x1_0000_0000))
  }

  /** The number of pixels in one image, `cols * rows`. */
  function PixelCount(rows: nat, cols: nat): nat {
    cols * rows
  }

  /** The image file's meaning: refused on a wrong magic number or when the pixels
      run out; otherwise the header's rows and columns and `count` images of
      `rows * cols` pixels each, read after the 16-byte header. */
  function DecodeImages(data: seq<byte>): Result<Images, LoadError>
    requires ImagesReadable(data)
  {
    if BeI32(data, 0) != IMAGES_MAGIC then Err(BadMagic(BeI32(data, 0)))
    else
      var count: nat := BeI32(data, 4);
      var rows, cols := BeU32(data, 8), BeU32(data, 12);
      match Chunks(data[16..], PixelCount(rows, cols), count)
      case None => Err(UnexpectedEof)
      case Some(imgs) => Ok(Images(rows, cols, imgs))
  }

  /** The image file is refused with its magic number exactly when that is not
      2051, and for running out of pixels exactly when fewer than `count * rows *
      cols` bytes follow the header. */
  lemma DecodeImagesErrors(data: seq<byte>)
    requires ImagesReadable(data)
    ensures DecodeImages(data) == Err(BadMagic(BeI32(data, 0))) <==> BeI32(data, 0) != IMAGES_MAGIC
    ensures DecodeImages(data) == Err(UnexpectedEof) <==>
              BeI32(data, 0) == IMAGES_MAGIC && BeI32(data, 4) * PixelCount(BeU32(data, 8), BeU32(data, 12)) > |data| - 16
  {
    if BeI32(data, 0) == IMAGES_MAGIC {
      ChunksPresent(data[16..], PixelCount(BeU32(data, 8), BeU32(data, 12)), BeI32(data, 4));
    }
  }

  /** A decoded image file keeps the header's rows and columns and holds `count`
      images; image `n` is the `n`-th run of `rows * cols` bytes after the header. */
  lemma DecodeImagesContents(data: seq<byte>)
    requires ImagesReadable(data) && DecodeImages(data).Ok?
    ensures var d := DecodeImages(data).value;
            var size := PixelCount(d.rows, d.cols);
            d.rows == BeU32(data, 8) && d.cols == BeU32(data, 12) &&
            |d.images| == BeI32(data, 4) &&
            forall n :: 0 <= n < |d.images| ==>
              16 + n * size + size <= |data| && d.images[n] == data[16 + n * size .. 16 + n * size + size]
  {
    var count: nat := BeI32(data, 4);
    var size := PixelCount(BeU32(data, 8), BeU32(data, 12));
    var body := data[16..];
    var c := Chunks(body, size, count);
    assert c.Some? && DecodeImages(data).value.images == c.value;
    ChunksCount(body, size, count);
    forall n | 0 <= n < count
      ensures 16 + n * size + size <= |data| && c.value[n] == data[16 + n * size .. 16 + n * size + size]
    {
      ChunksAt(body, size, count, n);
    }
  }

  /** `parse_imgs_from_reader`: reads the header with a cursor, then each image in
      turn, failing as soon as one is short. */
  method ParseImages(data: seq<byte>) returns (r: Result<Images, LoadError>)
    requires ImagesReadable(data)
    ensures r == DecodeImages(data)
  {
    var magic := BeI32(data, 0);
    if magic != IMAGES_MAGIC {
      return Err(BadMagic(magic));
    }
    var imgCnt: nat := BeI32(data, 4);
    var rows := BeU32(data, 8);
    var cols := BeU32(data, 12);
    var size := PixelCount(rows, cols);
    var pos := 16;
    var rets: seq<seq<byte>> := [];
    assert Prepend(rets, Chunks(data[pos..], size, imgCnt)) == Chunks(data[16..], size, imgCnt) by {
      var c := Chunks(data[16..], size, imgCnt);
      if c.Some? {
        assert [] + c.value == c.value;
      }
    }
    for n := 0 to imgCnt
      invariant 16 <= pos <= |data|
      invariant Prepend(rets, Chunks(data[pos..], size, imgCnt - n)) == Chunks(data[16..], size, imgCnt)
    {
      if |data| - pos < size {
        assert Chunks(data[pos..], size, imgCnt - n) == None;
        return Err(UnexpectedEof);
      }
      var img := data[pos..pos + size];
      ReadOne(data[pos..], size, imgCnt - n, rets);
      assert data[pos..][size..] == data[pos + size..];
      assert data[pos..][..size] == img;
      pos := pos + size;
      rets := rets + [img];
    }
    assert rets + [] == rets;
    return Ok(Images(rows, cols, rets));
  }

  /** Reading one more chunk moves it from the chunks still to read to the end of
      those already read. */
  lemma ReadOne(data: seq<byte>, size: nat, count: nat, prefix: seq<seq<byte>>)
    requires count > 0 && size <= |data|
    ensures Prepend(prefix, Chunks(data, size, count)) ==
            Prepend(prefix + [data[..size]], Chunks(data[size..], size, count - 1))
  {
    var rest := Chunks(data[size..], size, count - 1);
    if rest.Some? {
      assert prefix + ([data[..size]] + rest.value) == prefix + [data[..size]] + rest.value;
    }
  }

  /** What `parse_labels_from_reader` reads without panicking: the magic number and,
      when it is right, a non-negative label count. */
  predicate LabelsReadable(data: seq<byte>) {
    |data| >= 4 && (BeI32(data, 0) == LABELS_MAGIC ==> |data| >= 8 && BeI32(data, 4) >= 0)
  }

  /** `parse_labels_from_reader`: refused on a wrong magic number or when fewer than
      `count` label bytes follow the 8-byte header; otherwise exactly those bytes,
      in order, ignoring any that follow. */
  function ParseLabels(data: seq<byte>): (r: Result<seq<byte>, LoadError>)
    requires LabelsReadable(data)
    ensures r.Err? <==> BeI32(data, 0) != LABELS_MAGIC || |data| < 8 + BeI32(data, 4)
    ensures r.Err? && BeI32(data, 0) != LABELS_MAGIC ==> r.error == BadMagic(BeI32(data, 0))
    ensures r.Ok? ==> r.value == data[8..8 + BeI32(data, 4)]
  {
    var magic := BeI32(data, 0);
    if magic != LABELS_MAGIC then Err(BadMagic(magic))
    else
      var cnt := BeI32(data, 4);
      if |data| - 8 < cnt then Err(UnexpectedEof) else Ok(data[8..8 + cnt])
  }
}
