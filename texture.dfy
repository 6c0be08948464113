/**
 * LoadTexture (Materials/CourseProject.cpp, lines 587-623) and the four calls
 * initGL makes to it.  Decoding the image file is done by a library the model
 * does not contain: its outcome is a parameter.
 */
module Texture {
  import opened GlModel

  /** What the image decoder hands back: nothing, or the image's size and channel count. */
  datatype Decoded = DecodeFailed | Image(width: int, height: int, channels: int)

  /** Lines 608-616: four channels are uploaded as RGBA, any other count as RGB. */
  function FormatFor(channels: int): (f: PixelFormat)
    ensures f == Rgba <==> channels == 4
    ensures f == Rgb <==> channels != 4
  {
    if channels == 4 then Rgba else Rgb
  }

  /** Bytes per pixel GL reads for an upload in format `f` of unsigned bytes. */
  function Components(f: PixelFormat): nat
  {
    match f
    case Rgb => 3
    case Rgba => 4
  }

  /**
   * The GL calls LoadTexture makes for texture `tex` (the texture parameters
   * aside): the texture is bound before decoding, so it is bound even when
   * decoding fails; only a decoded image is uploaded and mipmapped.
   */
  function LoadCommands(tex: Texture, d: Decoded): seq<Command>
  {
    match d
    case DecodeFailed => [BindTexture(tex)]
    case Image(w, h, c) => [BindTexture(tex), TexImage2D(FormatFor(c), w, h), GenerateMipmap]
  }

  /** A load only binds `tex` to the active unit, whether or not the image decoded, and draws nothing. */
  lemma LoadEffect(s: State, tex: Texture, d: Decoded)
    ensures Exec(s, LoadCommands(tex, d)) == Apply(s, BindTexture(tex))
    ensures DrawLog(s, LoadCommands(tex, d)) == []
  {
    var cmds := LoadCommands(tex, d);
    var b := Apply(s, BindTexture(tex));
    assert cmds[0] == BindTexture(tex);
    if d.Image? {
      var rest := [TexImage2D(FormatFor(d.channels), d.width, d.height), GenerateMipmap];
      assert cmds[1..] == rest;
      assert rest[1..] == [GenerateMipmap];
      assert Exec(b, [GenerateMipmap]) == b && DrawLog(b, [GenerateMipmap]) == [];
      assert Exec(b, rest) == b && DrawLog(b, rest) == [];
    } else {
      assert cmds[1..] == [];
    }
  }

  /** LoadTexture: binds `tex`, and uploads only what was decoded; the result says whether it was. */
  method LoadTexture(gl: Gl, tex: Texture, d: Decoded) returns (ok: bool)
    modifies gl
    ensures ok <==> d.Image?
    ensures gl.trace == old(gl.trace) + LoadCommands(tex, d)
  {
    gl.Issue(BindTexture(tex));
    if d.DecodeFailed? {
      return false;
    }
    var format := FormatFor(d.channels);
    gl.Issue(TexImage2D(format, d.width, d.height));
    gl.Issue(GenerateMipmap);
    ok := true;
  }

  /**
   * Lines 257-272: the four textures are loaded in turn, and a failure is only
   * reported, so every load is attempted whatever became of the earlier ones.
   */
  method LoadTextures(gl: Gl, diffuse: Decoded, specular: Decoded, glass: Decoded, window: Decoded)
    modifies gl
    ensures gl.trace == old(gl.trace) + LoadCommands(DiffuseMap, diffuse) + LoadCommands(SpecularMap, specular)
                                      + LoadCommands(GlassMap, glass) + LoadCommands(WindowMap, window)
  {
    var ok := LoadTexture(gl, DiffuseMap, diffuse);
    ok := LoadTexture(gl, SpecularMap, specular);
    ok := LoadTexture(gl, GlassMap, glass);
    ok := LoadTexture(gl, WindowMap, window);
  }

  /** A failed decode returns before any upload or mipmap generation: the bind is the only call. */
  lemma FailedLoadUploadsNothing(tex: Texture, d: Decoded)
    ensures var cmds := LoadCommands(tex, d);
      (forall i | 0 <= i < |cmds| :: !cmds[i].TexImage2D? && !cmds[i].GenerateMipmap?) <==> d.DecodeFailed?
  {
    if d.Image? {
      assert LoadCommands(tex, d)[1].TexImage2D?;
    }
  }

  /** GL_UNPACK_ALIGNMENT: GL's initial value, which the program never changes (it makes no glPixelStorei call). */
  const UnpackAlignment: nat := 4

  /** A row of `n` bytes padded to the unpack alignment: `n` rounded up to the next multiple of 4. */
  function PaddedRow(n: nat): (r: nat)
    ensures n <= r < n + UnpackAlignment && r % UnpackAlignment == 0
    ensures r == n <==> n % UnpackAlignment == 0
  {
    if n % 4 == 0 then n else n + (4 - n % 4)
  }

  /**
   * The bytes glTexImage2D reads from client memory for a `w` by `h` upload
   * in format `f` of unsigned bytes: each row but the last starts on a
   * multiple of the unpack alignment, so it is padded to that multiple.
   */
  function BytesRead(w: nat, h: nat, f: PixelFormat): nat
    requires h > 0
  {
    (h - 1) * PaddedRow(w * Components(f)) + w * Components(f)
  }

  /**
   * The decoder returns `w * h * c` bytes, rows packed with no padding.  GL
   * never reads less than that.  It reads exactly that for a 4-channel image,
   * and for a 3-channel image only when there is one row or the width is a
   * multiple of 4 (otherwise row padding makes it read past the buffer).  A
   * 1- or 2-channel image is uploaded as RGB and always read past its end.
   */
  lemma UploadSize(w: nat, h: nat, c: int)
    requires w > 0 && h > 0 && 1 <= c <= 4
    ensures BytesRead(w, h, FormatFor(c)) >= w * h * c
    ensures BytesRead(w, h, FormatFor(c)) == w * h * c <==> c == 4 || (c == 3 && (h == 1 || w % 4 == 0))
    ensures c <= 2 ==> BytesRead(w, h, FormatFor(c)) > w * h * c
  {
    if c == 4 {
      RgbaRead(w, h);
    } else {
      RgbRead(w, h);
    }
  }

  /** An RGBA row is a whole number of 4-byte words, so an RGBA upload reads exactly `w * h * 4` bytes. */
  lemma RgbaRead(w: nat, h: nat)
    requires h > 0
    ensures BytesRead(w, h, Rgba) == w * h * 4
  {
    var n := w * 4;
    assert n % 4 == 0;
    PaddedRows(h, n, n);
    assert h * n == w * h * 4;
  }

  /** An RGB upload reads at least `w * h * 3` bytes, and exactly that iff there is one row or `w` is a multiple of 4. */
  lemma RgbRead(w: nat, h: nat)
    requires h > 0
    ensures BytesRead(w, h, Rgb) >= w * h * 3
    ensures BytesRead(w, h, Rgb) == w * h * 3 <==> h == 1 || w % 4 == 0
  {
    var n := w * 3;
    var r := PaddedRow(n);
    PaddedRows(h, n, r);
    TripleAligned(w);
    assert h * n == w * h * 3;
  }

  /** Padding every row but the last adds `(h - 1) * (r - n)` bytes to the packed size, and only that. */
  lemma PaddedRows(h: nat, n: nat, r: nat)
    requires h > 0 && r >= n
    ensures (h - 1) * r + n == h * n + (h - 1) * (r - n)
    ensures (h - 1) * (r - n) >= 0
    ensures (h - 1) * (r - n) == 0 <==> h == 1 || r == n
  {
    var a: int := h - 1;
    var d: int := r - n;
    assert h * n == a * n + n;
    ProductSign(a, d);
  }

  /** A product of two naturals is zero exactly when a factor is. */
  lemma ProductSign(a: int, b: int)
    requires a >= 0 && b >= 0
    ensures a * b >= 0
    ensures a * b == 0 <==> a == 0 || b == 0
  {
    if a > 0 && b > 0 {
      assert a * b >= b;
    }
  }

  /** A row of `w` RGB pixels is a whole number of 4-byte words exactly when `w` is a multiple of 4. */
  lemma TripleAligned(w: nat)
    ensures (w * 3) % 4 == 0 <==> w % 4 == 0
  {
    var m := w % 4;
    var q := w / 4;
    assert w == 4 * q + m;
    if m == 0 {
      assert 3 * w == 4 * (3 * q);
    } else if m == 1 {
      assert 3 * w == 4 * (3 * q) + 3;
    } else if m == 2 {
      assert 3 * w == 4 * (3 * q + 1) + 2;
    } else {
      assert 3 * w == 4 * (3 * q + 2) + 1;
    }
  }
}
