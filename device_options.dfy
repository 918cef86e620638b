/**
 * The argument strings CameraDevice::Open hands to FFmpeg: the options
 * dictionary for opening the capture device, and the argument string of
 * the `buffer` source node of the watermark filter graph.
 */
module DeviceOptions {
  import opened Optional
  import opened Decimal
  import opened Text

  /** AV_PIX_FMT_YUYV422 in FFmpeg's pixel-format enumeration (packed 4:2:2). */
  const PixFmtYuyv422: int := 1
  const PixelFormatName: string := "yuyv422"
  /** The device read-ahead buffer: 2000 mega-units, FFmpeg's SI suffix. */
  const ReadBufferSize: string := "2000M"
  /** Size of the `char args[512]` buffer that snprintf writes into. */
  const ArgsCapacity: nat := 512

  /**
   * `av_dict_set(&d, key, value, 0)`: the entry is added, or replaced if present.
   * Without AV_DICT_MATCH_CASE FFmpeg compares keys ignoring case; the four
   * keys Open sets are distinct lower-case words, so exact comparison agrees.
   */
  function DictSet(d: map<string, string>, key: string, value: string): (r: map<string, string>)
    ensures r.Keys == d.Keys + {key} && r[key] == value
    ensures forall k :: k in d && k != key ==> r[k] == d[k]
  {
    d[key := value]
  }

  /** `snprintf(args, sizeof(args), "%dx%d", width, height)`. */
  function VideoSize(width: Int32, height: Int32): string {
    Signed(width) + "x" + Signed(height)
  }

  /** The options dictionary passed to avformat_open_input. */
  function CaptureOptions(width: Int32, height: Int32, fps: Int32): (d: map<string, string>)
    ensures d.Keys == {"framerate", "video_size", "pixel_format", "rtbufsize"}
  {
    var d := DictSet(map[], "framerate", Signed(fps));
    var d := DictSet(d, "video_size", VideoSize(width, height));
    var d := DictSet(d, "pixel_format", PixelFormatName);
    DictSet(d, "rtbufsize", ReadBufferSize)
  }

  /**
   * The argument string of the `buffer` source node: the format
   * `video_size=%dx%d:pix_fmt=%d:time_base=%d/%d:pixel_aspect=%d/%d` filled
   * with the width and height, the YUYV422 pixel format, a time base of one
   * over fps, and a pixel aspect of one to one.
   */
  function SourceArgs(width: Int32, height: Int32, fps: Int32): (s: string)
    ensures |s| > 11 && s[..11] == "video_size="
  {
    var s := "video_size=" + Signed(width) + "x" + Signed(height)
      + ":pix_fmt=" + Signed(PixFmtYuyv422)
      + ":time_base=" + Signed(1) + "/" + Signed(fps)
      + ":pixel_aspect=" + Signed(1) + "/" + Signed(1);
    assert "video_size=" <= s by {
      SourceArgsShape(Signed(width), Signed(height), Signed(PixFmtYuyv422), Signed(1), Signed(fps));
    }
    s
  }

  /** Two decimal integers around a separator, as in `640x480` or `1/30`. */
  function ParsePair(s: string, sep: char): Option<(int, int)> {
    var parts := Split(s, sep);
    if |parts| != 2 then None
    else match (ParseSigned(parts[0]), ParseSigned(parts[1]))
      case (Some(a), Some(b)) => Some((a, b))
      case _ => None
  }

  /** The value of a `key=value` field whose key is `key`. */
  function Field(f: string, key: string): Option<string> {
    var kv := Split(f, '=');
    if |kv| == 2 && kv[0] == key then Some(kv[1]) else None
  }

  /** What a `buffer` source node is configured with. */
  datatype SourceParams = SourceParams(
    width: int, height: int, pixelFormat: int,
    timeBase: (int, int), pixelAspect: (int, int))

  /** Reads the `:`-separated `key=value` fields of a buffer-source argument string. */
  function ParseSourceArgs(s: string): Option<SourceParams> {
    var fields := Split(s, ':');
    if |fields| != 4 then None
    else match (Field(fields[0], "video_size"), Field(fields[1], "pix_fmt"),
                Field(fields[2], "time_base"), Field(fields[3], "pixel_aspect"))
      case (Some(size), Some(format), Some(base), Some(aspect)) =>
        (match (ParsePair(size, 'x'), ParseSigned(format), ParsePair(base, '/'), ParsePair(aspect, '/'))
          case (Some(wh), Some(pf), Some(tb), Some(sar)) => Some(SourceParams(wh.0, wh.1, pf, tb, sar))
          case _ => None)
      case _ => None
  }

  lemma NotInSigned(n: int, c: char)
    requires !IsDigit(c) && c != '-'
    ensures c !in Signed(n)
  {
    var s := Signed(n);
    forall i | 0 <= i < |s| ensures s[i] != c {
    }
  }

  lemma PairRoundTrip(a: int, b: int, sep: char)
    requires !IsDigit(sep) && sep != '-'
    ensures ParsePair(Signed(a) + [sep] + Signed(b), sep) == Some((a, b))
  {
    NotInSigned(a, sep);
    NotInSigned(b, sep);
    var parts := [Signed(a), Signed(b)];
    assert Join(parts, sep) == Signed(a) + [sep] + Signed(b) by {
      assert parts[1..] == [Signed(b)];
      assert Signed(a) + ([sep] + Signed(b)) == Signed(a) + [sep] + Signed(b);
    }
    SplitJoin(parts, sep);
    SignedRoundTrip(a);
    SignedRoundTrip(b);
  }

  lemma FieldRoundTrip(key: string, value: string)
    requires '=' !in key && '=' !in value
    ensures Field(KeyValue(key, value), key) == Some(value)
  {
    var kv := [key, value];
    assert Join(kv, '=') == key + "=" + value by {
      assert kv[1..] == [value];
      assert key + ("=" + value) == key + "=" + value;
    }
    SplitJoin(kv, '=');
  }

  lemma VideoSizeRoundTrip(width: Int32, height: Int32)
    ensures ParsePair(VideoSize(width, height), 'x') == Some((width as int, height as int))
  {
    PairRoundTrip(width, height, 'x');
  }

  /**
   * The device is asked for exactly four options: the frame rate and the
   * frame size read back as the caller's integers, packed 4:2:2 pixels and
   * the large read-ahead buffer; each `%d` value fits the 512-byte buffer.
   */
  lemma CaptureOptionsContents(width: Int32, height: Int32, fps: Int32)
    ensures var d := CaptureOptions(width, height, fps);
      && d.Keys == {"framerate", "video_size", "pixel_format", "rtbufsize"}
      && ParseSigned(d["framerate"]) == Some(fps as int)
      && ParsePair(d["video_size"], 'x') == Some((width as int, height as int))
      && d["pixel_format"] == PixelFormatName
      && d["rtbufsize"] == ReadBufferSize
      && |d["framerate"]| < ArgsCapacity && |d["video_size"]| < ArgsCapacity
  {
    SignedRoundTrip(fps);
    VideoSizeRoundTrip(width, height);
    Int32Length(fps);
    Int32Length(width);
    Int32Length(height);
  }

  /** A `key=value` field. */
  function KeyValue(key: string, value: string): string {
    key + "=" + value
  }

  /** The four `key=value` fields of the buffer-source argument string. */
  function SourceFields(width: Int32, height: Int32, fps: Int32): seq<string> {
    [KeyValue("video_size", VideoSize(width, height)),
     KeyValue("pix_fmt", Signed(PixFmtYuyv422)),
     KeyValue("time_base", Signed(1) + "/" + Signed(fps)),
     KeyValue("pixel_aspect", Signed(1) + "/" + Signed(1))]
  }

  lemma SplitFour(a: string, b: string, c: string, d: string, sep: char)
    requires sep !in a && sep !in b && sep !in c && sep !in d
    ensures Split(a + ([sep] + (b + ([sep] + (c + ([sep] + d))))), sep) == [a, b, c, d]
  {
    var parts := [a, b, c, d];
    assert parts[1..] == [b, c, d] && [b, c, d][1..] == [c, d] && [c, d][1..] == [d];
    assert Join([c, d], sep) == c + ([sep] + d);
    assert Join([b, c, d], sep) == b + ([sep] + (c + ([sep] + d)));
    assert forall k :: 0 <= k < |parts| ==> sep !in parts[k];
    SplitJoin(parts, sep);
  }

  lemma Assoc(x: string, y: string, z: string)
    ensures x + y + z == x + (y + z)
  {
  }

  /** `y + a + b + c` regrouped as `y + (a + b + c)`. */
  lemma Assoc4(y: string, a: string, b: string, c: string)
    ensures y + a + b + c == y + (a + b + c)
  {
    Assoc(y, a, b);
    Assoc(y, a + b, c);
  }

  /** The argument string regrouped field by field; it only moves parentheses. */
  lemma SourceArgsShape(w: string, h: string, f: string, one: string, fps: string)
    ensures "video_size=" + w + "x" + h + ":pix_fmt=" + f + ":time_base=" + one + "/" + fps
            + ":pixel_aspect=" + one + "/" + one
         == KeyValue("video_size", w + "x" + h)
            + ([':'] + (KeyValue("pix_fmt", f)
            + ([':'] + (KeyValue("time_base", one + "/" + fps)
            + ([':'] + KeyValue("pixel_aspect", one + "/" + one))))))
  {
    var x0 := "video_size=" + w + "x" + h;
    var t1 := ":pix_fmt=" + f;
    var t2 := ":time_base=" + one + "/" + fps;
    var t3 := ":pixel_aspect=" + one + "/" + one;
    var k0 := KeyValue("video_size", w + "x" + h);
    var k1, k2, k3 := KeyValue("pix_fmt", f), KeyValue("time_base", one + "/" + fps),
                      KeyValue("pixel_aspect", one + "/" + one);
    assert x0 == k0 by {
      assert "video_size=" == "video_size" + "=";
      Assoc4("video_size" + "=", w, "x", h);
    }
    assert t1 == [':'] + k1 by {
      assert ":pix_fmt=" == [':'] + ("pix_fmt" + "=");
    }
    assert t2 == [':'] + k2 by {
      assert ":time_base=" == [':'] + ("time_base" + "=");
      Assoc4(":time_base=", one, "/", fps);
      Assoc4("time_base" + "=", one, "/", fps);
    }
    assert t3 == [':'] + k3 by {
      assert ":pixel_aspect=" == [':'] + ("pixel_aspect" + "=");
      Assoc4(":pixel_aspect=", one, "/", one);
      Assoc4("pixel_aspect" + "=", one, "/", one);
    }
    calc {
      x0 + ":pix_fmt=" + f + ":time_base=" + one + "/" + fps + ":pixel_aspect=" + one + "/" + one;
      == { Assoc(x0, ":pix_fmt=", f); }
      x0 + t1 + ":time_base=" + one + "/" + fps + ":pixel_aspect=" + one + "/" + one;
      == { Assoc(x0 + t1, ":time_base=", one); Assoc4(x0 + t1, ":time_base=" + one, "/", fps); }
      x0 + t1 + t2 + ":pixel_aspect=" + one + "/" + one;
      == { Assoc(x0 + t1 + t2, ":pixel_aspect=", one); Assoc4(x0 + t1 + t2, ":pixel_aspect=" + one, "/", one); }
      x0 + t1 + t2 + t3;
      == { Assoc(x0 + t1, t2, t3); Assoc(x0, t1, t2 + t3); }
      x0 + (t1 + (t2 + t3));
      == { Assoc([':'], k2, t3); Assoc([':'], k1, t2 + t3); }
      k0 + ([':'] + (k1 + ([':'] + (k2 + ([':'] + k3)))));
    }
  }

  lemma SplitSourceArgs(width: Int32, height: Int32, fps: Int32)
    ensures Split(SourceArgs(width, height, fps), ':') == SourceFields(width, height, fps)
  {
    var w, h, pf, one, rate := Signed(width), Signed(height), Signed(PixFmtYuyv422), Signed(1), Signed(fps);
    var f := SourceFields(width, height, fps);
    assert SourceArgs(width, height, fps) == f[0] + ([':'] + (f[1] + ([':'] + (f[2] + ([':'] + f[3]))))) by {
      SourceArgsShape(w, h, pf, one, rate);
    }
    NotInSigned(width, ':'); NotInSigned(height, ':'); NotInSigned(fps, ':');
    NotInSigned(1, ':'); NotInSigned(PixFmtYuyv422, ':');
    assert ':' !in f[0] && ':' !in f[1] && ':' !in f[2] && ':' !in f[3];
    SplitFour(f[0], f[1], f[2], f[3], ':');
  }

  /** How the parser reads any string made of the four expected fields. */
  lemma ParseFourFields(s: string, size: string, format: string, base: string, aspect: string,
                        p: SourceParams)
    requires '=' !in size && '=' !in format && '=' !in base && '=' !in aspect
    requires Split(s, ':') == [KeyValue("video_size", size), KeyValue("pix_fmt", format),
                               KeyValue("time_base", base), KeyValue("pixel_aspect", aspect)]
    requires ParsePair(size, 'x') == Some((p.width, p.height))
    requires ParseSigned(format) == Some(p.pixelFormat)
    requires ParsePair(base, '/') == Some(p.timeBase)
    requires ParsePair(aspect, '/') == Some(p.pixelAspect)
    ensures ParseSourceArgs(s) == Some(p)
  {
    FieldRoundTrip("video_size", size);
    FieldRoundTrip("pix_fmt", format);
    FieldRoundTrip("time_base", base);
    FieldRoundTrip("pixel_aspect", aspect);
  }

  /**
   * The source node is configured with the caller's frame size, packed
   * 4:2:2 pixels, a time base of 1/fps (not the stream's own time base)
   * and square pixels.
   */
  lemma SourceArgsRoundTrip(width: Int32, height: Int32, fps: Int32)
    ensures ParseSourceArgs(SourceArgs(width, height, fps))
         == Some(SourceParams(width, height, PixFmtYuyv422, (1, fps as int), (1, 1)))
  {
    SplitSourceArgs(width, height, fps);
    NotInSigned(width, '='); NotInSigned(height, '='); NotInSigned(fps, '=');
    NotInSigned(1, '='); NotInSigned(PixFmtYuyv422, '=');
    VideoSizeRoundTrip(width, height);
    SignedRoundTrip(PixFmtYuyv422);
    PairRoundTrip(1, fps, '/');
    PairRoundTrip(1, 1, '/');
    ParseFourFields(SourceArgs(width, height, fps), VideoSize(width, height), Signed(PixFmtYuyv422),
                    Signed(1) + "/" + Signed(fps), Signed(1) + "/" + Signed(1),
                    SourceParams(width, height, PixFmtYuyv422, (1, fps as int), (1, 1)));
  }

  /** snprintf never truncates the buffer-source arguments: they fit `args[512]` with the terminator. */
  lemma SourceArgsFit(width: Int32, height: Int32, fps: Int32)
    ensures |SourceArgs(width, height, fps)| < ArgsCapacity
  {
    Int32Length(width);
    Int32Length(height);
    Int32Length(fps);
    Int32Length(1);
    Int32Length(PixFmtYuyv422);
  }
}
