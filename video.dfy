/**
 * The video-refresh callback the host registers with the core. A null frame
 * pointer means "duplicate the previous frame": the callback returns at once.
 * Otherwise it reports the frame's dimensions; the pixels are never read.
 */
module Video {
  import opened Wrappers

  newtype U32 = x: int | 0 <= x < 0x1_0000_0000           // C `unsigned`
  newtype Size = x: int | 0 <= x < 0x1_0000_0000_0000_0000 // C `size_t` on a 64-bit host

  /** The frame line the callback reports. */
  datatype FrameReport = FrameReport(width: U32, height: U32, pitch: Size)

  /** `video_update`: `None` for `data` is the null frame pointer; the result is the report, if any. */
  function VideoUpdate(data: Option<seq<bv8>>, width: U32, height: U32, pitch: Size): (r: Option<FrameReport>)
    ensures r.None? <==> data.None?
    ensures r.Some? ==> r.value.width == width && r.value.height == height && r.value.pitch == pitch
  {
    if data.None? then None else Some(FrameReport(width, height, pitch))
  }

  /** A null frame returns before width, height or pitch are looked at. */
  lemma NullFrameReadsNothing(w: U32, h: U32, p: Size, w': U32, h': U32, p': Size)
    ensures VideoUpdate(None, w, h, p) == VideoUpdate(None, w', h', p') == None
  {
  }

  /** A non-null frame is reported by its dimensions alone; its pixels are never read. */
  lemma FramePixelsNotRead(a: seq<bv8>, b: seq<bv8>, w: U32, h: U32, p: Size)
    ensures VideoUpdate(Some(a), w, h, p) == VideoUpdate(Some(b), w, h, p) == Some(FrameReport(w, h, p))
  {
  }
}
