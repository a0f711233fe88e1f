/**
 * The camera-frame datagram: the detector's UdpSender puts a 5-byte header
 * (camera id, payload length big-endian) in front of the JPEG bytes, and the
 * desktop Receiver takes such datagrams apart and shows each frame under
 * its camera.
 */
module Datagram {
  import opened Wrappers

  newtype byte = x: int | 0 <= x < 256

  /** Header size: one id byte and a four-byte length. */
  const HeaderSize := 5
  /** Largest payload sent, so that a frame fits in one datagram. */
  const MaxPayload := 60000
  /** Number of camera panes on the desktop (CAM_COUNT). */
  const CamCount := 3
  const Two32 := 0x1_0000_0000

  /** static_cast<uint8_t>: the value modulo 256. */
  function Truncate8(v: int): (b: byte)
    ensures 0 <= v < 256 ==> b as int == v
    ensures (b as int - v) % 256 == 0
  {
    (v % 256) as byte
  }

  /** The four bytes of n in network (big-endian) order, as htonl and memcpy lay them out. */
  function BigEndian32(n: nat): (r: seq<byte>)
    requires n < Two32
    ensures |r| == 4
  {
    [(n / 0x100_0000) as byte, ((n / 0x1_0000) % 256) as byte, ((n / 0x100) % 256) as byte, (n % 256) as byte]
  }

  /** A quint32 read from four bytes with QDataStream::BigEndian. */
  function ReadBigEndian32(b: seq<byte>): (n: nat)
    requires |b| == 4
    ensures n < Two32
  {
    ((b[0] as int * 256 + b[1] as int) * 256 + b[2] as int) * 256 + b[3] as int
  }

  lemma BigEndian32RoundTrip(n: nat)
    requires n < Two32
    ensures ReadBigEndian32(BigEndian32(n)) == n
  {
  }

  /** Division by d undoes q * d + r for a remainder below d. */
  lemma DivMod(q: nat, r: nat, d: nat)
    requires 0 <= r < d
    ensures (q * d + r) / d == q && (q * d + r) % d == r
  {
    var m := q * d + r;
    var e: int := m / d - q;
    assert e * d == r - m % d;
    MulSign(e, d);
  }

  /** A non-zero multiple of d is at least d away from zero. */
  lemma MulSign(e: int, d: int)
    requires d >= 0
    ensures e >= 1 ==> e * d >= d
    ensures e <= -1 ==> e * d <= -d
  {
    assert e * d == (e - 1) * d + d == (e + 1) * d - d;
  }

  /** Writing back the number read from four bytes gives those bytes. */
  lemma ReadThenWrite(b: seq<byte>)
    requires |b| == 4
    ensures BigEndian32(ReadBigEndian32(b)) == b
  {
    var x, y, z, w := b[0] as int, b[1] as int, b[2] as int, b[3] as int;
    var n := ReadBigEndian32(b);
    assert n == x * 0x100_0000 + ((y * 256 + z) * 256 + w);
    DivMod(x, (y * 256 + z) * 256 + w, 0x100_0000);
    assert n == (x * 256 + y) * 0x1_0000 + (z * 256 + w);
    DivMod(x * 256 + y, z * 256 + w, 0x1_0000);
    DivMod(x, y, 256);
    assert n == ((x * 256 + y) * 256 + z) * 256 + w;
    DivMod((x * 256 + y) * 256 + z, w, 256);
    DivMod(x * 256 + y, z, 256);
  }

  lemma ReadBigEndian32Injective(a: seq<byte>, b: seq<byte>)
    requires |a| == 4 && |b| == 4 && ReadBigEndian32(a) == ReadBigEndian32(b)
    ensures a == b
  {
    ReadThenWrite(a);
    ReadThenWrite(b);
  }

  /** The datagram UdpSender::send puts on the wire, or None when the payload is too large to send. */
  function Encode(camId: int, payload: seq<byte>): Option<seq<byte>>
  {
    if |payload| > MaxPayload then None
    else Some([Truncate8(camId)] + BigEndian32(|payload|) + payload)
  }

  /**
   * UdpSender::send: the header vector filled byte by byte, then the
   * encoded image after it; nothing is sent above the size cap.
   */
  method Send(camId: int, payload: seq<byte>) returns (sent: Option<seq<byte>>)
    ensures sent == Encode(camId, payload)
    ensures sent.Some? <==> |payload| <= MaxPayload
    ensures sent.Some? ==> |sent.value| == HeaderSize + |payload| && sent.value[HeaderSize..] == payload
  {
    if |payload| > MaxPayload {
      return None;
    }
    var header := new byte[HeaderSize];
    header[0] := Truncate8(camId);
    var length := |payload|;
    header[1] := (length / 0x100_0000) as byte;
    header[2] := ((length / 0x1_0000) % 256) as byte;
    header[3] := ((length / 0x100) % 256) as byte;
    header[4] := (length % 256) as byte;
    assert header[..] == [Truncate8(camId)] + BigEndian32(length);
    sent := Some(header[..] + payload);
  }

  /** A frame the receiver accepted: the camera pane and the image bytes. */
  datatype Frame = Frame(camId: nat, image: seq<byte>)

  /** static_cast<int> of a quint32: values from 2^31 up wrap to negatives. */
  function ToInt32(n: nat): (r: int)
    requires n < Two32
    ensures r == n || r == n - Two32
    ensures r < 0x8000_0000
  {
    if n < 0x8000_0000 then n else n - Two32
  }

  /**
   * The checks of Receiver::ProcessPending on one datagram: a failed read
   * or fewer than five bytes, a camera id of CamCount or more, a length
   * field other than the byte count after the header, and an empty image
   * are all skipped.
   */
  function Decode(bytesRead: int, d: seq<byte>): (r: Option<Frame>)
    ensures r.Some? ==> r.value.camId < CamCount && |d| == HeaderSize + |r.value.image|
    ensures r.Some? ==> r.value.camId == d[0] as int && r.value.image == d[HeaderSize..] && r.value.image != []
  {
    if bytesRead <= 0 || |d| < HeaderSize then None
    else
      var camId := d[0] as int;
      var length := ReadBigEndian32(d[1..HeaderSize]);
      if camId >= CamCount || ToInt32(length) != |d| - HeaderSize then None
      else
        var image := d[HeaderSize..HeaderSize + length];
        if image == [] then None
        else Some(Frame(camId, image))
  }

  /** What the receiver gets back from a sent frame: exactly the camera id and the payload. */
  lemma EncodeDecodeRoundTrip(camId: int, payload: seq<byte>)
    requires 0 <= camId < CamCount && 0 < |payload| <= MaxPayload
    ensures Encode(camId, payload).Some?
    ensures Decode(|Encode(camId, payload).value|, Encode(camId, payload).value) == Some(Frame(camId, payload))
  {
    var d := Encode(camId, payload).value;
    assert d[1..HeaderSize] == BigEndian32(|payload|);
    BigEndian32RoundTrip(|payload|);
    assert d[HeaderSize..HeaderSize + |payload|] == payload;
  }

  /** A sent frame from a camera id of CamCount or more (after truncation) never reaches a pane. */
  lemma ForeignCameraRejected(camId: int, payload: seq<byte>)
    requires CamCount <= camId < 256 && |payload| <= MaxPayload
    ensures Decode(|Encode(camId, payload).value|, Encode(camId, payload).value) == None
  {
  }

  /** An empty image is never shown, even with a correct header. */
  lemma EmptyPayloadSkipped(camId: int)
    ensures Decode(HeaderSize, Encode(camId, []).value) == None
  {
  }

  /** One pending datagram: what readDatagram returned and the bytes it holds. */
  datatype Pending = Pending(bytesRead: int, data: seq<byte>)

  /** The panes after one datagram: only the decoded camera's pane changes, and only for a valid image. */
  function ShowOne(panes: seq<Option<seq<byte>>>, p: Pending, isImage: seq<byte> -> bool): (r: seq<Option<seq<byte>>>)
    requires |panes| == CamCount
    ensures |r| == CamCount
  {
    match Decode(p.bytesRead, p.data)
    case None => panes
    case Some(f) => if isImage(f.image) then panes[f.camId := Some(f.image)] else panes
  }

  /** The panes after all pending datagrams, in arrival order. */
  function ShowAll(panes: seq<Option<seq<byte>>>, pending: seq<Pending>, isImage: seq<byte> -> bool): (r: seq<Option<seq<byte>>>)
    requires |panes| == CamCount
    ensures |r| == CamCount
    decreases |pending|
  {
    if pending == [] then panes
    else ShowAll(ShowOne(panes, pending[0], isImage), pending[1..], isImage)
  }

  /** Only the decoded camera's pane can change, and it then shows exactly the datagram's image bytes. */
  lemma ShowOneTouchesOnePane(panes: seq<Option<seq<byte>>>, p: Pending, isImage: seq<byte> -> bool, i: nat)
    requires |panes| == CamCount && i < CamCount
    ensures ShowOne(panes, p, isImage)[i] != panes[i] ==>
      Decode(p.bytesRead, p.data).Some? && Decode(p.bytesRead, p.data).value.camId == i
      && ShowOne(panes, p, isImage)[i] == Some(p.data[HeaderSize..])
  {
  }

  /** A pane nothing was sent to keeps what it showed. */
  lemma {:induction false} UntouchedPaneKept(panes: seq<Option<seq<byte>>>, pending: seq<Pending>, isImage: seq<byte> -> bool, i: nat)
    requires |panes| == CamCount && i < CamCount
    requires forall k :: 0 <= k < |pending| ==> !(|pending[k].data| > 0 && pending[k].data[0] as int == i)
    ensures ShowAll(panes, pending, isImage)[i] == panes[i]
    decreases |pending|
  {
    if pending != [] {
      ShowOneTouchesOnePane(panes, pending[0], isImage, i);
      UntouchedPaneKept(ShowOne(panes, pending[0], isImage), pending[1..], isImage, i);
    }
  }

  /** The last valid frame of a camera is what its pane ends up showing. */
  lemma {:induction false} LastFrameShown(panes: seq<Option<seq<byte>>>, pending: seq<Pending>, isImage: seq<byte> -> bool, camId: nat, payload: seq<byte>)
    requires |panes| == CamCount && camId < CamCount && 0 < |payload| <= MaxPayload && isImage(payload)
    requires forall k :: 0 <= k < |pending| ==> !(|pending[k].data| > 0 && pending[k].data[0] as int == camId)
    ensures ShowAll(panes, [Pending(HeaderSize + |payload|, Encode(camId, payload).value)] + pending, isImage)[camId] == Some(payload)
  {
    var d := Encode(camId, payload).value;
    var first := Pending(HeaderSize + |payload|, d);
    EncodeDecodeRoundTrip(camId, payload);
    assert ([first] + pending)[1..] == pending;
    UntouchedPaneKept(ShowOne(panes, first, isImage), pending, isImage, camId);
  }

  /** The desktop camera viewer: one pane per camera, None while it shows "No Frame". */
  class Receiver {
    var panes: seq<Option<seq<byte>>>

    predicate Valid()
      reads this
    {
      |panes| == CamCount
    }

    constructor ()
      ensures Valid() && panes == [None, None, None]
    {
      panes := [None, None, None];
    }

    /**
     * ProcessPending: drain the pending datagrams in order, skipping those
     * that fail the checks or do not hold an image; nothing at all when the
     * socket is not valid.
     */
    method ProcessPending(socketValid: bool, pending: seq<Pending>, isImage: seq<byte> -> bool)
      requires Valid()
      modifies this
      ensures Valid()
      ensures !socketValid ==> panes == old(panes)
      ensures socketValid ==> panes == ShowAll(old(panes), pending, isImage)
    {
      if !socketValid {
        return;
      }
      var k := 0;
      while k < |pending|
        invariant 0 <= k <= |pending| && Valid()
        invariant ShowAll(panes, pending[k..], isImage) == ShowAll(old(panes), pending, isImage)
      {
        assert pending[k..][1..] == pending[k + 1..];
        var d := pending[k];
        var frame := Decode(d.bytesRead, d.data);
        if frame.Some? && isImage(frame.value.image) {
          panes := panes[frame.value.camId := Some(frame.value.image)];
        }
        k := k + 1;
      }
    }
  }
}
