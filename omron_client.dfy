/** The Omron client (backend/src/protocols/omron/omronClient.js): the 34-byte command frame, the
    memory-area codes, the response parser, and the `connected` / `responseBuffer` state around a
    read or write. The socket or serial port is a parameter: whether a frame can be written and
    what has arrived in the receive buffer when the client first looks. */
module OmronProtocol {
  import opened Wrappers
  import opened Bytes

  const FrameSize: nat := 34
  const ResponseHeader: nat := 14

  /** `getMemoryAreaCode`: the six named areas, and 0x82 (DM) for any other name. */
  function AreaCode(area: string): (code: byte)
    ensures code in {0xB0, 0xB1, 0xB2, 0xB3, 0x82, 0xA0}
    ensures code == 0x82 <==> area !in {"CIO", "WR", "HR", "AR", "EM"}
  {
    if area == "CIO" then 0xB0
    else if area == "WR" then 0xB1
    else if area == "HR" then 0xB2
    else if area == "AR" then 0xB3
    else if area == "DM" then 0x82
    else if area == "EM" then 0xA0
    else 0x82
  }

  /** The area a code stands for. */
  function AreaName(code: byte): string
  {
    if code == 0xB0 then "CIO"
    else if code == 0xB1 then "WR"
    else if code == 0xB2 then "HR"
    else if code == 0xB3 then "AR"
    else if code == 0xA0 then "EM"
    else "DM"
  }

  /** Distinct area names get distinct codes: the code identifies the area. */
  lemma AreaCodeInjective(area: string)
    requires area in {"CIO", "WR", "HR", "AR", "DM", "EM"}
    ensures AreaName(AreaCode(area)) == area
  {
  }

  /** The command frame for a read (`isRead`) or write of `count` items from `address`. */
  function FinsFrame(area: string, address: word, count: word, isRead: bool): (f: seq<byte>)
    ensures |f| == FrameSize
    ensures f[..4] == [0x46, 0x49, 0x4E, 0x53]
    ensures f[10] == 0x01 && f[11] == (if isRead then 0x01 else 0x02)
    ensures f[12] == AreaCode(area)
    ensures f[13..15] == WordBytes(address) && BE16(f, 13) == address
    ensures f[15..17] == WordBytes(count) && BE16(f, 15) == count
    ensures forall i :: (4 <= i < 10 || 17 <= i < FrameSize) ==> f[i] == 0
  {
    var f := [0x46, 0x49, 0x4E, 0x53] + Zeros(6) + [0x01, if isRead then 0x01 else 0x02, AreaCode(area)]
             + WordBytes(address) + WordBytes(count) + Zeros(17);
    assert f[13..15] == WordBytes(address);
    assert f[15..17] == WordBytes(count);
    f
  }

  /** What `writeUInt16BE` stores for an address: NaN stores 0. */
  function AddressField(address: Option<int>): int
  {
    if address.Some? then address.value else 0
  }

  /** `buildFinsCommand`'s outcome: RangeError when the address or the count does not fit in 16
      bits, otherwise the frame. */
  function Fins(area: string, address: Option<int>, count: int, isRead: bool): (r: Result<seq<byte>>)
    ensures r.Ok? <==> 0 <= AddressField(address) < Two16 && 0 <= count < Two16
    ensures r.Err? ==> r.error == RangeError
    ensures r.Ok? ==> |r.value| == FrameSize
  {
    var a := AddressField(address);
    if 0 <= a < Two16 && 0 <= count < Two16 then Ok(FinsFrame(area, a, count, isRead))
    else Err(RangeError)
  }

  /** The frame for the worked example: reading one word from DM100. */
  lemma DM100Frame()
    ensures Fins("DM", Some(100), 1, true).Ok?
    ensures var f := Fins("DM", Some(100), 1, true).value;
      f[10] == 0x01 && f[11] == 0x01 && f[12] == 0x82 && f[13] == 0 && f[14] == 100
      && f[15] == 0 && f[16] == 1
  {
    var f := FinsFrame("DM", 100, 1, true);
    assert f[13..15] == [0, 100] && f[13] == f[13..15][0] && f[14] == f[13..15][1];
    assert f[15..17] == [0, 1] && f[15] == f[15..17][0] && f[16] == f[15..17][1];
  }

  /** The words of a byte string, two big-endian bytes each; a trailing odd byte is dropped. */
  function Words(b: seq<byte>): (ws: seq<word>)
    ensures |ws| == |b| / 2
    ensures forall k :: 0 <= k < |ws| ==> ws[k] == BE16(b, 2 * k)
  {
    if |b| < 2 then []
    else
      var rest := Words(b[2..]);
      assert forall k :: 1 <= k <= |rest| ==> BE16(b, 2 * k) == BE16(b[2..], 2 * (k - 1));
      [BE16(b, 0)] + rest
  }

  /** The bytes a one-byte-per-item write payload holds: `Buffer.from(data)` keeps each item's
      low byte. */
  function Payload(data: seq<int>): (p: seq<byte>)
    ensures |p| == |data| && forall i :: 0 <= i < |data| ==> p[i] == data[i] % 0x100
  {
    seq(|data|, i requires 0 <= i < |data| => Uint8(data[i]))
  }

  /** The bytes a read or write waits for, in order of what can go wrong: the frame cannot be
      built; there is no transport object (a link type other than tcp or serial), so the write
      call itself throws a TypeError; the transport refuses the frame; nothing arrives before the
      2000 ms timeout. */
  function Reply(frame: Result<seq<byte>>, hasTransport: bool, sendOk: bool, received: seq<byte>)
    : (r: Result<seq<byte>>)
    ensures r.Ok? <==> frame.Ok? && hasTransport && sendOk && received != []
    ensures r.Ok? ==> r.value == received
  {
    if frame.Err? then Err(frame.error)
    else if !hasTransport then Err(TypeError)
    else if !sendOk then Err(TransportError)
    else if received == [] then Err(ResponseTimeout)
    else Ok(received)
  }

  /** What `parseResponse` returns for a buffer. */
  function ResponseWords(buffer: seq<byte>): (r: Result<seq<word>>)
    ensures r.Ok? <==> |buffer| >= ResponseHeader
    ensures r.Ok? ==> |r.value| == (|buffer| - ResponseHeader) / 2
    ensures r.Ok? ==> forall k :: 0 <= k < |r.value| ==> r.value[k] == BE16(buffer, ResponseHeader + 2 * k)
    ensures r.Err? ==> r.error == InvalidResponse
  {
    if |buffer| < ResponseHeader then Err(InvalidResponse)
    else
      var ws := Words(buffer[ResponseHeader..]);
      assert forall k :: 0 <= k < |ws| ==>
        BE16(buffer[ResponseHeader..], 2 * k) == BE16(buffer, ResponseHeader + 2 * k);
      Ok(ws)
  }

  /** A response made of a 14-byte header and the big-endian bytes of some words, possibly
      followed by one stray byte, parses back to exactly those words. */
  lemma ResponseRoundTrip(header: seq<byte>, ws: seq<word>, stray: seq<byte>)
    requires |header| == ResponseHeader && |stray| <= 1
    ensures ResponseWords(header + WordsToBytes(ws) + stray) == Ok(ws)
  {
    var b := header + WordsToBytes(ws) + stray;
    var r := ResponseWords(b).value;
    assert |r| == |ws|;
    forall k | 0 <= k < |ws|
      ensures r[k] == ws[k]
    {
      assert BE16(b, ResponseHeader + 2 * k) == BE16(WordsToBytes(ws), 2 * k);
    }
    assert r == ws;
  }

  const NotConnected := ClientNotConnected("Omron")

  /** The outcome of a read once the client is connected. */
  function ReadOutcome(frame: Result<seq<byte>>, hasTransport: bool, sendOk: bool, received: seq<byte>)
    : (r: Result<seq<word>>)
    ensures r.Ok? <==> Reply(frame, hasTransport, sendOk, received).Ok? && |received| >= ResponseHeader
    ensures Reply(frame, hasTransport, sendOk, received).Err? ==> r.Err? && r.error == Reply(frame, hasTransport, sendOk, received).error
    ensures Reply(frame, hasTransport, sendOk, received).Ok? ==> r == ResponseWords(received)
  {
    match Reply(frame, hasTransport, sendOk, received)
    case Err(e) => Err(e)
    case Ok(reply) => ResponseWords(reply)
  }

  /** The outcome of a write once the client is connected: any reply counts as success. */
  function WriteOutcome(frame: Result<seq<byte>>, hasTransport: bool, sendOk: bool, received: seq<byte>)
    : (r: Result<bool>)
    ensures r.Ok? <==> Reply(frame, hasTransport, sendOk, received).Ok?
    ensures r.Ok? ==> r.value
    ensures r.Err? ==> r.error == Reply(frame, hasTransport, sendOk, received).error
  {
    match Reply(frame, hasTransport, sendOk, received)
    case Err(e) => Err(e)
    case Ok(_) => Ok(true)
  }

  class OmronClient {
    const linkType: string
    var connected: bool
    /** Whether `this.client` holds a socket or serial port. */
    var hasTransport: bool
    var responseBuffer: seq<byte>
    /** The frames the transport has accepted, oldest first. */
    ghost var sent: seq<seq<byte>>

    constructor(linkType: string)
      ensures this.linkType == linkType
      ensures !connected && !hasTransport && responseBuffer == [] && sent == []
    {
      this.linkType := linkType;
      connected := false;
      hasTransport := false;
      responseBuffer := [];
      sent := [];
    }

    /** `connect`: a tcp or serial link creates its transport and is connected exactly when
        opening it works; any other link type creates nothing and still reports connected. */
    method Connect(linkOk: bool) returns (r: Result<bool>)
      modifies this
      ensures linkType == "tcp" || linkType == "serial" ==>
        hasTransport && connected == linkOk && r == (if linkOk then Ok(true) else Err(TransportError))
      ensures linkType != "tcp" && linkType != "serial" ==>
        hasTransport == old(hasTransport) && connected && r == Ok(true)
      ensures responseBuffer == old(responseBuffer) && sent == old(sent)
    {
      if linkType == "tcp" || linkType == "serial" {
        hasTransport := true;
        if !linkOk {
          connected := false;
          return Err(TransportError);
        }
      }
      connected := true;
      return Ok(true);
    }

    /** `disconnect`: closes the transport only when there is one and the client is connected;
        then `connected` is false. */
    method Disconnect()
      modifies this
      ensures connected == (old(connected) && !old(hasTransport))
      ensures hasTransport == old(hasTransport)
      ensures responseBuffer == old(responseBuffer) && sent == old(sent)
    {
      if hasTransport && connected {
        connected := false;
      }
    }

    /** `buildFinsCommand`, writing a zeroed 34-byte array field by field. */
    method BuildFinsCommand(area: string, address: Option<int>, count: int, isRead: bool)
      returns (r: Result<seq<byte>>)
      ensures r == Fins(area, address, count, isRead)
    {
      var cmd := new byte[FrameSize](_ => 0);
      cmd[0], cmd[1], cmd[2], cmd[3] := 0x46, 0x49, 0x4E, 0x53;
      cmd[10] := 0x01;
      cmd[11] := if isRead then 0x01 else 0x02;
      cmd[12] := AreaCode(area);
      var a := AddressField(address);
      if !(0 <= a < Two16) {
        return Err(RangeError);
      }
      cmd[13], cmd[14] := a / 0x100, a % 0x100;
      if !(0 <= count < Two16) {
        return Err(RangeError);
      }
      cmd[15], cmd[16] := count / 0x100, count % 0x100;
      var f := FinsFrame(area, a, count, isRead);
      forall i | 0 <= i < FrameSize
        ensures cmd[i] == f[i]
      {
        if i < 4 {
          assert f[i] == f[..4][i];
        } else if 13 <= i < 15 {
          assert f[i] == f[13..15][i - 13];
        } else if 15 <= i < 17 {
          assert f[i] == f[15..17][i - 15];
        }
      }
      assert cmd[..] == f;
      return Ok(cmd[..]);
    }

    /** `parseResponse`: skips the 14-byte header and collects one word per complete pair of
        bytes after it. */
    method ParseResponse(buffer: seq<byte>) returns (r: Result<seq<word>>)
      ensures r == ResponseWords(buffer)
    {
      if |buffer| < ResponseHeader {
        return Err(InvalidResponse);
      }
      var data: seq<word> := [];
      var i := ResponseHeader;
      while i < |buffer|
        invariant ResponseHeader <= i <= |buffer| + 1 && (i - ResponseHeader) % 2 == 0
        invariant |data| == (if i <= |buffer| then i - ResponseHeader else |buffer| - ResponseHeader) / 2
        invariant forall k :: 0 <= k < |data| ==> data[k] == BE16(buffer, ResponseHeader + 2 * k)
        decreases |buffer| - i
      {
        if i + 1 < |buffer| {
          data := data + [BE16(buffer, i)];
        }
        i := i + 2;
      }
      assert data == ResponseWords(buffer).value;
      return Ok(data);
    }

    /** The shared path of a read or a write: build the frame (its errors come first), empty the
        receive buffer, hand the frame to the transport, and wait for bytes to arrive. */
    method SendAndWait(frame: Result<seq<byte>>, sendOk: bool, received: seq<byte>)
      returns (reply: Result<seq<byte>>)
      modifies this
      ensures reply == Reply(frame, hasTransport, sendOk, received)
      ensures connected == old(connected) && hasTransport == old(hasTransport)
      ensures responseBuffer == if frame.Err? then old(responseBuffer)
                                else if hasTransport && sendOk then received else []
      ensures sent == if frame.Ok? && hasTransport && sendOk then old(sent) + [frame.value] else old(sent)
    {
      if frame.Err? {
        return Err(frame.error);
      }
      responseBuffer := [];
      if !hasTransport {
        return Err(TypeError);
      }
      if !sendOk {
        return Err(TransportError);
      }
      sent := sent + [frame.value];
      responseBuffer := received;
      if |responseBuffer| == 0 {
        return Err(ResponseTimeout);
      }
      return Ok(responseBuffer);
    }

    /** `readMemoryArea`: refused while disconnected; otherwise one exchange whose reply is
        parsed into words. */
    method ReadMemoryArea(area: string, address: Option<int>, count: int, sendOk: bool, received: seq<byte>)
      returns (r: Result<seq<word>>)
      modifies this
      ensures connected == old(connected) && hasTransport == old(hasTransport)
      ensures !connected ==> r == Err(NotConnected)
      ensures !connected ==> responseBuffer == old(responseBuffer) && sent == old(sent)
      ensures connected ==>
        r == ReadOutcome(Fins(area, address, count, true), hasTransport, sendOk, received)
      ensures Fins(area, address, count, true).Err? ==> responseBuffer == old(responseBuffer) && sent == old(sent)
      ensures connected && Fins(area, address, count, true).Ok? ==>
        responseBuffer == (if hasTransport && sendOk then received else [])
        && sent == (if hasTransport && sendOk then old(sent) + [Fins(area, address, count, true).value]
                    else old(sent))
    {
      if !connected {
        return Err(NotConnected);
      }
      var command := BuildFinsCommand(area, address, count, true);
      var reply := SendAndWait(command, sendOk, received);
      if reply.Err? {
        return Err(reply.error);
      }
      r := ParseResponse(reply.value);
    }

    /** `writeMemoryArea`: refused while disconnected; otherwise the write frame for
        `|data|` items followed by one byte per item, exchanged; any reply is success. */
    method WriteMemoryArea(area: string, address: Option<int>, data: seq<int>, sendOk: bool, received: seq<byte>)
      returns (r: Result<bool>)
      modifies this
      ensures connected == old(connected) && hasTransport == old(hasTransport)
      ensures !connected ==> r == Err(NotConnected)
      ensures !connected ==> responseBuffer == old(responseBuffer) && sent == old(sent)
      ensures connected ==>
        r == WriteOutcome(Fins(area, address, |data|, false), hasTransport, sendOk, received)
      ensures Fins(area, address, |data|, false).Err? ==> responseBuffer == old(responseBuffer) && sent == old(sent)
      ensures connected && Fins(area, address, |data|, false).Ok? ==>
        responseBuffer == (if hasTransport && sendOk then received else [])
        && sent == (if hasTransport && sendOk
                    then old(sent) + [Fins(area, address, |data|, false).value + Payload(data)]
                    else old(sent))
    {
      if !connected {
        return Err(NotConnected);
      }
      var command := BuildFinsCommand(area, address, |data|, false);
      var full := if command.Ok? then Ok(command.value + Payload(data)) else command;
      var reply := SendAndWait(full, sendOk, received);
      if reply.Err? {
        return Err(reply.error);
      }
      return Ok(true);
    }
  }

  /** A write frame is the 34-byte header counting the items, then one byte per item. */
  lemma WriteFrameLayout(area: string, address: word, data: seq<int>)
    requires |data| < Two16
    ensures Fins(area, Some(address), |data|, false).Ok?
    ensures var f := Fins(area, Some(address), |data|, false).value + Payload(data);
      |f| == FrameSize + |data| && f[11] == 0x02 && BE16(f, 15) == |data|
      && forall i :: 0 <= i < |data| ==> f[FrameSize + i] == data[i] % 0x100
  {
    var h := FinsFrame(area, address, |data|, false);
    var f := h + Payload(data);
    assert forall i :: 0 <= i < FrameSize ==> f[i] == h[i];
  }
}
