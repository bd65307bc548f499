/** System-status decoding (app/models/system-status.ts): one status byte
    carries the port flag in bit 1 and the buck-converter flag in bit 0. */
module SystemStatus {
  import opened Common

  /** The numeric enum `PortStatus`: Off = 0, On = 1. */
  newtype PortStatus = x: int | 0 <= x <= 1
  const PortOff: PortStatus := 0
  const PortOn: PortStatus := 1

  /** The numeric enum `BuckStatus`: Off = 0, On = 1. */
  newtype BuckStatus = x: int | 0 <= x <= 1
  const BuckOff: BuckStatus := 0
  const BuckOn: BuckStatus := 1

  /** `SystemStatusResponse`, a plain record of the two flags. */
  datatype SystemStatusResponse = SystemStatusResponse(portStatus: PortStatus, buckStatus: BuckStatus)

  /** What `DataView.getUint8` throws for an offset outside the `ArrayBuffer`. */
  datatype ReadError = RangeError

  /** Decoding of the status byte: the port flag is chosen by a conditional on
      `value & 0x02`, while the buck flag is the raw number `value & 0x01`,
      which the enum's range must admit. */
  function FromByte(value: Byte): (r: SystemStatusResponse)
    ensures r.portStatus == PortOn <==> value & 0x02 != 0
    ensures r.buckStatus == BuckOn <==> value & 0x01 != 0
  {
    var buck := (value & 0x01) as int;
    assert buck <= 1;
    SystemStatusResponse(if value & 0x02 != 0 then PortOn else PortOff, buck as BuckStatus)
  }

  /** `SystemStatusResponse.fromBuffer`: reads the byte at `buffer.byteOffset`
      of the whole backing `ArrayBuffer` (a `DataView` over `buffer.buffer`). */
  function FromBuffer(buffer: Buffer): (r: Result<SystemStatusResponse, ReadError>)
    ensures r.Err? <==> buffer.byteOffset >= |buffer.backing|
    ensures r.Ok? ==> r.value == FromByte(buffer.backing[buffer.byteOffset])
  {
    if buffer.byteOffset < |buffer.backing| then Ok(FromByte(buffer.backing[buffer.byteOffset]))
    else Err(RangeError)
  }

  /** The byte a device sends for a given pair of flags. */
  function ToByte(r: SystemStatusResponse): (b: Byte)
    ensures b & 0xFC == 0
  {
    (if r.portStatus == PortOn then 0x02 else 0x00) | (if r.buckStatus == BuckOn then 0x01 else 0x00)
  }

  /** Decoding the byte for a pair of flags gives back that pair. */
  lemma DecodeEncode(r: SystemStatusResponse)
    ensures FromByte(ToByte(r)) == r
  {
    var b := ToByte(r);
    if r.portStatus == PortOn {
      assert b & 0x02 != 0;
    } else {
      assert r.portStatus == PortOff;
      assert b & 0x02 == 0;
    }
    if r.buckStatus == BuckOn {
      assert b & 0x01 != 0;
    } else {
      assert r.buckStatus == BuckOff;
      assert b & 0x01 == 0;
    }
  }

  /** Encoding a decoded byte keeps exactly its two low bits. */
  lemma EncodeDecode(b: Byte)
    ensures ToByte(FromByte(b)) == b & 0x03
  {
  }

  /** Bits outside 0x03 are ignored. */
  lemma IgnoresHighBits(b: Byte)
    ensures FromByte(b) == FromByte(b & 0x03)
  {
  }

  /** The four flag combinations. */
  lemma KnownBytes()
    ensures FromByte(0x03) == SystemStatusResponse(PortOn, BuckOn)
    ensures FromByte(0x02) == SystemStatusResponse(PortOn, BuckOff)
    ensures FromByte(0x01) == SystemStatusResponse(PortOff, BuckOn)
    ensures FromByte(0x00) == SystemStatusResponse(PortOff, BuckOff)
  {
  }

  /** Only the byte at `byteOffset` matters: two buffers agreeing on it decode alike. */
  lemma ReadsOnlyOffsetByte(b1: Buffer, b2: Buffer)
    requires b1.byteOffset < |b1.backing| && b2.byteOffset < |b2.backing|
    requires b1.backing[b1.byteOffset] == b2.backing[b2.byteOffset]
    ensures FromBuffer(b1) == FromBuffer(b2)
  {
  }

  /** The view's own length is never consulted: an empty Buffer over a pooled
      backing store still decodes the pool byte at its offset. */
  lemma EmptyViewStillDecodes()
    ensures FromBuffer(Buffer([0x00, 0x03], 1, 0)) == Ok(SystemStatusResponse(PortOn, BuckOn))
  {
  }
}
