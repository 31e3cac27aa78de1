/**
 * SwiftUSB.swift: request-type and recipient byte values, the bulk endpoint
 * bytes built from a recipient, the device-info conversion, and the `SwiftUSB`
 * connection class with its enumeration, open, info and bulk-transfer
 * operations over the native binding of module Bridge.
 */
module SwiftUSB {
  import opened Wrappers
  import opened Bridge

  /** `USBRequestType`: the "type" field, bits 6..5 of bmRequestType (USB 2.0, section 9.3.1, Table 9-2). */
  datatype USBRequestType = Standard | Class | Vendor | Reserved

  /** `USBRequestRecipient`: the "recipient" field, bits 4..0 of bmRequestType (USB 2.0, section 9.3.1, Table 9-2). */
  datatype USBRequestRecipient = Device | Interface | Endpoint | Other

  /** The raw `UInt8` value of a request type: only bits 6..5 may be set. */
  function RequestTypeByte(t: USBRequestType): (b: Byte)
    ensures b & 0x9F == 0
    ensures (b >> 5) as int == match t
      case Standard => 0
      case Class => 1
      case Vendor => 2
      case Reserved => 3
  {
    match t
    case Standard => 0x00
    case Class => 0x20
    case Vendor => 0x40
    case Reserved => 0x60
  }

  /** Swift's synthesized `USBRequestType(rawValue:)`: the inverse of RequestTypeByte, nil on any other byte. */
  function RequestTypeFromByte(b: Byte): (t: Option<USBRequestType>)
    ensures forall u :: t == Some(u) <==> RequestTypeByte(u) == b
  {
    if b == 0x00 then Some(Standard)
    else if b == 0x20 then Some(Class)
    else if b == 0x40 then Some(Vendor)
    else if b == 0x60 then Some(Reserved)
    else None
  }

  /** The raw `UInt8` value of a recipient: 0 to 3, so only bits 1..0 may be set. */
  function RecipientByte(r: USBRequestRecipient): (b: Byte)
    ensures b & 0xFC == 0
    ensures b as int == match r
      case Device => 0
      case Interface => 1
      case Endpoint => 2
      case Other => 3
  {
    match r
    case Device => 0x00
    case Interface => 0x01
    case Endpoint => 0x02
    case Other => 0x03
  }

  /** Swift's synthesized `USBRequestRecipient(rawValue:)`: the inverse of RecipientByte, nil on any other byte. */
  function RecipientFromByte(b: Byte): (r: Option<USBRequestRecipient>)
    ensures forall u :: r == Some(u) <==> RecipientByte(u) == b
  {
    if b == 0x00 then Some(Device)
    else if b == 0x01 then Some(Interface)
    else if b == 0x02 then Some(Endpoint)
    else if b == 0x03 then Some(Other)
    else None
  }

  /**
   * The endpoint byte SendBulkData passes to the transfer: the recipient's raw
   * value with the direction bit (bit 7 of bEndpointAddress, USB 2.0 section
   * 9.6.6) clear, i.e. host to device. The recipient value is used as the
   * endpoint number unchanged.
   */
  function SendEndpoint(to: USBRequestRecipient): (e: Byte)
    ensures e & 0x80 == 0
    ensures e & 0x7F == RecipientByte(to)
    ensures e <= 3
  {
    RecipientByte(to)
  }

  /** The endpoint byte GetBulkData passes to the transfer: the recipient's raw value with bit 7 set (device to host). */
  function ReceiveEndpoint(from: USBRequestRecipient): (e: Byte)
    ensures e & 0x80 == 0x80
    ensures e & 0x7F == RecipientByte(from)
  {
    RecipientByte(from) | 0x80
  }

  /** Decodes an endpoint byte back into its direction (true for IN) and its recipient, if it names one. */
  function DecodeEndpoint(e: Byte): (d: Option<(bool, USBRequestRecipient)>)
  {
    match RecipientFromByte(e & 0x7F)
    case None => None
    case Some(r) => Some((e & 0x80 != 0, r))
  }

  /** Both endpoint encodings decode back to their direction and recipient. */
  lemma EndpointRoundTrip(r: USBRequestRecipient)
    ensures DecodeEndpoint(SendEndpoint(r)) == Some((false, r))
    ensures DecodeEndpoint(ReceiveEndpoint(r)) == Some((true, r))
  {
  }

  /** The four recipients in the two directions give eight pairwise-distinct endpoint bytes. */
  lemma EndpointsDistinct(a: USBRequestRecipient, b: USBRequestRecipient)
    ensures SendEndpoint(a) != ReceiveEndpoint(b)
    ensures SendEndpoint(a) == SendEndpoint(b) <==> a == b
    ensures ReceiveEndpoint(a) == ReceiveEndpoint(b) <==> a == b
  {
  }

  /** `SwiftUSBDeviceInfo`: the Swift-side, immutable copy of a device's identifiers and strings. */
  datatype SwiftUSBDeviceInfo = SwiftUSBDeviceInfo(
    vendorID: Int16,
    productID: Int16,
    manufacturer: Option<string>,
    product: Option<string>,
    serialNumber: Option<string>)

  /**
   * `SwiftUSBDeviceInfo.init(fromInfo:)`: copies the identifiers, and each
   * string is nil exactly when the native one is nil and otherwise the same
   * string; nothing is lost and no empty string is substituted.
   */
  function FromInfo(info: USBDeviceInfo): (d: SwiftUSBDeviceInfo)
    ensures d.vendorID == info.vendorID && d.productID == info.productID
    ensures d.manufacturer.None? <==> info.manufacturer.None?
    ensures info.manufacturer.Some? ==> d.manufacturer.value == info.manufacturer.value
    ensures d.product.None? <==> info.product.None?
    ensures info.product.Some? ==> d.product.value == info.product.value
    ensures d.serialNumber.None? <==> info.serialNumber.None?
    ensures info.serialNumber.Some? ==> d.serialNumber.value == info.serialNumber.value
  {
    SwiftUSBDeviceInfo(
      info.vendorID,
      info.productID,
      if info.manufacturer.None? then None else info.manufacturer,
      if info.product.None? then None else info.product,
      if info.serialNumber.None? then None else info.serialNumber)
  }

  /** `SwiftUSB`: one connection to an opened device. */
  class SwiftUSB {
    const device: USBDeviceHandle

    constructor (device: USBDeviceHandle)
      ensures this.device == device
    {
      this.device := device;
    }

    /**
     * `ListAllDevices`: the driver's device list converted entry by entry, in
     * the driver's order; empty when the driver's count is zero or a negative
     * error code.
     */
    static method ListAllDevices(bridge: BridgeLibUSB) returns (devices: seq<SwiftUSBDeviceInfo>)
      ensures bridge.DeviceCount() <= 0 ==> devices == []
      ensures bridge.DeviceCount() > 0 ==> |devices| == bridge.DeviceCount()
      ensures bridge.DeviceCount() > 0 ==>
        forall i :: 0 <= i < |devices| ==> devices[i] == FromInfo(bridge.DeviceEntries()[i])
    {
      var count, list := bridge.GetDeviceList();
      if count > 0 {
        var returnArray: seq<SwiftUSBDeviceInfo> := [];
        for i := 0 to count
          invariant |returnArray| == i
          invariant forall j :: 0 <= j < i ==> returnArray[j] == FromInfo(list[j])
        {
          returnArray := returnArray + [FromInfo(list[i])];
        }
        devices := returnArray;
        return;
      }
      devices := [];
    }

    /**
     * `OpenDevice`: exactly one open through the driver, for these
     * identifiers; a new connection holding the driver's new handle, on an
     * attached device, exactly when the driver returns one, nil otherwise. A
     * fresh handle means no two connections ever share one.
     */
    static method OpenDevice(bridge: BridgeLibUSB, vendorID: Int16, productID: Int16)
      returns (connection: SwiftUSB?)
      modifies bridge
      ensures bridge.transfers == old(bridge.transfers)
      ensures |bridge.opens| == |old(bridge.opens)| + 1
      ensures bridge.opens[..|old(bridge.opens)|] == old(bridge.opens)
      ensures var call := bridge.opens[|bridge.opens| - 1];
        call.vendor == vendorID && call.product == productID &&
        (connection != null <==> call.handle != null) &&
        (connection != null ==> fresh(connection) && connection.device == call.handle)
      ensures connection != null ==> fresh(connection.device)
      ensures connection != null ==>
        connection.device.descriptor.vendorID == vendorID &&
        connection.device.descriptor.productID == productID
      ensures connection != null ==>
        exists i :: 0 <= i < |old(bridge.bus)| && old(bridge.bus)[i] == connection.device.descriptor
    {
      var device := bridge.OpenDeviceWithVidPid(vendorID, productID);
      if device != null {
        connection := new SwiftUSB(device);
        return;
      }
      connection := null;
    }

    /**
     * `GetDeviceInfo`: the conversion of the driver's descriptor for this
     * connection's device, or nil exactly when the driver has none.
     */
    method GetDeviceInfo(bridge: BridgeLibUSB) returns (info: Option<SwiftUSBDeviceInfo>)
      ensures info == match bridge.Descriptor(device)
        case None => None
        case Some(native) => Some(FromInfo(native))
      ensures info.Some? ==>
        info.value.vendorID == device.descriptor.vendorID &&
        info.value.productID == device.descriptor.productID
    {
      var deviceInfo := bridge.GetDeviceInfo(device);
      if deviceInfo.Some? {
        info := Some(FromInfo(deviceInfo.value));
        return;
      }
      info := None;
    }

    /**
     * `SendBulkData`: exactly one transfer, on this connection's handle, to the
     * OUT endpoint of `to`, with a buffer holding exactly the payload, length
     * the payload's size and timeout 5; its status and count are discarded.
     */
    method SendBulkData(bridge: BridgeLibUSB, to: USBRequestRecipient, data: seq<Byte>)
      requires |data| <= INT32_MAX
      modifies bridge
      ensures bridge.opens == old(bridge.opens)
      ensures |bridge.transfers| == |old(bridge.transfers)| + 1
      ensures bridge.transfers[..|old(bridge.transfers)|] == old(bridge.transfers)
      ensures var call := bridge.transfers[|bridge.transfers| - 1];
        call.handle == device && call.endpoint == SendEndpoint(to) &&
        call.before == data && call.length == |data| && call.timeout == 5
    {
      var endpoint: Byte := SendEndpoint(to);

      var ptr := new Byte[|data|];
      forall i | 0 <= i < |data| {
        ptr[i] := data[i];
      }

      var length := |data|;
      var _, actualBytesSent := bridge.BulkTransfer(device, endpoint, ptr, length, 5);
    }

    /**
     * `GetBulkData`: exactly one transfer, on this connection's handle, from
     * the IN endpoint of `from`, into a buffer of `maxLength` bytes with the
     * given timeout. The result is never nil: it is the first `actual` bytes
     * the transfer left in the buffer, so at most `maxLength` bytes, whatever
     * status the transfer reports.
     */
    method GetBulkData(bridge: BridgeLibUSB, from: USBRequestRecipient, maxLength: int, timeout: int := 5)
      returns (result: Option<seq<Byte>>)
      requires 0 <= maxLength <= INT32_MAX
      requires 0 <= timeout <= UINT32_MAX
      modifies bridge
      ensures result.Some?
      ensures |result.value| <= maxLength
      ensures bridge.opens == old(bridge.opens)
      ensures |bridge.transfers| == |old(bridge.transfers)| + 1
      ensures bridge.transfers[..|old(bridge.transfers)|] == old(bridge.transfers)
      ensures var call := bridge.transfers[|bridge.transfers| - 1];
        call.Valid() &&
        call.handle == device && call.endpoint == ReceiveEndpoint(from) &&
        call.length == maxLength && call.timeout == timeout &&
        |call.after| == maxLength && result.value == call.after[..call.actual]
    {
      var endpoint: Byte := ReceiveEndpoint(from);

      var ptr := new Byte[maxLength];

      var length := maxLength;
      var _, actualBytesRead := bridge.BulkTransfer(device, endpoint, ptr, length, timeout);

      var data := ptr[..actualBytesRead];
      result := Some(data);
    }
  }
}
