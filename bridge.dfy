/**
 * The native binding that the Swift layer calls (BridgeLibUSB.h).
 *
 * The binding's implementation and libusb itself are not part of this model.
 * Each member states the contract the Swift layer relies on. Its body is a
 * stub over a list of attached devices: one behaviour the contract allows,
 * and nothing else relies on it.
 */
module Bridge {
  import opened Wrappers

  type Byte = bv8

  const INT32_MIN: int := -0x8000_0000
  const INT32_MAX: int := 0x7FFF_FFFF
  const UINT32_MAX: int := 0xFFFF_FFFF

  /** `int16_t`, the type of the vendor and product identifiers. */
  newtype Int16 = x: int | -0x8000 <= x < 0x8000

  // libusb status codes returned by the stub bodies
  const LIBUSB_SUCCESS: int := 0
  const LIBUSB_ERROR_NO_MEM: int := -11

  /** `USBDeviceInfo`: the identifiers and the three nullable descriptor strings. */
  datatype USBDeviceInfo = USBDeviceInfo(
    vendorID: Int16,
    productID: Int16,
    manufacturer: Option<string>,
    product: Option<string>,
    serialNumber: Option<string>)

  /** `USBDeviceHandle`: an opened device; `descriptor` describes the device it was opened on. */
  class USBDeviceHandle {
    const descriptor: USBDeviceInfo

    constructor (descriptor: USBDeviceInfo)
      ensures this.descriptor == descriptor
    {
      this.descriptor := descriptor;
    }
  }

  /** One call of `libusb_open_device_with_vid:_pid:`: the identifiers asked for and the handle (or nil) returned. */
  datatype OpenCall = OpenCall(vendor: Int16, product: Int16, handle: USBDeviceHandle?)

  /** One call of `libusb_bulk_transfer` as the driver saw it: the buffer before and after the call. */
  datatype TransferCall = TransferCall(
    handle: USBDeviceHandle,
    endpoint: Byte,
    length: int,
    timeout: int,
    before: seq<Byte>,
    after: seq<Byte>,
    status: int,
    actual: int)
  {
    /** libusb's promise: the buffer keeps its size and at most `length` bytes are reported as moved. */
    predicate Valid() {
      0 <= actual <= length <= |before| == |after|
    }
  }

  /** The wrapped libusb entry points (`BridgeLibUSB`), except `libusb_init`, which is not part of this model. */
  class BridgeLibUSB {
    /** The attached devices, in enumeration order; devices may come and go between calls. */
    var bus: seq<USBDeviceInfo>
    /** A negative value is the error code the next device-list request fails with. */
    var listStatus: int
    /** Opened devices whose descriptor cannot currently be read. */
    var unreadable: set<USBDeviceHandle>
    /** Every open made through this binding, oldest first. */
    ghost var opens: seq<OpenCall>
    /** Every bulk transfer made through this binding, oldest first. */
    ghost var transfers: seq<TransferCall>

    constructor (bus: seq<USBDeviceInfo>)
      ensures this.bus == bus && listStatus == 0 && unreadable == {}
      ensures opens == [] && transfers == []
    {
      this.bus := bus;
      listStatus := 0;
      unreadable := {};
      opens := [];
      transfers := [];
    }

    /** The count `libusb_get_device_list:` answers with in the driver's current state: a C `int`, negative on error. */
    function DeviceCount(): (count: int)
      reads this
      ensures INT32_MIN <= count <= INT32_MAX
      ensures count > 0 ==> count <= |DeviceEntries()|
    {
      if INT32_MIN <= listStatus < 0 then listStatus
      else if |bus| <= INT32_MAX then |bus|
      else LIBUSB_ERROR_NO_MEM
    }

    /** The descriptors `libusb_get_device_list:` puts into its array in the driver's current state, in enumeration order. */
    function DeviceEntries(): seq<USBDeviceInfo>
      reads this
    {
      if INT32_MIN <= listStatus < 0 || |bus| > INT32_MAX then [] else bus
    }

    /** `libusb_get_device_list:`: the count (negative on error) and the filled array. */
    method GetDeviceList() returns (count: int, devices: seq<USBDeviceInfo>)
      ensures count == DeviceCount() && devices == DeviceEntries()
    {
      count, devices := DeviceCount(), DeviceEntries();
    }

    /**
     * `libusb_open_device_with_vid:_pid:`: a new handle on a device with these
     * identifiers, or nil; the call is appended to `opens`. The stub opens some
     * matching attached device.
     */
    method OpenDeviceWithVidPid(vendor: Int16, product: Int16) returns (handle: USBDeviceHandle?)
      modifies this
      ensures handle != null ==> fresh(handle)
      ensures handle != null ==>
        handle.descriptor.vendorID == vendor && handle.descriptor.productID == product
      ensures handle != null ==>
        exists i :: 0 <= i < |old(bus)| && old(bus)[i] == handle.descriptor
      ensures opens == old(opens) + [OpenCall(vendor, product, handle)]
      ensures transfers == old(transfers)
    {
      if i :| 0 <= i < |bus| && bus[i].vendorID == vendor && bus[i].productID == product {
        handle := new USBDeviceHandle(bus[i]);
      } else {
        handle := null;
      }
      opens := opens + [OpenCall(vendor, product, handle)];
    }

    /**
     * The descriptor `getDeviceInfo:` answers with for an opened device in the
     * driver's current state, or nil when it cannot be read; it carries the
     * identifiers of the device the handle was opened on.
     */
    function Descriptor(handle: USBDeviceHandle): (info: Option<USBDeviceInfo>)
      reads this
      ensures info.Some? ==>
        info.value.vendorID == handle.descriptor.vendorID &&
        info.value.productID == handle.descriptor.productID
    {
      if handle in unreadable then None else Some(handle.descriptor)
    }

    /** `getDeviceInfo:`: the descriptor of an opened device, or nil when it cannot be read. */
    method GetDeviceInfo(handle: USBDeviceHandle) returns (info: Option<USBDeviceInfo>)
      ensures info == Descriptor(handle)
    {
      info := if handle in unreadable then None else Some(handle.descriptor);
    }

    /**
     * `libusb_bulk_transfer:...`: moves at most `length` bytes through `data`
     * and reports the count in `actual`; the call is appended to `transfers`.
     * The stub reports every OUT byte as sent and no IN byte as received.
     */
    method BulkTransfer(handle: USBDeviceHandle, endpoint: Byte, data: array<Byte>, length: int, timeout: int)
      returns (status: int, actual: int)
      requires 0 <= length <= data.Length && length <= INT32_MAX
      requires 0 <= timeout <= UINT32_MAX
      modifies this, data
      ensures 0 <= actual <= length
      ensures opens == old(opens)
      ensures transfers == old(transfers) +
        [TransferCall(handle, endpoint, length, timeout, old(data[..]), data[..], status, actual)]
    {
      status := LIBUSB_SUCCESS;
      actual := if endpoint & 0x80 == 0 then length else 0;
      transfers := transfers +
        [TransferCall(handle, endpoint, length, timeout, data[..], data[..], status, actual)];
    }
  }
}
