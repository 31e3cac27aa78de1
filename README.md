# SwiftUSB, modelled in Dafny

SwiftUSB is a thin Swift layer over libusb. It lists the attached USB devices, opens a device by vendor and product identifier, reads the device's descriptor strings, and sends and receives bulk data. This project models that layer's own logic and proves what it promises. libusb and the Objective-C binding `BridgeLibUSB` stay behind an interface with contracts.

- `wrappers.dfy` (module `Wrappers`): `Option`, standing for Swift's `Optional` and Objective-C's nullable pointers.
- `bridge.dfy` (module `Bridge`): the native side, from `BridgeLibUSB.h`.
  - `USBDeviceInfo` is the native descriptor.
  - `USBDeviceHandle` is an opened device.
  - Class `BridgeLibUSB` holds four of the five wrapped calls the Swift layer makes (`libusb_init` is left out). Each call carries the contract the Swift layer relies on.
  - The driver's answers to a device-list request and to a descriptor request are given by query functions of its current state: `DeviceCount`, `DeviceEntries` and `Descriptor`. That state is mutable: the attached devices, a pending device-list error code, and the set of handles whose descriptor cannot be read. So these answers may change across an open or a bulk transfer, the calls that modify the driver, and a descriptor read may fail.
  - The bodies are stubs over that state. They are one behaviour the contracts allow, and only the contracts matter to module `SwiftUSB`.
  - Every open is recorded in the ghost sequence `opens`, with the identifiers asked for and the handle or nil returned.
  - Every bulk transfer is recorded in the ghost sequence `transfers`. Each entry holds the handle, endpoint byte, length, timeout, the buffer before and after the call, the status and the reported byte count. This lets the send and receive operations say exactly what they passed to the driver and what they did with its answer.
- `swiftusb.dfy` (module `SwiftUSB`): everything in `SwiftUSB.swift`.
  - The two raw-valued enums, and Swift's synthesized `init?(rawValue:)` as their inverses.
  - The endpoint bytes used for OUT and IN bulk transfers.
  - `SwiftUSBDeviceInfo` and its conversion from the native descriptor.
  - Class `SwiftUSB`. It has the immutable `device` handle field, the static `ListAllDevices` and `OpenDevice`, and the instance methods `GetDeviceInfo`, `SendBulkData` and `GetBulkData`.

The driver is a global in the Swift code. Here it is passed to each operation as the `bridge` parameter. The contracts of the Swift operations are stated in terms of the bridge's query functions and its `opens` and `transfers` records.

Some behaviour of the code, as modelled:
- The bulk endpoint byte is the recipient's raw value (0 to 3). For IN, bit 7 (`0x80`) is also set. The recipient value doubles as the endpoint number, and the model keeps that.
- `GetBulkData` never returns nil, although its doc comment says it returns nil on failure or timeout. It returns the first `actual` bytes the transfer reported, whatever the transfer's status. An error or a timeout therefore shows up as a short or empty result.
- `GetBulkData` accepts `maxLength` 0, which gives an empty buffer and an empty result.
- `ListAllDevices` treats a negative driver count, which is a libusb error code, like zero devices.

## Model

| member | source | states |
|---|---|---|
| `SwiftUSB.RequestTypeByte` | SwiftUSB/SwiftUSB.swift:11-20 | The raw value of a request type has only bits 6..5 set, and those bits hold 0, 1, 2, 3 for Standard, Class, Vendor, Reserved (the bmRequestType type field of USB 2.0 section 9.3.1) |
| `SwiftUSB.RequestTypeFromByte` | SwiftUSB/SwiftUSB.swift:11-20 | `USBRequestType(rawValue:)` gives a case exactly when that case's raw value is the byte, and nil for every other byte, so raw values are injective |
| `SwiftUSB.RecipientByte` | SwiftUSB/SwiftUSB.swift:23-32 | The raw value of a recipient is 0, 1, 2, 3 for Device, Interface, Endpoint, Other, with no bit above bit 1 set (the bmRequestType recipient field of USB 2.0 section 9.3.1) |
| `SwiftUSB.RecipientFromByte` | SwiftUSB/SwiftUSB.swift:23-32 | `USBRequestRecipient(rawValue:)` gives a case exactly when that case's raw value is the byte, and nil otherwise |
| `SwiftUSB.SendEndpoint` | SwiftUSB/SwiftUSB.swift:137 | The OUT endpoint byte has the direction bit 7 clear, its low seven bits are the recipient's raw value, and it is at most 3 |
| `SwiftUSB.ReceiveEndpoint` | SwiftUSB/SwiftUSB.swift:160 | The IN endpoint byte has bit 7 set, and masking with `0x7F` recovers the recipient's raw value |
| `SwiftUSB.EndpointRoundTrip` | SwiftUSB/SwiftUSB.swift:135-160 | Decoding either endpoint byte gives back its direction and its recipient |
| `SwiftUSB.EndpointsDistinct` | SwiftUSB/SwiftUSB.swift:135-160 | The four recipients in the two directions give eight pairwise-distinct endpoint bytes |
| `SwiftUSB.FromInfo` | SwiftUSB/SwiftUSB.swift:47-68 | Vendor and product IDs are copied exactly. Each of manufacturer, product and serial number is nil exactly when the native field is nil, and otherwise is the same string |
| `SwiftUSB.SwiftUSB.constructor` | SwiftUSB/SwiftUSB.swift:115-119 | A connection holds the handle it was created with |
| `SwiftUSB.SwiftUSB.ListAllDevices` | SwiftUSB/SwiftUSB.swift:78-96 | A driver count (`DeviceCount`) of zero or below, including negative error codes, gives an empty list. A positive count gives exactly that many devices, and element i is the conversion of the driver's entry i, in driver order |
| `SwiftUSB.SwiftUSB.OpenDevice` | SwiftUSB/SwiftUSB.swift:104-113 | Exactly one open is made through the driver, for the requested IDs, and no transfer. A new connection is returned exactly when that open returned a handle. It holds that handle, which is new, so no two connections share a handle, and which is on a device attached before the call with the requested IDs. Otherwise the result is nil |
| `SwiftUSB.SwiftUSB.GetDeviceInfo` | SwiftUSB/SwiftUSB.swift:124-129 | The result is nil exactly when the driver's descriptor for the connection's handle (`Descriptor`) is nil; otherwise it is that descriptor converted by `FromInfo`, so it carries the opened device's IDs |
| `SwiftUSB.SwiftUSB.SendBulkData` | SwiftUSB/SwiftUSB.swift:135-150 | Exactly one transfer and no open is made, on the connection's handle, to the OUT endpoint of the recipient, with a buffer holding exactly the payload bytes, length equal to the payload size and timeout 5. Nothing from it is returned |
| `SwiftUSB.SwiftUSB.GetBulkData` | SwiftUSB/SwiftUSB.swift:158-178 | Exactly one transfer and no open is made, on the connection's handle, from the IN endpoint of the recipient, into a `maxLength`-byte buffer with the given timeout (default 5). The result is never nil. It is the first `actual` bytes the transfer left in the buffer, so at most `maxLength` bytes |
| `Bridge.USBDeviceHandle.constructor` | SwiftUSB/BridgeLibUSB.h:13-20 | A handle records the descriptor of the device it was opened on |
| `Bridge.BridgeLibUSB.DeviceCount` | SwiftUSB/BridgeLibUSB.h:38 | The count the driver answers with is a C `int`. When it is positive, the list it fills (`DeviceEntries`) has at least that many entries |
| `Bridge.BridgeLibUSB.GetDeviceList` | SwiftUSB/BridgeLibUSB.h:38 | The call returns the driver's current count and filled list, `DeviceCount()` and `DeviceEntries()` |
| `Bridge.BridgeLibUSB.OpenDeviceWithVidPid` | SwiftUSB/BridgeLibUSB.h:39 | The driver returns nil or a new handle on an attached device with the requested vendor and product IDs, and the call is appended to the open record. The transfer record is unchanged |
| `Bridge.BridgeLibUSB.Descriptor` | SwiftUSB/BridgeLibUSB.h:43 | The descriptor the driver answers with for a handle is nil, or carries the handle's vendor and product IDs |
| `Bridge.BridgeLibUSB.GetDeviceInfo` | SwiftUSB/BridgeLibUSB.h:43 | The call returns the driver's current descriptor for the handle, `Descriptor(handle)` |
| `Bridge.BridgeLibUSB.BulkTransfer` | SwiftUSB/BridgeLibUSB.h:40 | The reported byte count is between 0 and `length`, and the call is appended to the transfer record together with the buffer before and after it. The open record is unchanged |

## Left out

- The implementation of `BridgeLibUSB` and of libusb. It is not part of this model. The bridge is modelled only by the contracts above; its bodies are stubs, and the Swift layer relies only on the contracts.
- The lazy process-wide `libusb_init` (`lib_usb_initialize`). It is a once-only side effect on foreign state and has no effect on any result.
- Manual `allocate`/`deallocate` of the transfer buffers. Each buffer is a fresh local array that never escapes, and the receive result is a copied sequence.
- The traps of `Int32(...)`, `UInt32(...)` and `as!`. They become the preconditions `|data| <= INT32_MAX`, `0 <= maxLength <= INT32_MAX` and `0 <= timeout <= UINT32_MAX`, plus the driver's promise that a positive count does not exceed the list it fills.
- `USBDeviceHandle.dealloc` and closing the handle. This is native teardown that the Swift code never shows.
- Hardware I/O, timeout semantics and thread blocking. The timeout is only a number passed through to the driver.
- Echo or loopback behaviour of a device. What an IN transfer returns after an OUT transfer is up to the device, and the transfer contract does not constrain it.
- `USBRequestType` is used only for its raw values. The code never puts a request type into a transfer.
- SwiftUSBTests/SwiftUSBTests.swift. Its tests need a physical device and only print output; they assert nothing.
