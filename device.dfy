/**
 * The device catalogue (`DeviceManager`). The operating-system queries of the
 * pcap library (`Device::list`, `Device::lookup`) are not modelled: their
 * results are inputs of the operations that use them.
 */
module Devices {
  import opened Wrappers

  /** The message `get_default_device` reports when the system names no default device. */
  const NO_DEFAULT_DEVICE: string := "No default device found"

  /** The pcap library's error: its `PcapError(message)` variant, and any other kind. */
  datatype PcapError = PcapError(message: string) | OtherError(description: string)

  /** One address of an interface; addresses are kept in their textual form. */
  datatype Address = Address(
    addr: string,
    netmask: Option<string>,
    broadcastAddr: Option<string>,
    dstAddr: Option<string>)

  /** The interface flags, as the `is_up`, `is_running` and `is_wireless` queries report them. */
  datatype DeviceFlags = DeviceFlags(isUp: bool, isRunning: bool, isWireless: bool)

  /** A network interface as the pcap library describes it. */
  datatype Device = Device(
    name: string,
    desc: Option<string>,
    addresses: seq<Address>,
    flags: DeviceFlags)

  /**
   * `get_default_device`, given the result of the system lookup: a failed
   * lookup is passed on, a lookup that names no device becomes an error.
   */
  function GetDefaultDevice(lookup: Result<Option<Device>, PcapError>): (r: Result<Device, PcapError>)
    ensures r.Ok? <==> lookup.Ok? && lookup.value.Some?
    ensures r.Ok? ==> r.value == lookup.value.value
    ensures lookup.Err? ==> r == Err(lookup.error)
    ensures lookup == Ok(None) ==> r == Err(PcapError(NO_DEFAULT_DEVICE))
  {
    match lookup
    case Err(e) => Err(e)
    case Ok(None) => Err(PcapError(NO_DEFAULT_DEVICE))
    case Ok(Some(d)) => Ok(d)
  }

  /** A one-slot holder for the device the user picked. */
  class DeviceManager {
    var currentDevice: Option<Device>

    constructor ()
      ensures GetCurrentDevice() == None
    {
      currentDevice := None;
    }

    /** Any earlier selection is overwritten. */
    method SelectDevice(device: Device)
      modifies this
      ensures GetCurrentDevice() == Some(device)
    {
      currentDevice := Some(device);
    }

    function GetCurrentDevice(): (d: Option<Device>)
      reads this
      ensures d == currentDevice
    {
      currentDevice
    }
  }
}
