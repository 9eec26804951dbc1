/**
 * The capture supervisor: the request handlers' transitions of the
 * process-wide `AppState`, run one at a time (the locks are not modelled),
 * and the pure mapping of devices to interface records.
 */
module Handlers {
  import opened Wrappers
  import opened Stats
  import opened Devices
  import opened Packets

  /** One address of an interface record. */
  datatype InterfaceAddress = InterfaceAddress(address: string, netmask: Option<string>, broadcast: Option<string>)

  /** The record `get_interfaces` reports for one device. */
  datatype NetworkInterface = NetworkInterface(
    name: string,
    description: Option<string>,
    addresses: seq<InterfaceAddress>,
    isUp: bool,
    isRunning: bool,
    isWireless: bool)

  /** What `get_capture_status` reports. */
  datatype CaptureStatus = CaptureStatus(isActive: bool, currentDevice: Option<string>)

  /** What `get_stats` reports; the duration stays in whole clock ticks. */
  datatype StatsResponse = StatsResponse(packetsReceived: nat, bytesReceived: nat, duration: nat)

  /** The failures the control handlers report (their messages are not modelled). */
  datatype HandlerError =
    | DefaultDeviceError(cause: PcapError)
    | StartError(cause: PcapError)
    | ListError(cause: PcapError)
    | DeviceNotFound(name: string)

  function ToInterfaceAddress(a: Address): (r: InterfaceAddress)
    ensures r.address == a.addr && r.netmask == a.netmask && r.broadcast == a.broadcastAddr
  {
    InterfaceAddress(a.addr, a.netmask, a.broadcastAddr)
  }

  /** A device's record: its fields copied, one address record per address, in order. */
  function ToInterface(d: Device): (r: NetworkInterface)
    ensures r.name == d.name && r.description == d.desc
    ensures |r.addresses| == |d.addresses|
    ensures forall k :: 0 <= k < |d.addresses| ==>
              r.addresses[k].address == d.addresses[k].addr &&
              r.addresses[k].netmask == d.addresses[k].netmask &&
              r.addresses[k].broadcast == d.addresses[k].broadcastAddr
    ensures r.isUp == d.flags.isUp && r.isRunning == d.flags.isRunning && r.isWireless == d.flags.isWireless
  {
    var addresses := seq(|d.addresses|, k requires 0 <= k < |d.addresses| => ToInterfaceAddress(d.addresses[k]));
    NetworkInterface(d.name, d.desc, addresses, d.flags.isUp, d.flags.isRunning, d.flags.isWireless)
  }

  /**
   * `get_interfaces`, given the result of listing the devices: one record per
   * device in listing order, and an empty list when listing fails.
   */
  function GetInterfaces(listing: Result<seq<Device>, PcapError>): (r: seq<NetworkInterface>)
    ensures listing.Err? ==> r == []
    ensures listing.Ok? ==> |r| == |listing.value|
    ensures listing.Ok? ==> forall i :: 0 <= i < |r| ==> r[i] == ToInterface(listing.value[i])
  {
    match listing
    case Err(_) => []
    case Ok(devices) => seq(|devices|, i requires 0 <= i < |devices| => ToInterface(devices[i]))
  }

  /** The first device whose name is exactly `name`, if there is one. */
  function FindByName(devices: seq<Device>, name: string): (r: Option<Device>)
    ensures r.None? <==> forall i :: 0 <= i < |devices| ==> devices[i].name != name
    ensures r.Some? ==> exists i :: 0 <= i < |devices| && devices[i] == r.value && r.value.name == name &&
                          forall j :: 0 <= j < i ==> devices[j].name != name
  {
    if devices == [] then None
    else if devices[0].name == name then Some(devices[0])
    else
      var r := FindByName(devices[1..], name);
      assert forall i :: 1 <= i < |devices| ==> devices[i] == devices[1..][i - 1];
      r
  }

  /** Every name `get_interfaces` lists is found by `select_device`'s lookup over the same listing. */
  lemma ListedNamesAreSelectable(devices: seq<Device>, i: nat)
    requires i < |devices|
    ensures FindByName(devices, GetInterfaces(Ok(devices))[i].name).Some?
  {
  }

  /** The sizes of the packets, as the consumer task passes them to `update`. */
  function Sizes(packets: seq<seq<byte>>): (r: seq<nat>)
    ensures |r| == |packets|
    ensures forall i :: 0 <= i < |packets| ==> r[i] == |packets[i]|
  {
    seq(|packets|, i requires 0 <= i < |packets| => |packets[i]|)
  }

  /** Reordering the packets reorders their sizes. */
  lemma {:induction false} SizesOfPermutation(ps: seq<seq<byte>>, qs: seq<seq<byte>>)
    requires multiset(ps) == multiset(qs)
    ensures multiset(Sizes(ps)) == multiset(Sizes(qs))
  {
    if ps == [] {
      assert |qs| == |multiset(qs)| == 0;
      assert Sizes(qs) == [];
    } else {
      var p := ps[0];
      assert p in multiset(qs) by {
        assert p in ps;
      }
      var j :| 0 <= j < |qs| && qs[j] == p;
      var rest := qs[..j] + qs[j+1..];
      MultisetRemove(qs, j);
      assert multiset(ps[1..]) == multiset(rest) by {
        assert ps == [p] + ps[1..];
        assert multiset(ps) == multiset{p} + multiset(ps[1..]);
        forall e ensures multiset(ps[1..])[e] == multiset(rest)[e] {
          assert (multiset{p} + multiset(ps[1..]))[e] == (multiset{p} + multiset(rest))[e];
        }
      }
      SizesOfPermutation(ps[1..], rest);
      MultisetRemove(Sizes(qs), j);
      assert Sizes(rest) == Sizes(qs)[..j] + Sizes(qs)[j+1..];
      assert Sizes(ps) == [|p|] + Sizes(ps[1..]);
    }
  }

  /**
   * The bytes the consumer records do not depend on the order in which the
   * packets arrive: the same packets in any order give the same total.
   */
  lemma ReorderedPacketsSameBytes(ps: seq<seq<byte>>, qs: seq<seq<byte>>)
    requires multiset(ps) == multiset(qs)
    ensures Sum(Sizes(ps)) == Sum(Sizes(qs))
  {
    SizesOfPermutation(ps, qs);
    SumOfPermutation(Sizes(ps), Sizes(qs));
  }

  /**
   * The task `start_capture` spawns: every packet taken from the channel is
   * recorded, its size stamped with its clock reading.
   */
  method ConsumePackets(stats: NetworkStats, packets: seq<seq<byte>>, clock: seq<nat>)
    requires stats.Valid()
    requires |clock| == |packets| && ClockFrom(stats.lastUpdate, clock)
    requires stats.packetsReceived + |packets| <= U64_MAX
    requires stats.bytesReceived + Sum(Sizes(packets)) <= U64_MAX
    modifies stats
    ensures stats.Valid()
    ensures stats.packetsReceived == old(stats.packetsReceived) + |packets|
    ensures stats.bytesReceived == old(stats.bytesReceived) + Sum(Sizes(packets))
    ensures stats.startTime == old(stats.startTime)
    ensures stats.lastUpdate == if clock == [] then old(stats.lastUpdate) else clock[|clock| - 1]
  {
    var sizes := Sizes(packets);
    var i := 0;
    while i < |packets|
      invariant 0 <= i <= |packets|
      invariant stats.Valid()
      invariant stats.startTime == old(stats.startTime)
      invariant stats.packetsReceived + (|packets| - i) == old(stats.packetsReceived) + |packets|
      invariant stats.bytesReceived + Sum(sizes[i..]) == old(stats.bytesReceived) + Sum(sizes)
      invariant stats.lastUpdate == if i == 0 then old(stats.lastUpdate) else clock[i - 1]
    {
      assert sizes[i..][1..] == sizes[i + 1..];
      stats.Update(|packets[i]|, clock[i]);
      i := i + 1;
    }
  }

  class AppState {
    var captureActive: bool
    var capture: Option<PacketCapture>
    /** The shared counter the handlers read and reset. */
    const stats: NetworkStats

    /** The session in the capture slot, as a set of objects. */
    ghost function Session(): set<PacketCapture>
      reads this
    {
      if capture.Some? then {capture.value} else {}
    }

    ghost predicate Valid()
      reads this, stats, Session()
    {
      stats.Valid() && (capture.Some? ==> capture.value.Valid())
    }

    /** `AppState::default`: inactive, an empty slot, and a fresh counter from readings `t0 <= t1`. */
    constructor (t0: nat, t1: nat)
      requires t0 <= t1
      ensures Valid()
      ensures !captureActive && capture == None
      ensures fresh(stats) && stats.GetStats() == StatsSnapshot(0, 0, t1 - t0)
    {
      captureActive := false;
      capture := None;
      stats := new NetworkStats(t0, t1);
    }

    /**
     * `start_capture`: `lookup` is the default-device lookup, `openError` the
     * outcome of opening that device. A success installs the new running
     * session and sets the flag; a session already in the slot is NOT stopped
     * first, and the counter is not touched.
     */
    method StartCapture(lookup: Result<Option<Device>, PcapError>, openError: Option<PcapError>)
      returns (r: Result<(), HandlerError>)
      requires Valid()
      modifies this
      ensures Valid() && unchanged(stats)
      ensures old(capture).Some? ==> unchanged(old(capture).value)
      ensures GetDefaultDevice(lookup).Err? ==>
                r == Err(DefaultDeviceError(GetDefaultDevice(lookup).error)) && unchanged(this)
      ensures GetDefaultDevice(lookup).Ok? && openError.Some? ==>
                r == Err(StartError(openError.value)) && unchanged(this)
      ensures GetDefaultDevice(lookup).Ok? && openError.None? ==>
                && r == Ok(())
                && captureActive
                && capture.Some? && fresh(capture.value)
                && capture.value.running
                && capture.value.capture == Some(OpenedOn(GetDefaultDevice(lookup).value))
    {
      var device := GetDefaultDevice(lookup);
      if device.Err? {
        return Err(DefaultDeviceError(device.error));
      }
      var session := new PacketCapture();
      var started := session.StartCapture(device.value, openError);
      if started.Err? {
        return Err(StartError(started.error));
      }
      capture := Some(session);
      captureActive := true;
      return Ok(());
    }

    /**
     * `stop_capture`: clears the flag and nothing else; the session in the
     * slot keeps running. Doing it twice is doing it once.
     */
    method StopCapture()
      requires Valid()
      modifies this
      ensures Valid()
      ensures !captureActive
      ensures capture == old(capture)
      ensures old(capture).Some? ==> unchanged(old(capture).value)
      ensures unchanged(stats)
    {
      captureActive := false;
    }

    /**
     * `select_device`: `listing` is the device list, `openError` the outcome of
     * opening the found device. When a device of that name exists, the session
     * in the slot is stopped first; if the new open then fails, the stopped
     * session stays in the slot and the flag keeps its value.
     */
    method SelectDevice(name: string, listing: Result<seq<Device>, PcapError>, openError: Option<PcapError>)
      returns (r: Result<(), HandlerError>)
      requires Valid()
      modifies this, Session()
      ensures Valid() && unchanged(stats)
      ensures listing.Err? ==>
                r == Err(ListError(listing.error)) && unchanged(this) &&
                (old(capture).Some? ==> unchanged(old(capture).value))
      ensures listing.Ok? && FindByName(listing.value, name).None? ==>
                r == Err(DeviceNotFound(name)) && unchanged(this) &&
                (old(capture).Some? ==> unchanged(old(capture).value))
      ensures listing.Ok? && FindByName(listing.value, name).Some? && old(capture).Some? ==>
                !old(capture).value.running && old(capture).value.capture.None?
      ensures listing.Ok? && FindByName(listing.value, name).Some? && openError.Some? ==>
                && r == Err(StartError(openError.value))
                && capture == old(capture)
                && captureActive == old(captureActive)
      ensures listing.Ok? && FindByName(listing.value, name).Some? && openError.None? ==>
                && r == Ok(())
                && captureActive
                && capture.Some? && fresh(capture.value)
                && capture.value.running
                && capture.value.capture == Some(OpenedOn(FindByName(listing.value, name).value))
    {
      if listing.Err? {
        return Err(ListError(listing.error));
      }
      var selected := FindByName(listing.value, name);
      if selected.None? {
        return Err(DeviceNotFound(name));
      }
      if capture.Some? {
        capture.value.StopCapture();
      }
      var session := new PacketCapture();
      var started := session.StartCapture(selected.value, openError);
      if started.Err? {
        return Err(StartError(started.error));
      }
      capture := Some(session);
      captureActive := true;
      return Ok(());
    }

    /** `get_capture_status`: the flag, and never a device name. */
    function GetCaptureStatus(): (s: CaptureStatus)
      reads this
      ensures s.isActive == captureActive
      ensures s.currentDevice == None
    {
      CaptureStatus(captureActive, None)
    }

    /** `get_stats`: the counter's snapshot; the duration runs to the last update. */
    function GetStats(): (s: StatsResponse)
      reads this, stats
      ensures s.packetsReceived == stats.packetsReceived && s.bytesReceived == stats.bytesReceived
      ensures stats.startTime <= stats.lastUpdate ==> s.duration == stats.lastUpdate - stats.startTime
    {
      var snapshot := stats.GetStats();
      StatsResponse(snapshot.packets, snapshot.bytes, snapshot.elapsed)
    }

    /** `reset_stats`: the counter restarts from readings `t0 <= t1`; the capture state is untouched. */
    method ResetStats(t0: nat, t1: nat)
      requires Valid()
      requires t0 <= t1
      modifies stats
      ensures Valid()
      ensures stats.packetsReceived == 0 && stats.bytesReceived == 0
      ensures stats.startTime == t0 && stats.lastUpdate == t1
      ensures GetStats() == StatsResponse(0, 0, t1 - t0)
    {
      stats.Reset(t0, t1);
    }
  }

  /**
   * A run of the handlers on two devices: a switch closes the old session;
   * stopping twice clears only the flag; a switch whose open fails leaves
   * the flag set over a stopped session.
   */
  method SwitchScenario()
  {
    var flags := DeviceFlags(true, true, false);
    var eth0 := Device("eth0", None, [], flags);
    var wlan0 := Device("wlan0", None, [], flags);
    var devices := [eth0, wlan0];
    assert FindByName(devices, "wlan0") == Some(wlan0) by {
      assert devices[0].name != "wlan0" by { assert devices[0].name[0] == 'e'; }
    }

    var state := new AppState(0, 0);
    var r := state.StartCapture(Ok(Some(eth0)), None);
    var first := state.capture.value;
    assert r.Ok? && state.GetCaptureStatus() == CaptureStatus(true, None);

    r := state.SelectDevice("wlan0", Ok(devices), None);
    var second := state.capture.value;
    assert r.Ok? && state.GetCaptureStatus() == CaptureStatus(true, None);
    assert !first.running && second.capture == Some(OpenedOn(wlan0));

    state.StopCapture();
    state.StopCapture();
    assert !state.captureActive && state.capture == Some(second) && second.running;

    r := state.StartCapture(Ok(Some(eth0)), None);
    var third := state.capture.value;
    r := state.SelectDevice("wlan0", Ok(devices), Some(PcapError("busy")));
    assert r == Err(StartError(PcapError("busy")));
    assert state.captureActive && state.capture == Some(third) && !third.running;
  }
}
