/**
 * A capture session (`PacketCapture`): an optional open pcap handle and a
 * running flag. Opening a device, polling it and sending on the channel are
 * done by the pcap library and the async runtime; their outcomes are inputs.
 */
module Packets {
  import opened Wrappers
  import opened Devices

  newtype byte = x: int | 0 <= x < 256

  /** The settings `start_capture` opens every device with. */
  const PROMISC: bool := true
  const SNAPLEN: nat := 65535
  const TIMEOUT_MS: nat := 1000

  /** The error `capture_loop` reports when there is no open handle. */
  const NOT_INITIALIZED: string := "Capture not initialized"

  /** An active pcap handle, as a token of the device and the settings it was opened with. */
  datatype Handle = Handle(deviceName: string, promisc: bool, snaplen: nat, timeoutMs: nat)

  /** The handle `start_capture` obtains for `device` when opening succeeds. */
  function OpenedOn(device: Device): (h: Handle)
    ensures h.deviceName == device.name
    ensures h.promisc && h.snaplen == 65535 && h.timeoutMs == 1000
  {
    Handle(device.name, PROMISC, SNAPLEN, TIMEOUT_MS)
  }

  /**
   * One turn of the receive loop: either the poll failed, or it returned a
   * packet whose send on the channel was accepted or refused.
   */
  datatype Poll = Received(data: seq<byte>, accepted: bool) | Failed(error: PcapError)

  /** The data of every successful poll, in poll order. */
  function ReceivedData(polls: seq<Poll>): seq<seq<byte>>
  {
    if polls == [] then []
    else if polls[0].Received? then [polls[0].data] + ReceivedData(polls[1..])
    else ReceivedData(polls[1..])
  }

  /**
   * What reaches the channel: the data of the successful polls, in order,
   * up to the first refused send.
   */
  function Delivered(polls: seq<Poll>): seq<seq<byte>>
  {
    if polls == [] then []
    else match polls[0]
      case Failed(_) => Delivered(polls[1..])
      case Received(data, accepted) => if accepted then [data] + Delivered(polls[1..]) else []
  }

  /** The index of the first poll whose send was refused, or `|polls|` if there is none. */
  function FirstRefused(polls: seq<Poll>): (k: nat)
    ensures k <= |polls|
    ensures k < |polls| ==> polls[k].Received? && !polls[k].accepted
    ensures forall i :: 0 <= i < k ==> !(polls[i].Received? && !polls[i].accepted)
  {
    if polls == [] then 0
    else if polls[0].Received? && !polls[0].accepted then 0
    else
      var k := FirstRefused(polls[1..]);
      assert forall i :: 1 <= i < |polls| ==> polls[i] == polls[1..][i - 1];
      k + 1
  }

  /**
   * What is delivered is exactly the data of the successful polls before the
   * first refused send; it is a prefix of all that is received, and all of it
   * when no send is refused.
   */
  lemma {:induction false} DeliveredIsPrefix(polls: seq<Poll>)
    ensures Delivered(polls) == ReceivedData(polls[..FirstRefused(polls)])
    ensures Delivered(polls) <= ReceivedData(polls)
    ensures (forall i :: 0 <= i < |polls| && polls[i].Received? ==> polls[i].accepted) ==>
              Delivered(polls) == ReceivedData(polls)
  {
    if polls != [] {
      DeliveredIsPrefix(polls[1..]);
      if !(polls[0].Received? && !polls[0].accepted) {
        assert polls[..FirstRefused(polls)][1..] == polls[1..][..FirstRefused(polls[1..])];
      } else {
        assert polls[..FirstRefused(polls)] == [];
      }
      if forall i :: 0 <= i < |polls| && polls[i].Received? ==> polls[i].accepted {
        assert forall i :: 0 <= i < |polls[1..]| && polls[1..][i].Received? ==> polls[1..][i].accepted by {
          forall i | 0 <= i < |polls[1..]| ensures polls[1..][i] == polls[i + 1] { }
        }
      }
    }
  }

  class PacketCapture {
    var capture: Option<Handle>
    var running: bool

    /** A session runs exactly when it holds a handle. */
    ghost predicate Valid()
      reads this
    {
      running <==> capture.Some?
    }

    constructor ()
      ensures capture == None && !running
      ensures Valid()
    {
      capture := None;
      running := false;
    }

    /**
     * `start_capture`: `openError` is the error opening `device` reported, if
     * any. The fields are assigned only after a successful open.
     */
    method StartCapture(device: Device, openError: Option<PcapError>) returns (r: Result<(), PcapError>)
      modifies this
      ensures r.Err? <==> openError.Some?
      ensures r.Err? ==> r.error == openError.value
      ensures r.Ok? ==> capture == Some(OpenedOn(device)) && running && Valid()
      ensures r.Err? ==> capture == old(capture) && running == old(running)
    {
      if openError.Some? {
        return Err(openError.value);
      }
      capture := Some(OpenedOn(device));
      running := true;
      return Ok(());
    }

    /** `stop_capture`: from any state, the session ends closed; doing it twice is doing it once. */
    method StopCapture()
      modifies this
      ensures !running && capture == None
      ensures Valid()
    {
      running := false;
      capture := None;
    }

    /**
     * `capture_loop`: forwards the data of each successful poll to the
     * channel until a send is refused. The loop changes no field of the
     * session; it ends here when the given polls run out.
     */
    method CaptureLoop(polls: seq<Poll>) returns (r: Result<(), string>, sent: seq<seq<byte>>)
      ensures capture.None? ==> r == Err(NOT_INITIALIZED) && sent == []
      ensures capture.Some? ==> r == Ok(())
      ensures capture.Some? && !running ==> sent == []
      ensures capture.Some? && running ==> sent == Delivered(polls)
    {
      if capture.None? {
        return Err(NOT_INITIALIZED), [];
      }
      sent := [];
      var i := 0;
      while running && i < |polls|
        invariant 0 <= i <= |polls|
        invariant !running ==> i == 0 && sent == []
        invariant sent + Delivered(polls[i..]) == Delivered(polls)
        decreases |polls| - i
      {
        assert polls[i..][1..] == polls[i + 1..];
        match polls[i] {
          case Received(data, accepted) =>
            if !accepted {
              break;
            }
            sent := sent + [data];
          case Failed(_) =>
        }
        i := i + 1;
      }
      r := Ok(());
    }
  }
}
