# Capture and statistics core of the nethai backend, in Dafny

The nethai backend is a live network-traffic monitor. Its core is a small state
machine built from four parts:

- **Statistics counter** (`NetworkStats`, module `Stats`). It counts packets and
  bytes, and it keeps a start timestamp and a last-update timestamp.
- **Capture session** (`PacketCapture`, module `Packets`). It holds an optional
  open pcap handle and a running flag. Its receive loop forwards each polled
  packet to a channel.
- **Device manager** (`DeviceManager`, module `Devices`). It holds a one-slot
  device selection and resolves the default device.
- **Capture supervisor** (module `Handlers`). These are the request handlers'
  transitions of the process-wide `AppState`: the `capture_active` flag, the
  capture slot and the shared counter. The module also holds the mapping from
  devices to interface records.

State that the Rust code updates in place is a Dafny class with `modifies`
clauses. Pure reads and mappings are functions.

The outside world is given to the model as inputs:

- A clock reading (`Instant::now()`) is a `nat` parameter. `new` and `reset` read
  the clock twice, so they take two readings `t0 <= t1`. `update` takes one
  reading, which is never earlier than the last update (the clock is monotonic).
- The pcap library's results are parameters:
  - the device list (`listing`);
  - the default-device lookup (`lookup`);
  - the error opening a device reported, if any (`openError`);
  - the loop's poll results, each with whether its send was accepted (`polls`).
- An open handle is a token. It records the device name and the three settings
  it was opened with: promiscuous, snaplen 65535, timeout 1000 ms.

Where the code may surprise a reader, the model keeps the code's behaviour:

- `start_capture` replaces the session in the slot without stopping it first.
- `get_capture_status` always reports no current device.
- `stop_capture` clears only the flag. The session in the slot keeps its handle
  and stays running.
- When `select_device` has already stopped the old session and the new open
  fails, the flag keeps its old value. If capture was active, the flag then says
  active over a stopped session. `Handlers.SwitchScenario` shows this sequence.
- The shown `AppState` has no `stats` field, but the handlers use one. The model
  adds one as `AppState.stats`.
- The counter is never updated while capturing. `start_capture` drops the
  channel's sender and never runs `capture_loop`. So the spawned consumer task,
  modelled as `Handlers.ConsumePackets`, receives nothing. `StartCapture` says
  `unchanged(stats)`.

## Model

| member | source | states |
|---|---|---|
| `Stats.NetworkStats.constructor` | nethai-backend/src/capture/stats.rs:11-18 | both counters start at 0; the timestamps are the two clock readings; `get_stats` then gives `(0, 0, t1 - t0)` |
| `Stats.NetworkStats.Update` | nethai-backend/src/capture/stats.rs:20-24 | packets go up by exactly 1 and bytes by exactly the packet size; `start_time` is unchanged; `last_update` becomes the clock reading; the counter invariant is kept |
| `Stats.NetworkStats.GetStats` | nethai-backend/src/capture/stats.rs:26-29 | a pure read that returns the two counters and the time from start to the LAST UPDATE (not to now); it saturates at 0 like `duration_since` |
| `Stats.NetworkStats.Reset` | nethai-backend/src/capture/stats.rs:31-36 | both counters become 0; the timestamps are restamped, with `last_update >= start_time`; a query right after gives `(0, 0, t1 - t0)`, which is 0 when the clock does not advance |
| `Stats.SumOfPermutation` | nethai-backend/src/capture/stats.rs:20-24 | the byte total depends only on the multiset of recorded sizes, so recording the same sizes in any order gives the same total |
| `Devices.GetDefaultDevice` | nethai-backend/src/capture/device.rs:19-23 | returns `Ok(d)` exactly when the lookup gave `Some(d)`; a lookup error is passed on unchanged; an empty lookup becomes `PcapError("No default device found")` |
| `Devices.DeviceManager.constructor` | nethai-backend/src/capture/device.rs:9-13 | a new manager has no current device |
| `Devices.DeviceManager.SelectDevice` | nethai-backend/src/capture/device.rs:25-27 | afterwards the current device is the one given, whatever was selected before |
| `Devices.DeviceManager.GetCurrentDevice` | nethai-backend/src/capture/device.rs:29-31 | a read-only view of the stored selection |
| `Packets.OpenedOn` | nethai-backend/src/capture/packet.rs:19-23 | the handle opened for a device is bound to that device's name, in promiscuous mode, with snaplen 65535 and a 1000 ms timeout |
| `Packets.PacketCapture.constructor` | nethai-backend/src/capture/packet.rs:11-16 | a new session has no handle and is not running |
| `Packets.PacketCapture.StartCapture` | nethai-backend/src/capture/packet.rs:18-28 | on success the session holds the handle for the device and is running; on failure it returns the open error and both fields are left as they were |
| `Packets.PacketCapture.StopCapture` | nethai-backend/src/capture/packet.rs:30-33 | from any state the session ends with no handle and not running; the end state does not depend on the prior state, so a second call changes nothing |
| `Packets.PacketCapture.CaptureLoop` | nethai-backend/src/capture/packet.rs:35-51 | with no handle it returns "Capture not initialized" and sends nothing; when not running it returns `Ok` and sends nothing; otherwise it sends exactly `Delivered(polls)` and returns `Ok`; it changes no field |
| `Packets.FirstRefused` | nethai-backend/src/capture/packet.rs:44-45 | the index of the first poll whose send was refused, or the number of polls if none was; no earlier poll was refused |
| `Packets.DeliveredIsPrefix` | nethai-backend/src/capture/packet.rs:41-48 | the sent data is exactly the data of the successful polls before the first refused send, in poll order; failed polls contribute nothing; so it is a prefix of everything received, and all of it when no send is refused |
| `Handlers.ToInterfaceAddress` | nethai-backend/src/api/handlers.rs:64-68 | an address record copies the address, the netmask and the broadcast address |
| `Handlers.ToInterface` | nethai-backend/src/api/handlers.rs:56-74 | an interface record copies the name, the description and the three flags, and has one address record per address, in order |
| `Handlers.GetInterfaces` | nethai-backend/src/api/handlers.rs:51-79 | one record per listed device, with the same length and order; an empty list when listing fails |
| `Handlers.FindByName` | nethai-backend/src/api/handlers.rs:169 | gives no device exactly when no name matches; otherwise gives a device with exactly that name, and no earlier device has that name |
| `Handlers.ListedNamesAreSelectable` | nethai-backend/src/api/handlers.rs:169 | every name that `get_interfaces` lists is found by `select_device`'s lookup over the same listing |
| `Handlers.Sizes` | nethai-backend/src/api/handlers.rs:108 | the size passed to `update` is the packet's length, one per packet, in order |
| `Handlers.SizesOfPermutation` | nethai-backend/src/api/handlers.rs:106-108 | the same packets in another order have the same sizes in another order |
| `Handlers.ReorderedPacketsSameBytes` | nethai-backend/src/api/handlers.rs:106-108 | the byte total the consumer records is the same for the same packets in any order |
| `Handlers.ConsumePackets` | nethai-backend/src/api/handlers.rs:105-110 | after the consumer records `k` packets, packets have grown by `k` and bytes by the sum of their sizes; `start_time` is unchanged; `last_update` is the last clock reading, so the elapsed time is never negative |
| `Handlers.AppState.constructor` | nethai-backend/src/main.rs:18-25 | the initial state is inactive, has an empty slot and a fresh zeroed counter |
| `Handlers.AppState.StartCapture` | nethai-backend/src/api/handlers.rs:83-118 | when the default lookup fails or the open fails, it returns the error and changes nothing; on success the slot holds a fresh running session on the default device and the flag is set; a previous session is not stopped; the counter is not touched |
| `Handlers.AppState.StopCapture` | nethai-backend/src/api/handlers.rs:121-125 | the flag becomes false; the slot and its session are not changed; the state invariant is kept; calling it again gives the same state |
| `Handlers.AppState.SelectDevice` | nethai-backend/src/api/handlers.rs:158-197 | when listing fails or no device has that exact name, it returns the error and changes nothing; otherwise the old session is stopped first; if the new open fails, the stopped session stays in the slot and the flag keeps its old value; on success a fresh running session on the first matching device is stored and the flag is set |
| `Handlers.AppState.GetCaptureStatus` | nethai-backend/src/api/handlers.rs:146-156 | a read-only status that reports `is_active = capture_active` and never a current device |
| `Handlers.AppState.GetStats` | nethai-backend/src/api/handlers.rs:127-137 | a read-only report of the counter's packets and bytes, and its duration from start to last update |
| `Handlers.AppState.ResetStats` | nethai-backend/src/api/handlers.rs:139-144 | the counter restarts at zero from the given clock readings; the state invariant is kept; the capture flag and slot are unchanged |

## Left out

- `DeviceManager::get_available_devices` (`Device::list`) and `Device::lookup` call the operating system through the pcap library. Their results are the `listing` and `lookup` inputs.
- Opening a device, `next_packet` and the channel's `send` are pcap and runtime calls. Their outcomes are the `openError` and `polls` inputs.
- `Packets.PacketCapture.CaptureLoop`: the model's loop also ends when the given polls run out. While running, the source keeps polling until a send is refused.
- `Stats.NetworkStats.Update`: `u64` overflow of either counter is a precondition. The model does not say what Rust does on overflow (a panic in debug builds, wrap-around in release builds).
- Locking (`RwLock`, `Mutex`), `tokio::spawn` and the `mpsc` channel are concurrency. The handlers are sequential transitions on one state object. The spawned task is the sequential `Handlers.ConsumePackets`.
- A replaced session is dropped in Rust, and dropping closes its handle. In the model the replaced session just becomes unreachable from the state.
- `get_status` (handlers.rs:45-49) only formats a message, and no route uses it.
- HTTP routing, JSON wrapping and the message strings of the handlers are transport. The model keeps only which outcome happened (`HandlerError`).
- `duration.as_secs_f64()` is floating point. The duration stays in whole clock ticks.
- Converting addresses to strings and reading the interface flags are library formatting. The model stores the address texts and the flag values directly.
