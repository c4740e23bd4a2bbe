/** The BLE scanner component: it initialises the BLE client, scans for nearby
    devices into a short list, connects to one device, and disconnects. Each
    call into the BLE plugin is represented by the outcome it ended with. */
module Bluetooth {
  import opened Wrappers

  /** Results weaker than this signal strength (in dBm) are not listed. */
  const MIN_RSSI: int := -70
  /** The device list never grows past this many entries. */
  const MAX_DEVICES: nat := 10

  /** A device as the plugin reports it. */
  datatype Device = Device(deviceId: string, name: Option<string>)

  /** One scan callback: the device, when the result carries one, and the
      received signal strength, when it carries one. */
  datatype ScanResult = ScanResult(device: Option<Device>, rssi: Option<int>)

  /** How a call into the BLE plugin ended; a failure carries the error's text. */
  datatype Outcome = Success | Failure(message: string)

  /** Some listed device has this id. */
  predicate Listed(devices: seq<Device>, id: string) {
    exists i :: 0 <= i < |devices| && devices[i].deviceId == id
  }

  /** No id is listed twice. */
  predicate DistinctIds(devices: seq<Device>) {
    forall i, j :: 0 <= i < j < |devices| ==> devices[i].deviceId != devices[j].deviceId
  }

  /** The updater's signal filter `result.rssi < MIN_RSSI`. A missing strength
      compares as false in JavaScript, so such a result passes the filter. */
  predicate TooWeak(rssi: Option<int>) {
    rssi.Some? && rssi.value < MIN_RSSI
  }

  /** The first `n` entries, or all of them when there are fewer: `slice(0, n)`. */
  function Take(devices: seq<Device>, n: nat): (r: seq<Device>)
    ensures |r| <= n && |r| <= |devices| && r == devices[..|r|]
    ensures |devices| <= n ==> r == devices
    ensures |devices| > n ==> |r| == n
  {
    if |devices| <= n then devices else devices[..n]
  }

  /** The updater passed to `setDevices` for a result carrying `device`: weak
      signals and already listed ids leave the list as it is, any other device
      is appended and the list cut to `MAX_DEVICES`. */
  function AddDevice(prev: seq<Device>, device: Device, rssi: Option<int>): (next: seq<Device>)
    ensures TooWeak(rssi) ==> next == prev
    ensures Listed(prev, device.deviceId) ==> next == prev
    ensures !TooWeak(rssi) && !Listed(prev, device.deviceId) && |prev| < MAX_DEVICES ==>
      next == prev + [device]
    ensures !TooWeak(rssi) && !Listed(prev, device.deviceId) && |prev| >= MAX_DEVICES ==>
      next == prev[..MAX_DEVICES]
    ensures |prev| == MAX_DEVICES ==> next == prev
  {
    if TooWeak(rssi) then prev
    else if Listed(prev, device.deviceId) then prev
    else Take(prev + [device], MAX_DEVICES)
  }

  /** Adding a device keeps the list within `MAX_DEVICES` entries and its ids
      pairwise distinct, and never reorders or drops what was listed. */
  lemma AddDeviceKeepsList(prev: seq<Device>, device: Device, rssi: Option<int>)
    requires |prev| <= MAX_DEVICES && DistinctIds(prev)
    ensures var next := AddDevice(prev, device, rssi);
      |next| <= MAX_DEVICES && DistinctIds(next) && prev <= next
  {
  }

  /** One scan callback's effect on the list: a result without a device is
      skipped; otherwise the list stays short, free of repeated ids, and keeps
      what it listed. */
  function Step(devices: seq<Device>, result: ScanResult): (r: seq<Device>)
    ensures result.device.None? ==> r == devices
    ensures |devices| <= MAX_DEVICES && DistinctIds(devices) ==>
      |r| <= MAX_DEVICES && DistinctIds(r) && devices <= r
  {
    if result.device.Some? then AddDevice(devices, result.device.value, result.rssi) else devices
  }

  /** The list after the callbacks for `results` ran in order, starting from `devices`. */
  function ListAfter(devices: seq<Device>, results: seq<ScanResult>): seq<Device>
    decreases |results|
  {
    if results == [] then devices else ListAfter(Step(devices, results[0]), results[1..])
  }

  /** The same rule without the cap: every new, strong enough device in order
      of first sighting. This is the reference the capped list is compared with. */
  function Sighted(devices: seq<Device>, results: seq<ScanResult>): seq<Device>
    decreases |results|
  {
    if results == [] then devices
    else
      var r := results[0];
      var next := if r.device.Some? && !TooWeak(r.rssi) && !Listed(devices, r.device.value.deviceId)
                  then devices + [r.device.value] else devices;
      Sighted(next, results[1..])
  }

  /** The result `r` reports a strong enough device with id `id`. */
  predicate Reports(r: ScanResult, id: string) {
    r.device.Some? && !TooWeak(r.rssi) && r.device.value.deviceId == id
  }

  /** One callback keeps the capped list equal to the first `MAX_DEVICES`
      entries of the uncapped one. */
  lemma StepTakesPrefix(capped: seq<Device>, all: seq<Device>, r: ScanResult)
    requires capped == Take(all, MAX_DEVICES)
    ensures var all' := if r.device.Some? && !TooWeak(r.rssi) && !Listed(all, r.device.value.deviceId)
                        then all + [r.device.value] else all;
      Step(capped, r) == Take(all', MAX_DEVICES)
  {
  }

  /** Capping after every callback is the same as capping once at the end: the
      scanned list holds the first `MAX_DEVICES` distinct strong devices, in the
      order they were first seen. */
  lemma {:induction false} ListIsFirstSighted(capped: seq<Device>, all: seq<Device>, results: seq<ScanResult>)
    requires capped == Take(all, MAX_DEVICES)
    ensures ListAfter(capped, results) == Take(Sighted(all, results), MAX_DEVICES)
    decreases |results|
  {
    if results != [] {
      StepTakesPrefix(capped, all, results[0]);
      var r := results[0];
      var all' := if r.device.Some? && !TooWeak(r.rssi) && !Listed(all, r.device.value.deviceId)
                  then all + [r.device.value] else all;
      ListIsFirstSighted(Step(capped, r), all', results[1..]);
    }
  }

  /** An id is in the uncapped list exactly when it was listed before or some
      result reported it with a strong enough signal. */
  lemma {:induction false} SightedIds(devices: seq<Device>, results: seq<ScanResult>, id: string)
    ensures Listed(Sighted(devices, results), id) <==>
      Listed(devices, id) || exists i :: 0 <= i < |results| && Reports(results[i], id)
    decreases |results|
  {
    if results != [] {
      var r := results[0];
      var next := if r.device.Some? && !TooWeak(r.rssi) && !Listed(devices, r.device.value.deviceId)
                  then devices + [r.device.value] else devices;
      SightedIds(next, results[1..], id);
      if Listed(next, id) && !Listed(devices, id) {
        var k :| 0 <= k < |next| && next[k].deviceId == id;
        assert k == |devices| && Reports(r, id);
      }
      if Listed(devices, id) {
        var k :| 0 <= k < |devices| && devices[k].deviceId == id;
        assert next[k] == devices[k];
      }
      if exists i :: 0 <= i < |results| && Reports(results[i], id) {
        var i :| 0 <= i < |results| && Reports(results[i], id);
        if i == 0 {
          if !Listed(devices, id) {
            assert next[|devices|].deviceId == id;
          }
        } else {
          assert Reports(results[1..][i - 1], id);
        }
      }
      if exists i :: 0 <= i < |results[1..]| && Reports(results[1..][i], id) {
        var i :| 0 <= i < |results[1..]| && Reports(results[1..][i], id);
        assert Reports(results[i + 1], id);
      }
    }
  }

  /** Whatever results a scan delivers, a list of at most `MAX_DEVICES` devices
      with no id twice stays so, and only grows at its end. */
  lemma {:induction false} ScanListBounded(devices: seq<Device>, results: seq<ScanResult>)
    requires |devices| <= MAX_DEVICES && DistinctIds(devices)
    ensures var l := ListAfter(devices, results); |l| <= MAX_DEVICES && DistinctIds(l) && devices <= l
    decreases |results|
  {
    if results != [] {
      var r := results[0];
      ScanListBounded(Step(devices, r), results[1..]);
    }
  }

  /** The text the component shows for a device: its name when it has a
      non-empty one, its id otherwise (`device.name || device.deviceId`). */
  function Label(device: Device): (s: string)
    ensures device.name.Some? && device.name.value != [] ==> s == device.name.value
    ensures !(device.name.Some? && device.name.value != []) ==> s == device.deviceId
  {
    if device.name.Some? && device.name.value != [] then device.name.value else device.deviceId
  }

  /** The scanner component's state. `connectedRef` is the ref that mirrors the
      connected device for the unmount cleanup. */
  class Scanner {
    var isInitialized: bool
    var isScanning: bool
    var devices: seq<Device>
    var connectedDevice: Option<Device>
    var connectedRef: Option<Device>
    var statusMessage: string
    var errorMessage: Option<string>

    /** The ref always agrees with the state, and the device list is short and
        free of repeated ids. */
    ghost predicate Valid()
      reads this
    {
      connectedRef == connectedDevice && |devices| <= MAX_DEVICES && DistinctIds(devices)
    }

    /** The state before the BLE client is initialised. */
    constructor ()
      ensures Valid()
      ensures !isInitialized && !isScanning && devices == []
      ensures connectedDevice.None? && statusMessage == "Initialize BLE..." && errorMessage.None?
    {
      isInitialized, isScanning := false, false;
      devices := [];
      connectedDevice, connectedRef := None, None;
      statusMessage := "Initialize BLE...";
      errorMessage := None;
    }

    /** The mount effect: `BleClient.initialize` ended with `init`. */
    method Initialize(init: Outcome)
      requires Valid()
      modifies this`isInitialized, this`statusMessage, this`errorMessage
      ensures Valid()
      ensures isInitialized == init.Success?
      ensures init.Success? ==> statusMessage == "BLE Initialized. Ready to scan." && errorMessage.None?
      ensures init.Failure? ==>
        statusMessage == "BLE Initialization Failed" &&
        errorMessage == Some("BLE Initialize Error: " + init.message)
    {
      if init.Success? {
        isInitialized := true;
        statusMessage := "BLE Initialized. Ready to scan.";
        errorMessage := None;
      } else {
        errorMessage := Some("BLE Initialize Error: " + init.message);
        statusMessage := "BLE Initialization Failed";
        isInitialized := false;
      }
    }

    /** `startScan`: ignored unless initialised and idle; otherwise clears the
        list and the error and starts scanning, and a failed `requestLEScan`
        ends the scan again. */
    method StartScan(scan: Outcome)
      requires Valid()
      modifies this`isScanning, this`devices, this`statusMessage, this`errorMessage
      ensures Valid()
      ensures !old(isInitialized) || old(isScanning) ==>
        isScanning == old(isScanning) && devices == old(devices) &&
        statusMessage == old(statusMessage) && errorMessage == old(errorMessage)
      ensures old(isInitialized) && !old(isScanning) ==>
        devices == [] && isScanning == scan.Success? &&
        (scan.Success? ==> statusMessage == "Scanning..." && errorMessage.None?) &&
        (scan.Failure? ==>
          statusMessage == "Scan failed" && errorMessage == Some("Scan Error: " + scan.message))
    {
      if !isInitialized || isScanning {
        return;
      }
      devices := [];
      errorMessage := None;
      statusMessage := "Scanning...";
      isScanning := true;
      if scan.Failure? {
        errorMessage := Some("Scan Error: " + scan.message);
        statusMessage := "Scan failed";
        isScanning := false;
      }
    }

    /** The scan callback: applies the list updater when the result carries a
        device, and reports whether the device is the one named "TestLED", for
        which the component also stops the scan and calls `handleConnect`. */
    method OnScanResult(result: ScanResult) returns (autoConnect: bool)
      requires Valid()
      modifies this`devices
      ensures Valid()
      ensures devices == Step(old(devices), result)
      ensures autoConnect <==> result.device.Some? && result.device.value.name == Some("TestLED")
    {
      autoConnect := result.device.Some? && result.device.value.name == Some("TestLED");
      if result.device.Some? {
        AddDeviceKeepsList(devices, result.device.value, result.rssi);
        devices := AddDevice(devices, result.device.value, result.rssi);
      }
    }

    /** `stopScan`: ignored when not scanning; otherwise `stopLEScan` ended with
        `stop`, and scanning is over either way. */
    method StopScan(stop: Outcome)
      requires Valid()
      modifies this`isScanning, this`statusMessage, this`errorMessage
      ensures Valid()
      ensures !old(isScanning) ==>
        !isScanning && statusMessage == old(statusMessage) && errorMessage == old(errorMessage)
      ensures old(isScanning) ==>
        !isScanning &&
        (stop.Success? ==> statusMessage == "Scan stopped." && errorMessage == old(errorMessage)) &&
        (stop.Failure? ==>
          statusMessage == old(statusMessage) && errorMessage == Some("Stop Scan Error: " + stop.message))
    {
      if !isScanning {
        return;
      }
      if stop.Success? {
        statusMessage := "Scan stopped.";
      } else {
        errorMessage := Some("Stop Scan Error: " + stop.message);
      }
      isScanning := false;
    }

    /** `handleConnect`: ignored unless initialised and not connected; stops a
        running scan (its call ended with `stop`), then `connect` ended with
        `connect`: the device becomes the connected one, or none is. */
    method HandleConnect(device: Device, stop: Outcome, connect: Outcome)
      requires Valid()
      modifies this`isScanning, this`statusMessage, this`errorMessage, this`connectedDevice, this`connectedRef
      ensures Valid()
      ensures !old(isInitialized) || old(connectedDevice).Some? ==>
        isScanning == old(isScanning) && connectedDevice == old(connectedDevice) &&
        statusMessage == old(statusMessage) && errorMessage == old(errorMessage)
      ensures old(isInitialized) && old(connectedDevice).None? ==>
        !isScanning &&
        (connect.Success? ==>
          connectedDevice == Some(device) &&
          statusMessage == "Connected to " + Label(device) && errorMessage.None?) &&
        (connect.Failure? ==>
          connectedDevice.None? &&
          statusMessage == "Failed to connect to " + Label(device) &&
          errorMessage == Some("Connection Error: " + connect.message))
    {
      if !isInitialized || connectedDevice.Some? {
        return;
      }
      if isScanning {
        StopScan(stop);
      }
      statusMessage := "Connecting to " + Label(device) + "...";
      errorMessage := None;
      if connect.Success? {
        statusMessage := "Connected to " + Label(device);
        connectedDevice := Some(device);
        connectedRef := Some(device);
      } else {
        errorMessage := Some("Connection Error: " + connect.message);
        statusMessage := "Failed to connect to " + Label(device);
        connectedDevice := None;
        connectedRef := None;
      }
    }

    /** The callback `connect` registers, run when the device drops the link. */
    method OnDisconnected(disconnectedId: string)
      requires Valid()
      modifies this`statusMessage, this`connectedDevice, this`connectedRef
      ensures Valid()
      ensures connectedDevice.None?
      ensures statusMessage == "Device " + disconnectedId + " disconnected"
    {
      statusMessage := "Device " + disconnectedId + " disconnected";
      connectedDevice := None;
      connectedRef := None;
    }

    /** `handleDisconnect`: ignored when nothing is connected; otherwise
        `disconnect` ended with `disconnect`. On success the device stays
        connected until the disconnect callback runs; on failure it is dropped
        at once. */
    method HandleDisconnect(disconnect: Outcome)
      requires Valid()
      modifies this`statusMessage, this`errorMessage, this`connectedDevice, this`connectedRef
      ensures Valid()
      ensures old(connectedDevice).None? ==>
        connectedDevice.None? && statusMessage == old(statusMessage) && errorMessage == old(errorMessage)
      ensures old(connectedDevice).Some? && disconnect.Success? ==>
        connectedDevice == old(connectedDevice) && statusMessage == "Disconnecting..." && errorMessage.None?
      ensures old(connectedDevice).Some? && disconnect.Failure? ==>
        connectedDevice.None? && statusMessage == "Failed to disconnect" &&
        errorMessage == Some("Disconnect Error: " + disconnect.message)
    {
      if connectedDevice.None? {
        return;
      }
      statusMessage := "Disconnecting...";
      errorMessage := None;
      if disconnect.Failure? {
        errorMessage := Some("Disconnect Error: " + disconnect.message);
        statusMessage := "Failed to disconnect";
        connectedDevice := None;
        connectedRef := None;
      }
    }

    /** `sendTestValue`: ignored when nothing is connected; otherwise the reads
        and the write of the test command ended with `send`. */
    method SendTestValue(send: Outcome)
      requires Valid()
      modifies this`statusMessage
      ensures Valid()
      ensures old(connectedDevice).None? ==> statusMessage == old(statusMessage)
      ensures old(connectedDevice).Some? ==>
        statusMessage == if send.Success? then "Value sent successfully" else "Send error: " + send.message
    {
      if connectedDevice.None? {
        return;
      }
      if send.Success? {
        statusMessage := "Value sent successfully";
      } else {
        statusMessage := "Send error: " + send.message;
      }
    }
  }
}
