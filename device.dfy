/**
 * The device manager itself: the free functions `set_device` and
 * `create_devices`, and `DeviceManagerFactory`, which owns the catalogue and
 * the cached current device and is the only code that switches the
 * runtime's global context.  Each method is proved against the functions of
 * module DeviceSpec.  A panic of the source is an `Err`/`Fail` result here.
 */
module DeviceManager {
  import opened Wrappers
  import opened AfRuntime
  import opened DeviceSpec

  /** `set_device`: switch the runtime's global backend, then its device; panic if either switch fails. */
  method SetDevice(rt: Runtime, device: Device) returns (o: Outcome<Panic>)
    modifies rt
    ensures o == SetDeviceOutcome(rt.env, device)
    ensures rt.log == old(rt.log) + SetDeviceCalls(rt.env, device)
    ensures o.Pass? ==> rt.backend == device.backend && rt.deviceId == device.id
  {
    var switched := rt.SetBackend(device.backend);
    if switched.Fail? {
      return Fail(RuntimeFailure(switched.error));
    }
    var selected := rt.SetDevice(device.id);
    if selected.Fail? {
      return Fail(RuntimeFailure(selected.error));
    }
    o := Pass;
  }

  /** `create_devices`: activate `backend`, ask for its device count, and push one device per id. */
  method CreateDevices(rt: Runtime, backend: Backend) returns (r: Result<seq<Device>, Panic>)
    modifies rt
    ensures r == CreateDevicesSpec(rt.env, backend)
    ensures rt.log == old(rt.log) + [SetBackendCall(backend)]
    ensures rt.backend == (if backend in rt.env.backendOk then backend else old(rt.backend))
    ensures rt.deviceId == old(rt.deviceId)
  {
    var switched := rt.SetBackend(backend);
    if switched.Fail? {
      return Err(RuntimeFailure(switched.error));
    }
    var count := rt.DeviceCount();
    if count.Err? {
      return Err(RuntimeFailure(count.error));
    }
    var numDevices := count.value;
    var buffer: seq<Device> := [];
    var i: Int32 := 0;
    while i < numDevices
      invariant 0 <= i <= if numDevices > 0 then numDevices else 0
      invariant |buffer| == i
      invariant forall k :: 0 <= k < i ==> buffer[k] == Device(backend, k)
    {
      buffer := buffer + [Device(backend, i)];
      i := i + 1;
    }
    assert i == if numDevices > 0 then numDevices else 0;
    assert buffer == DevicesOf(backend, numDevices);
    r := Ok(buffer);
  }

  class DeviceManagerFactory {
    /** The runtime whose global context this manager mirrors. */
    const rt: Runtime
    /** The catalogue, fixed once `New` has built it. */
    const devices: seq<Device>
    /** The cached current device (a `Cell` in the source). */
    var current: Device

    /** The current device is catalogued and is the runtime's active context. */
    ghost predicate Valid()
      reads this, rt
    {
      current in devices && rt.backend == current.backend && rt.deviceId == current.id
    }

    constructor Init(rt: Runtime, devices: seq<Device>, current: Device)
      ensures this.rt == rt && this.devices == devices && this.current == current
    {
      this.rt := rt;
      this.devices := devices;
      this.current := current;
    }

    /**
     * `new`: enumerate the devices of every available backend in the order
     * the runtime reports them, panic if there are none, and start on the
     * last one.
     */
    static method New(rt: Runtime) returns (r: Result<DeviceManagerFactory, Panic>)
      modifies rt
      ensures r.Ok? <==> Startup(rt.env).Ok?
      ensures r.Err? ==> r.error == Startup(rt.env).error
      ensures r.Ok? ==> fresh(r.value) && r.value.rt == rt && r.value.Valid()
      ensures r.Ok? ==> r.value.devices == Startup(rt.env).value.devices
      ensures r.Ok? ==> r.value.current == Startup(rt.env).value.current
      ensures r.Ok? ==> rt.log == old(rt.log) + Probes(rt.env.available.value) + SetDeviceCalls(rt.env, r.value.current)
    {
      var available := rt.AvailableBackends();
      if available.Err? {
        return Err(RuntimeFailure(available.error));
      }
      var backends := available.value;
      var devices: seq<Device> := [];
      for k := 0 to |backends|
        invariant Catalogue(rt.env, backends[..k]) == Ok(devices)
        invariant rt.log == old(rt.log) + Probes(backends[..k])
      {
        assert backends[..k + 1][..k] == backends[..k];
        var created := CreateDevices(rt, backends[k]);
        if created.Err? {
          CatalogueFailureSticks(rt.env, backends, k + 1);
          return Err(created.error);
        }
        devices := devices + created.value;
      }
      assert backends[..|backends|] == backends;
      if |devices| == 0 {
        return Err(EmptyCatalogue);
      }
      var start := devices[|devices| - 1];
      var activated := SetDevice(rt, start);
      if activated.Fail? {
        return Err(activated.error);
      }
      var manager := new DeviceManagerFactory.Init(rt, devices, start);
      r := Ok(manager);
    }

    /**
     * `swap_device`: when the target differs from the current device in both
     * backend and id, check that it is catalogued, switch the runtime to it
     * and make it current; otherwise do nothing.
     */
    method SwapDevice(device: Device) returns (o: Outcome<Panic>)
      requires Valid()
      modifies this, rt
      ensures o.Pass? <==> SwapNext(rt.env, devices, old(current), device).Ok?
      ensures o.Pass? ==> Valid() && current == SwapNext(rt.env, devices, old(current), device).value
      ensures o.Fail? ==> o.error == SwapNext(rt.env, devices, old(current), device).error && current == old(current)
      ensures rt.log == old(rt.log) + SwapCalls(rt.env, devices, old(current), device)
    {
      var c := current;
      if c.backend != device.backend && c.id != device.id {
        if device !in devices {
          return Fail(Unregistered(device));
        }
        var activated := SetDevice(rt, device);
        if activated.Fail? {
          return activated;
        }
        current := device;
      }
      o := Pass;
    }

    /**
     * `swap_array_backend`: swap to the input's device, copy the array into
     * a host buffer of its element count, swap to the target device, and
     * build a new array there from the buffer.
     */
    method SwapArrayBackend<T(0)>(input: Array<T>, inputDevice: Device, targetDevice: Device)
      returns (r: Result<Array<T>, Panic>, ghost readOn: Device)
      requires Valid() && input.Valid()
      modifies this, rt
      ensures SwapNext(rt.env, devices, old(current), inputDevice).Ok? ==>
        readOn == SwapNext(rt.env, devices, old(current), inputDevice).value
      ensures SwapNext(rt.env, devices, old(current), inputDevice).Ok? ==>
        (readOn == inputDevice <==> inputDevice == old(current) || SwapGuard(old(current), inputDevice))
      ensures r.Ok? <==> SwapRun(rt.env, devices, old(current), [inputDevice, targetDevice]).Ok?
      ensures r.Err? ==> r.error == SwapRun(rt.env, devices, old(current), [inputDevice, targetDevice]).error
      ensures r.Ok? ==> Valid() && current == SwapRun(rt.env, devices, old(current), [inputDevice, targetDevice]).value
      ensures r.Ok? ==> r.value.Valid() && r.value.dims == input.dims && r.value.data == input.data
      ensures r.Ok? ==> r.value.backend == current.backend && r.value.deviceId == current.id
      ensures rt.log == old(rt.log) + SwapRunCalls(rt.env, devices, old(current), [inputDevice, targetDevice])
    {
      ghost var start := current;
      readOn := start;
      assert [inputDevice, targetDevice][1..] == [targetDevice];
      var toInput := SwapDevice(inputDevice);
      if toInput.Fail? {
        r := Err(toInput.error);
        return;
      }
      ghost var middle := current;
      assert SwapRun(rt.env, devices, middle, [targetDevice]) == SwapNext(rt.env, devices, middle, targetDevice);
      assert SwapRunCalls(rt.env, devices, start, [inputDevice, targetDevice])
          == SwapCalls(rt.env, devices, start, inputDevice) + SwapRunCalls(rt.env, devices, middle, [targetDevice]);
      assert SwapRunCalls(rt.env, devices, middle, [targetDevice]) == SwapCalls(rt.env, devices, middle, targetDevice) + [];

      var dims := input.dims;
      var buffer := new T[dims.Elements()];
      readOn := Device(rt.backend, rt.deviceId);
      SwapReachesTarget(rt.env, devices, start, inputDevice);
      var copied := rt.Host(input, buffer);
      assert copied.Pass?;

      var toTarget := SwapDevice(targetDevice);
      if toTarget.Fail? {
        r := Err(toTarget.error);
        return;
      }
      var created := rt.NewArray(dims, buffer);
      assert created.Ok?;
      assert buffer[..dims.Elements()] == buffer[..];
      r := Ok(created.value);
    }
  }
}
