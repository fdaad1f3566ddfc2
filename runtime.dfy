/**
 * An abstract model of the ArrayFire runtime as far as the device manager
 * uses it.  The runtime keeps ONE process-wide active (backend, device id)
 * pair.  Whether each call succeeds is fixed by an environment value `Env`
 * (which backends exist, how many devices each reports, which switches the
 * drivers accept), so that every call is deterministic.  A ghost log records
 * every global context switch that is issued, in order.
 */
module AfRuntime {
  import opened Wrappers

  /** The backends an ArrayFire build can offer. */
  datatype Backend = Default | Cpu | Cuda | OpenCl

  /** Device ids and device counts are `i32` in the source. */
  type Int32 = x: int | -0x8000_0000 <= x < 0x8000_0000

  /** The errors the runtime reports. */
  datatype AfError =
    | BackendsUnavailable
    | BackendUnavailable(backend: Backend)
    | CountUnavailable(backend: Backend)
    | NoSuchDevice(backend: Backend, id: Int32)
    | SizeMismatch(expected: nat, actual: nat)

  /** One call to a global context switch. */
  datatype Switch = SetBackendCall(backend: Backend) | SetDeviceCall(id: Int32)

  /** What the machine the process runs on offers. */
  datatype Env = Env(
    available: Option<seq<Backend>>,   // the answer to "which backends are available", None if the query fails
    counts: map<Backend, Int32>,       // the device count each backend reports; a missing key is a failed query
    backendOk: set<Backend>,           // the backends that can be activated
    deviceOk: set<(Backend, Int32)>)   // the device ids that can be activated under each backend

  /** A four-dimensional shape. */
  datatype Dim4 = Dim4(d0: nat, d1: nat, d2: nat, d3: nat) {
    /** The number of elements an array of this shape holds. */
    function Elements(): nat {
      var a: nat := d0 * d1;
      var b: nat := a * d2;
      b * d3
    }
  }

  /**
   * A device-resident array: its shape, its elements in column-major order,
   * and the context (backend, device id) it was created under.
   */
  datatype Array<T> = Array(dims: Dim4, data: seq<T>, backend: Backend, deviceId: Int32) {
    predicate Valid() {
      |data| == dims.Elements()
    }
  }

  class Runtime {
    const env: Env
    var backend: Backend
    var deviceId: Int32
    ghost var log: seq<Switch>

    constructor (env: Env, backend: Backend, deviceId: Int32)
      ensures this.env == env && this.backend == backend && this.deviceId == deviceId
      ensures log == []
    {
      this.env := env;
      this.backend := backend;
      this.deviceId := deviceId;
      log := [];
    }

    /** `get_available_backends` */
    method AvailableBackends() returns (r: Result<seq<Backend>, AfError>)
      ensures r.Ok? <==> env.available.Some?
      ensures r.Ok? ==> r.value == env.available.value
      ensures r.Err? ==> r.error == BackendsUnavailable
    {
      match env.available
      case None => r := Err(BackendsUnavailable);
      case Some(bs) => r := Ok(bs);
    }

    /** `set_backend`: switches the global active backend; the device id is left alone. */
    method SetBackend(b: Backend) returns (o: Outcome<AfError>)
      modifies this
      ensures log == old(log) + [SetBackendCall(b)]
      ensures o.Pass? <==> b in env.backendOk
      ensures o.Fail? ==> o.error == BackendUnavailable(b)
      ensures backend == (if o.Pass? then b else old(backend))
      ensures deviceId == old(deviceId)
    {
      log := log + [SetBackendCall(b)];
      if b in env.backendOk {
        backend := b;
        o := Pass;
      } else {
        o := Fail(BackendUnavailable(b));
      }
    }

    /** `set_device`: switches the global active device of the active backend. */
    method SetDevice(id: Int32) returns (o: Outcome<AfError>)
      modifies this
      ensures log == old(log) + [SetDeviceCall(id)]
      ensures o.Pass? <==> (backend, id) in env.deviceOk
      ensures o.Fail? ==> o.error == NoSuchDevice(backend, id)
      ensures backend == old(backend)
      ensures deviceId == (if o.Pass? then id else old(deviceId))
    {
      log := log + [SetDeviceCall(id)];
      if (backend, id) in env.deviceOk {
        deviceId := id;
        o := Pass;
      } else {
        o := Fail(NoSuchDevice(backend, id));
      }
    }

    /** `device_count`: the number of devices the active backend reports. */
    method DeviceCount() returns (r: Result<Int32, AfError>)
      ensures r.Ok? <==> backend in env.counts
      ensures r.Ok? ==> r.value == env.counts[backend]
      ensures r.Err? ==> r.error == CountUnavailable(backend)
    {
      if backend in env.counts {
        r := Ok(env.counts[backend]);
      } else {
        r := Err(CountUnavailable(backend));
      }
    }

    /** `Array::host`: copies an array's elements into a host buffer of exactly its element count. */
    method Host<T>(a: Array<T>, buffer: array<T>) returns (o: Outcome<AfError>)
      requires a.Valid()
      modifies buffer
      ensures o.Pass? <==> buffer.Length == a.dims.Elements()
      ensures o.Pass? ==> buffer[..] == a.data
      ensures o.Fail? ==> o.error == SizeMismatch(a.dims.Elements(), buffer.Length) && buffer[..] == old(buffer[..])
    {
      if buffer.Length != a.dims.Elements() {
        return Fail(SizeMismatch(a.dims.Elements(), buffer.Length));
      }
      forall i | 0 <= i < buffer.Length {
        buffer[i] := a.data[i];
      }
      o := Pass;
    }

    /** `Array::new`: builds an array of the given shape from a host buffer, in the active context. */
    method NewArray<T>(dims: Dim4, values: array<T>) returns (r: Result<Array<T>, AfError>)
      ensures r.Ok? <==> values.Length >= dims.Elements()
      ensures r.Ok? ==> r.value.Valid() && r.value.dims == dims && r.value.data == values[..dims.Elements()]
      ensures r.Ok? ==> r.value.backend == backend && r.value.deviceId == deviceId
      ensures r.Err? ==> r.error == SizeMismatch(dims.Elements(), values.Length)
    {
      if values.Length < dims.Elements() {
        return Err(SizeMismatch(dims.Elements(), values.Length));
      }
      r := Ok(Array(dims, values[..dims.Elements()], backend, deviceId));
    }
  }
}
