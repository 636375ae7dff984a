/**
 * NngListener of nng.NET/Listener.cs: a wrapper around a native
 * nng_listener, with the TLS configuration it was given and a disposed flag.
 */
module Listeners {
  import opened Core
  import opened Disposal
  import opened TlsConfigs

  /** nng_listener: the native listener handle. */
  datatype ListenerHandle = ListenerHandle(id: int)

  /** nng_listener_create: its result code and the handle it writes out. */
  type ListenerCreator = (SocketHandle, string) -> (int, ListenerHandle)

  /** nng_listener_set_ptr with the TLS-config option: the result code for a configuration pointer. */
  type TlsOptionSetter = (ListenerHandle, int) -> int

  /** A listener object. */
  class NngListener {
    var nativeNngStruct: ListenerHandle
    var tlsConfig: TlsConfig?
    var disposed: bool
    /** How many times nng_listener_close has been called on the handle. */
    ghost var closeCalls: nat
    /** The configuration pointers passed to the TLS-config option, in order. */
    ghost var tlsOptionCalls: seq<int>
    /** Whether GC.SuppressFinalize has been called on this object. */
    ghost var finalizeSuppressed: bool

    /** The native close ran once if the listener is disposed, and never otherwise; a held configuration is itself valid. */
    ghost predicate Valid()
      reads this, tlsConfig
    {
      && ReleasedOnlyOnDispose(State())
      && (tlsConfig != null ==> tlsConfig.Valid())
    }

    /** The part of the state that disposal reads and writes. */
    ghost function State(): DisposeState
      reads this
    {
      DisposeState(disposed, closeCalls)
    }

    /** The private constructor together with the object initializer that sets the handle. */
    constructor (handle: ListenerHandle)
      ensures Valid() && State() == Created
      ensures nativeNngStruct == handle && tlsConfig == null
      ensures tlsOptionCalls == [] && !finalizeSuppressed
    {
      nativeNngStruct := handle;
      tlsConfig := null;
      disposed := false;
      closeCalls := 0;
      tlsOptionCalls := [];
      finalizeSuppressed := false;
    }

    /** Create(socket, url): null unless nng_listener_create returns NNG_OK, else a listener on the new handle. */
    static method Create(socket: SocketHandle, url: string, create: ListenerCreator) returns (r: NngListener?)
      ensures var (res, handle) := create(socket, url);
              && (r == null <==> res != NNG_OK)
              && (r != null ==> fresh(r) && r.Valid() && r.State() == Created && r.nativeNngStruct == handle
                                && r.tlsConfig == null && r.tlsOptionCalls == [] && !r.finalizeSuppressed)
    {
      var (res, listener) := create(socket, url);
      if res != NNG_OK {
        return null;
      }
      r := new NngListener(listener);
    }

    /** Create(listener): wraps the given handle as it is, without any native call. */
    static method CreateFromHandle(listener: ListenerHandle) returns (r: NngListener)
      ensures fresh(r) && r.Valid() && r.State() == Created && r.nativeNngStruct == listener
      ensures r.tlsConfig == null && r.tlsOptionCalls == [] && !r.finalizeSuppressed
    {
      r := new NngListener(listener);
    }

    /**
     * The TlsConfig setter: null is ignored without any native call; otherwise
     * the option is set on the native listener and the configuration is kept
     * only when that returns NNG_OK.
     */
    method SetTlsConfig(value: TlsConfig?, setOption: TlsOptionSetter)
      requires Valid() && (value != null ==> value.Valid())
      modifies this
      ensures Valid()
      ensures value == null ==> unchanged(this)
      ensures value != null ==>
                var res := setOption(old(nativeNngStruct), value.nativeNngStruct.ptr);
                && tlsOptionCalls == old(tlsOptionCalls) + [value.nativeNngStruct.ptr]
                && tlsConfig == (if res == NNG_OK then value else old(tlsConfig))
      ensures nativeNngStruct == old(nativeNngStruct) && State() == old(State())
      ensures finalizeSuppressed == old(finalizeSuppressed)
    {
      if value != null {
        var res := setOption(nativeNngStruct, value.nativeNngStruct.ptr);
        tlsOptionCalls := tlsOptionCalls + [value.nativeNngStruct.ptr];
        if res == NNG_OK {
          tlsConfig := value;
        }
      }
    }

    /** Dispose(): Dispose(true), then suppress the finalizer. */
    method Dispose()
      requires Valid()
      modifies this, tlsConfig
      ensures Valid() && State() == DisposeStep(old(State()))
      ensures tlsConfig == old(tlsConfig) && nativeNngStruct == old(nativeNngStruct)
      ensures tlsOptionCalls == old(tlsOptionCalls) && finalizeSuppressed
      ensures tlsConfig != null ==>
                if old(disposed) then unchanged(tlsConfig)
                else && tlsConfig.State() == DisposeStep(old(tlsConfig.State())) && tlsConfig.finalizeSuppressed
                     && tlsConfig.nativeNngStruct == old(tlsConfig.nativeNngStruct)
    {
      DisposeCore(true);
      finalizeSuppressed := true;
    }

    /**
     * Dispose(bool): unless already disposed, disposes the held configuration
     * when disposing is true (not on the finalizer path), then closes the
     * native listener.
     */
    method DisposeCore(disposing: bool)
      requires Valid()
      modifies this, tlsConfig
      ensures Valid() && State() == DisposeStep(old(State()))
      ensures tlsConfig == old(tlsConfig) && nativeNngStruct == old(nativeNngStruct)
      ensures tlsOptionCalls == old(tlsOptionCalls) && finalizeSuppressed == old(finalizeSuppressed)
      ensures tlsConfig != null ==>
                if old(disposed) || !disposing then unchanged(tlsConfig)
                else && tlsConfig.State() == DisposeStep(old(tlsConfig.State())) && tlsConfig.finalizeSuppressed
                     && tlsConfig.nativeNngStruct == old(tlsConfig.nativeNngStruct)
    {
      if disposed {
        return;
      }
      if disposing && tlsConfig != null {
        tlsConfig.Dispose();
      }
      closeCalls := closeCalls + 1;
      disposed := true;
    }

    /** The finalizer: Dispose(false), which leaves the held configuration alone. */
    method Finalize()
      requires Valid()
      modifies this, tlsConfig
      ensures Valid() && State() == DisposeStep(old(State()))
      ensures tlsConfig == old(tlsConfig) && nativeNngStruct == old(nativeNngStruct)
      ensures tlsOptionCalls == old(tlsOptionCalls) && finalizeSuppressed == old(finalizeSuppressed)
      ensures tlsConfig != null ==> unchanged(tlsConfig)
    {
      DisposeCore(false);
    }
  }
}
