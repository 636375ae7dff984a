/**
 * NngDialer of nng.NET/Dialer.cs: a wrapper around a native
 * nng_dialer, with the TLS configuration it was given and a disposed flag.
 */
module Dialers {
  import opened Core
  import opened Disposal
  import opened TlsConfigs

  /** nng_dialer: the native dialer handle. */
  datatype DialerHandle = DialerHandle(id: int)

  /** nng_dialer_create: its result code and the handle it writes out. */
  type DialerCreator = (SocketHandle, string) -> (int, DialerHandle)

  /** nng_dialer_set_ptr with the TLS-config option: the result code for a configuration pointer. */
  type TlsOptionSetter = (DialerHandle, int) -> int

  /** A dialer object. */
  class NngDialer {
    var nativeNngStruct: DialerHandle
    var tlsConfig: TlsConfig?
    var disposed: bool
    /** How many times nng_dialer_close has been called on the handle. */
    ghost var closeCalls: nat
    /** The configuration pointers passed to the TLS-config option, in order. */
    ghost var tlsOptionCalls: seq<int>
    /** Whether GC.SuppressFinalize has been called on this object. */
    ghost var finalizeSuppressed: bool

    /** The native close ran once if the dialer is disposed, and never otherwise; a held configuration is itself valid. */
    ghost predicate Valid()
      reads this, tlsConfig
    {
      && ReleasedOnlyOnDispose(State())
      && (tlsConfig != null ==> tlsConfig.Valid())
    }

    /** The part of the state that disposal reads and writes. */
    ghost function State(): DisposeState
      reads this
    {
      DisposeState(disposed, closeCalls)
    }

    /** The private constructor together with the object initializer that sets the handle. */
    constructor (handle: DialerHandle)
      ensures Valid() && State() == Created
      ensures nativeNngStruct == handle && tlsConfig == null
      ensures tlsOptionCalls == [] && !finalizeSuppressed
    {
      nativeNngStruct := handle;
      tlsConfig := null;
      disposed := false;
      closeCalls := 0;
      tlsOptionCalls := [];
      finalizeSuppressed := false;
    }

    /** Create(socket, url): null unless nng_dialer_create returns NNG_OK, else a dialer on the new handle. */
    static method Create(socket: SocketHandle, url: string, create: DialerCreator) returns (r: NngDialer?)
      ensures var (res, handle) := create(socket, url);
              && (r == null <==> res != NNG_OK)
              && (r != null ==> fresh(r) && r.Valid() && r.State() == Created && r.nativeNngStruct == handle
                                && r.tlsConfig == null && r.tlsOptionCalls == [] && !r.finalizeSuppressed)
    {
      var (res, dialer) := create(socket, url);
      if res != NNG_OK {
        return null;
      }
      r := new NngDialer(dialer);
    }

    /** Create(dialer): wraps the given handle as it is, without any native call. */
    static method CreateFromHandle(dialer: DialerHandle) returns (r: NngDialer)
      ensures fresh(r) && r.Valid() && r.State() == Created && r.nativeNngStruct == dialer
      ensures r.tlsConfig == null && r.tlsOptionCalls == [] && !r.finalizeSuppressed
    {
      r := new NngDialer(dialer);
    }

    /**
     * The TlsConfig setter: null is ignored without any native call; otherwise
     * the option is set on the native dialer and the configuration is kept
     * only when that returns NNG_OK.
     */
    method SetTlsConfig(value: TlsConfig?, setOption: TlsOptionSetter)
      requires Valid() && (value != null ==> value.Valid())
      modifies this
      ensures Valid()
      ensures value == null ==> unchanged(this)
      ensures value != null ==>
                var res := setOption(old(nativeNngStruct), value.nativeNngStruct.ptr);
                && tlsOptionCalls == old(tlsOptionCalls) + [value.nativeNngStruct.ptr]
                && tlsConfig == (if res == NNG_OK then value else old(tlsConfig))
      ensures nativeNngStruct == old(nativeNngStruct) && State() == old(State())
      ensures finalizeSuppressed == old(finalizeSuppressed)
    {
      if value != null {
        var res := setOption(nativeNngStruct, value.nativeNngStruct.ptr);
        tlsOptionCalls := tlsOptionCalls + [value.nativeNngStruct.ptr];
        if res == NNG_OK {
          tlsConfig := value;
        }
      }
    }

    /** Dispose(): Dispose(true), then suppress the finalizer. */
    method Dispose()
      requires Valid()
      modifies this, tlsConfig
      ensures Valid() && State() == DisposeStep(old(State()))
      ensures tlsConfig == old(tlsConfig) && nativeNngStruct == old(nativeNngStruct)
      ensures tlsOptionCalls == old(tlsOptionCalls) && finalizeSuppressed
      ensures tlsConfig != null ==>
                if old(disposed) then unchanged(tlsConfig)
                else && tlsConfig.State() == DisposeStep(old(tlsConfig.State())) && tlsConfig.finalizeSuppressed
                     && tlsConfig.nativeNngStruct == old(tlsConfig.nativeNngStruct)
    {
      DisposeCore(true);
      finalizeSuppressed := true;
    }

    /**
     * Dispose(bool): unless already disposed, disposes the held configuration
     * when disposing is true (not on the finalizer path), then closes the
     * native dialer.
     */
    method DisposeCore(disposing: bool)
      requires Valid()
      modifies this, tlsConfig
      ensures Valid() && State() == DisposeStep(old(State()))
      ensures tlsConfig == old(tlsConfig) && nativeNngStruct == old(nativeNngStruct)
      ensures tlsOptionCalls == old(tlsOptionCalls) && finalizeSuppressed == old(finalizeSuppressed)
      ensures tlsConfig != null ==>
                if old(disposed) || !disposing then unchanged(tlsConfig)
                else && tlsConfig.State() == DisposeStep(old(tlsConfig.State())) && tlsConfig.finalizeSuppressed
                     && tlsConfig.nativeNngStruct == old(tlsConfig.nativeNngStruct)
    {
      if disposed {
        return;
      }
      if disposing && tlsConfig != null {
        tlsConfig.Dispose();
      }
      closeCalls := closeCalls + 1;
      disposed := true;
    }

    /** The finalizer: Dispose(false), which leaves the held configuration alone. */
    method Finalize()
      requires Valid()
      modifies this, tlsConfig
      ensures Valid() && State() == DisposeStep(old(State()))
      ensures tlsConfig == old(tlsConfig) && nativeNngStruct == old(nativeNngStruct)
      ensures tlsOptionCalls == old(tlsOptionCalls) && finalizeSuppressed == old(finalizeSuppressed)
      ensures tlsConfig != null ==> unchanged(tlsConfig)
    {
      DisposeCore(false);
    }
  }
}
