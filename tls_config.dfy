/**
 * TlsConfig of nng.NET/TlsConfig.cs: a wrapper around a native
 * nng_tls_config that is allocated through Alloc and freed at most once.
 */
module TlsConfigs {
  import opened Core
  import opened Disposal

  /** nng_tls_mode. */
  datatype TlsMode = Client | Server

  /** nng_tls_config: the native configuration handle. */
  datatype TlsHandle = TlsHandle(ptr: int)

  /** nng_tls_config_alloc: its result code and the handle it writes out. */
  type TlsAllocator = TlsMode -> (int, TlsHandle)

  /** The value Alloc reports for a native result: the error number, or the allocated handle on NNG_OK. */
  function AllocResult(res: int, handle: TlsHandle): (r: NngResult<TlsHandle>)
    ensures r.Fail? <==> res != NNG_OK
    ensures r.Fail? ==> r.error as int == res
    ensures r.Ok? ==> r.value == handle
  {
    if res != NNG_OK then Fail(res as NngErrno) else Ok(handle)
  }

  /** A TLS configuration object with its disposed flag. */
  class TlsConfig {
    var nativeNngStruct: TlsHandle
    var disposed: bool
    /** How many times nng_tls_config_free has been called on the handle. */
    ghost var freeCalls: nat
    /** Whether GC.SuppressFinalize has been called on this object. */
    ghost var finalizeSuppressed: bool

    /** The native free ran once if the object is disposed, and never otherwise. */
    ghost predicate Valid()
      reads this
    {
      ReleasedOnlyOnDispose(State())
    }

    /** The part of the state that disposal reads and writes. */
    ghost function State(): DisposeState
      reads this
    {
      DisposeState(disposed, freeCalls)
    }

    /** The private constructor together with the object initializer that sets the handle. */
    constructor (handle: TlsHandle)
      ensures Valid() && State() == Created
      ensures nativeNngStruct == handle && !finalizeSuppressed
    {
      nativeNngStruct := handle;
      disposed := false;
      freeCalls := 0;
      finalizeSuppressed := false;
    }

    /** Allocates a native configuration; any result other than NNG_OK is returned as a failure with that code. */
    static method Alloc(mode: TlsMode, allocate: TlsAllocator) returns (r: NngResult<TlsConfig>)
      ensures var (res, handle) := allocate(mode);
              match AllocResult(res, handle)
              case Fail(e) => r == Fail(e)
              case Ok(h) => r.Ok? && fresh(r.value) && r.value.nativeNngStruct == h
                            && r.value.Valid() && r.value.State() == Created && !r.value.finalizeSuppressed
    {
      var (res, tlsConfig) := allocate(mode);
      if res != NNG_OK {
        return Fail(res as NngErrno);
      }
      var config := new TlsConfig(tlsConfig);
      return Ok(config);
    }

    /** Dispose(): Dispose(true), then suppress the finalizer. */
    method Dispose()
      requires Valid()
      modifies this
      ensures Valid() && State() == DisposeStep(old(State()))
      ensures finalizeSuppressed && nativeNngStruct == old(nativeNngStruct)
    {
      DisposeCore(true);
      finalizeSuppressed := true;
    }

    /**
     * Dispose(bool): frees the native handle unless already disposed. There
     * are no managed resources, so both values of disposing do the same.
     */
    method DisposeCore(disposing: bool)
      requires Valid()
      modifies this
      ensures Valid() && State() == DisposeStep(old(State()))
      ensures nativeNngStruct == old(nativeNngStruct) && finalizeSuppressed == old(finalizeSuppressed)
    {
      if disposed {
        return;
      }
      if disposing {
        // no managed resources to dispose
      }
      freeCalls := freeCalls + 1;
      disposed := true;
    }

    /** The finalizer: Dispose(false). */
    method Finalize()
      requires Valid()
      modifies this
      ensures Valid() && State() == DisposeStep(old(State()))
      ensures nativeNngStruct == old(nativeNngStruct) && finalizeSuppressed == old(finalizeSuppressed)
    {
      DisposeCore(false);
    }
  }
}
