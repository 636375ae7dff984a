# nng.NET native loader and handle lifecycles, in Dafny

This project models the core of NanomsgNG.NET, the .NET binding of the nng
messaging library. It covers three things.

**The native-library resolver (`NngLoadContext`).** The library ships in two copies: one
for .NET Framework and one built on `AssemblyLoadContext`. For the unmanaged
name `nng`, the resolver does four things:
- it picks an architecture suffix (`-arm64`, `-arm`, `-x64`, `-x86`);
- it builds the directory `<base>/runtimes/<linux|win|osx><suffix>/native`;
- it loads the dependency chain mbedcrypto, mbedx509, mbedtls, nng, in that order;
- it returns nng's handle, or throws at the first library that does not load.

For the managed name `nng.NET`, it loads `runtimes/any/lib/<tfm>/nng.NET.dll`,
or the flat `nng.NET.dll` when that file is missing. `Init` ties these together
and creates the factory object by type name.

**The exception helpers of `Core.cs`.** These are `NngException`'s two constructors,
its message format, `AssertZero`, the `Error` property and the `IsValid` extension methods.

**The lifecycle of the `TlsConfig`, `NngListener` and `NngDialer` wrappers.**
- Creation fails unless the native call returns `NNG_OK`.
- The TLS-config setter commits only on `NNG_OK`.
- `Dispose` releases the native handle at most once.

The host is a set of inputs to the model:
- the OS, architecture and bitness are a `Host` value;
- `File.Exists` is a predicate on paths;
- the native loaders (`dlopen`, `LoadLibrary`, the inherited
  `AssemblyLoadContext.LoadUnmanagedDllFromPath`) are one function
  `(Primitive, Path) -> Handle`, where `0` means "did not load";
- reflection is a lookup telling, for an assembly and a type name, whether the
  type is missing, can be instantiated, or is found but cannot be instantiated;
- the nng calls of the wrappers are function parameters that give a result code and a handle.

A path is a sequence of segments, so `Path.Combine(a, b, c)` is `a + [b, c]`.
The loader methods return a ghost trace of their effects, in order. The trace
records native loads, file-existence probes and managed loads.

Modules, one per file:
- `Results`: Option and Result wrappers.
- `Core`: the `Core.cs` helpers.
- `NativeLoading`: what both variants share, stated as functions and lemmas.
  `UnmanagedLoad` is the four-step load as the code writes it. `Chain` is an
  independent, general definition of "load each in turn, stop at the first
  zero". `UnmanagedLoadIsChain` proves the two agree. The literal values of
  the code sit in small helpers without contracts of their own:
  `Family.LibraryFiles` holds the file lists (AssemblyLoadContext.cs:101-112
  and :231-250), `SpecificManagedPath` and `FlatManagedPath` the managed
  paths (:68, :72, :187-203), `TargetFramework.Moniker` the `#if` chain of
  monikers (:188-197), and `ChainFailure` the exception each variant throws
  for a path that does not load (:136 for the Framework variant). The lemmas
  and rows below state what they mean.
- `FrameworkLoadContext` and `ModernLoadContext`: the two `NngLoadContext`
  classes. Each method is proved against the specification functions.
- `Disposal`: the `disposed`-flag step that all three wrappers share, and the
  at-most-once lemmas about it.
- `TlsConfigs`, `Listeners`, `Dialers`: the three wrapper classes.

## Model

| member | source | states |
|---|---|---|
| Core.NngException.Error | nng.NET.Shared/Core.cs:42 | The Error property is the stored error code read as an NngErrno, with the same value. |
| Core.MessageFormat | nng.NET.Shared/Core.cs:29-39 | A null or empty message gives the errno name alone; any other message gives the name, ": ", then the message. |
| Core.MessageFormatRecoversMessage | nng.NET.Shared/Core.cs:29-39 | The text always starts with the errno name. It equals the name exactly when the message is null or empty. Otherwise the message can be read back after the name and ": ". |
| Core.NewException | nng.NET.Shared/Core.cs:12-16 | The int constructor keeps the given code as ErrorCode and formats the text from that code and the message; the message defaults to "". |
| Core.NewExceptionFromErrno | nng.NET.Shared/Core.cs:18-21 | The NngErrno constructor gives the same exception as the int constructor on the errno's value, and Error gives the errno back. |
| Core.AssertZero | nng.NET.Shared/Core.cs:23-27 | Throws if and only if the code is not NNG_OK; the exception carries that code and the message formatted from it. |
| Core.IsValid | nng.NET.Shared/Core.cs:170-185 | A socket, listener, dialer or pipe is valid exactly when its Id is not -1. |
| NativeLoading.ArchSuffix | nng.NET.Shared/AssemblyLoadContext.cs:92-97 | -arm64 exactly for Arm64, -arm exactly for Arm, otherwise -x64 exactly in a 64-bit process and -x86 exactly in a 32-bit one; never anything else. |
| NativeLoading.SupportedFamily | nng.NET.Shared/AssemblyLoadContext.cs:227-255 | Linux and Windows map to their binary families in both variants. macOS maps to the osx family only in the modern variant. Every other OS has none. |
| NativeLoading.LinuxFilesFollowConvention | nng.NET.Shared/AssemblyLoadContext.cs:101-104 | The Linux file names are lib<stem>.so for crypto, x509, tls and nng, in that order. |
| NativeLoading.WindowsFilesFollowConvention | nng.NET.Shared/AssemblyLoadContext.cs:109-112 | The Windows file names are <stem>.dll for crypto, x509, tls and nng, in that order. |
| NativeLoading.OsxFilesFollowConvention | nng.NET.Shared/AssemblyLoadContext.cs:231-234 | The macOS file names are lib<stem>.dylib for crypto, x509, tls and nng, in that order. |
| NativeLoading.LibraryFilesFollowConvention | nng.NET.Shared/AssemblyLoadContext.cs:239-250 | Every family loads the four chain libraries, in chain order, under its own naming convention. |
| NativeLoading.RuntimeDirectoryDetermined | nng.NET.Shared/AssemblyLoadContext.cs:100-108 | A runtime directory name such as linux-x64 determines both the family and the suffix. Every architecture other than Arm and Arm64 shares the -x64 or -x86 directory of its bitness. |
| NativeLoading.SuffixSharedByBitness | nng.NET.Shared/AssemblyLoadContext.cs:92-97 | Two processes get the same suffix exactly when both are Arm64, both are Arm, or both are other architectures with the same bitness. |
| NativeLoading.ArchitecturesShareDirectory | nng.NET.Shared/AssemblyLoadContext.cs:221-226 | On one supported OS, any two architectures other than Arm and Arm64 with the same bitness load the same four files, for example X64 and LoongArch64 in 64-bit processes. |
| NativeLoading.LoadException.Message | nng.NET.Shared/AssemblyLoadContext.cs:116-136 | A failed Framework load reads "Failed to load: " plus the path; an unsupported OS reads "Unexpected runtime OS platform: " plus the OS description. |
| NativeLoading.Chain | nng.NET.Shared/AssemblyLoadContext.cs:101-104 | Loading paths in turn attempts a prefix of them, in order. Every load before the last attempt succeeded. A failure names the path that gave zero. Success means every path was attempted and gives the last path's non-zero handle. |
| NativeLoading.Chain4 | nng.NET.Shared/AssemblyLoadContext.cs:239-242 | A chain of four is the five-case if-chain: each library is attempted only after every earlier one gave a handle. |
| NativeLoading.NoLoadAfterFailure | nng.NET.Shared/AssemblyLoadContext.cs:122-139 | A zero handle at position j makes the chain fail, and nothing after position j is attempted. |
| NativeLoading.ChainSucceeds | nng.NET.Shared/AssemblyLoadContext.cs:101-104 | When every library loads, all of them are attempted in order and the last handle is returned. |
| NativeLoading.UnmanagedLoadIsChain | nng.NET.Shared/AssemblyLoadContext.cs:98-113 | On a supported OS, LoadUnmanagedDll("nng") is the general chain over the four library paths of the host's native directory, with the variant's exception for the failing path. |
| NativeLoading.UnmanagedLoadContract | nng.NET.Shared/AssemblyLoadContext.cs:85-120 | A name other than "nng" loads nothing and returns Zero. An unsupported OS throws before any load. Otherwise the four loads are attempted in order, each only after the earlier ones loaded. The result is nng's non-zero handle, or the exception naming the first path that gave zero. |
| NativeLoading.MacOSOnlyInModernVariant | nng.NET.Shared/AssemblyLoadContext.cs:227-235 | On macOS the Framework variant throws "unexpected platform" with no load. The modern variant starts with libmbedcrypto.dylib from runtimes/osx<suffix>/native. |
| NativeLoading.UnmanagedLoadOnlyLoadsNatively | nng.NET.Shared/AssemblyLoadContext.cs:85-120 | LoadUnmanagedDll performs native loads and nothing else. |
| NativeLoading.LinuxX64Layout | nng.NET.Shared/AssemblyLoadContext.cs:98-104 | With base /opt/app on 64-bit Linux, the four .so files are loaded from /opt/app/runtimes/linux-x64/native, and libnng.so's handle is returned. |
| NativeLoading.ManagedAssemblyPath | nng.NET.Shared/AssemblyLoadContext.cs:67-73 | The runtime-specific file is chosen exactly when it exists, the flat file otherwise; both lie under the base path and end in nng.NET.dll. |
| NativeLoading.ManagedLoad | nng.NET.Shared/AssemblyLoadContext.cs:63-78 | Only "nng.NET" is redirected: it probes the runtime-specific file and then loads the chosen one. Any other name gives null and has no effect. |
| NativeLoading.PrimitiveFor | nng.NET.Shared/AssemblyLoadContext.cs:125-132 | The Framework variant loads with dlopen exactly on Linux and with LoadLibrary exactly elsewhere; the modern variant always uses the inherited loader. |
| NativeLoading.NativeDirectory | nng.NET.Shared/AssemblyLoadContext.cs:100 | The native directory lies three segments below the base path: runtimes, the family name followed by the suffix, then native. |
| NativeLoading.Steps4 | nng.NET.Shared/AssemblyLoadContext.cs:101-104 | Four loads in a row attempt a non-empty prefix of the four paths, in order. The result is the last handle exactly when all four are non-zero, and otherwise the failure for the last path attempted. |
| NativeLoading.UnmanagedLoad | nng.NET.Shared/AssemblyLoadContext.cs:85-120 | At most four loads. Nothing is loaded exactly when the name is not "nng" or the OS is unsupported. The result is Zero exactly when the name is not "nng". |
| NativeLoading.CreateFactory | nng.NET.Shared/AssemblyLoadContext.cs:53-55 | The factory is created exactly when the type is found and can be instantiated. A missing type throws TypeNotFound with the name; a found type whose instantiation throws gives InstantiationFailed with the name. |
| FrameworkLoadContext.InitSpec | nng.NET.Shared/AssemblyLoadContext.cs:47-56 | Init's trace starts with the native chain's trace. It is exactly that trace when the chain fails, and then Init fails with the chain's exception. |
| FrameworkLoadContext.InitLoadsNativeFirst | nng.NET.Shared/AssemblyLoadContext.cs:47-56 | Init performs every native load before any managed step. A native failure ends Init with that failure. After a native success, the trace is the native loads, the probe of the net462 file, then the load of the chosen managed file, and the result is the factory creation on that assembly. |
| FrameworkLoadContext.NngLoadContext.constructor | nng.NET.Shared/AssemblyLoadContext.cs:58-61 | The context keeps the given base path. |
| FrameworkLoadContext.NngLoadContext.Init | nng.NET.Shared/AssemblyLoadContext.cs:47-56 | The result and the trace are those of the Init specification: the native chain, then Load, then the factory; the factory name defaults to nng.Factories.Compat.Factory. |
| FrameworkLoadContext.NngLoadContext.Load | nng.NET.Shared/AssemblyLoadContext.cs:63-78 | Equals ManagedLoad with the net462 target on the context's base path. |
| FrameworkLoadContext.NngLoadContext.LoadFromAssemblyPath | nng.NET.Shared/AssemblyLoadContext.cs:80-83 | The assembly comes from the given file. |
| FrameworkLoadContext.NngLoadContext.LoadUnmanagedDll | nng.NET.Shared/AssemblyLoadContext.cs:85-120 | Equals UnmanagedLoad for the Framework variant, whose properties are the lemmas above. |
| FrameworkLoadContext.NngLoadContext.LoadFromDirectory | nng.NET.Shared/AssemblyLoadContext.cs:100-104 | The four calls of one OS branch are the four-step load from that directory, stopping at the first call that throws. |
| FrameworkLoadContext.NngLoadContext.LoadUnmanagedDllFromPath | nng.NET.Shared/AssemblyLoadContext.cs:122-140 | Exactly one load, with dlopen on Linux and LoadLibrary elsewhere. A zero handle throws "Failed to load" with that path; any other handle is returned. |
| ModernLoadContext.ModernInitSpec | nng.NET.Shared/AssemblyLoadContext.cs:158-163 | The modern Init has two effects, the first being the probe of the runtime-specific file; a factory it returns has the requested type name. |
| ModernLoadContext.ModernInitLoadsNoNative | nng.NET.Shared/AssemblyLoadContext.cs:158-163 | The modern Init loads no native library. It probes the runtime-specific file, loads one managed file, and its result is the factory creation on that assembly, so it succeeds exactly when the factory type is found and can be instantiated. |
| ModernLoadContext.NngLoadContext.constructor | nng.NET.Shared/AssemblyLoadContext.cs:177-180 | The context keeps the given base path; the compiled target framework is a parameter. |
| ModernLoadContext.NngLoadContext.Init | nng.NET.Shared/AssemblyLoadContext.cs:158-163 | The result and the trace are those of the modern Init specification: Load("nng.NET"), then the factory. |
| ModernLoadContext.NngLoadContext.Load | nng.NET.Shared/AssemblyLoadContext.cs:182-209 | Equals ManagedLoad with the compiled target's moniker on the context's base path. |
| ModernLoadContext.NngLoadContext.LoadUnmanagedDll | nng.NET.Shared/AssemblyLoadContext.cs:211-258 | Equals UnmanagedLoad for the modern variant: macOS, Linux and Windows, in that order of checks. |
| ModernLoadContext.NngLoadContext.LoadFromDirectory | nng.NET.Shared/AssemblyLoadContext.cs:230-234 | The four calls of one OS branch are the four-step load from that directory through the inherited loader. |
| ModernLoadContext.NngLoadContext.LoadUnmanagedDllFromPath | nng.NET.Shared/AssemblyLoadContext.cs:231 | Assumed behaviour of the inherited loader: exactly one load, with an exception naming the path when the library does not load. |
| Disposal.DisposeStep | nng.NET/TlsConfig.cs:62-75 | Dispose(bool) always leaves the object disposed. A repeated call changes nothing. A first call releases the native handle once. |
| Disposal.DisposedIsFixed | nng.NET/Listener.cs:99-102 | Once disposed, any number of further Dispose calls leaves the state unchanged. |
| Disposal.ReleasedAtMostOnce | nng.NET/Dialer.cs:97-110 | However many times a new object is disposed, the native release runs once, or never if it is never disposed. |
| TlsConfigs.AllocResult | nng.NET/TlsConfig.cs:20-25 | The native result is a failure carrying that code exactly when it is not NNG_OK, and otherwise the allocated handle. |
| TlsConfigs.TlsConfig.constructor | nng.NET/TlsConfig.cs:82 | A new configuration holds the handle and is neither disposed nor freed. |
| TlsConfigs.TlsConfig.Alloc | nng.NET/TlsConfig.cs:18-26 | Gives Fail with the native code unless it is NNG_OK. Otherwise gives Ok with a new, undisposed configuration holding the allocated handle. |
| TlsConfigs.TlsConfig.Dispose | nng.NET/TlsConfig.cs:56-60 | Takes the Dispose(true) step and suppresses finalization. |
| TlsConfigs.TlsConfig.DisposeCore | nng.NET/TlsConfig.cs:62-75 | Takes the disposal step whatever the value of disposing, so the native free runs at most once and both paths have the same effect. |
| TlsConfigs.TlsConfig.Finalize | nng.NET/TlsConfig.cs:77 | The finalizer takes the Dispose(false) step. |
| Listeners.NngListener.constructor | nng.NET/Listener.cs:119 | A new listener holds the handle, has no TLS config and is neither disposed nor closed. |
| Listeners.NngListener.Create | nng.NET/Listener.cs:19-27 | Null exactly when nng_listener_create's result is not NNG_OK. Otherwise a new listener holding the created handle. |
| Listeners.NngListener.CreateFromHandle | nng.NET/Listener.cs:29-32 | A new listener wrapping the given handle unchanged, with no native call. |
| Listeners.NngListener.SetTlsConfig | nng.NET/Listener.cs:76-90 | Null changes nothing and makes no native call. Any other value sets the option once with its pointer, and is kept only if the result is NNG_OK; otherwise the previous config stays. |
| Listeners.NngListener.Dispose | nng.NET/Listener.cs:93-97 | Takes the Dispose(true) step and suppresses finalization. On a first call the held TLS config takes its own Dispose step and keeps its handle. |
| Listeners.NngListener.DisposeCore | nng.NET/Listener.cs:99-112 | The native close runs at most once. The held TLS config is disposed only on a first call with disposing true, and keeps its handle; on the finalizer path it is left untouched. |
| Listeners.NngListener.Finalize | nng.NET/Listener.cs:114 | The finalizer closes the listener at most once and leaves the TLS config untouched. |
| Dialers.NngDialer.constructor | nng.NET/Dialer.cs:117 | A new dialer holds the handle, has no TLS config and is neither disposed nor closed. |
| Dialers.NngDialer.Create | nng.NET/Dialer.cs:19-27 | Null exactly when nng_dialer_create's result is not NNG_OK. Otherwise a new dialer holding the created handle. |
| Dialers.NngDialer.CreateFromHandle | nng.NET/Dialer.cs:29-32 | A new dialer wrapping the given handle unchanged, with no native call. |
| Dialers.NngDialer.SetTlsConfig | nng.NET/Dialer.cs:74-88 | Null changes nothing and makes no native call. Any other value sets the option once with its pointer, and is kept only if the result is NNG_OK; otherwise the previous config stays. |
| Dialers.NngDialer.Dispose | nng.NET/Dialer.cs:91-95 | Takes the Dispose(true) step and suppresses finalization. On a first call the held TLS config takes its own Dispose step and keeps its handle. |
| Dialers.NngDialer.DisposeCore | nng.NET/Dialer.cs:97-110 | The native close runs at most once. The held TLS config is disposed only on a first call with disposing true, and keeps its handle; on the finalizer path it is left untouched. |
| Dialers.NngDialer.Finalize | nng.NET/Dialer.cs:112 | The finalizer closes the dialer at most once and leaves the TLS config untouched. |

## Left out

Interop and the runtime:
- P/Invoke: the `NngNativeLoader` declarations and the nng native entry
  points of `Native/Listener.cs` and `Native/Tls.cs` are foreign calls. They are
  inputs: one loader function for `dlopen`/`LoadLibrary`, and result-code
  functions for the nng calls. `dlsym`, `GetProcAddress`, `FreeLibrary`,
  `dlclose`, `SetDllDirectory` and the `RTLD_NOW` flag value are not modelled.
- The modern variant's native load is inherited from .NET's
  `AssemblyLoadContext` and its source is not available. The model assumes it
  throws on failure (`NativeLoadFailed`). The exception text is not modelled,
  and the "Failed to load" message belongs to the Framework variant only.
- A real runtime calls the modern `LoadUnmanagedDll` lazily, at the first
  P/Invoke into `nng`. The model treats it as an ordinary method.
- `LoadFromAssemblyName` in the modern `Init` is modelled as a direct call to
  the context's own `Load`. The default context's fallback, when `Load` returns
  null, cannot happen for `nng.NET` and is not modelled. Nor is the runtime's
  cache of assemblies already loaded in a context: a second modern `Init` on
  the same context would find `nng.NET` there and not call `Load` again, while
  the model probes and loads on every call.
- ModernLoadContext.NngLoadContext.Init: its parameter is an `NngLoadContext`,
  while the code accepts any `AssemblyLoadContext` (AssemblyLoadContext.cs:158).
  Other contexts' `Load` is not available to model.
- Reflection: `Assembly.LoadFrom`/`LoadFromAssemblyPath` give an assembly
  identified by its file and never fail. `GetType` together with
  `Activator.CreateInstance` is one lookup input. A missing type gives
  `TypeNotFound` (the code passes null to `CreateInstance`).
- CreateFactory: a found type whose instantiation throws gives one
  `InstantiationFailed` case. It does not tell `MissingMethodException` from
  `TargetInvocationException` or the other exceptions of `CreateInstance`, and
  it does not model the cast of the instance to `IAPIFactory`, whose failure
  is part of `InstantiationFailed`. The code checks no capability, so none is
  claimed.

Paths and the build:
- Path separator rules of `Path.Combine` and `File.Exists` itself: paths are
  segment sequences, and file existence is an input predicate.
- The `#if` target-framework choice in the modern `Load` is the context's
  `target` field. The `#if NETSTANDARD2_0` bitness choice is the
  `is64BitProcess` field of the host, which both variants read.
- The modern variant compiles only when the target is not .NET Framework, so
  its `net462` branch is never taken. `TargetFramework` still allows `Net462`
  for that variant.

Defines.cs:
- `Defines.cs` is not part of this model. `NNG_OK` is taken as 0, nng's OK
  value. The errno names that `NngErrno.ToString()` gives are an input
  function. `NNG_OPT_TLS_CONFIG` is implicit in the option-setter input.

Out of scope:
- The async helpers of `Core.cs`, lines 129-168, involve task completion and
  concurrency.
- The `Start`, `GetOpt`, `SetOpt` and `Id` pass-throughs of the listener and
  dialer, and the TLS setters (`SetServerName`, `SetCaChain`, `SetOwnCert`,
  `SetAuthMode`, `SetCaFile`, `SetKeyFile`), only forward to native code.
- Unmanaged string memory in `Native/Tls.cs`.
- The `INngTlsConfig` interface, which has no behaviour.
- Garbage-collector scheduling: the finalizer is a method calling
  `Dispose(false)`. `GC.SuppressFinalize` is a ghost flag.
- The `disposed` flags model single-threaded use. Concurrent `Dispose` calls
  are not modelled.
- The type of the listener's and dialer's `TlsConfig` property, `NngTlsConfig`
  (Listener.cs:76, Dialer.cs:74), is declared in no file of this model. It is
  read as the `TlsConfig` class of `TlsConfig.cs`, whose handle it passes to
  the native option.

Load-context state and suffixes:
- The code has no Loaded or Failed state and no locking. The Framework `Init`
  runs the whole chain on every call (AssemblyLoadContext.cs:50), and the
  model does the same.
- `ArchSuffix` always picks one of the four suffixes; there is no empty suffix.

