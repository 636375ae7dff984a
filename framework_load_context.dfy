/**
 * The .NET Framework NngLoadContext of nng.NET.Shared/AssemblyLoadContext.cs:
 * Init loads the native chain itself (dlopen on Linux, LoadLibrary on
 * Windows), then resolves nng.NET and instantiates the factory type.
 */
module FrameworkLoadContext {
  import opened Results
  import opened NativeLoading

  /** This variant looks for the managed companion under net462. */
  const FrameworkTarget: TargetFramework := Net462

  /** Everything Init does: the native chain, then the managed companion, then the factory. */
  function InitSpec(base: Path, host: Host, load: Loader, fileExists: Path -> bool, resolveType: TypeLookup,
                    factoryName: string): (o: InitOutcome)
    ensures var native := UnmanagedLoad(Framework, base, NativeLibraryName, host, load);
            && native.events <= o.events
            && (o.events == native.events <==> native.result.Err?)
            && (native.result.Err? ==> o.result == Err(native.result.error))
  {
    var native := UnmanagedLoad(Framework, base, NativeLibraryName, host, load);
    if native.result.Err? then InitOutcome(Err(native.result.error), native.events)
    else
      var managed := ManagedLoad(base, FrameworkTarget, ManagedAssemblyName, fileExists);
      InitOutcome(CreateFactory(managed.assembly.value, factoryName, resolveType), native.events + managed.events)
  }

  /**
   * Init loads every native library before it touches the managed companion,
   * and a failed native load ends Init with that failure and no managed step.
   */
  lemma InitLoadsNativeFirst(base: Path, host: Host, load: Loader, fileExists: Path -> bool, resolveType: TypeLookup,
                             factoryName: string)
    ensures var o := InitSpec(base, host, load, fileExists, resolveType, factoryName);
            var native := UnmanagedLoad(Framework, base, NativeLibraryName, host, load);
            && native.events <= o.events
            && (forall i, j :: 0 <= i < j < |o.events| && o.events[j].NativeLoad? ==> o.events[i].NativeLoad?)
            && (native.result.Err? ==> o == InitOutcome(Err(native.result.error), native.events))
            && (native.result.Ok? ==>
                  o.events == native.events + [FileExists(SpecificManagedPath(base, FrameworkTarget)),
                                               AssemblyLoad(ManagedAssemblyPath(base, FrameworkTarget, fileExists))]
                  && o.result == CreateFactory(Assembly(ManagedAssemblyPath(base, FrameworkTarget, fileExists)),
                                               factoryName, resolveType))
  {
    var o := InitSpec(base, host, load, fileExists, resolveType, factoryName);
    var native := UnmanagedLoad(Framework, base, NativeLibraryName, host, load);
    UnmanagedLoadOnlyLoadsNatively(Framework, base, NativeLibraryName, host, load);
    assert forall i :: 0 <= i < |native.events| ==> native.events[i].NativeLoad? by {
      forall i | 0 <= i < |native.events| ensures native.events[i].NativeLoad? {
        assert native.events[i] in native.events;
      }
    }
    assert forall j :: |native.events| <= j < |o.events| ==> !o.events[j].NativeLoad?;
  }

  /** The native-library resolver and the managed-assembly redirect for .NET Framework. */
  class NngLoadContext {
    const assemblyPath: Path

    constructor (path: Path)
      ensures assemblyPath == path
    {
      assemblyPath := path;
    }

    /**
     * Loads the native chain, then nng.NET, then creates an instance of the
     * named factory type; the factory name defaults to the compat factory.
     */
    static method Init(loadContext: NngLoadContext, host: Host, load: Loader, fileExists: Path -> bool,
                       resolveType: TypeLookup, factoryName: string := DefaultFactoryName)
      returns (r: Result<Factory, LoadException>, ghost events: seq<Event>)
      ensures r == InitSpec(loadContext.assemblyPath, host, load, fileExists, resolveType, factoryName).result
      ensures events == InitSpec(loadContext.assemblyPath, host, load, fileExists, resolveType, factoryName).events
    {
      // manually load the unmanaged libraries
      var native, nativeEvents := loadContext.LoadUnmanagedDll(NativeLibraryName, host, load);
      if native.Err? {
        return Err(native.error), nativeEvents;
      }
      var assem, managedEvents := loadContext.Load(ManagedAssemblyName, fileExists);
      events := nativeEvents + managedEvents;
      r := CreateFactory(assem.value, factoryName, resolveType);
    }

    /** Redirects nng.NET to the runtime-specific file, or to the flat one when that is missing. */
    method Load(assemblyName: string, fileExists: Path -> bool) returns (r: Option<Assembly>, ghost events: seq<Event>)
      ensures r == ManagedLoad(assemblyPath, FrameworkTarget, assemblyName, fileExists).assembly
      ensures events == ManagedLoad(assemblyPath, FrameworkTarget, assemblyName, fileExists).events
    {
      if assemblyName == ManagedAssemblyName {
        // framework-specific managed assembly path
        var path := assemblyPath + ["runtimes", "any", "lib", "net462", ManagedAssemblyName + ".dll"];
        events := [FileExists(path)];
        if !fileExists(path) {
          // the same directory
          path := assemblyPath + [ManagedAssemblyName + ".dll"];
        }
        var assembly := LoadFromAssemblyPath(path);
        return Some(assembly), events + [AssemblyLoad(path)];
      }
      return None, [];
    }

    /** Assembly.LoadFrom: the assembly in the file at the given path. */
    static method LoadFromAssemblyPath(managedDllPath: Path) returns (a: Assembly)
      ensures a.location == managedDllPath
    {
      a := Assembly(managedDllPath);
    }

    /**
     * For "nng": picks the architecture suffix and the OS's native directory,
     * then loads crypto, x509, tls and nng from it, in that order.
     */
    method LoadUnmanagedDll(unmanagedDllName: string, host: Host, load: Loader)
      returns (r: Result<Handle, LoadException>, ghost events: seq<Event>)
      ensures r == UnmanagedLoad(Framework, assemblyPath, unmanagedDllName, host, load).result
      ensures events == UnmanagedLoad(Framework, assemblyPath, unmanagedDllName, host, load).events
    {
      if unmanagedDllName == NativeLibraryName {
        var is64bit := host.is64BitProcess;
        var arch := ArchSuffix(host.arch, is64bit);
        if host.os == Linux {
          var native := assemblyPath + ["runtimes", "linux" + arch, "native"];
          r, events := LoadFromDirectory(native, ["libmbedcrypto.so", "libmbedx509.so", "libmbedtls.so", "libnng.so"], host, load);
        } else if host.os == Windows {
          var native := assemblyPath + ["runtimes", "win" + arch, "native"];
          r, events := LoadFromDirectory(native, ["mbedcrypto.dll", "mbedx509.dll", "mbedtls.dll", "nng.dll"], host, load);
        } else {
          return Err(UnexpectedPlatform(host.osDescription)), [];
        }
        return;
      }
      return Ok(Zero), [];
    }

    /** The four loads of one OS branch, from one directory, stopping at the first one that throws. */
    static method LoadFromDirectory(native: Path, files: seq<string>, host: Host, load: Loader)
      returns (r: Result<Handle, LoadException>, ghost events: seq<Event>)
      requires |files| == 4
      ensures r == Steps4(Framework, PrimitiveFor(Framework, host.os), load, native + [files[0]],
                          native + [files[1]], native + [files[2]], native + [files[3]]).result
      ensures events == Steps4(Framework, PrimitiveFor(Framework, host.os), load, native + [files[0]],
                               native + [files[1]], native + [files[2]], native + [files[3]]).events
    {
      var h, e := LoadUnmanagedDllFromPath(native + [files[0]], host, load);
      events := e;
      if h.Err? { return h, events; }
      h, e := LoadUnmanagedDllFromPath(native + [files[1]], host, load);
      events := events + e;
      if h.Err? { return h, events; }
      h, e := LoadUnmanagedDllFromPath(native + [files[2]], host, load);
      events := events + e;
      if h.Err? { return h, events; }
      r, e := LoadUnmanagedDllFromPath(native + [files[3]], host, load);
      events := events + e;
    }

    /** dlopen on Linux, LoadLibrary elsewhere; a Zero handle throws "Failed to load: " with the path. */
    static method LoadUnmanagedDllFromPath(unmanagedDllPath: Path, host: Host, load: Loader)
      returns (r: Result<Handle, LoadException>, ghost events: seq<Event>)
      ensures events == [NativeLoad(PrimitiveFor(Framework, host.os), unmanagedDllPath)]
      ensures var h := load(PrimitiveFor(Framework, host.os), unmanagedDllPath);
              r == if h == Zero then Err(FailedToLoad(unmanagedDllPath)) else Ok(h)
    {
      var ptr := Zero;
      if host.os == Linux {
        ptr := load(DlOpen, unmanagedDllPath);
        events := [NativeLoad(DlOpen, unmanagedDllPath)];
      } else {
        ptr := load(LoadLibrary, unmanagedDllPath);
        events := [NativeLoad(LoadLibrary, unmanagedDllPath)];
      }
      if ptr == Zero {
        return Err(FailedToLoad(unmanagedDllPath)), events;
      }
      return Ok(ptr), events;
    }
  }
}
