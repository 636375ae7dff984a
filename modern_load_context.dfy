/**
 * The AssemblyLoadContext variant of NngLoadContext in
 * nng.NET.Shared/AssemblyLoadContext.cs: Init only resolves nng.NET and
 * instantiates the factory; the runtime calls LoadUnmanagedDll when managed
 * code first needs "nng", and the loads go through the inherited
 * AssemblyLoadContext.LoadUnmanagedDllFromPath.
 */
module ModernLoadContext {
  import opened Results
  import opened NativeLoading

  /** Everything Init does: resolve the managed companion, then create the factory. */
  function ModernInitSpec(base: Path, tfm: TargetFramework, fileExists: Path -> bool, resolveType: TypeLookup,
                          factoryName: string): (o: InitOutcome)
    ensures |o.events| == 2 && o.events[0] == FileExists(SpecificManagedPath(base, tfm))
    ensures o.result.Ok? ==> o.result.value.typeName == factoryName
  {
    var managed := ManagedLoad(base, tfm, ManagedAssemblyName, fileExists);
    InitOutcome(CreateFactory(managed.assembly.value, factoryName, resolveType), managed.events)
  }

  /**
   * Init loads no native library: it probes the runtime-specific nng.NET,
   * loads one managed file, and then succeeds exactly when the factory type
   * is found and can be instantiated.
   */
  lemma ModernInitLoadsNoNative(base: Path, tfm: TargetFramework, fileExists: Path -> bool, resolveType: TypeLookup,
                                factoryName: string)
    ensures var o := ModernInitSpec(base, tfm, fileExists, resolveType, factoryName);
            var location := ManagedAssemblyPath(base, tfm, fileExists);
            && o.events == [FileExists(SpecificManagedPath(base, tfm)), AssemblyLoad(location)]
            && (forall e :: e in o.events ==> !e.NativeLoad?)
            && o.result == CreateFactory(Assembly(location), factoryName, resolveType)
            && (o.result.Ok? <==> resolveType(Assembly(location), factoryName) == Constructible)
  {
  }

  /** The resolver of this variant; target stands for the framework the library was compiled for. */
  class NngLoadContext {
    const assemblyPath: Path
    const target: TargetFramework

    constructor (path: Path, target: TargetFramework)
      ensures assemblyPath == path && this.target == target
    {
      assemblyPath := path;
      this.target := target;
    }

    /**
     * Asks the context for nng.NET, which it redirects through Load, then
     * creates an instance of the named factory type.
     */
    static method Init(loadContext: NngLoadContext, fileExists: Path -> bool, resolveType: TypeLookup,
                       factoryName: string := DefaultFactoryName)
      returns (r: Result<Factory, LoadException>, ghost events: seq<Event>)
      ensures r == ModernInitSpec(loadContext.assemblyPath, loadContext.target, fileExists, resolveType, factoryName).result
      ensures events == ModernInitSpec(loadContext.assemblyPath, loadContext.target, fileExists, resolveType, factoryName).events
    {
      var assem;
      assem, events := loadContext.Load(ManagedAssemblyName, fileExists);
      r := CreateFactory(assem.value, factoryName, resolveType);
    }

    /** Redirects nng.NET to the file for the compiled framework, or to the flat one when that is missing. */
    method Load(assemblyName: string, fileExists: Path -> bool) returns (r: Option<Assembly>, ghost events: seq<Event>)
      ensures r == ManagedLoad(assemblyPath, target, assemblyName, fileExists).assembly
      ensures events == ManagedLoad(assemblyPath, target, assemblyName, fileExists).events
    {
      if assemblyName == ManagedAssemblyName {
        // framework-specific managed assembly path
        var path := assemblyPath + ["runtimes", "any", "lib", target.Moniker(), ManagedAssemblyName + ".dll"];
        events := [FileExists(path)];
        if !fileExists(path) {
          // the same directory
          path := assemblyPath + [ManagedAssemblyName + ".dll"];
        }
        // the inherited LoadFromAssemblyPath: the assembly in that file
        return Some(Assembly(path)), events + [AssemblyLoad(path)];
      }
      // defer to the default context
      return None, [];
    }

    /**
     * For "nng": picks the architecture suffix and the OS's native directory,
     * macOS first, then loads crypto, x509, tls and nng from it, in that order.
     */
    method LoadUnmanagedDll(unmanagedDllName: string, host: Host, load: Loader)
      returns (r: Result<Handle, LoadException>, ghost events: seq<Event>)
      ensures r == UnmanagedLoad(Modern, assemblyPath, unmanagedDllName, host, load).result
      ensures events == UnmanagedLoad(Modern, assemblyPath, unmanagedDllName, host, load).events
    {
      if unmanagedDllName == NativeLibraryName {
        var is64bit := host.is64BitProcess;
        var arch := ArchSuffix(host.arch, is64bit);
        if host.os == OSX {
          var native := assemblyPath + ["runtimes", "osx" + arch, "native"];
          r, events := LoadFromDirectory(native, ["libmbedcrypto.dylib", "libmbedx509.dylib", "libmbedtls.dylib", "libnng.dylib"], load);
        } else if host.os == Linux {
          var native := assemblyPath + ["runtimes", "linux" + arch, "native"];
          r, events := LoadFromDirectory(native, ["libmbedcrypto.so", "libmbedx509.so", "libmbedtls.so", "libnng.so"], load);
        } else if host.os == Windows {
          var native := assemblyPath + ["runtimes", "win" + arch, "native"];
          r, events := LoadFromDirectory(native, ["mbedcrypto.dll", "mbedx509.dll", "mbedtls.dll", "nng.dll"], load);
        } else {
          return Err(UnexpectedPlatform(host.osDescription)), [];
        }
        return;
      }
      return Ok(Zero), [];
    }

    /** The four loads of one OS branch, from one directory, stopping at the first one that throws. */
    static method LoadFromDirectory(native: Path, files: seq<string>, load: Loader)
      returns (r: Result<Handle, LoadException>, ghost events: seq<Event>)
      requires |files| == 4
      ensures r == Steps4(Modern, BaseLoadFromPath, load, native + [files[0]], native + [files[1]],
                       native + [files[2]], native + [files[3]]).result
      ensures events == Steps4(Modern, BaseLoadFromPath, load, native + [files[0]], native + [files[1]],
                            native + [files[2]], native + [files[3]]).events
    {
      var h, e := LoadUnmanagedDllFromPath(native + [files[0]], load);
      events := e;
      if h.Err? { return h, events; }
      h, e := LoadUnmanagedDllFromPath(native + [files[1]], load);
      events := events + e;
      if h.Err? { return h, events; }
      h, e := LoadUnmanagedDllFromPath(native + [files[2]], load);
      events := events + e;
      if h.Err? { return h, events; }
      r, e := LoadUnmanagedDllFromPath(native + [files[3]], load);
      events := events + e;
    }

    /** The inherited loader: the library's handle, or an exception naming the path when it does not load. */
    static method LoadUnmanagedDllFromPath(unmanagedDllPath: Path, load: Loader)
      returns (r: Result<Handle, LoadException>, ghost events: seq<Event>)
      ensures events == [NativeLoad(BaseLoadFromPath, unmanagedDllPath)]
      ensures var h := load(BaseLoadFromPath, unmanagedDllPath);
              r == if h == Zero then Err(NativeLoadFailed(unmanagedDllPath)) else Ok(h)
    {
      var ptr := load(BaseLoadFromPath, unmanagedDllPath);
      events := [NativeLoad(BaseLoadFromPath, unmanagedDllPath)];
      if ptr == Zero {
        return Err(NativeLoadFailed(unmanagedDllPath)), events;
      }
      return Ok(ptr), events;
    }
  }
}
