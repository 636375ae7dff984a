/**
 * What both NngLoadContext variants of nng.NET.Shared/AssemblyLoadContext.cs
 * share: the host facts they read, the architecture suffix, the native
 * directory, the fixed four-library chain and the managed-assembly fallback,
 * stated as functions that the two variants' methods are proved against.
 */
module NativeLoading {
  import opened Results

  /** A file-system path as its segments; Path.Combine(a, b, c) is a + [b, c]. */
  type Path = seq<string>

  /** An IntPtr library handle; Zero is IntPtr.Zero, the "not loaded" answer. */
  type Handle = int
  const Zero: Handle := 0

  /** The only unmanaged name that triggers native loading. */
  const NativeLibraryName: string := "nng"
  /** The only managed name that the context redirects. */
  const ManagedAssemblyName: string := "nng.NET"
  /** The factory type Init instantiates when no name is given. */
  const DefaultFactoryName: string := "nng.Factories.Compat.Factory"

  /** The OS families RuntimeInformation.IsOSPlatform can report. */
  datatype OSPlatform = Linux | Windows | OSX | FreeBSD | OtherPlatform

  /** RuntimeInformation.ProcessArchitecture. */
  datatype Architecture = X86 | X64 | Arm | Arm64 | Wasm | S390x | LoongArch64 | Armv6 | Ppc64le | RiscV64

  /** The facts of the running process that the loader reads. */
  datatype Host = Host(os: OSPlatform, osDescription: string, arch: Architecture, is64BitProcess: bool)

  /** The .NET Framework copy of the loader, or the AssemblyLoadContext copy. */
  datatype Variant = Framework | Modern

  /** A family of prebuilt binaries under runtimes/. */
  datatype Family = LinuxFamily | WindowsFamily | OsxFamily {
    function Name(): string {
      match this
      case LinuxFamily => "linux"
      case WindowsFamily => "win"
      case OsxFamily => "osx"
    }

    /** The file names of the chain, in load order: crypto, x509, tls, nng. */
    function LibraryFiles(): (files: seq<string>)
      ensures |files| == 4
    {
      match this
      case LinuxFamily => ["libmbedcrypto.so", "libmbedx509.so", "libmbedtls.so", "libnng.so"]
      case WindowsFamily => ["mbedcrypto.dll", "mbedx509.dll", "mbedtls.dll", "nng.dll"]
      case OsxFamily => ["libmbedcrypto.dylib", "libmbedx509.dylib", "libmbedtls.dylib", "libnng.dylib"]
    }
  }

  /** The libraries of the chain; each later one links against the earlier ones. */
  datatype Library = MbedCrypto | MbedX509 | MbedTls | Nng {
    function Stem(): string {
      match this
      case MbedCrypto => "mbedcrypto"
      case MbedX509 => "mbedx509"
      case MbedTls => "mbedtls"
      case Nng => "nng"
    }
  }

  /** The order in which the chain is loaded. */
  const ChainOrder: seq<Library> := [MbedCrypto, MbedX509, MbedTls, Nng]

  /** Each OS's native naming convention: lib*.so, *.dll, lib*.dylib. */
  function NativeFileName(family: Family, lib: Library): string {
    match family
    case LinuxFamily => "lib" + lib.Stem() + ".so"
    case WindowsFamily => lib.Stem() + ".dll"
    case OsxFamily => "lib" + lib.Stem() + ".dylib"
  }

  /** The chain's file names under a family's naming convention, in load order. */
  function ConventionalFiles(family: Family): seq<string> {
    [NativeFileName(family, ChainOrder[0]), NativeFileName(family, ChainOrder[1]),
     NativeFileName(family, ChainOrder[2]), NativeFileName(family, ChainOrder[3])]
  }

  /** The Linux list is lib<stem>.so for crypto, x509, tls and nng. */
  lemma LinuxFilesFollowConvention()
    ensures LinuxFamily.LibraryFiles() == ConventionalFiles(LinuxFamily)
  {
    assert "lib" + "mbedcrypto" + ".so" == "libmbedcrypto.so";
    assert "lib" + "mbedx509" + ".so" == "libmbedx509.so";
    assert "lib" + "mbedtls" + ".so" == "libmbedtls.so";
    assert "lib" + "nng" + ".so" == "libnng.so";
  }

  /** The Windows list is <stem>.dll for crypto, x509, tls and nng. */
  lemma WindowsFilesFollowConvention()
    ensures WindowsFamily.LibraryFiles() == ConventionalFiles(WindowsFamily)
  {
    assert "mbedcrypto" + ".dll" == "mbedcrypto.dll";
    assert "mbedx509" + ".dll" == "mbedx509.dll";
    assert "mbedtls" + ".dll" == "mbedtls.dll";
    assert "nng" + ".dll" == "nng.dll";
  }

  /** The macOS list is lib<stem>.dylib for crypto, x509, tls and nng. */
  lemma OsxFilesFollowConvention()
    ensures OsxFamily.LibraryFiles() == ConventionalFiles(OsxFamily)
  {
    assert "lib" + "mbedcrypto" + ".dylib" == "libmbedcrypto.dylib";
    assert "lib" + "mbedx509" + ".dylib" == "libmbedx509.dylib";
    assert "lib" + "mbedtls" + ".dylib" == "libmbedtls.dylib";
    assert "lib" + "nng" + ".dylib" == "libnng.dylib";
  }

  /** Every family loads the chain, in order, under its own naming convention. */
  lemma LibraryFilesFollowConvention(family: Family)
    ensures family.LibraryFiles() == ConventionalFiles(family)
  {
    match family
    case LinuxFamily => LinuxFilesFollowConvention();
    case WindowsFamily => WindowsFilesFollowConvention();
    case OsxFamily => OsxFilesFollowConvention();
  }

  /**
   * The architecture suffix: -arm64 for Arm64, -arm for Arm, and for every
   * other architecture -x64 in a 64-bit process and -x86 otherwise.
   */
  function ArchSuffix(arch: Architecture, is64Bit: bool): (s: string)
    ensures s == "-arm64" <==> arch == Arm64
    ensures s == "-arm" <==> arch == Arm
    ensures s == "-x64" <==> arch != Arm64 && arch != Arm && is64Bit
    ensures s == "-x86" <==> arch != Arm64 && arch != Arm && !is64Bit
    ensures s in ["-arm64", "-arm", "-x64", "-x86"]
  {
    match arch
    case Arm64 => "-arm64"
    case Arm => "-arm"
    case _ => if is64Bit then "-x64" else "-x86"
  }

  /** Which binary family a variant loads on an OS; the Framework variant has no macOS branch. */
  function SupportedFamily(v: Variant, os: OSPlatform): (f: Option<Family>)
    ensures os == Linux ==> f == Some(LinuxFamily)
    ensures os == Windows ==> f == Some(WindowsFamily)
    ensures os == OSX ==> f == (if v == Modern then Some(OsxFamily) else None)
    ensures os != Linux && os != Windows && os != OSX ==> f == None
  {
    if v == Modern && os == OSX then Some(OsxFamily)
    else if os == Linux then Some(LinuxFamily)
    else if os == Windows then Some(WindowsFamily)
    else None
  }

  /** The platform primitive behind one load. */
  datatype Primitive = DlOpen | LoadLibrary | BaseLoadFromPath

  /**
   * The Framework variant calls dlopen on Linux and LoadLibrary elsewhere;
   * the modern variant calls the inherited AssemblyLoadContext method.
   */
  function PrimitiveFor(v: Variant, os: OSPlatform): (p: Primitive)
    ensures p == BaseLoadFromPath <==> v == Modern
    ensures p == DlOpen <==> v.Framework? && os == Linux
    ensures p == LoadLibrary <==> v.Framework? && os != Linux
  {
    if v == Modern then BaseLoadFromPath
    else if os == Linux then DlOpen
    else LoadLibrary
  }

  /** The native loaders: a handle for a path, or Zero when the library did not load. */
  type Loader = (Primitive, Path) -> Handle

  /** The observable effects, in order: native loads, file-existence probes, managed loads. */
  datatype Event =
    | NativeLoad(primitive: Primitive, path: Path)
    | FileExists(path: Path)
    | AssemblyLoad(path: Path)

  /** The exceptions the loader raises. */
  datatype LoadException =
    | FailedToLoad(path: Path)              // "Failed to load: " + path, raised by the Framework variant
    | NativeLoadFailed(path: Path)          // raised by the inherited loader of the modern variant
    | UnexpectedPlatform(osDescription: string)
    | TypeNotFound(typeName: string)        // GetType gave null, so Activator.CreateInstance(null) throws
    | InstantiationFailed(typeName: string) // the type was found but Activator.CreateInstance threw
  {
    /** The text of the two exceptions whose wording the loader itself chooses. */
    function Message(render: Path -> string): (m: string)
      requires FailedToLoad? || UnexpectedPlatform?
      ensures FailedToLoad? ==> m == "Failed to load: " + render(path)
      ensures UnexpectedPlatform? ==> m == "Unexpected runtime OS platform: " + osDescription
    {
      if FailedToLoad? then "Failed to load: " + render(path)
      else "Unexpected runtime OS platform: " + osDescription
    }
  }

  /** How a chain failure at a path is reported by each variant. */
  function ChainFailure(v: Variant, p: Path): LoadException {
    if v == Framework then FailedToLoad(p) else NativeLoadFailed(p)
  }

  /** The directory base/runtimes/<family><suffix>/native. */
  function NativeDirectory(base: Path, family: Family, suffix: string): (d: Path)
    ensures base < d && |d| == |base| + 3
    ensures d[|base|] == "runtimes" && d[|base| + 1] == family.Name() + suffix && d[|base| + 2] == "native"
  {
    base + ["runtimes", family.Name() + suffix, "native"]
  }

  /** The four files of the chain inside a directory, in load order. */
  function LibraryPaths(dir: Path, family: Family): (ps: seq<Path>)
    ensures |ps| == 4
    ensures forall i :: 0 <= i < 4 ==> ps[i] == dir + [family.LibraryFiles()[i]]
  {
    var files := family.LibraryFiles();
    [dir + [files[0]], dir + [files[1]], dir + [files[2]], dir + [files[3]]]
  }

  /** Two runtime directory names agree only when family and suffix agree. */
  lemma RuntimeDirectoryDetermined(f1: Family, a1: Architecture, b1: bool, f2: Family, a2: Architecture, b2: bool)
    requires f1.Name() + ArchSuffix(a1, b1) == f2.Name() + ArchSuffix(a2, b2)
    ensures f1 == f2 && ArchSuffix(a1, b1) == ArchSuffix(a2, b2)
  {
    var n1, n2 := f1.Name(), f2.Name();
    var s1, s2 := ArchSuffix(a1, b1), ArchSuffix(a2, b2);
    var r := n1 + s1;
    assert n1[0] == r[0] == n2[0];
    assert n1 == n2 by {
      assert n1 == "linux" || n1 == "win" || n1 == "osx";
      assert n2 == "linux" || n2 == "win" || n2 == "osx";
    }
    assert s1 == r[|n1|..] == s2;
  }

  /**
   * Two processes get the same suffix exactly when both run on Arm64, both on
   * Arm, or both on some other architecture with the same bitness: the
   * suffix tells Arm64 and Arm apart and nothing else.
   */
  lemma SuffixSharedByBitness(a1: Architecture, b1: bool, a2: Architecture, b2: bool)
    ensures ArchSuffix(a1, b1) == ArchSuffix(a2, b2) <==>
              || (a1 == Arm64 && a2 == Arm64)
              || (a1 == Arm && a2 == Arm)
              || (a1 != Arm64 && a1 != Arm && a2 != Arm64 && a2 != Arm && b1 == b2)
  {
  }

  /**
   * On one OS, every architecture other than Arm and Arm64 loads the same four
   * files as any other such architecture of the same bitness: 64-bit X64 and
   * LoongArch64 both use the -x64 directory, 32-bit X86 and Armv6 the -x86 one.
   */
  lemma ArchitecturesShareDirectory(v: Variant, base: Path, h1: Host, h2: Host)
    requires SupportedFamily(v, h1.os).Some? && h2.os == h1.os
    requires h1.arch != Arm && h1.arch != Arm64 && h2.arch != Arm && h2.arch != Arm64
    requires h1.is64BitProcess == h2.is64BitProcess
    ensures HostLibraryPaths(v, base, h1) == HostLibraryPaths(v, base, h2)
  {
  }

  /** The outcome of a sequence of loads: a handle or the failing path, and the loads attempted. */
  datatype ChainOutcome = ChainOutcome(result: Result<Handle, Path>, events: seq<Event>)

  /**
   * Loading a chain: each path in turn, stopping at the first Zero handle;
   * on success the handle of the last path.
   */
  function Chain(load: Loader, prim: Primitive, paths: seq<Path>): (o: ChainOutcome)
    requires |paths| > 0
    ensures 0 < |o.events| <= |paths|
    ensures forall i :: 0 <= i < |o.events| ==> o.events[i] == NativeLoad(prim, paths[i])
    ensures forall i :: 0 <= i < |o.events| - 1 ==> load(prim, paths[i]) != Zero
    ensures o.result.Err? ==> o.result.error == paths[|o.events| - 1] && load(prim, o.result.error) == Zero
    ensures o.result.Ok? ==> |o.events| == |paths| && o.result.value == load(prim, paths[|paths| - 1])
    ensures o.result.Ok? ==> o.result.value != Zero
    decreases |paths|
  {
    var h := load(prim, paths[0]);
    if h == Zero then ChainOutcome(Err(paths[0]), [NativeLoad(prim, paths[0])])
    else if |paths| == 1 then ChainOutcome(Ok(h), [NativeLoad(prim, paths[0])])
    else
      var rest := Chain(load, prim, paths[1..]);
      ChainOutcome(rest.result, [NativeLoad(prim, paths[0])] + rest.events)
  }

  /** The chain of four, step by step: each load is attempted only after all earlier ones succeeded. */
  lemma Chain4(load: Loader, prim: Primitive, a: Path, b: Path, c: Path, d: Path)
    ensures Chain(load, prim, [a, b, c, d]) ==
      var ea, eb, ec, ed := NativeLoad(prim, a), NativeLoad(prim, b), NativeLoad(prim, c), NativeLoad(prim, d);
      if load(prim, a) == Zero then ChainOutcome(Err(a), [ea])
      else if load(prim, b) == Zero then ChainOutcome(Err(b), [ea, eb])
      else if load(prim, c) == Zero then ChainOutcome(Err(c), [ea, eb, ec])
      else if load(prim, d) == Zero then ChainOutcome(Err(d), [ea, eb, ec, ed])
      else ChainOutcome(Ok(load(prim, d)), [ea, eb, ec, ed])
  {
    var ea, eb, ec, ed := NativeLoad(prim, a), NativeLoad(prim, b), NativeLoad(prim, c), NativeLoad(prim, d);
    var od := Chain(load, prim, [d]);
    assert od == if load(prim, d) == Zero then ChainOutcome(Err(d), [ed]) else ChainOutcome(Ok(load(prim, d)), [ed]);
    assert [c, d][1..] == [d];
    var oc := Chain(load, prim, [c, d]);
    assert oc == if load(prim, c) == Zero then ChainOutcome(Err(c), [ec]) else ChainOutcome(od.result, [ec] + od.events);
    assert [b, c, d][1..] == [c, d];
    var ob := Chain(load, prim, [b, c, d]);
    assert ob == if load(prim, b) == Zero then ChainOutcome(Err(b), [eb]) else ChainOutcome(oc.result, [eb] + oc.events);
    assert [a, b, c, d][1..] == [b, c, d];
  }

  /** Four loads in order, each attempted only when all earlier ones gave a handle. */
  function Steps4(v: Variant, prim: Primitive, load: Loader, a: Path, b: Path, c: Path, d: Path): (o: LoadOutcome)
    ensures 0 < |o.events| <= 4
    ensures o.events <= [NativeLoad(prim, a), NativeLoad(prim, b), NativeLoad(prim, c), NativeLoad(prim, d)]
    ensures o.result.Ok? <==> load(prim, a) != Zero && load(prim, b) != Zero && load(prim, c) != Zero && load(prim, d) != Zero
    ensures o.result.Ok? ==> o.result.value == load(prim, d)
    ensures o.result.Err? ==> o.result.error == ChainFailure(v, [a, b, c, d][|o.events| - 1])
  {
    var ea, eb, ec, ed := NativeLoad(prim, a), NativeLoad(prim, b), NativeLoad(prim, c), NativeLoad(prim, d);
    if load(prim, a) == Zero then LoadOutcome(Err(ChainFailure(v, a)), [ea])
    else if load(prim, b) == Zero then LoadOutcome(Err(ChainFailure(v, b)), [ea, eb])
    else if load(prim, c) == Zero then LoadOutcome(Err(ChainFailure(v, c)), [ea, eb, ec])
    else if load(prim, d) == Zero then LoadOutcome(Err(ChainFailure(v, d)), [ea, eb, ec, ed])
    else LoadOutcome(Ok(load(prim, d)), [ea, eb, ec, ed])
  }

  /** A Zero handle at position j means the chain fails there or earlier: nothing after j is attempted. */
  lemma NoLoadAfterFailure(load: Loader, prim: Primitive, paths: seq<Path>, j: nat)
    requires j < |paths| && load(prim, paths[j]) == Zero
    ensures Chain(load, prim, paths).result.Err?
    ensures |Chain(load, prim, paths).events| <= j + 1
  {
    var o := Chain(load, prim, paths);
    assert !(j < |o.events| - 1);
  }

  /** When every load succeeds, every path is attempted in order and the last handle is returned. */
  lemma ChainSucceeds(load: Loader, prim: Primitive, paths: seq<Path>)
    requires |paths| > 0
    requires forall i :: 0 <= i < |paths| ==> load(prim, paths[i]) != Zero
    ensures Chain(load, prim, paths) ==
      ChainOutcome(Ok(load(prim, paths[|paths| - 1])), seq(|paths|, i requires 0 <= i < |paths| => NativeLoad(prim, paths[i])))
  {

  }

  /** The outcome of LoadUnmanagedDll: a handle or an exception, and the loads attempted. */
  datatype LoadOutcome = LoadOutcome(result: Result<Handle, LoadException>, events: seq<Event>)

  /** The libraries a variant would load for a host from a base path, when its OS is supported. */
  function HostLibraryPaths(v: Variant, base: Path, host: Host): (ps: seq<Path>)
    requires SupportedFamily(v, host.os).Some?
    ensures |ps| == 4
  {
    var family := SupportedFamily(v, host.os).value;
    LibraryPaths(NativeDirectory(base, family, ArchSuffix(host.arch, host.is64BitProcess)), family)
  }

  /**
   * LoadUnmanagedDll: only "nng" loads anything; an unsupported OS throws
   * before any load; otherwise the chain from the native directory, in order,
   * stopping at the first Zero with the failing path.
   */
  function UnmanagedLoad(v: Variant, base: Path, name: string, host: Host, load: Loader): (o: LoadOutcome)
    ensures |o.events| <= 4
    ensures o.events == [] <==> name != NativeLibraryName || SupportedFamily(v, host.os).None?
    ensures o.result == Ok(Zero) <==> name != NativeLibraryName
  {
    if name != NativeLibraryName then LoadOutcome(Ok(Zero), [])
    else match SupportedFamily(v, host.os)
      case None => LoadOutcome(Err(UnexpectedPlatform(host.osDescription)), [])
      case Some(family) =>
        var dir := NativeDirectory(base, family, ArchSuffix(host.arch, host.is64BitProcess));
        var files := family.LibraryFiles();
        Steps4(v, PrimitiveFor(v, host.os), load, dir + [files[0]], dir + [files[1]], dir + [files[2]], dir + [files[3]])
  }

  /** LoadUnmanagedDll("nng") on a supported OS is the general chain over its four library paths. */
  lemma UnmanagedLoadIsChain(v: Variant, base: Path, host: Host, load: Loader)
    requires SupportedFamily(v, host.os).Some?
    ensures var c := Chain(load, PrimitiveFor(v, host.os), HostLibraryPaths(v, base, host));
            UnmanagedLoad(v, base, NativeLibraryName, host, load) ==
              LoadOutcome(if c.result.Ok? then Ok(c.result.value) else Err(ChainFailure(v, c.result.error)), c.events)
  {
    var ps := HostLibraryPaths(v, base, host);
    assert ps == [ps[0], ps[1], ps[2], ps[3]];
    Chain4(load, PrimitiveFor(v, host.os), ps[0], ps[1], ps[2], ps[3]);
  }

  /**
   * What LoadUnmanagedDll promises: other names load nothing and return Zero;
   * an unsupported OS throws before any load; otherwise the libraries are
   * attempted in chain order, each only after the previous ones loaded, and
   * the outcome is nng's own handle or the exception naming the first path
   * that gave Zero.
   */
  lemma UnmanagedLoadContract(v: Variant, base: Path, name: string, host: Host, load: Loader)
    ensures var o := UnmanagedLoad(v, base, name, host, load);
      && (name != NativeLibraryName ==> o == LoadOutcome(Ok(Zero), []))
      && (name == NativeLibraryName && SupportedFamily(v, host.os).None? ==>
            o == LoadOutcome(Err(UnexpectedPlatform(host.osDescription)), []))
      && (name == NativeLibraryName && SupportedFamily(v, host.os).Some? ==>
            var paths := HostLibraryPaths(v, base, host);
            var prim := PrimitiveFor(v, host.os);
            && 0 < |o.events| <= 4
            && (forall i :: 0 <= i < |o.events| ==> o.events[i] == NativeLoad(prim, paths[i]))
            && (forall i :: 0 <= i < |o.events| - 1 ==> load(prim, paths[i]) != Zero)
            && (o.result.Ok? <==> |o.events| == 4 && load(prim, paths[3]) != Zero)
            && (o.result.Ok? ==> o.result.value == load(prim, paths[3]) && o.result.value != Zero)
            && (o.result.Err? ==> o.result.error == ChainFailure(v, paths[|o.events| - 1])
                                  && load(prim, paths[|o.events| - 1]) == Zero))
  {
    if name == NativeLibraryName && SupportedFamily(v, host.os).Some? {
      UnmanagedLoadIsChain(v, base, host, load);
    }
  }

  /** The Framework variant has no macOS branch: there it throws before any load; the modern variant loads the dylibs. */
  lemma MacOSOnlyInModernVariant(base: Path, host: Host, load: Loader)
    requires host.os == OSX
    ensures UnmanagedLoad(Framework, base, NativeLibraryName, host, load) ==
            LoadOutcome(Err(UnexpectedPlatform(host.osDescription)), [])
    ensures var o := UnmanagedLoad(Modern, base, NativeLibraryName, host, load);
            o.events[0] == NativeLoad(BaseLoadFromPath, base + ["runtimes", "osx" + ArchSuffix(host.arch, host.is64BitProcess), "native", "libmbedcrypto.dylib"])
  {

  }

  /** Every effect of LoadUnmanagedDll is a native load. */
  lemma UnmanagedLoadOnlyLoadsNatively(v: Variant, base: Path, name: string, host: Host, load: Loader)
    ensures forall e :: e in UnmanagedLoad(v, base, name, host, load).events ==> e.NativeLoad?
  {
    var o := UnmanagedLoad(v, base, name, host, load);
    UnmanagedLoadContract(v, base, name, host, load);
    forall e | e in o.events ensures e.NativeLoad? {
      var i :| 0 <= i < |o.events| && o.events[i] == e;
    }
  }

  /** The example layout: /opt/app on 64-bit Linux loads the four .so files from runtimes/linux-x64/native. */
  lemma LinuxX64Layout(load: Loader)
    requires forall p: Path :: load(DlOpen, p) != Zero
    ensures var host := Host(Linux, "Linux", X64, true);
            var dir := ["/opt/app", "runtimes", "linux-x64", "native"];
            UnmanagedLoad(Framework, ["/opt/app"], "nng", host, load) ==
              LoadOutcome(Ok(load(DlOpen, dir + ["libnng.so"])),
                          [NativeLoad(DlOpen, dir + ["libmbedcrypto.so"]), NativeLoad(DlOpen, dir + ["libmbedx509.so"]),
                           NativeLoad(DlOpen, dir + ["libmbedtls.so"]), NativeLoad(DlOpen, dir + ["libnng.so"])])
  {
    var host := Host(Linux, "Linux", X64, true);
    var dir := ["/opt/app", "runtimes", "linux-x64", "native"];
    assert "linux" + "-x64" == "linux-x64";
    assert NativeDirectory(["/opt/app"], LinuxFamily, ArchSuffix(X64, true)) == dir;
    var paths := HostLibraryPaths(Framework, ["/opt/app"], host);
    assert paths == [dir + ["libmbedcrypto.so"], dir + ["libmbedx509.so"], dir + ["libmbedtls.so"], dir + ["libnng.so"]];
    ChainSucceeds(load, DlOpen, paths);
  }

  /** The target frameworks a managed assembly is published for. */
  datatype TargetFramework = NetStandard20 | Net462 | Net60 | Net80 {
    function Moniker(): string {
      match this
      case NetStandard20 => "netstandard2.0"
      case Net462 => "net462"
      case Net60 => "net6.0"
      case Net80 => "net8.0"
    }
  }

  /** The managed companion's file name. */
  const ManagedFileName: string := ManagedAssemblyName + ".dll"

  /** The runtime-specific location base/runtimes/any/lib/<tfm>/nng.NET.dll. */
  function SpecificManagedPath(base: Path, tfm: TargetFramework): Path {
    base + ["runtimes", "any", "lib", tfm.Moniker(), ManagedFileName]
  }

  /** The flat location base/nng.NET.dll. */
  function FlatManagedPath(base: Path): Path {
    base + [ManagedFileName]
  }

  /** The managed companion: the runtime-specific file when it exists, else the flat one. */
  function ManagedAssemblyPath(base: Path, tfm: TargetFramework, fileExists: Path -> bool): (p: Path)
    ensures p == SpecificManagedPath(base, tfm) <==> fileExists(SpecificManagedPath(base, tfm))
    ensures p != SpecificManagedPath(base, tfm) ==> p == FlatManagedPath(base)
    ensures base < p && p[|p| - 1] == ManagedFileName
  {
    var specific := SpecificManagedPath(base, tfm);
    if fileExists(specific) then specific else FlatManagedPath(base)
  }

  /** A loaded managed assembly, identified by the file it came from. */
  datatype Assembly = Assembly(location: Path)

  /** The outcome of Load: the assembly (None for null) and the probes and loads made. */
  datatype ManagedOutcome = ManagedOutcome(assembly: Option<Assembly>, events: seq<Event>)

  /**
   * Load: only "nng.NET" is redirected, by probing the runtime-specific file
   * and loading it or the flat fallback; every other name gives null.
   */
  function ManagedLoad(base: Path, tfm: TargetFramework, name: string, fileExists: Path -> bool): (o: ManagedOutcome)
    ensures name != ManagedAssemblyName ==> o == ManagedOutcome(None, [])
    ensures name == ManagedAssemblyName ==>
      && o.assembly == Some(Assembly(ManagedAssemblyPath(base, tfm, fileExists)))
      && o.events == [FileExists(SpecificManagedPath(base, tfm)), AssemblyLoad(o.assembly.value.location)]
  {
    if name == ManagedAssemblyName then
      var p := ManagedAssemblyPath(base, tfm, fileExists);
      ManagedOutcome(Some(Assembly(p)), [FileExists(SpecificManagedPath(base, tfm)), AssemblyLoad(p)])
    else ManagedOutcome(None, [])
  }

  /** An instance of the factory type, named by its assembly and type name. */
  datatype Factory = Factory(assembly: Assembly, typeName: string)

  /**
   * What reflection gives for a type name in an assembly: no type (GetType
   * answers null), a type whose public parameterless constructor runs, or a
   * type that Activator.CreateInstance cannot instantiate (no such
   * constructor, or the constructor throws).
   */
  datatype TypeResolution = NoType | Constructible | NotConstructible

  /** Assembly.GetType followed by what Activator.CreateInstance does with the type found. */
  type TypeLookup = (Assembly, string) -> TypeResolution

  /** The outcome of Init: the factory or an exception, and every effect in order. */
  datatype InitOutcome = InitOutcome(result: Result<Factory, LoadException>, events: seq<Event>)

  /** GetType then Activator.CreateInstance on the resolved assembly. */
  function CreateFactory(assembly: Assembly, typeName: string, resolveType: TypeLookup): (r: Result<Factory, LoadException>)
    ensures r.Ok? <==> resolveType(assembly, typeName) == Constructible
    ensures r.Ok? ==> r.value == Factory(assembly, typeName)
    ensures resolveType(assembly, typeName) == NoType ==> r == Err(TypeNotFound(typeName))
    ensures resolveType(assembly, typeName) == NotConstructible ==> r == Err(InstantiationFailed(typeName))
  {
    match resolveType(assembly, typeName)
    case NoType => Err(TypeNotFound(typeName))
    case NotConstructible => Err(InstantiationFailed(typeName))
    case Constructible => Ok(Factory(assembly, typeName))
  }
}
