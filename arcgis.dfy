/** The ArcGIS side of GeoEco: the module-global geoprocessor and its wrapper,
    the cached installation information, the `ArcGISDependency` checks and the
    description it prints, the metadata validator for methods exposed as
    geoprocessing tools, and the conversions between GeoEco's and the
    geoprocessor's preferred value types. */
module ArcGIS {
  import opened Wrappers
  import opened PyStr
  import opened PyDict

  /** What the install-information code and its callers raise. */
  datatype ArcError =
    | NameError(name: string)
    | KeyError(key: string)
    | ArcpyImportFailed
    | WrapFailed
    | NoVersionInInstallInfo
    | UnparsableVersion(key: string, shown: string)
    | NoProductNameInInstallInfo

  /** The outcome of the calls a `GeoprocessorManager` makes into `arcpy`:
      the module `import arcpy` yields (None when the import raises), whether
      wrapping it raises, and the dictionary `GetInstallInfo()` returns, with
      each value as its `str()` text. */
  datatype InstallOracle = InstallOracle(arcpy: Option<nat>, wrapRaises: bool, info: Dict<string, string>)

  const ProVersionKey := "ProVersion"
  const VersionKeyName := "Version"
  const ProductNameKey := "ProductName"
  const LicenseLevelKey := "LicenseLevel"

  /** 'ProVersion' is read when present, 'Version' otherwise. */
  function VersionKey(info: Dict<string, string>): (k: string)
    ensures k == ProVersionKey <==> ProVersionKey in Keys(info)
    ensures k == VersionKeyName <==> ProVersionKey !in Keys(info)
  {
    if ProVersionKey in Keys(info) then ProVersionKey else VersionKeyName
  }

  /** The version a 'major.minor' or 'major.minor.patch' text denotes; patch
      defaults to 0. */
  function ParsedVersion(text: string): Option<(int, int, int)> {
    var c := SplitOn(text, '.');
    if |c| != 2 && |c| != 3 then None
    else
      match (ParseInt(c[0]), ParseInt(c[1]), if |c| == 3 then ParseInt(c[2]) else Some(0))
      case (Some(a), Some(b), Some(p)) => Some((a, b, p))
      case _ => None
  }

  /** `'%i.%i.%i' % (major, minor, patch)`. */
  function VersionText(major: int, minor: int, patch: int): string {
    IntToString(major) + "." + IntToString(minor) + "." + IntToString(patch)
  }

  /** A three-part version text parses back to its numbers, a two-part one to
      patch 0. */
  lemma VersionTextParses(major: int, minor: int, patch: int)
    ensures ParsedVersion(VersionText(major, minor, patch)) == Some((major, minor, patch))
    ensures ParsedVersion(IntToString(major) + "." + IntToString(minor)) == Some((major, minor, 0))
  {
    var a, b, p := IntToString(major), IntToString(minor), IntToString(patch);
    ParseIntOfIntToString(major);
    ParseIntOfIntToString(minor);
    ParseIntOfIntToString(patch);
    VersionPartsHaveNoDot(major, minor, patch);
    SplitVersionText(a, b, p);
    assert VersionText(major, minor, patch) == a + "." + b + "." + p;
  }

  lemma SplitVersionText(a: string, b: string, p: string)
    requires '.' !in a && '.' !in b && '.' !in p
    ensures SplitOn(a + "." + b + "." + p, '.') == [a, b, p]
    ensures SplitOn(a + "." + b, '.') == [a, b]
  {
    SplitOnNoSep(p, '.');
    SplitOnConcat(b, p, '.');
    assert a + "." + b + "." + p == a + ['.'] + (b + ['.'] + p);
    SplitOnConcat(a, b + ['.'] + p, '.');
    SplitOnNoSep(b, '.');
    assert a + "." + b == a + ['.'] + b;
    SplitOnConcat(a, b, '.');
  }

  /** No version part contains a dot. */
  lemma VersionPartsHaveNoDot(major: int, minor: int, patch: int)
    ensures '.' !in IntToString(major) && '.' !in IntToString(minor) && '.' !in IntToString(patch)
  {
    IntToStringChars(major, '.');
    IntToStringChars(minor, '.');
    IntToStringChars(patch, '.');
  }

  /** The `try` block that parses a version text, one number after another:
      the numbers parsed before a failure are still stored, so a failure
      part-way leaves the major version (and perhaps the minor) set. */
  method ParseVersion(text: string) returns (major: Option<int>, minor: Option<int>, patch: Option<int>)
    ensures (minor.Some? ==> major.Some?) && (patch.Some? ==> minor.Some?)
    ensures patch.Some? <==> ParsedVersion(text).Some?
    ensures patch.Some? ==> (major.value, minor.value, patch.value) == ParsedVersion(text).value
    ensures
      var c := SplitOn(text, '.');
      major == (if 2 <= |c| <= 3 then ParseInt(c[0]) else None)
    ensures
      var c := SplitOn(text, '.');
      minor == (if 2 <= |c| <= 3 && ParseInt(c[0]).Some? then ParseInt(c[1]) else None)
  {
    major, minor, patch := None, None, None;
    var components := SplitOn(text, '.');
    if |components| != 2 && |components| != 3 {
      return;
    }
    major := ParseInt(components[0]);
    if major.None? {
      return;
    }
    minor := ParseInt(components[1]);
    if minor.None? {
      return;
    }
    patch := if |components| == 3 then ParseInt(components[2]) else Some(0);
  }

  /** The version the install information holds, under the key that is read. */
  function VersionOf(info: Dict<string, string>): (r: Option<(int, int, int)>)
    ensures r.Some? ==> VersionKey(info) in Keys(info)
  {
    match Get(info, VersionKey(info))
    case None => None
    case Some(text) => ParsedVersion(text)
  }

  /** The major version a failed parse still stores: the first of two or
      three parts, when it reads as an integer. */
  function PartialMajor(info: Dict<string, string>): Option<int> {
    match Get(info, VersionKey(info))
    case None => None
    case Some(text) =>
      var c := SplitOn(text, '.');
      if 2 <= |c| <= 3 then ParseInt(c[0]) else None
  }

  /** The minor version a failed parse still stores: the second of two or
      three parts, when both it and the first read as integers. */
  function PartialMinor(info: Dict<string, string>): Option<int> {
    match Get(info, VersionKey(info))
    case None => None
    case Some(text) =>
      var c := SplitOn(text, '.');
      if 2 <= |c| <= 3 && ParseInt(c[0]).Some? then ParseInt(c[1]) else None
  }

  /** The error reading the install information raises, given the
      geoprocessor already held: importing or wrapping `arcpy`, a missing
      version item, a version that does not parse, a missing product name,
      in that order. */
  function InstallInfoError(held: Option<nat>, o: InstallOracle): Option<ArcError> {
    if held.None? && o.arcpy.None? then Some(ArcpyImportFailed)
    else if held.None? && o.wrapRaises then Some(WrapFailed)
    else if VersionKey(o.info) !in Keys(o.info) then Some(NoVersionInInstallInfo)
    else if VersionOf(o.info).None? then Some(ParseFailure(o.info, VersionKey(o.info)))
    else if ProductNameKey !in Keys(o.info) then Some(NoProductNameInInstallInfo)
    else None
  }

  /** Reading the install information succeeds exactly when a geoprocessor is
      held or `arcpy` imports and wraps, and the information holds a version
      that parses and a product name; readable information always succeeds. */
  lemma InstallInfoSucceeds(held: Option<nat>, o: InstallOracle)
    ensures InstallInfoError(held, o).None? <==>
      (held.Some? || (o.arcpy.Some? && !o.wrapRaises)) && VersionOf(o.info).Some? && ProductNameKey in Keys(o.info)
    ensures Readable(o) ==> InstallInfoError(held, o).None?
  {
  }

  /** Install information from which a version and a product name can be read,
      on a machine where `arcpy` imports and wraps. */
  predicate Readable(o: InstallOracle) {
    o.arcpy.Some? && !o.wrapRaises && VersionOf(o.info).Some? && ProductNameKey in Keys(o.info)
  }

  lemma ParsedVersionParts(text: string)
    ensures ParsedVersion(text).Some? ==> 2 <= |SplitOn(text, '.')| <= 3
    ensures ParsedVersion(text).Some? && |SplitOn(text, '.')| == 2 ==> ParsedVersion(text).value.2 == 0
  {
  }

  /** The module globals `_Geoprocessor` and `_WrappedGeoprocessor` and the
      class attributes in which `GeoprocessorManager` caches the installation
      information. A geoprocessor is an opaque handle; the wrapper of handle
      `g` is represented by `g` itself. */
  class GeoprocessorManager {
    var geoprocessor: Option<nat>
    var wrapped: Option<nat>
    var majorVersion: Option<int>
    var minorVersion: Option<int>
    var patchVersion: Option<int>
    /** `_ArcGISProductName`, which `GetArcGISProductName` returns. */
    var arcGISProductName: Option<string>
    /** `_ProductName`, where the install-information code stores the product. */
    var productName: Option<string>
    var licenseLevel: Option<string>

    /** Both globals are set, to the same geoprocessor, or both are None. */
    ghost predicate Valid()
      reads this
    {
      wrapped == geoprocessor
    }

    /** The state at module import: nothing held, nothing cached. */
    constructor ()
      ensures Valid()
      ensures geoprocessor.None? && majorVersion.None? && minorVersion.None? && patchVersion.None?
      ensures arcGISProductName.None? && productName.None? && licenseLevel.None?
    {
      geoprocessor := None;
      wrapped := None;
      majorVersion := None;
      minorVersion := None;
      patchVersion := None;
      arcGISProductName := None;
      productName := None;
      licenseLevel := None;
    }

    function GetGeoprocessor(): (r: Option<nat>)
      reads this
      ensures Valid() ==> r == wrapped
    {
      geoprocessor
    }

    /** Hands over a geoprocessor, or releases the one held when given None.
        Wrapping may raise, in which case both globals are reset. */
    method SetGeoprocessor(g: Option<nat>, wrapRaises: bool) returns (err: Option<ArcError>)
      requires Valid()
      modifies this
      ensures Valid()
      ensures g.Some? && !wrapRaises ==> geoprocessor == g && err.None?
      ensures g.Some? && wrapRaises ==> geoprocessor.None? && err == Some(WrapFailed)
      ensures g.None? ==> geoprocessor.None? && err.None?
      ensures majorVersion == old(majorVersion) && minorVersion == old(minorVersion) && patchVersion == old(patchVersion)
      ensures arcGISProductName == old(arcGISProductName) && productName == old(productName)
      ensures licenseLevel == old(licenseLevel)
    {
      err := None;
      if g.Some? {
        geoprocessor := g;
        if wrapRaises {
          wrapped := None;
          geoprocessor := None;
          err := Some(WrapFailed);
        } else {
          wrapped := g;
        }
      } else if geoprocessor.Some? {
        wrapped := None;
        geoprocessor := None;
      }
    }

    /** Imports `arcpy` and hands it over, unless a geoprocessor is held. */
    method InitializeGeoprocessor(arcpy: Option<nat>, wrapRaises: bool) returns (err: Option<ArcError>)
      requires Valid()
      modifies this
      ensures Valid()
      ensures old(geoprocessor).Some? ==> err.None? && geoprocessor == old(geoprocessor)
      ensures old(geoprocessor).None? && arcpy.None? ==> err == Some(ArcpyImportFailed) && geoprocessor.None?
      ensures old(geoprocessor).None? && arcpy.Some? ==>
        if wrapRaises then err == Some(WrapFailed) && geoprocessor.None? else err.None? && geoprocessor == arcpy
      ensures err.None? ==> geoprocessor.Some?
      ensures majorVersion == old(majorVersion) && minorVersion == old(minorVersion) && patchVersion == old(patchVersion)
      ensures arcGISProductName == old(arcGISProductName) && productName == old(productName)
      ensures licenseLevel == old(licenseLevel)
    {
      if GetGeoprocessor().Some? {
        return None;
      }
      if arcpy.None? {
        return Some(ArcpyImportFailed);
      }
      err := SetGeoprocessor(arcpy, wrapRaises);
    }

    /** The caching entry point as written: with nothing cached, it sets up the
        geoprocessor and then calls `GetWrappedGeoprocessor` as a bare name,
        which no module-level definition provides. */
    method GetInstallInfoAsWritten(o: InstallOracle) returns (err: Option<ArcError>)
      requires Valid()
      modifies this
      ensures Valid()
      ensures old(majorVersion).Some? ==> err.None? && geoprocessor == old(geoprocessor)
      ensures old(majorVersion).None? && (old(geoprocessor).Some? || (o.arcpy.Some? && !o.wrapRaises)) ==>
        err == Some(NameError("GetWrappedGeoprocessor"))
      ensures majorVersion == old(majorVersion) && minorVersion == old(minorVersion) && patchVersion == old(patchVersion)
      ensures arcGISProductName == old(arcGISProductName) && productName == old(productName)
    {
      if majorVersion.Some? {
        return None;
      }
      err := InitializeGeoprocessor(o.arcpy, o.wrapRaises);
      if err.Some? {
        return;
      }
      err := Some(NameError("GetWrappedGeoprocessor"));
    }

    /** The caching entry point with the wrapped geoprocessor obtained through
        the class: the install information is read at most once, the version
        first and the product name and licence level after it. */
    method GetInstallInfo(o: InstallOracle) returns (err: Option<ArcError>)
      requires Valid()
      modifies this
      ensures Valid()
      ensures old(majorVersion).Some? ==>
        err.None? && majorVersion == old(majorVersion) && minorVersion == old(minorVersion) &&
        patchVersion == old(patchVersion) && arcGISProductName == old(arcGISProductName) &&
        licenseLevel == old(licenseLevel) && geoprocessor == old(geoprocessor)
      ensures old(majorVersion).None? && err.None? ==>
        VersionOf(o.info).Some? && majorVersion == Some(VersionOf(o.info).value.0) &&
        minorVersion == Some(VersionOf(o.info).value.1) && patchVersion == Some(VersionOf(o.info).value.2) &&
        arcGISProductName == Get(o.info, ProductNameKey)
      ensures old(majorVersion).None? && err.None? ==>
        licenseLevel == (if LicenseLevelKey in Keys(o.info) then Get(o.info, LicenseLevelKey) else old(licenseLevel))
      ensures err.None? ==> majorVersion.Some?
      ensures old(majorVersion).None? ==> err == InstallInfoError(old(geoprocessor), o)
      ensures old(majorVersion).None? && old(geoprocessor).None? && (o.arcpy.None? || o.wrapRaises) ==>
        majorVersion == old(majorVersion) && minorVersion == old(minorVersion) && patchVersion == old(patchVersion)
      ensures old(majorVersion).None? && (old(geoprocessor).Some? || (o.arcpy.Some? && !o.wrapRaises)) ==>
        majorVersion == PartialMajor(o.info) &&
        minorVersion == (if PartialMinor(o.info).Some? then PartialMinor(o.info) else old(minorVersion)) &&
        patchVersion == (if VersionOf(o.info).Some? then Some(VersionOf(o.info).value.2) else old(patchVersion))
    {
      if majorVersion.Some? {
        return None;
      }
      err := InitializeGeoprocessor(o.arcpy, o.wrapRaises);
      if err.Some? {
        return;
      }
      err := ReadVersion(o.info);
      if err.Some? {
        return;
      }
      err := StoreProductName(o.info);
    }

    /** Reads the version from the install information and parses it. The
        error message shows the 'Version' item whichever key was read, and a
        KeyError is raised instead when that item is missing. */
    method ReadVersion(info: Dict<string, string>) returns (err: Option<ArcError>)
      modifies this
      ensures geoprocessor == old(geoprocessor) && wrapped == old(wrapped) && licenseLevel == old(licenseLevel)
      ensures arcGISProductName == old(arcGISProductName) && productName == old(productName)
      ensures VersionKey(info) !in Keys(info) ==> err == Some(NoVersionInInstallInfo)
      ensures VersionKey(info) !in Keys(info) ==>
        majorVersion == old(majorVersion) && minorVersion == old(minorVersion) && patchVersion == old(patchVersion)
      ensures VersionOf(info).Some? ==> err.None?
      ensures VersionOf(info).Some? ==> majorVersion == Some(VersionOf(info).value.0)
      ensures VersionOf(info).Some? ==> minorVersion == Some(VersionOf(info).value.1)
      ensures VersionOf(info).Some? ==> patchVersion == Some(VersionOf(info).value.2)
      ensures VersionKey(info) in Keys(info) && VersionOf(info).None? ==>
        err == Some(ParseFailure(info, VersionKey(info)))
      ensures majorVersion == (if PartialMajor(info).Some? then PartialMajor(info) else old(majorVersion))
      ensures minorVersion == (if PartialMinor(info).Some? then PartialMinor(info) else old(minorVersion))
      ensures patchVersion == (if VersionOf(info).Some? then Some(VersionOf(info).value.2) else old(patchVersion))
    {
      var major, minor, patch;
      err, major, minor, patch := ParseInstallVersion(info);
      majorVersion := if major.Some? then major else majorVersion;
      minorVersion := if minor.Some? then minor else minorVersion;
      patchVersion := if patch.Some? then patch else patchVersion;
    }

    /** The parts of the version the install information gives, each one
        that parses; `patch` is set exactly when the whole version parses. */
    static method ParseInstallVersion(info: Dict<string, string>)
      returns (err: Option<ArcError>, major: Option<int>, minor: Option<int>, patch: Option<int>)
      ensures VersionKey(info) !in Keys(info) ==> err == Some(NoVersionInInstallInfo) && major.None? && minor.None? && patch.None?
      ensures VersionOf(info).Some? ==>
        err.None? && major == Some(VersionOf(info).value.0) &&
        minor == Some(VersionOf(info).value.1) && patch == Some(VersionOf(info).value.2)
      ensures VersionKey(info) in Keys(info) && VersionOf(info).None? ==>
        err == Some(ParseFailure(info, VersionKey(info))) && patch.None?
      ensures major == PartialMajor(info) && minor == PartialMinor(info)
      ensures patch == (if VersionOf(info).Some? then Some(VersionOf(info).value.2) else None)
      ensures (minor.Some? ==> major.Some?) && (patch.Some? ==> minor.Some?)
    {
      var key := VersionKey(info);
      var text := Get(info, key);
      if text.None? {
        return Some(NoVersionInInstallInfo), None, None, None;
      }
      major, minor, patch := ParseVersion(text.value);
      err := if patch.Some? then None else Some(ParseFailure(info, key));
    }

    /** The product name and licence level as written: the product name goes
        to `_ProductName`, so the attribute `GetArcGISProductName` returns is
        never set. */
    method StoreProductNameAsWritten(info: Dict<string, string>) returns (err: Option<ArcError>)
      modifies this
      ensures ProductNameKey !in Keys(info) ==> err == Some(NoProductNameInInstallInfo)
      ensures ProductNameKey in Keys(info) ==> err.None? && productName == Get(info, ProductNameKey)
      ensures err.None? ==> licenseLevel == (if LicenseLevelKey in Keys(info) then Get(info, LicenseLevelKey) else old(licenseLevel))
      ensures arcGISProductName == old(arcGISProductName)
      ensures geoprocessor == old(geoprocessor) && wrapped == old(wrapped)
      ensures majorVersion == old(majorVersion) && minorVersion == old(minorVersion) && patchVersion == old(patchVersion)
    {
      if Get(info, ProductNameKey).None? {
        return Some(NoProductNameInInstallInfo);
      }
      productName := Get(info, ProductNameKey);
      if Get(info, LicenseLevelKey).Some? {
        licenseLevel := Get(info, LicenseLevelKey);
      }
      err := None;
    }

    /** The product name and licence level, with the product name stored where
        `GetArcGISProductName` reads it. */
    method StoreProductName(info: Dict<string, string>) returns (err: Option<ArcError>)
      modifies this
      ensures ProductNameKey !in Keys(info) ==> err == Some(NoProductNameInInstallInfo)
      ensures ProductNameKey in Keys(info) ==> err.None? && arcGISProductName == Get(info, ProductNameKey)
      ensures err.None? ==> licenseLevel == (if LicenseLevelKey in Keys(info) then Get(info, LicenseLevelKey) else old(licenseLevel))
      ensures productName == old(productName)
      ensures geoprocessor == old(geoprocessor) && wrapped == old(wrapped)
      ensures majorVersion == old(majorVersion) && minorVersion == old(minorVersion) && patchVersion == old(patchVersion)
    {
      if Get(info, ProductNameKey).None? {
        return Some(NoProductNameInInstallInfo);
      }
      arcGISProductName := Get(info, ProductNameKey);
      if Get(info, LicenseLevelKey).Some? {
        licenseLevel := Get(info, LicenseLevelKey);
      }
      err := None;
    }

    /** `GetArcGISVersion`: the cached triple, once the information is read. */
    method GetArcGISVersion(o: InstallOracle) returns (r: Result<(Option<int>, Option<int>, Option<int>), ArcError>)
      requires Valid()
      modifies this
      ensures Valid()
      ensures r.Ok? ==> r.value == (majorVersion, minorVersion, patchVersion) && majorVersion.Some?
      ensures old(majorVersion).Some? ==> r == Ok((old(majorVersion), old(minorVersion), old(patchVersion)))
    {
      var err := GetInstallInfo(o);
      if err.Some? {
        return Err(err.value);
      }
      r := Ok((majorVersion, minorVersion, patchVersion));
    }
  }

  /** The error the parse handler raises: the message shows `str(info['Version'])`. */
  function ParseFailure(info: Dict<string, string>, key: string): ArcError {
    match Get(info, VersionKeyName)
    case None => KeyError(VersionKeyName)
    case Some(shown) => UnparsableVersion(key, shown)
  }

  /** What `ArcGISDependency.Initialize` read from the getters. The first
      getter call reads the install information; the rest hit the cache. */
  datatype Installed = Installed(
    major: int, minor: Option<int>, patch: Option<int>,
    product: Option<string>, license: Option<string>)

  datatype DependencyError =
    | CouldNotVerify(cause: ArcError)
    | WrongProduct(installedProduct: Option<string>)
    | VersionTooOld
    | WrongLicenseLevel(installedLevel: string)
    /** Comparing with a version part that a failed earlier parse left None. */
    | ComparedWithNone
    /** The "version too old" message formats a None part with `%i`: a TypeError. */
    | FormattedNone

  const DefaultProductNames: seq<string> := ["ArcGISPro", "Server"]

  /** Python's tuple order: `a < b` lexicographically. */
  predicate LexLess(a: seq<int>, b: seq<int>)
    decreases |a|
  {
    if a == [] then b != []
    else b != [] && (a[0] < b[0] || (a[0] == b[0] && LexLess(a[1..], b[1..])))
  }

  /** `", ".join(xs[:-1]) + " or " + xs[-1]` for two or more items, as English. */
  function EnglishList(xs: seq<string>): string
    requires |xs| > 0
  {
    if |xs| == 1 then xs[0]
    else if |xs| == 2 then xs[0] + " or " + xs[1]
    else xs[0] + ", " + EnglishList(xs[1..])
  }

  const ProPrefix := "ArcGIS Pro "
  const ServerPrefix := "ArcGIS Server equivalent to ArcGIS Pro "
  const OrLater := " or later"
  const LicensePrefix := ", with a license level of "

  /** The product clauses of the description, Pro first. */
  function Clauses(productNames: Option<seq<string>>, v: string): (cs: seq<string>)
    ensures ProPrefix + v + OrLater in cs <==> productNames.None? || "ArcGISPro" in productNames.value
    ensures ServerPrefix + v + OrLater in cs <==> productNames.Some? && "Server" in productNames.value
    ensures |cs| <= 2
  {
    var pro := if productNames.None? || "ArcGISPro" in productNames.value then [ProPrefix + v + OrLater] else [];
    var server := if productNames.Some? && "Server" in productNames.value then [ServerPrefix + v + OrLater] else [];
    assert ServerPrefix + v + OrLater != ProPrefix + v + OrLater by {
      assert (ServerPrefix + v + OrLater)[7] == 'S' && (ProPrefix + v + OrLater)[7] == 'P';
    }
    pro + server
  }

  /** The minimum version and the product and licence filters of one
      `ArcGISDependency`. */
  class ArcGISDependency {
    var minimumMajorVersion: int
    var minimumMinorVersion: int
    var minimumPatchVersion: int
    var productNames: Option<seq<string>>
    var licenseLevels: Option<seq<string>>

    /** The source's constructor, whose `productNames` defaults to
        `DefaultProductNames` and `licenseLevels` to None. */
    constructor (major: int, minor: Option<int>, patch: Option<int>,
                 products: Option<seq<string>>, levels: Option<seq<string>>)
      ensures minimumMajorVersion == major
      ensures minimumMinorVersion == (if minor.Some? then minor.value else 0)
      ensures minimumPatchVersion == (if patch.Some? then patch.value else 0)
      ensures productNames == products && licenseLevels == levels
    {
      productNames := products;
      licenseLevels := levels;
      new;
      SetVersion(major, minor, patch);
    }

    /** A missing minor or patch version means 0. */
    method SetVersion(major: int, minor: Option<int>, patch: Option<int>)
      modifies this
      ensures minimumMajorVersion == major
      ensures minimumMinorVersion == (if minor.Some? then minor.value else 0)
      ensures minimumPatchVersion == (if patch.Some? then patch.value else 0)
      ensures productNames == old(productNames) && licenseLevels == old(licenseLevels)
    {
      var mi := if minor.None? then 0 else minor.value;
      var pa := if patch.None? then 0 else patch.value;
      minimumMajorVersion := major;
      minimumMinorVersion := mi;
      minimumPatchVersion := pa;
    }

    predicate ProductAccepted(product: Option<string>)
      reads this
    {
      !(productNames.Some? && |productNames.value| > 0 && (product.None? || product.value !in productNames.value))
    }

    predicate LicenseAccepted(license: Option<string>)
      reads this
    {
      !(licenseLevels.Some? && |licenseLevels.value| > 0 && license.Some? && license.value !in licenseLevels.value)
    }

    /** The version test decides "too old" before it reaches a None part. */
    predicate DecidedTooOld(inst: Installed)
      reads this
    {
      minimumMajorVersion > inst.major
      || (minimumMajorVersion == inst.major && inst.minor.Some? && minimumMinorVersion > inst.minor.value)
      || (minimumMajorVersion == inst.major && inst.minor.Some? && minimumMinorVersion == inst.minor.value &&
          inst.patch.Some? && minimumPatchVersion > inst.patch.value)
    }

    /** The version test compares the minimum with a None part. */
    predicate ReachesNone(inst: Installed)
      reads this
    {
      minimumMajorVersion == inst.major &&
      (inst.minor.None? || (minimumMinorVersion == inst.minor.value && inst.patch.None?))
    }

    /** The "too old" outcome: its message formats every installed part with
        `%i`, which raises when one of them is None. */
    function TooOld(inst: Installed): DependencyError {
      if inst.minor.Some? && inst.patch.Some? then VersionTooOld else FormattedNone
    }

    /** The compatibility checks of `Initialize`, in order: product, version
        (compared part by part, where a None part raises), licence level. */
    function Check(inst: Installed): (r: Option<DependencyError>)
      reads this
      ensures r.None? ==> ProductAccepted(inst.product) && LicenseAccepted(inst.license)
      ensures !ProductAccepted(inst.product) ==> r == Some(WrongProduct(inst.product))
      ensures r == Some(ComparedWithNone) <==> ProductAccepted(inst.product) && ReachesNone(inst)
      ensures r == Some(VersionTooOld) <==>
        ProductAccepted(inst.product) && DecidedTooOld(inst) && inst.minor.Some? && inst.patch.Some?
      ensures r == Some(FormattedNone) <==>
        ProductAccepted(inst.product) && DecidedTooOld(inst) && (inst.minor.None? || inst.patch.None?)
    {
      if !ProductAccepted(inst.product) then Some(WrongProduct(inst.product))
      else if minimumMajorVersion > inst.major then Some(TooOld(inst))
      else if minimumMajorVersion == inst.major && inst.minor.None? then Some(ComparedWithNone)
      else if minimumMajorVersion == inst.major && minimumMinorVersion > inst.minor.value then Some(TooOld(inst))
      else if minimumMajorVersion == inst.major && minimumMinorVersion == inst.minor.value && inst.patch.None? then Some(ComparedWithNone)
      else if minimumMajorVersion == inst.major && minimumMinorVersion == inst.minor.value &&
        minimumPatchVersion > inst.patch.value then Some(VersionTooOld)
      else if !LicenseAccepted(inst.license) then Some(WrongLicenseLevel(inst.license.value))
      else None
    }

    /** Checks the installed ArcGIS against this dependency. Any error from
        the getters becomes "could not be verified". */
    method Initialize(gm: GeoprocessorManager, o: InstallOracle) returns (err: Option<DependencyError>)
      requires gm.Valid()
      modifies gm
      ensures gm.Valid()
      ensures old(gm.majorVersion).None? && InstallInfoError(old(gm.geoprocessor), o).Some? ==>
        err == Some(CouldNotVerify(InstallInfoError(old(gm.geoprocessor), o).value))
      ensures old(gm.majorVersion).None? && InstallInfoError(old(gm.geoprocessor), o).None? ==>
        var v := VersionOf(o.info).value;
        var level := if LicenseLevelKey in Keys(o.info) then Get(o.info, LicenseLevelKey) else old(gm.licenseLevel);
        err == Check(Installed(v.0, Some(v.1), Some(v.2), Get(o.info, ProductNameKey), level))
      ensures old(gm.majorVersion).Some? ==>
        err == Check(Installed(old(gm.majorVersion).value, old(gm.minorVersion), old(gm.patchVersion),
                               old(gm.arcGISProductName), old(gm.licenseLevel)))
    {
      var ierr := gm.GetInstallInfo(o);
      if ierr.Some? {
        return Some(CouldNotVerify(ierr.value));
      }
      var inst := Installed(gm.majorVersion.value, gm.minorVersion, gm.patchVersion, gm.arcGISProductName, gm.licenseLevel);
      err := Check(inst);
    }

    /** `GetConstraintDescriptionStrings`: the accepted products' clauses for
        the minimum version, joined by " or ", then the licence levels. */
    function GetConstraintDescriptionStrings(): (r: seq<string>)
      reads this
      ensures r == [Join(Clauses(productNames, VersionText(minimumMajorVersion, minimumMinorVersion, minimumPatchVersion)), " or ")
                    + LicenseText(licenseLevels)]
    {
      Description(VersionText(minimumMajorVersion, minimumMinorVersion, minimumPatchVersion), productNames, licenseLevels)
    }
  }

  /** The product part of the description. */
  function ProductText(v: string, productNames: Option<seq<string>>): string {
    var s0 := if productNames.None? || "ArcGISPro" in productNames.value then ProPrefix + v + OrLater else "";
    if productNames.Some? && "Server" in productNames.value then
      (if |s0| > 0 then s0 + " or " else s0) + ServerPrefix + v + OrLater
    else s0
  }

  /** The licence sentence: the prefix and the levels as an English list,
      when any levels are given. */
  function LicenseText(licenseLevels: Option<seq<string>>): string {
    if licenseLevels.Some? && |licenseLevels.value| > 0 then LicensePrefix + EnglishList(licenseLevels.value) else ""
  }

  /** The one description string for minimum version text `v`, built by
      appending: the Pro clause, the Server clause after " or ", then the
      licence levels. It is the product clauses joined by " or ", followed
      by the licence sentence. */
  function Description(v: string, productNames: Option<seq<string>>, licenseLevels: Option<seq<string>>): (r: seq<string>)
    ensures r == [Join(Clauses(productNames, v), " or ") + LicenseText(licenseLevels)]
  {
    var s1 := ProductText(v, productNames);
    ProductTextJoinsClauses(v, productNames);
    if licenseLevels.Some? && |licenseLevels.value| > 0 then
      var l := licenseLevels.value;
      LevelsAppended(s1, LicensePrefix, l);
      if |l| == 1 then [s1 + LicensePrefix + l[0]]
      else [s1 + LicensePrefix + Join(l[..|l| - 1], ", ") + " or " + l[|l| - 1]]
    else
      assert s1 + "" == s1;
      [s1]
  }

  /** With both version parts known, the version test rejects exactly when
      the minimum is lexicographically above the installed version. */
  lemma CheckIsLexicographic(d: ArcGISDependency, inst: Installed)
    requires inst.minor.Some? && inst.patch.Some?
    ensures d.Check(inst) == Some(VersionTooOld) <==>
      d.ProductAccepted(inst.product) &&
      LexLess([inst.major, inst.minor.value, inst.patch.value],
              [d.minimumMajorVersion, d.minimumMinorVersion, d.minimumPatchVersion])
    ensures d.Check(inst).None? <==>
      d.ProductAccepted(inst.product) && d.LicenseAccepted(inst.license) &&
      !LexLess([inst.major, inst.minor.value, inst.patch.value],
               [d.minimumMajorVersion, d.minimumMinorVersion, d.minimumPatchVersion])
  {
    LexLessOfTriples(inst.major, inst.minor.value, inst.patch.value,
                     d.minimumMajorVersion, d.minimumMinorVersion, d.minimumPatchVersion);
  }

  /** Tuple order on triples, part by part. */
  lemma LexLessOfTriples(a0: int, a1: int, a2: int, b0: int, b1: int, b2: int)
    ensures LexLess([a0, a1, a2], [b0, b1, b2]) <==> a0 < b0 || (a0 == b0 && (a1 < b1 || (a1 == b1 && a2 < b2)))
  {
    var a, b := [a0, a1, a2], [b0, b1, b2];
    assert a[1..] == [a1, a2] && b[1..] == [b1, b2];
    assert a[1..][1..] == [a2] && b[1..][1..] == [b2];
    assert [a2][1..] == [] && [b2][1..] == [];
    assert LexLess([a2], [b2]) <==> a2 < b2;
    assert LexLess([a1, a2], [b1, b2]) <==> a1 < b1 || (a1 == b1 && LexLess([a2], [b2]));
  }

  /** A product filter that is None or empty lets any product through,
      including an unknown one; otherwise the product must be listed. */
  lemma ProductFilter(d: ArcGISDependency, product: Option<string>)
    ensures d.ProductAccepted(product) <==>
      d.productNames.None? || |d.productNames.value| == 0 || (product.Some? && product.value in d.productNames.value)
  {
  }

  /** The licence filter applies only when it is non-empty and the installed
      level is known. */
  lemma LicenseFilter(d: ArcGISDependency, license: Option<string>)
    ensures d.LicenseAccepted(license) <==>
      d.licenseLevels.None? || |d.licenseLevels.value| == 0 || license.None? || license.value in d.licenseLevels.value
  {
  }

  /** The source's formula for several licence levels reads as an English list. */
  lemma {:induction false} JoinOrIsEnglish(xs: seq<string>)
    requires |xs| >= 2
    ensures Join(xs[..|xs| - 1], ", ") + " or " + xs[|xs| - 1] == EnglishList(xs)
  {
    if |xs| > 2 {
      JoinOrIsEnglish(xs[1..]);
      assert xs[..|xs| - 1][1..] == xs[1..][..|xs[1..]| - 1];
      assert xs[1..][|xs[1..]| - 1] == xs[|xs| - 1];
    }
  }

  /** The licence clause the source appends is the prefix and the levels as
      an English list. */
  lemma LevelsAppended(s1: string, prefix: string, l: seq<string>)
    requires |l| > 0
    ensures (if |l| == 1 then s1 + prefix + l[0]
             else s1 + prefix + Join(l[..|l| - 1], ", ") + " or " + l[|l| - 1]) ==
            s1 + (prefix + EnglishList(l))
  {
    if |l| == 1 {
      Concat3(s1, prefix, l[0]);
    } else {
      JoinOrIsEnglish(l);
      Concat5(s1, prefix, Join(l[..|l| - 1], ", "), " or ", l[|l| - 1]);
    }
  }

  lemma Concat3(a: string, b: string, c: string)
    ensures a + b + c == a + (b + c)
  {
  }

  lemma Concat5(a: string, b: string, c: string, d: string, e: string)
    ensures a + b + c + d + e == a + (b + (c + d + e))
  {
    assert a + b + c + d + e == a + (b + c + d + e);
    assert b + c + d + e == b + (c + d + e);
  }

  /** The product part is the product clauses joined by " or ". */
  lemma ProductTextJoinsClauses(v: string, productNames: Option<seq<string>>)
    ensures ProductText(v, productNames) == Join(Clauses(productNames, v), " or ")
  {
    var hasPro := productNames.None? || "ArcGISPro" in productNames.value;
    var hasServer := productNames.Some? && "Server" in productNames.value;
    var pro, server := ProPrefix + v + OrLater, ServerPrefix + v + OrLater;
    var s0 := if hasPro then pro else "";
    assert ProductText(v, productNames) == if hasServer then (if |s0| > 0 then s0 + " or " else s0) + server else s0;
    assert Clauses(productNames, v) == (if hasPro then [pro] else []) + (if hasServer then [server] else []);
    ClausesJoined(pro, server, hasPro, hasServer);
  }

  /** Appending the second clause after " or " when there is a first one
      joins the clauses present. */
  lemma ClausesJoined(pro: string, server: string, hasPro: bool, hasServer: bool)
    requires |pro| > 0
    ensures var s0 := if hasPro then pro else "";
      (if hasServer then (if |s0| > 0 then s0 + " or " else s0) + server else s0) ==
      Join((if hasPro then [pro] else []) + (if hasServer then [server] else []), " or ")
  {
    if hasPro && hasServer {
      assert [pro] + [server] == [pro, server];
      assert [pro, server][1..] == [server];
    } else if hasPro {
      assert [pro] + [] == [pro];
    } else if hasServer {
      assert [] + [server] == [server];
      assert "" + server == server;
    }
  }

  /** The description opens with the Pro clause exactly when Pro is accepted. */
  lemma DescriptionStartsWithPro(v: string, productNames: Option<seq<string>>, licenseLevels: Option<seq<string>>)
    ensures StartsWith(Description(v, productNames, licenseLevels)[0], ProPrefix + v + OrLater) <==>
      productNames.None? || "ArcGISPro" in productNames.value
  {
    var pro, server := ProPrefix + v + OrLater, ServerPrefix + v + OrLater;
    var hasPro := productNames.None? || "ArcGISPro" in productNames.value;
    var hasServer := productNames.Some? && "Server" in productNames.value;
    var suffix := LicenseText(licenseLevels);
    var s := Description(v, productNames, licenseLevels)[0];
    assert Clauses(productNames, v) == (if hasPro then [pro] else []) + (if hasServer then [server] else []);
    if hasPro {
      ProClauseFirst(s, pro, server, suffix, hasServer);
    } else if hasServer {
      ServerClauseNotPro(s, v, suffix);
    } else {
      LicenseNotPro(s, v, suffix);
    }
  }

  /** With the Pro clause present, the description opens with it. */
  lemma ProClauseFirst(s: string, pro: string, server: string, suffix: string, hasServer: bool)
    requires s == Join([pro] + (if hasServer then [server] else []), " or ") + suffix
    ensures StartsWith(s, pro)
  {
    if hasServer {
      assert [pro] + [server] == [pro, server] && [pro, server][1..] == [server];
    } else {
      assert [pro] + [] == [pro];
    }
    assert s[..|pro|] == pro;
  }

  /** Without it, the description opens with the Server clause. */
  lemma ServerClauseNotPro(s: string, v: string, suffix: string)
    requires s == Join([] + [ServerPrefix + v + OrLater], " or ") + suffix
    ensures !StartsWith(s, ProPrefix + v + OrLater)
  {
    assert [] + [ServerPrefix + v + OrLater] == [ServerPrefix + v + OrLater];
    assert s[7] == 'S';
    assert (ProPrefix + v + OrLater)[7] == 'P';
  }

  /** Without either clause, it opens with the licence text, if any. */
  lemma LicenseNotPro(s: string, v: string, suffix: string)
    requires suffix == "" || StartsWith(suffix, LicensePrefix)
    requires s == Join([], " or ") + suffix
    ensures !StartsWith(s, ProPrefix + v + OrLater)
  {
    if suffix != "" {
      assert s[0] == LicensePrefix[0] == ',';
      assert (ProPrefix + v + OrLater)[0] == 'A';
    }
  }

  /** The product name as written: with the version read and the product name
      stored, a dependency with the default product filter is refused with an
      unknown product, whatever product is installed. */
  method UnsetProductNameRejected() returns (name: Option<string>, verdict: Option<DependencyError>)
    ensures name.None?
    ensures verdict == Some(WrongProduct(None))
  {
    var gm := new GeoprocessorManager();
    var info := [("ProductName", "ArcGISPro"), ("Version", "3.2.0")];
    var e1 := gm.ReadVersion(info);
    var e2 := gm.StoreProductNameAsWritten(info);
    name := gm.arcGISProductName;
    var d := new ArcGISDependency(3, None, None, Some(DefaultProductNames), None);
    verdict := d.Check(Installed(3, gm.minorVersion, gm.patchVersion, name, gm.licenseLevel));
  }

  /** A version whose minor part does not parse fails the first read but
      leaves the major version cached, so the next read reports success with
      no minor version. */
  method PartialVersionCachedAsSuccess() returns (first: Option<ArcError>, second: Option<ArcError>,
                                                  major: Option<int>, minor: Option<int>)
    ensures first.Some? && second.None?
    ensures major == Some(3) && minor.None?
  {
    var gm := new GeoprocessorManager();
    var o := InstallOracle(Some(1), false, PartialVersionInfo);
    PartialVersionInfoParts();
    first := gm.GetInstallInfo(o);
    assert gm.majorVersion == Some(3) && gm.minorVersion.None?;
    second := gm.GetInstallInfo(o);
    major, minor := gm.majorVersion, gm.minorVersion;
  }

  /** With the partial version "3.x" cached, a dependency on version 4 of
      any product decides "too old" and then formats the None minor version
      into its message, which raises a TypeError. */
  method PartialVersionTooOldRaises() returns (verdict: Option<DependencyError>)
    ensures verdict == Some(FormattedNone)
  {
    var gm := new GeoprocessorManager();
    var o := InstallOracle(Some(1), false, PartialVersionInfo);
    PartialVersionInfoParts();
    var first := gm.GetInstallInfo(o);
    var d := new ArcGISDependency(4, None, None, None, None);
    verdict := d.Initialize(gm, o);
  }

  const PartialVersionInfo: Dict<string, string> := [("Version", "3.x"), ("ProductName", "ArcGISPro")]

  lemma PartialVersionInfoParts()
    ensures PartialMajor(PartialVersionInfo) == Some(3) && PartialMinor(PartialVersionInfo).None?
    ensures VersionOf(PartialVersionInfo).None?
    ensures InstallInfoError(None, InstallOracle(Some(1), false, PartialVersionInfo)).Some?
  {
    var info := PartialVersionInfo;
    assert PartialMajor(info) == Some(3) && PartialMinor(info).None? by {
      PartialVersionText();
    }
    assert ParsedVersion("3.x").None? by {
      PartialVersionText();
    }
    assert VersionOf(info).None? by {
      VersionItemOfPartialInfo();
    }
  }

  lemma PartialVersionText()
    ensures Get(PartialVersionInfo, VersionKey(PartialVersionInfo)) == Some("3.x")
    ensures SplitOn("3.x", '.') == ["3", "x"]
    ensures ParseInt("3") == Some(3) && ParseInt("x").None?
  {
    VersionItemOfPartialInfo();
    SplitThreeX();
    ParseThreeX();
  }

  lemma VersionItemOfPartialInfo()
    ensures Get(PartialVersionInfo, VersionKey(PartialVersionInfo)) == Some("3.x")
  {
    assert ProVersionKey !in Keys(PartialVersionInfo);
  }

  lemma ParseThreeX()
    ensures ParseInt("3") == Some(3) && ParseInt("x").None?
  {
    ParseDigits("3");
    StripOfStripped("x");
  }

  lemma SplitThreeX()
    ensures SplitOn("3.x", '.') == ["3", "x"]
  {
    SplitOnNoSep("x", '.');
    assert "3.x" == "3" + ['.'] + "x";
    SplitOnConcat("3", "x", '.');
  }

  /** The metadata of one argument of a method exposed as a tool. */
  datatype ArgumentMetadata = ArgumentMetadata(
    name: string,
    /** Whether `Type` is a `TypeMetadata`. */
    typeIsMetadata: bool,
    /** Whether `ArcGISDisplayName` is set, which exposes the argument as a parameter. */
    hasDisplayName: bool,
    /** Whether that display name is a `str`. */
    displayNameIsStr: bool,
    canBeInput: bool,
    initializeToVariable: Option<string>,
    dependencies: Option<seq<string>>,
    hasDefault: bool)

  datatype ResultMetadata = ResultMetadata(
    typeIsMetadata: bool,
    hasDisplayName: bool,
    displayNameIsStr: bool,
    canBeOutput: bool,
    dependencies: Option<seq<string>>)

  /** The method's metadata and what `inspect` reports of its signature. */
  datatype ToolMethod = ToolMethod(
    className: string,
    methodName: string,
    isInstanceOrClassMethod: bool,
    isExposed: bool,
    /** Whether the method's `ArcGISDisplayName` is a `str`. */
    displayNameIsStr: bool,
    parameters: seq<string>,
    hasVarargs: bool,
    hasVarkw: bool,
    arguments: seq<ArgumentMetadata>,
    results: seq<ResultMetadata>)

  /** The assertion that fails first. */
  datatype ToolMetadataError =
    | NotInstanceOrClassMethod
    | NotExposed
    | DisplayNameNotStr
    | UnderscoreInName
    | HasVarargs
    | HasVarkw
    | ArgumentCountMismatch(declared: nat, parameters: nat)
    | ArgumentNameMismatch(index: nat)
    | ArgumentTypeNotMetadata(index: nat)
    | ArgumentDisplayNameNotStr(index: nat)
    | NotInputType(index: nat)
    | ExposedAndInitializedToVariable(index: nat)
    | SelfDependency(index: nat)
    | UnknownDependency(index: nat, param: string)
    | NoDefault(index: nat)
    | ResultTypeNotMetadata(index: nat)
    | ResultDisplayNameNotStr(index: nat)
    | NotOutputType(index: nat)
    | UnknownResultDependency(index: nat, param: string)

  /** The dependencies of argument `i`, in order: each must be another argument. */
  function CheckArgumentDependencies(i: nat, own: string, deps: seq<string>, parameters: seq<string>): (r: Option<ToolMetadataError>)
    ensures r.None? <==> forall k :: 0 <= k < |deps| ==> deps[k] != own && deps[k] in parameters
    ensures r.Some? ==> ArgumentError(r.value) && r.value.index == i
  {
    if deps == [] then None
    else if deps[0] == own then Some(SelfDependency(i))
    else if deps[0] !in parameters then Some(UnknownDependency(i, deps[0]))
    else
      var r := CheckArgumentDependencies(i, own, deps[1..], parameters);
      assert forall k :: 1 <= k < |deps| ==> deps[k] == deps[1..][k - 1];
      r
  }

  predicate ArgumentError(e: ToolMetadataError) {
    e.ArgumentNameMismatch? || e.ArgumentTypeNotMetadata? || e.ArgumentDisplayNameNotStr? || e.NotInputType? || e.ExposedAndInitializedToVariable? ||
    e.SelfDependency? || e.UnknownDependency? || e.NoDefault?
  }

  /** The checks on argument `i`. */
  function CheckArgument(i: nat, a: ArgumentMetadata, parameter: string, parameters: seq<string>): (r: Option<ToolMetadataError>)
    ensures r.Some? ==> ArgumentError(r.value) && r.value.index == i
  {
    if a.name != parameter then Some(ArgumentNameMismatch(i))
    else if !a.typeIsMetadata then Some(ArgumentTypeNotMetadata(i))
    else if a.hasDisplayName then
      if !a.displayNameIsStr then Some(ArgumentDisplayNameNotStr(i))
      else if !a.canBeInput then Some(NotInputType(i))
      else if a.initializeToVariable.Some? then Some(ExposedAndInitializedToVariable(i))
      else if a.dependencies.Some? then CheckArgumentDependencies(i, a.name, a.dependencies.value, parameters)
      else None
    else if !a.hasDefault && a.initializeToVariable.None? then Some(NoDefault(i))
    else None
  }

  /** An argument that passes the checks. */
  predicate ArgumentOk(a: ArgumentMetadata, parameter: string, parameters: seq<string>) {
    a.name == parameter && a.typeIsMetadata &&
    (a.hasDisplayName ==>
      a.displayNameIsStr && a.canBeInput && a.initializeToVariable.None? &&
      (a.dependencies.Some? ==> forall p :: p in a.dependencies.value ==> p != a.name && p in parameters)) &&
    (!a.hasDisplayName ==> a.hasDefault || a.initializeToVariable.Some?)
  }

  /** The loop over the arguments from index `i`, skipping `self` or `cls` at 0. */
  function CheckArguments(i: nat, args: seq<ArgumentMetadata>, parameters: seq<string>): (r: Option<ToolMetadataError>)
    requires |args| == |parameters|
    decreases |args| - i
  {
    if i >= |args| then None
    else
      var r := CheckArgument(i, args[i], parameters[i], parameters);
      if r.Some? then r else CheckArguments(i + 1, args, parameters)
  }

  predicate ResultOk(res: ResultMetadata, parameters: seq<string>) {
    res.typeIsMetadata &&
    (res.hasDisplayName ==>
      res.displayNameIsStr && res.canBeOutput && (res.dependencies.Some? ==> forall p :: p in res.dependencies.value ==> p in parameters))
  }

  function CheckResultDependencies(i: nat, deps: seq<string>, parameters: seq<string>): (r: Option<ToolMetadataError>)
    ensures r.None? <==> forall k :: 0 <= k < |deps| ==> deps[k] in parameters
    ensures r.Some? ==> r.value.UnknownResultDependency?
  {
    if deps == [] then None
    else if deps[0] !in parameters then Some(UnknownResultDependency(i, deps[0]))
    else
      var r := CheckResultDependencies(i, deps[1..], parameters);
      assert forall k :: 1 <= k < |deps| ==> deps[k] == deps[1..][k - 1];
      r
  }

  function CheckResult(i: nat, res: ResultMetadata, parameters: seq<string>): (r: Option<ToolMetadataError>)
    ensures r.Some? ==> !ArgumentError(r.value)
  {
    if !res.typeIsMetadata then Some(ResultTypeNotMetadata(i))
    else if !res.hasDisplayName then None
    else if !res.displayNameIsStr then Some(ResultDisplayNameNotStr(i))
    else if !res.canBeOutput then Some(NotOutputType(i))
    else if res.dependencies.Some? then CheckResultDependencies(i, res.dependencies.value, parameters)
    else None
  }

  function CheckResults(i: nat, results: seq<ResultMetadata>, parameters: seq<string>): (r: Option<ToolMetadataError>)
    ensures r.Some? ==> !ArgumentError(r.value)
    decreases |results| - i
  {
    if i >= |results| then None
    else
      var r := CheckResult(i, results[i], parameters);
      if r.Some? then r else CheckResults(i + 1, results, parameters)
  }

  /** `ValidateMethodMetadataForExposureAsArcGISTool` after the class and
      method have been looked up: the first failing assertion, if any. */
  function ValidateToolMethod(m: ToolMethod): (r: Option<ToolMetadataError>)
    ensures r.Some? && ArgumentError(r.value) ==>
      |m.arguments| == |m.parameters| && 1 <= r.value.index < |m.arguments| &&
      !ArgumentOk(m.arguments[r.value.index], m.parameters[r.value.index], m.parameters) &&
      forall k :: 1 <= k < r.value.index ==> ArgumentOk(m.arguments[k], m.parameters[k], m.parameters)
  {
    if !m.isInstanceOrClassMethod then Some(NotInstanceOrClassMethod)
    else if !m.isExposed then Some(NotExposed)
    else if !m.displayNameIsStr then Some(DisplayNameNotStr)
    else if '_' in m.className || '_' in m.methodName then Some(UnderscoreInName)
    else if m.hasVarargs then Some(HasVarargs)
    else if m.hasVarkw then Some(HasVarkw)
    else if |m.arguments| != |m.parameters| then Some(ArgumentCountMismatch(|m.arguments|, |m.parameters|))
    else
      CheckArgumentsFirst(1, m.arguments, m.parameters);
      match CheckArguments(1, m.arguments, m.parameters)
      case Some(e) => Some(e)
      case None => CheckResults(0, m.results, m.parameters)
  }

  /** A method that may be exposed as a tool, stated declaratively. */
  predicate Exposable(m: ToolMethod) {
    m.isInstanceOrClassMethod && m.isExposed && m.displayNameIsStr &&
    '_' !in m.className && '_' !in m.methodName &&
    !m.hasVarargs && !m.hasVarkw &&
    |m.arguments| == |m.parameters| &&
    (forall i :: 1 <= i < |m.arguments| ==> ArgumentOk(m.arguments[i], m.parameters[i], m.parameters)) &&
    (forall i :: 0 <= i < |m.results| ==> ResultOk(m.results[i], m.parameters))
  }

  lemma CheckArgumentOk(i: nat, a: ArgumentMetadata, parameter: string, parameters: seq<string>)
    ensures CheckArgument(i, a, parameter, parameters).None? <==> ArgumentOk(a, parameter, parameters)
  {
    if a.dependencies.Some? {
      DependenciesKnown(a.name, a.dependencies.value, parameters);
    }
  }

  /** Every dependency, by position or by membership. */
  lemma DependenciesKnown(own: string, deps: seq<string>, parameters: seq<string>)
    ensures (forall p :: p in deps ==> p != own && p in parameters) <==>
            (forall k :: 0 <= k < |deps| ==> deps[k] != own && deps[k] in parameters)
  {
    if forall k :: 0 <= k < |deps| ==> deps[k] != own && deps[k] in parameters {
      forall p | p in deps ensures p != own && p in parameters {
        var k :| 0 <= k < |deps| && deps[k] == p;
      }
    } else {
      var k :| 0 <= k < |deps| && !(deps[k] != own && deps[k] in parameters);
      assert deps[k] in deps;
    }
  }

  lemma {:induction false} CheckArgumentsOk(i: nat, args: seq<ArgumentMetadata>, parameters: seq<string>)
    requires |args| == |parameters|
    ensures CheckArguments(i, args, parameters).None? <==>
      forall k :: i <= k < |args| ==> ArgumentOk(args[k], parameters[k], parameters)
    decreases |args| - i
  {
    if i < |args| {
      CheckArgumentOk(i, args[i], parameters[i], parameters);
      CheckArgumentsOk(i + 1, args, parameters);
    }
  }

  lemma {:induction false} CheckResultsOk(i: nat, results: seq<ResultMetadata>, parameters: seq<string>)
    ensures CheckResults(i, results, parameters).None? <==>
      forall k :: i <= k < |results| ==> ResultOk(results[k], parameters)
    decreases |results| - i
  {
    if i < |results| {
      var res := results[i];
      if res.typeIsMetadata && res.hasDisplayName && res.displayNameIsStr && res.canBeOutput && res.dependencies.Some? {
        var deps := res.dependencies.value;
        assert (forall p :: p in deps ==> p in parameters) <==> (forall k :: 0 <= k < |deps| ==> deps[k] in parameters);
      }
      CheckResultsOk(i + 1, results, parameters);
    }
  }

  /** The validator passes a method exactly when every condition holds. */
  lemma ValidateToolMethodIff(m: ToolMethod)
    ensures ValidateToolMethod(m).None? <==> Exposable(m)
  {
    if |m.arguments| == |m.parameters| {
      CheckArgumentsOk(1, m.arguments, m.parameters);
    }
    CheckResultsOk(0, m.results, m.parameters);
  }

  /** The argument reported is the first that fails its checks. */
  lemma {:induction false} CheckArgumentsFirst(i: nat, args: seq<ArgumentMetadata>, parameters: seq<string>)
    requires |args| == |parameters|
    ensures var r := CheckArguments(i, args, parameters);
      r.Some? ==>
        ArgumentError(r.value) && i <= r.value.index < |args| &&
        !ArgumentOk(args[r.value.index], parameters[r.value.index], parameters) &&
        forall k :: i <= k < r.value.index ==> ArgumentOk(args[k], parameters[k], parameters)
    decreases |args| - i
  {
    if i < |args| {
      CheckArgumentOk(i, args[i], parameters[i], parameters);
      CheckArgumentsFirst(i + 1, args, parameters);
    }
  }

  /** A value passed to or returned by the geoprocessor. `GObject` is any
      other object; `GWrapper` is an `_ArcGISObjectWrapper` around a value. */
  datatype GpValue =
    | GNone
    | GBool(b: bool)
    | GInt(i: int)
    | GFloat(f: real)
    | GComplex(re: real, im: real)
    | GStr(s: string)
    | GDateTime(stamp: int)
    | GList(items: seq<GpValue>)
    | GTuple(items: seq<GpValue>)
    | GDict(entries: seq<(GpValue, GpValue)>)
    | GObject(id: nat)
    | GWrapper(wrapped: GpValue)

  /** None, bool, int, float, complex, str and datetime. */
  predicate IsSimple(v: GpValue) {
    v.GNone? || v.GBool? || v.GInt? || v.GFloat? || v.GComplex? || v.GStr? || v.GDateTime?
  }

  /** Every dictionary inside has distinct keys, as a Python dict does. */
  predicate WellFormed(v: GpValue)
    decreases v, 1
  {
    match v
    case GList(items) => ItemsWellFormed(items)
    case GTuple(items) => ItemsWellFormed(items)
    case GDict(es) => UniqueKeys(es) && EntriesWellFormed(es)
    case GWrapper(w) => WellFormed(w)
    case _ => true
  }

  predicate ItemsWellFormed(items: seq<GpValue>)
    decreases items, 0
  {
    items == [] || (WellFormed(items[0]) && ItemsWellFormed(items[1..]))
  }

  predicate EntriesWellFormed(es: seq<(GpValue, GpValue)>)
    decreases es, 0
  {
    es == [] || (var e := es[0]; assert e.0 < e && e.1 < e; WellFormed(e.0) && WellFormed(e.1) && EntriesWellFormed(es[1..]))
  }

  /** `_FromGeoprocessorPreferredType`: simple values pass, containers are
      converted item by item, anything else is wrapped. */
  function FromGeoprocessor(v: GpValue): (r: GpValue)
    ensures IsSimple(v) ==> r == v
    ensures v.GList? ==> r.GList? && |r.items| == |v.items|
    ensures v.GTuple? ==> r.GTuple? && |r.items| == |v.items|
    ensures v.GDict? ==> r.GDict?
    ensures v.GObject? || v.GWrapper? ==> r == GWrapper(v)
    decreases v, 1
  {
    if IsSimple(v) then v
    else match v
      case GList(items) => GList(FromGeoprocessorItems(items))
      case GTuple(items) => GTuple(FromGeoprocessorItems(items))
      case GDict(es) => GDict(FromPairs(FromGeoprocessorEntries(es)))
      case _ => GWrapper(v)
  }

  function FromGeoprocessorItems(items: seq<GpValue>): (r: seq<GpValue>)
    ensures |r| == |items|
    decreases items, 0
  {
    if items == [] then [] else [FromGeoprocessor(items[0])] + FromGeoprocessorItems(items[1..])
  }

  function FromGeoprocessorEntries(es: seq<(GpValue, GpValue)>): (r: seq<(GpValue, GpValue)>)
    ensures |r| == |es|
    decreases es, 0
  {
    if es == [] then []
    else
      var e := es[0];
      assert e.0 < e && e.1 < e;
      [(FromGeoprocessor(e.0), FromGeoprocessor(e.1))] + FromGeoprocessorEntries(es[1..])
  }

  /** `_ToGeoprocessorPreferredType`: a wrapper gives back what it wraps,
      containers are converted item by item, anything else passes. */
  function ToGeoprocessor(v: GpValue): (r: GpValue)
    ensures v.GList? ==> r.GList? && |r.items| == |v.items|
    ensures v.GTuple? ==> r.GTuple? && |r.items| == |v.items|
    decreases v, 1
  {
    match v
    case GWrapper(w) => w
    case GList(items) => GList(ToGeoprocessorItems(items))
    case GTuple(items) => GTuple(ToGeoprocessorItems(items))
    case GDict(es) => GDict(FromPairs(ToGeoprocessorEntries(es)))
    case _ => v
  }

  function ToGeoprocessorItems(items: seq<GpValue>): (r: seq<GpValue>)
    ensures |r| == |items|
    decreases items, 0
  {
    if items == [] then [] else [ToGeoprocessor(items[0])] + ToGeoprocessorItems(items[1..])
  }

  function ToGeoprocessorEntries(es: seq<(GpValue, GpValue)>): (r: seq<(GpValue, GpValue)>)
    ensures |r| == |es|
    decreases es, 0
  {
    if es == [] then []
    else
      var e := es[0];
      assert e.0 < e && e.1 < e;
      [(ToGeoprocessor(e.0), ToGeoprocessor(e.1))] + ToGeoprocessorEntries(es[1..])
  }

  /** Entry `i` of the converted entries has the converted key of entry `i`. */
  lemma {:induction false} ToGeoprocessorKey(es: seq<(GpValue, GpValue)>, i: nat)
    requires i < |es|
    ensures ToGeoprocessorEntries(es)[i].0 == ToGeoprocessor(es[i].0)
  {
    if i > 0 {
      ToGeoprocessorKey(es[1..], i - 1);
      assert ToGeoprocessorEntries(es)[i] == ToGeoprocessorEntries(es[1..])[i - 1];
    }
  }

  /** Converting a value the geoprocessor returned and passing it back gives
      the original value. */
  lemma {:induction false} ToFromGeoprocessor(v: GpValue)
    requires WellFormed(v)
    ensures ToGeoprocessor(FromGeoprocessor(v)) == v
    decreases v, 1
  {
    match v {
      case GList(items) => ToFromGeoprocessorItems(items);
      case GTuple(items) => ToFromGeoprocessorItems(items);
      case GDict(es) =>
        var fe := FromGeoprocessorEntries(es);
        ToFromGeoprocessorEntries(es);
        FromGeoprocessorEntriesUnique(es);
        FromPairsOfUnique(fe);
        FromPairsOfUnique(es);
      case _ =>
    }
  }

  lemma {:induction false} ToFromGeoprocessorItems(items: seq<GpValue>)
    requires ItemsWellFormed(items)
    ensures ToGeoprocessorItems(FromGeoprocessorItems(items)) == items
    decreases items, 0
  {
    if items != [] {
      ToFromGeoprocessor(items[0]);
      ToFromGeoprocessorItems(items[1..]);
      assert FromGeoprocessorItems(items)[1..] == FromGeoprocessorItems(items[1..]);
    }
  }

  lemma {:induction false} ToFromGeoprocessorEntries(es: seq<(GpValue, GpValue)>)
    requires EntriesWellFormed(es)
    ensures ToGeoprocessorEntries(FromGeoprocessorEntries(es)) == es
    decreases es, 0
  {
    if es != [] {
      var e := es[0];
      assert e.0 < e && e.1 < e;
      ToFromGeoprocessor(e.0);
      ToFromGeoprocessor(e.1);
      ToFromGeoprocessorEntries(es[1..]);
      assert FromGeoprocessorEntries(es)[1..] == FromGeoprocessorEntries(es[1..]);
    }
  }

  /** Distinct keys stay distinct: the conversion back tells them apart. */
  lemma FromGeoprocessorEntriesUnique(es: seq<(GpValue, GpValue)>)
    requires EntriesWellFormed(es) && UniqueKeys(es)
    ensures UniqueKeys(FromGeoprocessorEntries(es))
  {
    var fe := FromGeoprocessorEntries(es);
    ToFromGeoprocessorEntries(es);
    forall i, j | 0 <= i < j < |fe| ensures fe[i].0 != fe[j].0 {
      ToGeoprocessorKey(fe, i);
      ToGeoprocessorKey(fe, j);
      assert ToGeoprocessorEntries(fe)[i].0 == es[i].0 && ToGeoprocessorEntries(fe)[j].0 == es[j].0;
    }
  }

  /** A dictionary keeps its size. */
  lemma FromGeoprocessorKeepsDictSize(v: GpValue)
    requires v.GDict? && WellFormed(v)
    ensures FromGeoprocessor(v).GDict? && |FromGeoprocessor(v).entries| == |v.entries|
  {
    FromGeoprocessorEntriesUnique(v.entries);
    FromPairsOfUnique(FromGeoprocessorEntries(v.entries));
  }
}
