/** The optional value that stands in for a Go pointer that may be nil. */
module Wrappers {
  datatype Option<+T> = None | Some(value: T)
}

/**
 * The torcx path resolver: fixed locations of the vendor, OEM and user
 * tiers, the locations derived from a `CommonConfig`, and the ordered
 * search lists for profiles and remotes. Every derived location is built
 * with `FilePath.Join`; the OEM locations and the default config file are
 * built by plain string concatenation, as the Go code does.
 */
module Paths {
  import opened FilePath
  import opened Wrappers

  type AbsPath = p: string | IsAbs(p) witness "/"

  /** An absolute path that ends with a separator, so that a name can be
      appended to it by concatenation. */
  type DirPrefix = p: string | IsAbs(p) && p[|p| - 1] == Separator witness "/"

  /** Default runtime directory (unpacked images, binaries, applied profile). */
  const DefaultRunDir: string := "/run/torcx/"
  /** Default persistent state directory (the user store). */
  const DefaultBaseDir: string := "/var/lib/torcx/"
  /** Default user configuration directory. */
  const DefaultConfDir: string := "/etc/torcx/"

  /** Mountpoint of the OEM partition. Its value is defined outside the
      modelled file; all that is known here is that it is absolute and
      ends with a separator. */
  const OemDir: DirPrefix
  /** The default mountpoint of the vendor (OS) partition. Its value is
      defined outside the modelled file; it is known to be absolute. */
  const VendorUsrDir: AbsPath

  const OemStoreDir: string := OemDir + "store"
  const OemProfilesDir: string := OemDir + "profiles"
  const OemRemotesDir: string := OemDir + "remotes"

  /** Default path of the common torcx configuration file. */
  const DefaultCfgPath: string := DefaultConfDir + "config.json"

  /** The base directories chosen for one invocation; never changed after
      it is built. An empty `UsrDir` stands for the default vendor mountpoint. */
  datatype CommonConfig = CommonConfig(RunDir: string, BaseDir: string, ConfDir: string, UsrDir: string)

  /** The directories a well-formed configuration holds: absolute, except
      that `UsrDir` may be left empty. */
  predicate ValidConfig(cc: CommonConfig) {
    && IsAbs(cc.RunDir)
    && IsAbs(cc.BaseDir)
    && IsAbs(cc.ConfDir)
    && (cc.UsrDir == "" || IsAbs(cc.UsrDir))
  }

  /** The mountpoint a vendor function works under: an empty argument means
      the default vendor mountpoint. */
  function UsrMountpoint(usrMountpoint: string): string {
    if usrMountpoint == "" then VendorUsrDir else usrMountpoint
  }

  // ---------------------------------------------------------------------
  // Vendor tier
  // ---------------------------------------------------------------------

  function VendorRemotesDir(usrMountpoint: string): (r: string)
    ensures r != ""
  {
    var elems := [UsrMountpoint(usrMountpoint), "share", "torcx", "remotes"];
    assert elems[1] != "";
    Join(elems)
  }

  function VendorProfilesDir(usrMountpoint: string): (r: string)
    ensures r != ""
  {
    var elems := [UsrMountpoint(usrMountpoint), "share", "torcx", "profiles"];
    assert elems[1] != "";
    Join(elems)
  }

  function VendorStoreDir(usrMountpoint: string): (r: string)
    ensures r != ""
  {
    var elems := [UsrMountpoint(usrMountpoint), "share", "torcx", "store"];
    assert elems[1] != "";
    Join(elems)
  }

  function VendorOsReleasePath(usrMountpoint: string): (r: string)
    ensures r != ""
  {
    var elems := [UsrMountpoint(usrMountpoint), "lib", "os-release"];
    assert elems[1] != "";
    Join(elems)
  }

  // ---------------------------------------------------------------------
  // Locations derived from a configuration
  // ---------------------------------------------------------------------

  function RunUnpackDir(cc: CommonConfig): (r: string)
    ensures r != ""
  {
    var elems := [cc.RunDir, "unpack"];
    assert elems[1] != "";
    Join(elems)
  }

  function RunBinDir(cc: CommonConfig): (r: string)
    ensures r != ""
  {
    var elems := [cc.RunDir, "bin"];
    assert elems[1] != "";
    Join(elems)
  }

  function RunProfile(cc: CommonConfig): (r: string)
    ensures r != ""
  {
    var elems := [cc.RunDir, "profile.json"];
    assert elems[1] != "";
    Join(elems)
  }

  function UserProfileDir(cc: CommonConfig): (r: string)
    ensures r != ""
  {
    var elems := [cc.ConfDir, "profiles"];
    assert elems[1] != "";
    Join(elems)
  }

  function NextProfile(cc: CommonConfig): (r: string)
    ensures r != ""
  {
    var elems := [cc.ConfDir, "next-profile"];
    assert elems[1] != "";
    Join(elems)
  }

  /** The user store; a non-empty version selects a versioned sub-store. */
  function UserStorePath(cc: CommonConfig, version: string): (r: string)
    ensures r != ""
  {
    var elems := [cc.BaseDir, "store"];
    assert elems[1] != "";
    var storePath := Join(elems);
    if version != "" then Join([storePath, version]) else storePath
  }

  /** The profile search list, vendor first and user last. */
  function ProfileDirs(cc: CommonConfig): (dirs: seq<string>)
    ensures |dirs| == 3
    ensures forall i :: 0 <= i < |dirs| ==> dirs[i] != ""
    ensures dirs[1] == OemProfilesDir
  {
    [VendorProfilesDir(cc.UsrDir), OemProfilesDir, UserProfileDir(cc)]
  }

  /** The remotes search list. Without a configuration only the OEM tier,
      which does not depend on one, is searched. */
  method RemotesDirs(cc: Option<CommonConfig>) returns (dirs: seq<string>)
    ensures cc.None? ==> dirs == [OemRemotesDir]
    ensures cc.Some? ==>
      dirs == [VendorRemotesDir(cc.value.UsrDir), OemRemotesDir, Join([cc.value.ConfDir, "remotes"])]
    ensures cc.Some? && ValidConfig(cc.value) ==>
      dirs[2] == Under(Clean(cc.value.ConfDir), "remotes")
      && forall i :: 0 <= i < |dirs| ==> IsAbs(dirs[i])
  {
    dirs := [];
    if cc.Some? {
      dirs := dirs + [VendorRemotesDir(cc.value.UsrDir)];
    }
    dirs := dirs + [OemRemotesDir];
    if cc.Some? {
      dirs := dirs + [Join([cc.value.ConfDir, "remotes"])];
      if ValidConfig(cc.value) {
        RemoteLocationsAreAbsolute(cc.value);
      }
    }
  }

  // ---------------------------------------------------------------------
  // Properties
  // ---------------------------------------------------------------------

  /** An empty mountpoint is the default vendor mountpoint, never "no path". */
  lemma VendorEmptyMountpoint()
    ensures VendorRemotesDir("") == VendorRemotesDir(VendorUsrDir)
    ensures VendorProfilesDir("") == VendorProfilesDir(VendorUsrDir)
    ensures VendorStoreDir("") == VendorStoreDir(VendorUsrDir)
    ensures VendorOsReleasePath("") == VendorOsReleasePath(VendorUsrDir)
  {
  }

  /** A given mountpoint is joined with the fixed vendor suffixes. */
  lemma VendorExplicitMountpoint(u: string)
    requires u != ""
    ensures VendorRemotesDir(u) == Join([u, "share", "torcx", "remotes"])
    ensures VendorProfilesDir(u) == Join([u, "share", "torcx", "profiles"])
    ensures VendorStoreDir(u) == Join([u, "share", "torcx", "store"])
    ensures VendorOsReleasePath(u) == Join([u, "lib", "os-release"])
  {
  }

  /** A vendor suffix below `share/torcx`, as an element list. */
  lemma ShareTorcxSuffix(leaf: string)
    requires SimpleName(leaf)
    ensures AllSimple(["share", "torcx", leaf])
    ensures JoinSep(["share", "torcx", leaf]) == "share/torcx/" + leaf
  {
    var names := ["share", "torcx", leaf];
    assert names[1..] == ["torcx", leaf] && names[1..][1..] == [leaf];
    assert JoinSep(["torcx", leaf]) == "torcx" + [Separator] + leaf;
    assert "share" + [Separator] + ("torcx" + [Separator] + leaf) == "share/torcx/" + leaf;
  }

  /** The os-release suffix, as an element list. */
  lemma OsReleaseSuffix()
    ensures AllSimple(["lib", "os-release"])
    ensures JoinSep(["lib", "os-release"]) == "lib/os-release"
  {
    assert ["lib", "os-release"][1..] == ["os-release"];
  }

  /** A name below `share/torcx` of an absolute mountpoint. */
  lemma ShareTorcxJoin(base: string, leaf: string)
    requires IsAbs(base) && SimpleName(leaf)
    ensures Join([base, "share", "torcx", leaf]) == Under(Clean(base), "share/torcx/" + leaf)
  {
    ShareTorcxSuffix(leaf);
    assert [base, "share", "torcx", leaf] == [base] + ["share", "torcx", leaf];
    JoinUnder(base, ["share", "torcx", leaf]);
  }

  /** The os-release file of an absolute mountpoint. */
  lemma OsReleaseJoin(base: string)
    requires IsAbs(base)
    ensures Join([base, "lib", "os-release"]) == Under(Clean(base), "lib/os-release")
  {
    OsReleaseSuffix();
    assert [base, "lib", "os-release"] == [base] + ["lib", "os-release"];
    JoinUnder(base, ["lib", "os-release"]);
  }

  /** How the vendor suffixes below `share/torcx` are spelled. */
  lemma ShareTorcxSpelling()
    ensures "share/torcx/" + "remotes" == "share/torcx/remotes"
    ensures "share/torcx/" + "profiles" == "share/torcx/profiles"
    ensures "share/torcx/" + "store" == "share/torcx/store"
  {
  }

  /** For an absolute or empty mountpoint, each vendor location is its fixed
      suffix placed under the cleaned mountpoint. */
  lemma VendorLayout(u: string)
    requires u == "" || IsAbs(u)
    ensures var m := Clean(UsrMountpoint(u));
      && VendorRemotesDir(u) == Under(m, "share/torcx/remotes")
      && VendorProfilesDir(u) == Under(m, "share/torcx/profiles")
      && VendorStoreDir(u) == Under(m, "share/torcx/store")
      && VendorOsReleasePath(u) == Under(m, "lib/os-release")
  {
    var base := UsrMountpoint(u);
    ShareTorcxSpelling();
    ShareTorcxJoin(base, "remotes");
    ShareTorcxJoin(base, "profiles");
    ShareTorcxJoin(base, "store");
    OsReleaseJoin(base);
  }

  /** The runtime locations are single names under the cleaned `RunDir`. */
  lemma RunDirLayout(cc: CommonConfig)
    requires IsAbs(cc.RunDir)
    ensures RunUnpackDir(cc) == Under(Clean(cc.RunDir), "unpack")
    ensures RunBinDir(cc) == Under(Clean(cc.RunDir), "bin")
    ensures RunProfile(cc) == Under(Clean(cc.RunDir), "profile.json")
  {
    JoinName(cc.RunDir, "unpack");
    JoinName(cc.RunDir, "bin");
    JoinName(cc.RunDir, "profile.json");
  }

  /** The user configuration locations are single names under the cleaned
      `ConfDir`. */
  lemma ConfDirLayout(cc: CommonConfig)
    requires IsAbs(cc.ConfDir)
    ensures UserProfileDir(cc) == Under(Clean(cc.ConfDir), "profiles")
    ensures NextProfile(cc) == Under(Clean(cc.ConfDir), "next-profile")
    ensures Join([cc.ConfDir, "remotes"]) == Under(Clean(cc.ConfDir), "remotes")
  {
    JoinName(cc.ConfDir, "profiles");
    JoinName(cc.ConfDir, "next-profile");
    JoinName(cc.ConfDir, "remotes");
  }

  /** Every vendor location is clean, whatever the mountpoint: no doubled
      separator and no trailing one except on the root. */
  lemma VendorLocationsAreClean(u: string)
    ensures IsClean(VendorRemotesDir(u)) && IsClean(VendorProfilesDir(u))
    ensures IsClean(VendorStoreDir(u)) && IsClean(VendorOsReleasePath(u))
  {
    var m := UsrMountpoint(u);
    JoinIsClean([m, "share", "torcx", "remotes"]);
    JoinIsClean([m, "share", "torcx", "profiles"]);
    JoinIsClean([m, "share", "torcx", "store"]);
    JoinIsClean([m, "lib", "os-release"]);
  }

  /** Every location joined from a configuration is clean, whatever the
      configuration holds. */
  lemma ConfigLocationsAreClean(cc: CommonConfig, version: string)
    ensures IsClean(RunUnpackDir(cc)) && IsClean(RunBinDir(cc)) && IsClean(RunProfile(cc))
    ensures IsClean(UserProfileDir(cc)) && IsClean(NextProfile(cc))
    ensures IsClean(Join([cc.ConfDir, "remotes"]))
    ensures IsClean(UserStorePath(cc, version))
  {
    JoinIsClean([cc.RunDir, "unpack"]);
    JoinIsClean([cc.RunDir, "bin"]);
    JoinIsClean([cc.RunDir, "profile.json"]);
    JoinIsClean([cc.ConfDir, "profiles"]);
    JoinIsClean([cc.ConfDir, "next-profile"]);
    JoinIsClean([cc.ConfDir, "remotes"]);
    var store := Join([cc.BaseDir, "store"]);
    JoinIsClean([cc.BaseDir, "store"]);
    if version != "" {
      JoinIsClean([store, version]);
    }
  }

  /** Every location built from absolute directories is absolute. */
  lemma JoinedLocationsAreAbsolute(cc: CommonConfig, u: string, version: string)
    requires ValidConfig(cc)
    requires u == "" || IsAbs(u)
    ensures IsAbs(VendorRemotesDir(u)) && IsAbs(VendorProfilesDir(u))
    ensures IsAbs(VendorStoreDir(u)) && IsAbs(VendorOsReleasePath(u))
    ensures IsAbs(RunUnpackDir(cc)) && IsAbs(RunBinDir(cc)) && IsAbs(RunProfile(cc))
    ensures IsAbs(UserProfileDir(cc)) && IsAbs(NextProfile(cc))
    ensures IsAbs(Join([cc.ConfDir, "remotes"]))
    ensures IsAbs(UserStorePath(cc, version))
  {
    var m := UsrMountpoint(u);
    JoinIsAbs([m, "share", "torcx", "remotes"]);
    JoinIsAbs([m, "share", "torcx", "profiles"]);
    JoinIsAbs([m, "share", "torcx", "store"]);
    JoinIsAbs([m, "lib", "os-release"]);
    JoinIsAbs([cc.RunDir, "unpack"]);
    JoinIsAbs([cc.RunDir, "bin"]);
    JoinIsAbs([cc.RunDir, "profile.json"]);
    JoinIsAbs([cc.ConfDir, "profiles"]);
    JoinIsAbs([cc.ConfDir, "next-profile"]);
    JoinIsAbs([cc.ConfDir, "remotes"]);
    var store := Join([cc.BaseDir, "store"]);
    JoinIsAbs([cc.BaseDir, "store"]);
    if version != "" {
      JoinIsAbs([store, version]);
    }
  }

  /** The three remotes locations of a well-formed configuration are absolute. */
  lemma RemoteLocationsAreAbsolute(cc: CommonConfig)
    requires ValidConfig(cc)
    ensures IsAbs(VendorRemotesDir(cc.UsrDir)) && IsAbs(OemRemotesDir)
    ensures IsAbs(Join([cc.ConfDir, "remotes"]))
    ensures Join([cc.ConfDir, "remotes"]) == Under(Clean(cc.ConfDir), "remotes")
  {
    JoinIsAbs([UsrMountpoint(cc.UsrDir), "share", "torcx", "remotes"]);
    JoinIsAbs([cc.ConfDir, "remotes"]);
    JoinName(cc.ConfDir, "remotes");
  }

  /** Without a version the user store is `store` under `BaseDir`. */
  lemma UserStorePathUnversioned(cc: CommonConfig)
    ensures UserStorePath(cc, "") == Join([cc.BaseDir, "store"])
  {
  }

  /** A version adds one more element below the unversioned store, which is
      the same as joining it in one go with `BaseDir` and `store`. */
  lemma UserStorePathVersioned(cc: CommonConfig, version: string)
    requires version != ""
    ensures UserStorePath(cc, version) == Join([UserStorePath(cc, ""), version])
    ensures UserStorePath(cc, version) == Join([cc.BaseDir, "store", version])
  {
    JoinNested([cc.BaseDir, "store"], version);
    assert [cc.BaseDir, "store"] + [version] == [cc.BaseDir, "store", version];
  }

  /** A versioned store suffix, as an element list. */
  lemma StoreSuffix(version: string)
    requires SimpleName(version)
    ensures AllSimple(["store", version])
    ensures JoinSep(["store", version]) == "store/" + version
  {
    assert ["store", version][1..] == [version];
    assert "store" + [Separator] + version == "store/" + version;
  }

  /** A versioned user store is `store/<version>` under the cleaned `BaseDir`. */
  lemma UserStoreVersionedLayout(cc: CommonConfig, version: string)
    requires IsAbs(cc.BaseDir) && SimpleName(version)
    ensures UserStorePath(cc, version) == Under(Clean(cc.BaseDir), "store/" + version)
  {
    UserStorePathVersioned(cc, version);
    StoreSuffix(version);
    assert [cc.BaseDir, "store", version] == [cc.BaseDir] + ["store", version];
    JoinUnder(cc.BaseDir, ["store", version]);
  }

  /** For an absolute `BaseDir` and a plain version name, the user store is
      `store` or `store/<version>` under the cleaned `BaseDir`. */
  lemma UserStoreLayout(cc: CommonConfig, version: string)
    requires IsAbs(cc.BaseDir)
    requires version == "" || SimpleName(version)
    ensures UserStorePath(cc, version) ==
      Under(Clean(cc.BaseDir), if version == "" then "store" else "store/" + version)
  {
    if version == "" {
      JoinName(cc.BaseDir, "store");
    } else {
      UserStoreVersionedLayout(cc, version);
    }
  }

  /** The profile search list holds the vendor, OEM and user profile
      directories in that order, each absolute. */
  lemma ProfileSearchOrder(cc: CommonConfig)
    requires ValidConfig(cc)
    ensures ProfileDirs(cc) == [
      Under(Clean(UsrMountpoint(cc.UsrDir)), "share/torcx/profiles"),
      OemDir + "profiles",
      Under(Clean(cc.ConfDir), "profiles")]
  {
    VendorLayout(cc.UsrDir);
    ConfDirLayout(cc);
  }

  /** Each configuration-derived location reads only its own base directory. */
  lemma OnlyBaseDirectoryMatters(cc: CommonConfig, other: CommonConfig, version: string)
    ensures cc.RunDir == other.RunDir ==>
      && RunUnpackDir(cc) == RunUnpackDir(other)
      && RunBinDir(cc) == RunBinDir(other)
      && RunProfile(cc) == RunProfile(other)
    ensures cc.ConfDir == other.ConfDir ==>
      && UserProfileDir(cc) == UserProfileDir(other)
      && NextProfile(cc) == NextProfile(other)
    ensures cc.BaseDir == other.BaseDir ==> UserStorePath(cc, version) == UserStorePath(other, version)
  {
  }

  /** A trailing separator on a non-empty mountpoint leaves every vendor
      location unchanged. */
  lemma VendorTrailingSeparator(u: string)
    requires u != ""
    ensures VendorRemotesDir(u + [Separator]) == VendorRemotesDir(u)
    ensures VendorProfilesDir(u + [Separator]) == VendorProfilesDir(u)
    ensures VendorStoreDir(u + [Separator]) == VendorStoreDir(u)
    ensures VendorOsReleasePath(u + [Separator]) == VendorOsReleasePath(u)
  {
    JoinTrailingSeparator(u, ["share", "torcx", "remotes"]);
    JoinTrailingSeparator(u, ["share", "torcx", "profiles"]);
    JoinTrailingSeparator(u, ["share", "torcx", "store"]);
    JoinTrailingSeparator(u, ["lib", "os-release"]);
  }

  /** A trailing separator on a non-empty `RunDir` leaves the runtime
      locations unchanged. */
  lemma RunDirTrailingSeparator(cc: CommonConfig)
    requires cc.RunDir != ""
    ensures var t := cc.(RunDir := cc.RunDir + [Separator]);
      && RunUnpackDir(t) == RunUnpackDir(cc)
      && RunBinDir(t) == RunBinDir(cc)
      && RunProfile(t) == RunProfile(cc)
  {
    JoinTrailingSeparator(cc.RunDir, ["unpack"]);
    JoinTrailingSeparator(cc.RunDir, ["bin"]);
    JoinTrailingSeparator(cc.RunDir, ["profile.json"]);
  }

  /** A trailing separator on a non-empty `ConfDir` leaves the user
      configuration locations, the user remotes entry included, unchanged. */
  lemma ConfDirTrailingSeparator(cc: CommonConfig)
    requires cc.ConfDir != ""
    ensures var t := cc.(ConfDir := cc.ConfDir + [Separator]);
      && UserProfileDir(t) == UserProfileDir(cc)
      && NextProfile(t) == NextProfile(cc)
      && Join([t.ConfDir, "remotes"]) == Join([cc.ConfDir, "remotes"])
  {
    JoinTrailingSeparator(cc.ConfDir, ["profiles"]);
    JoinTrailingSeparator(cc.ConfDir, ["next-profile"]);
    JoinTrailingSeparator(cc.ConfDir, ["remotes"]);
  }

  /** A trailing separator on a non-empty `BaseDir` leaves the user store
      unchanged, with or without a version. */
  lemma BaseDirTrailingSeparator(cc: CommonConfig, version: string)
    requires cc.BaseDir != ""
    ensures UserStorePath(cc.(BaseDir := cc.BaseDir + [Separator]), version) == UserStorePath(cc, version)
  {
    JoinTrailingSeparator(cc.BaseDir, ["store"]);
  }

  /** The OEM locations are the OEM mountpoint with a name appended. */
  lemma OemLocations()
    ensures OemStoreDir == OemDir + "store" && IsAbs(OemStoreDir)
    ensures OemProfilesDir == OemDir + "profiles" && IsAbs(OemProfilesDir)
    ensures OemRemotesDir == OemDir + "remotes" && IsAbs(OemRemotesDir)
    ensures OemStoreDir != OemProfilesDir && OemProfilesDir != OemRemotesDir && OemStoreDir != OemRemotesDir
  {
  }

  /** A directory prefix that is clean apart from its final separator. */
  predicate CleanDirPrefix(d: DirPrefix) {
    d == [Separator] || (d[..|d| - 1] != [Separator] && Clean(d[..|d| - 1]) == d[..|d| - 1])
  }

  /** When the OEM mountpoint is written cleanly, concatenating a name to it
      gives exactly what joining would. */
  lemma OemConcatenationIsJoin()
    requires CleanDirPrefix(OemDir)
    ensures OemStoreDir == Join([OemDir, "store"])
    ensures OemProfilesDir == Join([OemDir, "profiles"])
    ensures OemRemotesDir == Join([OemDir, "remotes"])
  {
    JoinName(OemDir, "store");
    JoinName(OemDir, "profiles");
    JoinName(OemDir, "remotes");
    if OemDir == [Separator] {
      assert OemDir == Render(true, []);
      ElementsRender(true, []);
    } else {
      var stem := OemDir[..|OemDir| - 1];
      assert OemDir == stem + [Separator];
      CleanTrailingSeparator(stem);
    }
  }

  /** A runtime directory written as names between separators, with a
      trailing one, holds its locations directly below the names. */
  lemma RunLocationsBelow(cc: CommonConfig, names: seq<string>)
    requires |names| > 0 && AllSimple(names)
    requires cc.RunDir == [Separator] + JoinSep(names) + [Separator]
    ensures RunUnpackDir(cc) == Under([Separator] + JoinSep(names), "unpack")
    ensures RunBinDir(cc) == Under([Separator] + JoinSep(names), "bin")
    ensures RunProfile(cc) == Under([Separator] + JoinSep(names), "profile.json")
  {
    CleanDirectory(names);
    RunDirLayout(cc);
  }

  /** The same for a configuration directory. */
  lemma ConfLocationsBelow(cc: CommonConfig, names: seq<string>)
    requires |names| > 0 && AllSimple(names)
    requires cc.ConfDir == [Separator] + JoinSep(names) + [Separator]
    ensures UserProfileDir(cc) == Under([Separator] + JoinSep(names), "profiles")
    ensures NextProfile(cc) == Under([Separator] + JoinSep(names), "next-profile")
    ensures Join([cc.ConfDir, "remotes"]) == Under([Separator] + JoinSep(names), "remotes")
  {
    CleanDirectory(names);
    ConfDirLayout(cc);
  }

  /** A configuration file directly below such a directory. */
  lemma ConfFileBelow(confDir: string, names: seq<string>, file: string)
    requires |names| > 0 && AllSimple(names) && SimpleName(file)
    requires confDir == [Separator] + JoinSep(names) + [Separator]
    ensures Join([confDir, file]) == Under([Separator] + JoinSep(names), file)
  {
    CleanDirectory(names);
    JoinName(confDir, file);
  }

  /** The same for a base directory and a plain version name. */
  lemma StoreLocationBelow(cc: CommonConfig, names: seq<string>, version: string)
    requires |names| > 0 && AllSimple(names)
    requires cc.BaseDir == [Separator] + JoinSep(names) + [Separator]
    requires version == "" || SimpleName(version)
    ensures UserStorePath(cc, version) ==
      Under([Separator] + JoinSep(names), if version == "" then "store" else "store/" + version)
  {
    CleanDirectory(names);
    UserStoreLayout(cc, version);
  }

  /** How the default runtime directory is spelled, and its locations. */
  lemma DefaultRunSpelling()
    ensures DefaultRunDir == [Separator] + JoinSep(["run", "torcx"]) + [Separator]
    ensures Under([Separator] + JoinSep(["run", "torcx"]), "unpack") == "/run/torcx/unpack"
    ensures Under([Separator] + JoinSep(["run", "torcx"]), "bin") == "/run/torcx/bin"
    ensures Under([Separator] + JoinSep(["run", "torcx"]), "profile.json") == "/run/torcx/profile.json"
  {
  }

  /** How the default configuration directory is spelled, and its locations. */
  lemma DefaultConfSpelling()
    ensures DefaultConfDir == [Separator] + JoinSep(["etc", "torcx"]) + [Separator]
    ensures Under([Separator] + JoinSep(["etc", "torcx"]), "profiles") == "/etc/torcx/profiles"
    ensures Under([Separator] + JoinSep(["etc", "torcx"]), "next-profile") == "/etc/torcx/next-profile"
    ensures Under([Separator] + JoinSep(["etc", "torcx"]), "remotes") == "/etc/torcx/remotes"
    ensures Under([Separator] + JoinSep(["etc", "torcx"]), "config.json") == DefaultCfgPath
    ensures DefaultCfgPath == "/etc/torcx/config.json"
  {
  }

  /** How the default base directory is spelled, and its store locations. */
  lemma DefaultBaseSpelling(version: string)
    ensures DefaultBaseDir == [Separator] + JoinSep(["var", "lib", "torcx"]) + [Separator]
    ensures Under([Separator] + JoinSep(["var", "lib", "torcx"]), "store") == "/var/lib/torcx/store"
    ensures Under([Separator] + JoinSep(["var", "lib", "torcx"]), "store/" + version)
      == "/var/lib/torcx/store/" + version
  {
    var d := [Separator] + JoinSep(["var", "lib", "torcx"]);
    assert d == "/var/lib/torcx";
    ConcatAssoc(d + [Separator], "store/", version);
    ConcatAssoc(d, [Separator], "store/");
  }

  /** With the default runtime directory the runtime locations are fixed. */
  lemma DefaultRunLocations(cc: CommonConfig)
    requires cc.RunDir == DefaultRunDir
    ensures RunUnpackDir(cc) == "/run/torcx/unpack"
    ensures RunBinDir(cc) == "/run/torcx/bin"
    ensures RunProfile(cc) == "/run/torcx/profile.json"
  {
    DefaultRunSpelling();
    RunLocationsBelow(cc, ["run", "torcx"]);
  }

  /** With the default configuration directory the user configuration
      locations are fixed, and the default config file, which is built by
      concatenation, is where joining would put it. */
  lemma DefaultConfLocations(cc: CommonConfig)
    requires cc.ConfDir == DefaultConfDir
    ensures UserProfileDir(cc) == "/etc/torcx/profiles"
    ensures NextProfile(cc) == "/etc/torcx/next-profile"
    ensures Join([cc.ConfDir, "remotes"]) == "/etc/torcx/remotes"
    ensures Join([cc.ConfDir, "config.json"]) == DefaultCfgPath == "/etc/torcx/config.json"
  {
    DefaultConfSpelling();
    ConfLocationsBelow(cc, ["etc", "torcx"]);
    ConfFileBelow(cc.ConfDir, ["etc", "torcx"], "config.json");
  }

  /** With the default base directory the user store locations are fixed. */
  lemma DefaultStoreLocation(cc: CommonConfig, version: string)
    requires cc.BaseDir == DefaultBaseDir
    requires version == "" || SimpleName(version)
    ensures UserStorePath(cc, version) ==
      if version == "" then "/var/lib/torcx/store" else "/var/lib/torcx/store/" + version
  {
    DefaultBaseSpelling(version);
    StoreLocationBelow(cc, ["var", "lib", "torcx"], version);
  }
}
