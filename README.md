# torcx path resolution, modelled in Dafny

torcx is the addon manager of Container Linux. Before it looks for
profiles, stores or remotes, it works out *where* they live. This project
models that path-resolution layer. It covers:

- the fixed runtime, base and configuration directories;
- the OEM locations, which are made by plain concatenation onto the OEM
  mountpoint;
- the vendor locations below the OS (`/usr`) mountpoint, where an empty
  mountpoint stands for the default one;
- the locations derived from a `CommonConfig` (unpack directory, binary
  directory, applied profile, user store with an optional version
  sub-store, user profiles, next-profile selector);
- the two ordered search lists: profiles (vendor, OEM, user) and remotes
  (vendor, OEM, user when a configuration is present, OEM only when it is
  nil).

Every derived location is produced by Go's `path/filepath.Join`, so the
project also models `Join` and `Clean` for the Unix separator:

- `Join` skips leading empty elements, gives `""` when nothing is left,
  and otherwise joins the rest with `/` and cleans the result.
- `Clean` drops empty and `.` elements and resolves `..` lexically: it is
  dropped at the root of an absolute path and kept in front of a relative
  one. The result starts with `/` when the input did, and `.` stands for
  an empty relative result.

Files:

- `filepath.dfy` (module `FilePath`): `Split`/`JoinSep` (Go's
  `strings.Split`/`strings.Join` on the separator), `Clean`, `Join`, and
  the lemmas about them.
- `paths.dfy` (modules `Wrappers` and `Paths`): the constants, the
  `CommonConfig` record, every resolver operation and its properties.
  A nil `*CommonConfig` is modelled as `Option<CommonConfig>`.
- `manifest.dfy` (module `Manifest`): the version-0 profile manifest
  records and their kind constant.

`OemDir` and `VendorUsrDir` are defined outside the modelled file. They
are constants of subset types:

- `OemDir` is known only to be absolute and to end with `/`.
- `VendorUsrDir` is known only to be absolute.

So every property about them holds for any such value.

The Go methods on `*CommonConfig` become module-level functions that take
the configuration as their first argument. `RemotesDirs` builds its list by
appending step by step, so it is a method. The vendor functions' rewrite of
an empty `usrMountpoint` is the helper `Paths.UsrMountpoint`.

## Model

| member | source | states |
|---|---|---|
| FilePath.Join | internal/torcx/paths.go:45 | `filepath.Join` as the resolver calls it: the result is empty exactly when every element is empty |
| FilePath.Clean | internal/torcx/paths.go:66 | the cleaned path is never empty, and it is absolute exactly when a non-empty input is |
| FilePath.CleanIsClean | internal/torcx/paths.go:66 | every cleaned path is non-empty, never doubles a separator, and ends without one unless it is the root |
| FilePath.CleanIdempotent | internal/torcx/paths.go:66 | cleaning a cleaned path changes nothing |
| FilePath.CleanAppend | internal/torcx/paths.go:91-93 | cleaning a prefix before appending more does not change what the whole path cleans to |
| FilePath.JoinIsClean | internal/torcx/paths.go:45 | every non-empty result of `Join` is a clean path |
| FilePath.JoinIsAbs | internal/torcx/paths.go:45 | a join whose first element is absolute is absolute |
| FilePath.JoinNested | internal/torcx/paths.go:91-93 | joining one more element onto a join equals one join of all the elements |
| FilePath.JoinUnder | internal/torcx/paths.go:45 | plain names joined below an absolute directory sit directly under the cleaned directory, one separator apart |
| FilePath.CleanDirectory | internal/torcx/paths.go:23-27 | an absolute directory spelled as plain names between separators, with a trailing separator, cleans to the same directory without it |
| FilePath.JoinTrailingSeparator | internal/torcx/paths.go:45 | a trailing separator on a non-empty first element of a join leaves the result unchanged, whatever elements follow |
| Paths.VendorRemotesDir | internal/torcx/paths.go:41-46 | the vendor remotes directory is never an empty path |
| Paths.VendorProfilesDir | internal/torcx/paths.go:49-54 | the vendor profiles directory is never an empty path |
| Paths.VendorStoreDir | internal/torcx/paths.go:57-62 | the vendor store directory is never an empty path |
| Paths.VendorOsReleasePath | internal/torcx/paths.go:123-128 | the vendor os-release path is never an empty path |
| Paths.RunUnpackDir | internal/torcx/paths.go:65-67 | the unpack directory is never an empty path, whatever `RunDir` holds |
| Paths.RunBinDir | internal/torcx/paths.go:70-72 | the binary directory is never an empty path |
| Paths.RunProfile | internal/torcx/paths.go:84-86 | the applied-profile file is never an empty path |
| Paths.UserProfileDir | internal/torcx/paths.go:99-101 | the user profile directory is never an empty path |
| Paths.NextProfile | internal/torcx/paths.go:104-106 | the next-profile selector is never an empty path |
| Paths.UserStorePath | internal/torcx/paths.go:90-96 | the user store is never an empty path, with or without a version |
| Paths.ProfileDirs | internal/torcx/paths.go:75-81 | the profile search list has three non-empty entries, and the OEM profiles directory is the middle one |
| Paths.RemotesDirs | internal/torcx/paths.go:109-119 | with no configuration the list is the OEM remotes directory alone; with one it is vendor, OEM, user, in that order; for a valid configuration all three are absolute and the user entry is `remotes` under the cleaned `ConfDir` |
| Paths.VendorEmptyMountpoint | internal/torcx/paths.go:41-62 | an empty mountpoint gives the same four locations as passing `VendorUsrDir` explicitly |
| Paths.VendorExplicitMountpoint | internal/torcx/paths.go:41-128 | a non-empty mountpoint is joined with `share/torcx/{remotes,profiles,store}` or `lib/os-release` |
| Paths.VendorLayout | internal/torcx/paths.go:41-62 | for an absolute or empty mountpoint, each vendor location is its fixed suffix directly under the cleaned mountpoint |
| Paths.OsReleaseJoin | internal/torcx/paths.go:127 | the os-release file of an absolute mountpoint is `lib/os-release` under the cleaned mountpoint |
| Paths.RunDirLayout | internal/torcx/paths.go:65-86 | for an absolute `RunDir`, `unpack`, `bin` and `profile.json` sit directly under the cleaned `RunDir` |
| Paths.ConfDirLayout | internal/torcx/paths.go:99-116 | for an absolute `ConfDir`, `profiles`, `next-profile` and `remotes` sit directly under the cleaned `ConfDir` |
| Paths.VendorLocationsAreClean | internal/torcx/paths.go:41-62 | every vendor location is clean for any mountpoint: no doubled separator and no trailing one except on the root |
| Paths.ConfigLocationsAreClean | internal/torcx/paths.go:65-116 | every location joined from a configuration is clean, whatever the configuration holds |
| Paths.JoinedLocationsAreAbsolute | internal/torcx/paths.go:41-128 | for a valid configuration and an absolute or empty mountpoint, every joined location is absolute |
| Paths.RemoteLocationsAreAbsolute | internal/torcx/paths.go:112-116 | for a valid configuration the three remotes locations are absolute, and the user one is `remotes` under the cleaned `ConfDir` |
| Paths.UserStorePathUnversioned | internal/torcx/paths.go:91 | without a version the user store is `Join(BaseDir, "store")` |
| Paths.UserStorePathVersioned | internal/torcx/paths.go:92-94 | a non-empty version is joined onto the unversioned store, which equals `Join(BaseDir, "store", version)` |
| Paths.UserStoreLayout | internal/torcx/paths.go:90-96 | for an absolute `BaseDir` and a plain version, the store is `store` or `store/<version>` under the cleaned `BaseDir` |
| Paths.ProfileSearchOrder | internal/torcx/paths.go:75-81 | for a valid configuration, the profile list is vendor `share/torcx/profiles`, then OEM `profiles`, then user `profiles` under the cleaned `ConfDir` |
| Paths.OnlyBaseDirectoryMatters | internal/torcx/paths.go:65-106 | the runtime locations depend only on `RunDir`, the user configuration locations only on `ConfDir`, and the store only on `BaseDir` |
| Paths.VendorTrailingSeparator | internal/torcx/paths.go:41-128 | a trailing separator on a non-empty mountpoint leaves all four vendor locations unchanged |
| Paths.RunDirTrailingSeparator | internal/torcx/paths.go:65-86 | a trailing separator on a non-empty `RunDir` leaves the unpack, binary and applied-profile locations unchanged |
| Paths.ConfDirTrailingSeparator | internal/torcx/paths.go:99-116 | a trailing separator on a non-empty `ConfDir` leaves the user profiles, next-profile and user remotes locations unchanged |
| Paths.BaseDirTrailingSeparator | internal/torcx/paths.go:90-96 | a trailing separator on a non-empty `BaseDir` leaves the user store unchanged, with or without a version |
| Paths.OemLocations | internal/torcx/paths.go:29-34 | the OEM locations are the OEM mountpoint with `store`, `profiles` and `remotes` appended; they are absolute and pairwise distinct |
| Paths.OemConcatenationIsJoin | internal/torcx/paths.go:29-34 | when the OEM mountpoint is written cleanly, the concatenated OEM locations equal what `Join` would give |
| Paths.DefaultRunLocations | internal/torcx/paths.go:23 | with the default `RunDir` the runtime locations are `/run/torcx/unpack`, `/run/torcx/bin` and `/run/torcx/profile.json` |
| Paths.DefaultConfLocations | internal/torcx/paths.go:27-37 | with the default `ConfDir` the user configuration locations are under `/etc/torcx`, and the concatenated default config path `/etc/torcx/config.json` equals the joined one |
| Paths.DefaultStoreLocation | internal/torcx/paths.go:25 | with the default `BaseDir` and an empty or plain version name, the store is `/var/lib/torcx/store`, or `/var/lib/torcx/store/<version>` |

## Left out

- The values of `OemDir` and `VendorUsrDir` are not part of this model. Their definitions are in files outside it. The model assumes only that both are absolute and that `OemDir` ends with a separator.
- Windows behaviour of `filepath.Join` (volume names, `\` as separator) is not modelled; only the Unix behaviour is.
- Reading, writing and decoding profile manifests: the shape of the records is declared, but the JSON encoding is done by an external library and has no logic in the modelled code.
- Filesystem access, downloading, unpacking and symlinking: none of it happens in the path layer.
- Every `CommonConfig` method except `RemotesDirs` dereferences its receiver, so in Go a nil receiver makes it panic. The model gives those functions a `CommonConfig` that is always present and does not model the panic.
- Go strings are byte strings; here they are `seq<char>`. Nothing in the path layer looks below the separator character.
