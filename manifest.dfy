/**
 * The shape of a version-0 torcx profile manifest. These are plain
 * records: reading and writing them as JSON is done by a library outside
 * this model, so nothing here has behaviour of its own.
 */
module Manifest {

  /** The `kind` a version-0 profile manifest carries. */
  const ProfileManifestV0K: string := "profile-manifest-v0"

  /** One addon archive selected by a profile: its name and a reference
      (a version or other identifier) into a store. */
  datatype ImageV0 = ImageV0(Name: string, Reference: string)

  /** The images of a profile, in the order the manifest lists them. */
  datatype ImagesV0 = ImagesV0(Images: seq<ImageV0>)

  /** A profile manifest as it is written on disk: a kind and a value. */
  datatype ProfileManifestV0JSON = ProfileManifestV0JSON(Kind: string, Value: ImagesV0)
}
