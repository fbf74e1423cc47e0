/**
 * The inputs `handle_provision_event` computes before patching a host:
 * the image triple from an operating-system slug (`get_image_details`,
 * app/utils.py:153-170) and the SSH-key list (app/utils.py:191-199).
 */
module Provisioning {
  import opened Wrappers
  import opened Text
  import Models

  /**
   * The image settings `get_image_details` reads from configuration
   * (`OS_IMAGES`, `OS_CHECKSUMS`, `PROVISION_IMAGE`, `PROVISION_CHECKSUM`,
   * `PROVISION_CHECKSUM_TYPE`).
   */
  datatype ImageConfig = ImageConfig(
    osImages: map<string, string>,
    osChecksums: map<string, string>,
    defaultImage: string,
    defaultChecksum: string,
    checksumType: string)

  /** An image URL, its checksum and the checksum type. */
  datatype ImageDetails = ImageDetails(imageUrl: string, checksum: string, checksumType: string)

  /** The configured default triple. */
  function DefaultDetails(cfg: ImageConfig): ImageDetails {
    ImageDetails(cfg.defaultImage, cfg.defaultChecksum, cfg.checksumType)
  }

  /** `get_image_details(os_slug)`. */
  function GetImageDetails(slug: Option<string>, cfg: ImageConfig): (r: ImageDetails)
    ensures !Models.TruthyText(slug) ==> r == DefaultDetails(cfg)
    ensures r.checksumType == cfg.checksumType
    ensures Models.TruthyText(slug) ==>
      var key := Lower(slug.value);
      && r.imageUrl == (if key in cfg.osImages then cfg.osImages[key] else cfg.defaultImage)
      && r.checksum == (if key in cfg.osChecksums then cfg.osChecksums[key] else cfg.defaultChecksum)
  {
    if !Models.TruthyText(slug) then DefaultDetails(cfg)
    else
      var key := Lower(slug.value);
      ImageDetails(
        if key in cfg.osImages then cfg.osImages[key] else cfg.defaultImage,
        if key in cfg.osChecksums then cfg.osChecksums[key] else cfg.defaultChecksum,
        cfg.checksumType)
  }

  /** The lookup is case-insensitive: slugs equal up to case select the same image. */
  lemma ImageLookupCaseInsensitive(a: string, b: string, cfg: ImageConfig)
    requires Lower(a) == Lower(b)
    ensures GetImageDetails(Some(a), cfg) == GetImageDetails(Some(b), cfg)
  {
    assert |a| == |Lower(a)| == |Lower(b)| == |b|;
  }

  /** In particular a slug and its lower-case form select the same image. */
  lemma ImageLookupOfLowered(slug: string, cfg: ImageConfig)
    ensures GetImageDetails(Some(slug), cfg) == GetImageDetails(Some(Lower(slug)), cfg)
  {
    LowerIdempotent(slug);
    ImageLookupCaseInsensitive(slug, Lower(slug), cfg);
  }

  /**
   * The image and checksum tables fall back independently: a slug listed in
   * only one table takes the other value from the default.
   */
  lemma TablesFallBackIndependently(slug: string, cfg: ImageConfig)
    requires slug != "" && Lower(slug) in cfg.osImages && Lower(slug) !in cfg.osChecksums
    ensures GetImageDetails(Some(slug), cfg)
            == ImageDetails(cfg.osImages[Lower(slug)], cfg.defaultChecksum, cfg.checksumType)
  {
  }

  /**
   * The SSH keys sent with a provisioning patch: the `ssh_keys` list when it is
   * non-empty, otherwise the legacy `ssh_public_key` alone when it is set,
   * otherwise no keys. The legacy attribute is read only when the list is
   * empty; reading it when the payload class lacks it raises (`Err`).
   */
  function SelectSshKeys(sshKeys: Option<seq<string>>, legacyKey: Models.Attr<Option<string>>): (r: Result<seq<string>>)
    ensures sshKeys.Some? && sshKeys.value != [] ==> r == Ok(sshKeys.value)
    ensures (sshKeys.None? || sshKeys.value == []) ==>
      match legacyKey
      case Missing => r.Err?
      case Present(key) => r == Ok(if Models.TruthyText(key) then [key.value] else [])
  {
    var listed := if sshKeys.Some? && sshKeys.value != [] then sshKeys.value else [];
    if listed != [] then Ok(listed)
    else
      match legacyKey
      case Missing => Err("AttributeError: ssh_public_key")
      case Present(key) => Ok(if Models.TruthyText(key) then [key.value] else [])
  }

  /** Every selected key was supplied, either in the list or as the legacy key. */
  lemma SelectedKeysWereSupplied(sshKeys: Option<seq<string>>, legacyKey: Models.Attr<Option<string>>, k: string)
    requires SelectSshKeys(sshKeys, legacyKey).Ok? && k in SelectSshKeys(sshKeys, legacyKey).value
    ensures (sshKeys.Some? && k in sshKeys.value) || legacyKey == Models.Present(Some(k))
  {
  }
}
