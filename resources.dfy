/**
 * `resource_path`: a bundled resource is looked up under the bundle's unpack
 * directory when the runtime provides one, and next to the script otherwise.
 * Path joining is left to the caller as `join`.
 */
module Resources {
  import opened Wrappers

  const ICON_FILENAME: string := "icon.png"

  function ResourcePath(
    bundleRoot: Option<string>, scriptDir: string, relativePath: string,
    join: (string, string) -> string): (r: string)
    ensures bundleRoot.Some? ==> r == join(bundleRoot.value, relativePath)
    ensures bundleRoot.None? ==> r == join(scriptDir, relativePath)
  {
    match bundleRoot
    case Some(root) => join(root, relativePath)
    case None => join(scriptDir, relativePath)
  }

  /** In a bundled run the script directory plays no part; in a script run only it does. */
  lemma ResourcePathBase(
    bundleRoot: Option<string>, dirA: string, dirB: string, relativePath: string,
    join: (string, string) -> string)
    ensures bundleRoot.Some? ==>
      ResourcePath(bundleRoot, dirA, relativePath, join) == ResourcePath(bundleRoot, dirB, relativePath, join)
    ensures ResourcePath(None, dirA, relativePath, join) == ResourcePath(Some(dirA), dirB, relativePath, join)
  {
  }

  /** The tray icon's location. */
  function IconPath(bundleRoot: Option<string>, scriptDir: string, join: (string, string) -> string): (r: string)
    ensures r == join(if bundleRoot.Some? then bundleRoot.value else scriptDir, ICON_FILENAME)
  {
    ResourcePath(bundleRoot, scriptDir, ICON_FILENAME, join)
  }
}
