/** Relative-path rewriting of assets/js/pathManager.js. The class there holds
    only the host test and the constant `basePath`, so it is modelled by pure
    functions over the hostname and the page's pathname. */
module PathManager {
  import opened JsText

  /** `PathManager.asset`: keep `./` and `../` paths, turn a root path `/x` into
      `./x`, and put `./` in front of anything else. */
  function Asset(path: string): (r: string)
    ensures StartsWith(path, "./") || StartsWith(path, "../") ==> r == path
    ensures !StartsWith(path, "./") && !StartsWith(path, "../") && StartsWith(path, "/") ==> r == "." + path
    ensures !StartsWith(path, "./") && !StartsWith(path, "../") && !StartsWith(path, "/") ==> r == "./" + path
    ensures StartsWith(r, "./") || StartsWith(r, "../")
  {
    if StartsWith(path, "./") || StartsWith(path, "../") then path
    else if StartsWith(path, "/") then "." + path
    else "./" + path
  }

  /** `PathManager.page`, written out separately in the source. */
  function Page(path: string): (r: string)
    ensures StartsWith(r, "./") || StartsWith(r, "../")
  {
    if StartsWith(path, "./") || StartsWith(path, "../") then path
    else if StartsWith(path, "/") then "." + path
    else "./" + path
  }

  /** Rewriting twice is rewriting once. */
  lemma AssetIdempotent(path: string)
    ensures Asset(Asset(path)) == Asset(path)
  {
  }

  /** `page` and `asset` are the same function. */
  lemma PageIsAsset(path: string)
    ensures Page(path) == Asset(path)
  {
  }

  /** `getBasePath`: both branches give `./`. */
  function GetBasePath(pathname: string): (r: string)
    ensures r == "./"
  {
    if Contains(pathname, "/sweet-frozen-ecommerce/") then "./" else "./"
  }

  /** The constructor's `basePath`: `getBasePath()` on GitHub Pages, `./` elsewhere. */
  function BasePath(hostname: string, pathname: string): (r: string)
    ensures r == "./"
  {
    if Contains(hostname, "github.io") then GetBasePath(pathname) else "./"
  }
}
