/** The worker's release constants (service-worker.js:1-2 and the asset list of 7-13). */
module Config {
  import opened Seqs

  /** Name of the current cache bucket. */
  const CACHE_NAME: string := "clock-cache-v1"

  /** Release version carried by update notifications. */
  const VERSION: string := "2025.12.04"

  /** Paths cached at install time, in the order given to addAll. */
  const ASSETS: seq<string> := ["./", "./index.html", "./manifest.json", "./north_map.png", "./earth_shadow.png"]

  /** The install list names five distinct paths. */
  lemma AssetsDistinct()
    ensures |ASSETS| == 5 && NoDup(ASSETS)
  {
  }
}
