/** Small shared vocabulary: an optional value, standing in for a reference that may be null. */
module Common {

  datatype Option<+T> = None | Some(value: T) {

    /** The value, or `default` when absent (the source's `p ? p : fallback`). */
    function GetOr(default: T): T {
      match this
      case Some(v) => v
      case None => default
    }
  }

  /** A texture asset (`UTexture2D`) referenced by a configuration, by identity only. */
  type TextureAsset = nat
}
