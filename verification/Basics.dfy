/** What all parts share. */
module Basics {
  datatype Option<T> = None | Some(value: T)

  type Instant = nat

  /** `duration_since` saturates at zero. */
  function Elapsed(now: Instant, earlier: Instant): nat {
    if earlier <= now then now - earlier else 0
  }
}
