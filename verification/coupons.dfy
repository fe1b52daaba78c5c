/**
  Data model shared by the coupon bot: optional values, the outcome of a call
  that may raise, and the normalised coupon candidate that flows from the
  search step through deduplication to publishing.
 */
module Coupons {

  /** A value that may be absent (Python's `None`, or a missing dictionary key). */
  datatype Option<+T> = None | Some(value: T) {

    /** The carried value, or `default` when absent (Python's `d.get(k, default)`). */
    function GetOr(default: T): T {
      match this
      case Some(v) => v
      case None => default
    }
  }

  /** The outcome of a computation that either produces a value or raises an
      exception that the surrounding `try` block catches. */
  datatype Result<+T> = Ok(value: T) | Raised

  /** Python truthiness of an optional string: present and non-empty. */
  predicate Truthy(s: Option<string>) {
    s.Some? && s.value != ""
  }

  /** One discovered coupon, as built from a search result: `titulo` is the
      deduplication key, `imagem` the optional thumbnail URL and `fonte` the
      site that was searched. */
  datatype Candidate = Candidate(
    title: string,
    description: string,
    link: string,
    image: Option<string>,
    source: string
  )
}
