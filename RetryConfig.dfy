/** The retry policy of the forwarder: a mutable pair of limits with defaults. */
module Retry {
  import opened JavaLang

  const DefaultMaxAttempts: Int32 := 3
  const DefaultBackoffMs: Int64 := 1000

  class RetryConfig {
    var maxAttempts: Int32
    var backoffMs: Int64

    /** The no-argument constructor: the field initialisers' defaults. */
    constructor ()
      ensures maxAttempts == DefaultMaxAttempts && backoffMs == DefaultBackoffMs
    {
      maxAttempts := DefaultMaxAttempts;
      backoffMs := DefaultBackoffMs;
    }

    /** The two-argument constructor stores both values as given; zero and negatives are accepted. */
    constructor WithValues(maxAttempts: Int32, backoffMs: Int64)
      ensures this.maxAttempts == maxAttempts && this.backoffMs == backoffMs
    {
      this.maxAttempts := maxAttempts;
      this.backoffMs := backoffMs;
    }

    method SetMaxAttempts(maxAttempts: Int32)
      modifies this
      ensures this.maxAttempts == maxAttempts && backoffMs == old(backoffMs)
    {
      this.maxAttempts := maxAttempts;
    }

    method SetBackoffMs(backoffMs: Int64)
      modifies this
      ensures this.backoffMs == backoffMs && maxAttempts == old(maxAttempts)
    {
      this.backoffMs := backoffMs;
    }
  }
}
