/** What several components share: optional values, the lease, powers of two, and a fact about sets. */
module Prelude {

  datatype Option<+T> = None | Some(value: T) {
    function Or(default: T): T {
      if Some? then value else default
    }
  }

  /** How long a claim lasts: both kinds of worker lease their work for five minutes. */
  const LEASE_MS: nat := 300_000

  function Power2(n: nat): nat {
    if n == 0 then 1 else 2 * Power2(n - 1)
  }

  /** 1, 2, 4, ...: each power is twice the one before. */
  lemma PowersDouble(n: nat)
    ensures Power2(0) == 1 && Power2(n + 1) == 2 * Power2(n)
  {
  }

  lemma PickMember<T>(s: set<T>) returns (x: T)
    requires s != {}
    ensures x in s
  {
    x :| x in s;
  }
}
