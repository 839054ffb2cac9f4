/** First-match search over a sequence of flags, the rule behind both the
    wallet selection of the checker script and the entry-script lookup of
    the relay. */
module Seqs {
  import opened Wrappers

  predicate NoneTrue(flags: seq<bool>) {
    forall j :: 0 <= j < |flags| ==> !flags[j]
  }

  /** The smallest index whose flag is set, or None when no flag is. */
  function FirstTrue(flags: seq<bool>): (r: Option<nat>)
    ensures r.Some? ==> r.value < |flags| && flags[r.value]
    ensures r.Some? ==> forall j :: 0 <= j < r.value ==> !flags[j]
    ensures r.None? <==> NoneTrue(flags)
  {
    if flags == [] then None
    else if flags[0] then Some(0)
    else
      match FirstTrue(flags[1..])
      case None => None
      case Some(k) => Some(k + 1)
  }
}
