/** What a failed append actually did, decided by reading the stream again. */
module CommitReconciliation {
  import opened Prelude

  /** `matches` answers `None` where reading an event fails. */
  ghost predicate SeenBy<T>(events: seq<T>, matches: T -> Option<bool>, i: nat) {
    i < |events| && matches(events[i]) == Some(true) && forall j | 0 <= j < i :: matches(events[j]) == Some(false)
  }

  ghost predicate SeenByNone<T>(events: seq<T>, matches: T -> Option<bool>) {
    forall j | 0 <= j < |events| :: matches(events[j]) == Some(false)
  }

  /** True and false are proofs; anything unreadable is unknown (`None`).
      `read` is `None` when the stream itself cannot be read. */
  method CommittedAfterFailure<T>(read: Option<seq<T>>, matches: T -> Option<bool>) returns (verdict: Option<bool>)
    ensures verdict == Some(true) <==> read.Some? && exists i: nat :: SeenBy(read.value, matches, i)
    ensures verdict == Some(false) <==> read.Some? && SeenByNone(read.value, matches)
  {
    if read.None? {
      return None;
    }
    var events := read.value;
    for n := 0 to |events|
      invariant forall j | 0 <= j < n :: matches(events[j]) == Some(false)
    {
      var answer := matches(events[n]);
      if answer.None? {
        return None;
      }
      if answer.value {
        assert SeenBy(events, matches, n);
        return Some(true);
      }
    }
    return Some(false);
  }

  /** Exact comparison never fails to answer. */
  function Same<T(==)>(target: T): T -> Option<bool> { (e: T) => Some(e == target) }

  /** With exact comparison the verdict is membership, or unknown when the
      stream cannot be read. */
  method Committed<T(==)>(read: Option<seq<T>>, target: T) returns (verdict: Option<bool>)
    ensures verdict == if read.None? then None else Some(target in read.value)
  {
    verdict := CommittedAfterFailure(read, Same(target));
    assert verdict.Some? ==> verdict.value || !verdict.value;
    if read.Some? && target in read.value {
      ghost var i := FirstAt(read.value, target);
      assert Same(target)(read.value[i]) == Some(true);
      assert SeenBy(read.value, Same(target), i);
    } else if read.Some? {
      assert SeenByNone(read.value, Same(target));
    }
  }

  ghost function FirstAt<T>(s: seq<T>, x: T): (i: nat)
    requires x in s
    ensures i < |s| && s[i] == x && x !in s[..i]
  {
    if s[0] == x then 0 else FirstAt(s[1..], x) + 1
  }
}
