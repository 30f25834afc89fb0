/** String plumbing the names and ids of the system rest on: Python's `rsplit(sep, 1)`,
    `endswith` and `removesuffix`. */
module Text {
  import opened Wrappers

  predicate EndsWith(s: string, suffix: string) {
    |suffix| <= |s| && s[|s| - |suffix|..] == suffix
  }

  function RemoveSuffix(s: string, suffix: string): string {
    if EndsWith(s, suffix) then s[..|s| - |suffix|] else s
  }

  lemma SuffixRoundTrip(base: string, suffix: string)
    ensures EndsWith(base + suffix, suffix)
    ensures RemoveSuffix(base + suffix, suffix) == base
  {
    var s := base + suffix;
    assert s[|s| - |suffix|..] == suffix;
    assert s[..|s| - |suffix|] == base;
  }

  /** `s.rsplit(sep, 1)`: the halves around the last separator, or nothing without one. */
  function RSplit(s: string, sep: char): (r: Option<(string, string)>)
    ensures r.None? <==> sep !in s
    ensures r.Some? ==> s == r.value.0 + [sep] + r.value.1 && sep !in r.value.1
  {
    if s == "" then None
    else
      var front, last := s[..|s| - 1], s[|s| - 1];
      assert s == front + [last];
      if last == sep then Some((front, ""))
      else
        match RSplit(front, sep)
        case None => None
        case Some((head, tail)) =>
          assert s == head + [sep] + (tail + [last]);
          Some((head, tail + [last]))
  }

  /** In `head + [sep] + tail` the last separator sits right after `head`. */
  lemma LastSeparator(s: string, head: string, tail: string, sep: char)
    requires s == head + [sep] + tail && sep !in tail
    ensures |head| < |s| && s[|head|] == sep && s[..|head|] == head && s[|head| + 1..] == tail
    ensures forall i | |head| < i < |s| :: s[i] != sep
  {
    forall i | |head| < i < |s|
      ensures s[i] != sep
    {
      assert s[i] == tail[i - |head| - 1];
    }
  }

  /** The split is the only one whose tail has no separator, whatever the head holds. */
  lemma RSplitUnique(head: string, tail: string, sep: char)
    requires sep !in tail
    ensures RSplit(head + [sep] + tail, sep) == Some((head, tail))
  {
    var s := head + [sep] + tail;
    LastSeparator(s, head, tail, sep);
    var (h, t) := RSplit(s, sep).value;
    LastSeparator(s, h, t, sep);
    assert |h| == |head|;
  }
}
