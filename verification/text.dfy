/** String helpers: prefixes, suffixes and splitting at a separator. */
module Text {
  import opened Base

  predicate StartsWith(s: string, prefix: string) {
    |prefix| <= |s| && s[..|prefix|] == prefix
  }

  predicate EndsWith(s: string, suffix: string) {
    |suffix| <= |s| && s[|s| - |suffix|..] == suffix
  }

  /** Splits `s` at the first occurrence of `sep`: the part before it and the
      part after it, or `None` when `sep` does not occur. */
  function SplitFirst(s: string, sep: char): (r: Option<(string, string)>)
    ensures r.None? <==> sep !in s
    ensures r.Some? ==> sep !in r.value.0 && s == r.value.0 + [sep] + r.value.1
  {
    if s == [] then None
    else if s[0] == sep then Some(([], s[1..]))
    else match SplitFirst(s[1..], sep)
      case None => None
      case Some((before, after)) =>
        assert s == [s[0]] + s[1..];
        Some(([s[0]] + before, after))
  }

  /** Splitting a string built as `before + sep + after` recovers both parts
      whenever `before` does not contain the separator. */
  lemma {:induction false} SplitFirstOfJoined(before: string, sep: char, after: string)
    requires sep !in before
    ensures SplitFirst(before + [sep] + after, sep) == Some((before, after))
  {
    var s := before + [sep] + after;
    if before == [] {
      assert s == [sep] + after;
    } else {
      assert s[1..] == before[1..] + [sep] + after;
      SplitFirstOfJoined(before[1..], sep, after);
      assert [s[0]] + before[1..] == before;
    }
  }

  lemma StartsWithOfConcat(prefix: string, rest: string)
    ensures StartsWith(prefix + rest, prefix)
  {
  }

  lemma EndsWithOfConcat(rest: string, suffix: string)
    ensures EndsWith(rest + suffix, suffix)
  {
  }
}
