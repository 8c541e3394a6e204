/** `list_missing_subjects`: the raw-data subjects that have no processed
    output directory yet, reported in ascending order. */
module Reconcile {
  import opened Text

  /** One entry of the `sub-*` glob over the output directory. */
  datatype DirEntry = DirEntry(name: string, isDir: bool)

  const SubjectPrefix: string := "sub-"

  /** The labels recovered from output directories: every directory whose
      name starts with `sub-`, with those four characters dropped. Session
      and run qualifiers stay part of the recovered label. */
  function ProcessedLabels(entries: seq<DirEntry>): set<string> {
    set e | e in entries && e.isDir && StartsWith(e.name, SubjectPrefix) :: e.name[4..]
  }

  /** Python's string order: lexicographic on code points, with a proper
      prefix ordered first. */
  predicate Below(a: string, b: string) {
    if b == [] then false
    else if a == [] then true
    else if a[0] != b[0] then a[0] < b[0]
    else Below(a[1..], b[1..])
  }

  lemma {:induction false} BelowIrreflexive(a: string)
    ensures !Below(a, a)
  {
    if a != [] { BelowIrreflexive(a[1..]); }
  }

  lemma {:induction false} BelowTransitive(a: string, b: string, c: string)
    requires Below(a, b) && Below(b, c)
    ensures Below(a, c)
  {
    if a != [] && a[0] == b[0] && b[0] == c[0] {
      BelowTransitive(a[1..], b[1..], c[1..]);
    }
  }

  lemma {:induction false} BelowTotal(a: string, b: string)
    requires a != b
    ensures Below(a, b) || Below(b, a)
  {
    if a != [] && b != [] && a[0] == b[0] {
      assert a == [a[0]] + a[1..] && b == [b[0]] + b[1..];
      BelowTotal(a[1..], b[1..]);
    }
  }

  lemma BelowAsymmetric(a: string, b: string)
    requires Below(a, b)
    ensures !Below(b, a)
  {
  }

  /** Ascending without repetitions. */
  predicate StrictlySorted(s: seq<string>) {
    forall i, j :: 0 <= i < j < |s| ==> Below(s[i], s[j])
  }

  /** Places `x` into a strictly sorted sequence, unless it is already there. */
  function Insert(x: string, s: seq<string>): (r: seq<string>)
    requires StrictlySorted(s)
    ensures StrictlySorted(r)
    ensures forall y :: y in r <==> y == x || y in s
  {
    if s == [] then [x]
    else if x == s[0] then s
    else if Below(x, s[0]) then
      assert forall j :: 0 <= j < |s| ==> Below(x, s[j]) by {
        forall j | 0 < j < |s| ensures Below(x, s[j]) {
          BelowTransitive(x, s[0], s[j]);
        }
      }
      [x] + s
    else
      BelowTotal(x, s[0]);
      var rest := Insert(x, s[1..]);
      assert forall y :: y in rest ==> Below(s[0], y);
      [s[0]] + rest
  }

  /** The distinct members of `xs` in ascending order, as `sorted(set(xs))`. */
  function SortedDistinct(xs: seq<string>): (r: seq<string>)
    ensures StrictlySorted(r)
    ensures forall y :: y in r <==> y in xs
  {
    if xs == [] then []
    else
      var r := Insert(xs[|xs| - 1], SortedDistinct(xs[..|xs| - 1]));
      assert xs == xs[..|xs| - 1] + [xs[|xs| - 1]];
      r
  }

  /** `sorted(set(raw) - processed)`: the raw subjects without a processed
      label, ascending. */
  function MissingSubjects(raw: seq<string>, entries: seq<DirEntry>): (r: seq<string>)
    ensures StrictlySorted(r)
    ensures forall x :: x in r <==> x in raw && x !in ProcessedLabels(entries)
  {
    var processed := ProcessedLabels(entries);
    SortedDistinct(Unprocessed(raw, processed))
  }

  function Unprocessed(raw: seq<string>, processed: set<string>): (r: seq<string>)
    ensures forall x :: x in r <==> x in raw && x !in processed
  {
    if raw == [] then []
    else if raw[0] in processed then Unprocessed(raw[1..], processed)
    else [raw[0]] + Unprocessed(raw[1..], processed)
  }

  /** A strictly sorted sequence is determined by its members, so the report
      is the one ascending listing of the missing set. */
  lemma {:induction false} SortedUnique(a: seq<string>, b: seq<string>)
    requires StrictlySorted(a) && StrictlySorted(b)
    requires forall x :: x in a <==> x in b
    ensures a == b
  {
    SameMembersSameEmptiness(a, b);
    if a != [] {
      if a[0] != b[0] {
        HeadIsLeast(b, a[0]);
        HeadIsLeast(a, b[0]);
        BelowAsymmetric(b[0], a[0]);
      }
      forall x ensures x in a[1..] <==> x in b[1..] {
        HeadNotInTail(a, x);
        HeadNotInTail(b, x);
      }
      SortedUnique(a[1..], b[1..]);
    }
  }

  lemma SameMembersSameEmptiness(a: seq<string>, b: seq<string>)
    requires forall x :: x in a <==> x in b
    ensures a == [] <==> b == []
  {
    if a != [] { assert a[0] in b; }
    if b != [] { assert b[0] in a; }
  }

  /** The head of a strictly sorted sequence is below every other member. */
  lemma HeadIsLeast(s: seq<string>, x: string)
    requires StrictlySorted(s) && x in s && x != s[0]
    ensures Below(s[0], x)
  {
  }

  lemma HeadNotInTail(s: seq<string>, x: string)
    requires StrictlySorted(s) && s != []
    ensures x in s[1..] <==> x in s && x != s[0]
  {
    if x in s[1..] {
      var k :| 1 <= k < |s| && s[k] == x;
      if x == s[0] {
        BelowIrreflexive(x);
      }
    }
    if x in s && x != s[0] {
      var k :| 0 <= k < |s| && s[k] == x;
      assert s[k] == s[1..][k - 1];
    }
  }

  /** A raw subject is reported missing exactly when no output directory is
      named `sub-<label>` exactly; a directory with a session or run suffix
      does not count for the bare label. */
  lemma MissingIffNoBareDirectory(raw: seq<string>, entries: seq<DirEntry>, x: string)
    ensures x in MissingSubjects(raw, entries) <==>
              x in raw && forall e :: e in entries && e.isDir ==> e.name != SubjectPrefix + x
  {
  }

  /** The worked example: with raw subjects 01, 02, 03 and output
      directories `sub-01` and `sub-02_ses-A`, subjects 02 and 03 are
      reported, because `sub-02_ses-A` yields the label `02_ses-A`. */
  lemma SessionDirectoryLeavesSubjectMissing()
    ensures MissingSubjects(["01", "02", "03"],
                            [DirEntry("sub-01", true), DirEntry("sub-02_ses-A", true)])
            == ["02", "03"]
  {
    var entries := [DirEntry("sub-01", true), DirEntry("sub-02_ses-A", true)];
    var r := MissingSubjects(["01", "02", "03"], entries);
    forall x ensures x in r <==> x in ["02", "03"] {
      MissingIffNoBareDirectory(["01", "02", "03"], entries, x);
    }
    assert Below("02", "03");
    SortedUnique(r, ["02", "03"]);
  }
}
