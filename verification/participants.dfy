/** `check_participants_exist`: which of the requested participant labels are
    processed, given the subjects the BIDS index knows. */
module Participants {
  import opened Base

  /** The outcome of resolution together with the labels a warning was
      issued for, one per dropped request entry, in request order. */
  datatype Resolution = Resolution(result: Result<seq<string>, Error>, warnings: seq<string>)

  /** One pass over the request, as the resolution loop performs it: the
      entries that are known subjects and the entries that are not, each in
      request order with duplicates kept. */
  function Partition(request: seq<string>, subjects: seq<string>): (r: (seq<string>, seq<string>))
    ensures forall x :: x in r.0 ==> x in subjects && x in request
    ensures forall x :: x in r.1 ==> x !in subjects && x in request
    ensures multiset(r.0) + multiset(r.1) == multiset(request)
  {
    if request == [] then ([], [])
    else
      var rest := Partition(request[..|request| - 1], subjects);
      var last := request[|request| - 1];
      assert request == request[..|request| - 1] + [last];
      if last in subjects then (rest.0 + [last], rest.1)
      else (rest.0, rest.1 + [last])
  }

  /** `check_participants_exist`: an empty request selects every subject in
      index order; otherwise the known entries are kept, one warning is
      issued per unknown entry, and an empty selection is an error. */
  function Resolve(request: seq<string>, subjects: seq<string>): (r: Resolution)
    ensures request == [] ==> r == Resolution(Success(subjects), [])
    ensures request != [] ==>
              (r.result.Failure? <==> forall i :: 0 <= i < |request| ==> request[i] !in subjects)
    ensures r.result.Failure? ==> r.result.error == NoValidParticipants
    ensures request != [] && r.result.Success? ==>
              forall x :: x in r.result.value ==> x in subjects && x in request
    ensures request != [] ==> forall x :: x in r.warnings <==> x in request && x !in subjects
    ensures request != [] ==> r.warnings == Partition(request, subjects).1
    ensures request != [] && r.result.Success? ==> r.result.value == Partition(request, subjects).0
    ensures request != [] && r.result.Success? ==>
              |r.result.value| + |r.warnings| == |request|
  {
    if request == [] then Resolution(Success(subjects), [])
    else
      var (kept, dropped) := Partition(request, subjects);
      assert |multiset(kept)| + |multiset(dropped)| == |multiset(request)|;
      assert forall x :: x in request && x !in subjects ==> x in dropped by {
        forall x | x in request && x !in subjects ensures x in dropped {
          assert x in multiset(request);
        }
      }
      if kept == [] then
        assert forall i :: 0 <= i < |request| ==> request[i] !in subjects by {
          forall i | 0 <= i < |request| ensures request[i] !in subjects {
            assert request[i] in multiset(request);
          }
        }
        Resolution(Failure(NoValidParticipants), dropped)
      else
        assert kept[0] in request;
        Resolution(Success(kept), dropped)
  }

  /** Resolution preserves request order: the result for a concatenated
      request is the concatenation of the results for its parts. */
  lemma {:induction false} PartitionAppend(a: seq<string>, b: seq<string>, subjects: seq<string>)
    ensures Partition(a + b, subjects).0 == Partition(a, subjects).0 + Partition(b, subjects).0
    ensures Partition(a + b, subjects).1 == Partition(a, subjects).1 + Partition(b, subjects).1
  {
    if b == [] {
      assert a + b == a;
    } else {
      var b' := b[..|b| - 1];
      assert (a + b)[..|a + b| - 1] == a + b';
      assert (a + b)[|a + b| - 1] == b[|b| - 1];
      PartitionAppend(a, b', subjects);
    }
  }

  /** A single entry is kept exactly when it is a known subject and dropped
      with a warning otherwise. */
  lemma PartitionSingle(x: string, subjects: seq<string>)
    ensures Partition([x], subjects) == if x in subjects then ([x], []) else ([], [x])
  {
    var request := [x];
    assert request[..|request| - 1] == [];
    assert request[|request| - 1] == x;
    assert Partition(request[..|request| - 1], subjects) == ([], []);
    if x in subjects {
      assert Partition(request, subjects) == ([] + [x], []);
      assert [] + [x] == [x];
    } else {
      assert Partition(request, subjects) == ([], [] + [x]);
      assert [] + [x] == [x];
    }
  }
}
