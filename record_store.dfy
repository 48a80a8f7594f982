/**
 * The pattern the four record managers share: an ordered list of records,
 * each carrying an integer id; a new record gets the id `len(list) + 1`;
 * lookups, edits and deletes scan the list in order for the first record
 * whose id matches.
 */
module RecordStore {
  import opened Wrappers
  import Seqs

  /** The position of the first record whose id is `id`, as the managers' `for ... if ... == id` loops find it. */
  function FirstIndex<T>(s: seq<T>, key: T -> int, id: int): (r: Option<nat>)
    ensures r.None? <==> forall j :: 0 <= j < |s| ==> key(s[j]) != id
    ensures r.Some? ==> r.value < |s| && key(s[r.value]) == id
    ensures r.Some? ==> forall j :: 0 <= j < r.value ==> key(s[j]) != id
    decreases |s|
  {
    if s == [] then None
    else if key(s[0]) == id then Some(0)
    else
      match FirstIndex(s[1..], key, id)
      case None => None
      case Some(i) => Some(i + 1)
  }

  /** A scan that stops at position `i` has found the first match. */
  lemma FirstIndexAt<T>(s: seq<T>, key: T -> int, id: int, i: nat)
    requires i < |s| && key(s[i]) == id
    requires forall j :: 0 <= j < i ==> key(s[j]) != id
    ensures FirstIndex(s, key, id) == Some(i)
  {
  }

  /** The ids run 1, 2, ..., len(list) in list order, as `add` alone produces them. */
  ghost predicate NumberedFromOne<T>(s: seq<T>, key: T -> int) {
    forall i :: 0 <= i < |s| ==> key(s[i]) == i + 1
  }

  /** No two records share an id. */
  ghost predicate UniqueIds<T>(s: seq<T>, key: T -> int) {
    forall i, j :: 0 <= i < j < |s| ==> key(s[i]) != key(s[j])
  }

  /** Appending a record numbered `len(list) + 1` keeps the numbering 1..N. */
  lemma AddKeepsNumbering<T>(s: seq<T>, key: T -> int, x: T)
    requires NumberedFromOne(s, key) && key(x) == |s| + 1
    ensures NumberedFromOne(s + [x], key) && UniqueIds(s + [x], key)
  {
  }

  /**
   * The id flaw of `len(list) + 1`: after deleting the first of at least two
   * records numbered 1..N, the next add reuses the id N of the last record.
   */
  lemma {:induction false} DeleteThenAddRepeatsId<T>(s: seq<T>, key: T -> int, x: T)
    requires NumberedFromOne(s, key) && |s| >= 2
    requires key(x) == |s[1..]| + 1
    ensures !UniqueIds(s[1..] + [x], key)
  {
    var t := s[1..] + [x];
    assert key(t[|s| - 2]) == key(s[|s| - 1]) == |s|;
    assert key(t[|s| - 1]) == key(x) == |s|;
  }

  /**
   * One `add` per input, in input order, until an input cannot be turned into
   * arguments (`parse` gives None: the source raises there, and the records
   * already added stay). The bool says whether every input was added.
   */
  function AddEach<R, A, T>(s: seq<T>, inputs: seq<R>, parse: R -> Option<A>, build: (int, A) -> T): (r: (seq<T>, bool))
    decreases |inputs|
  {
    if inputs == [] then (s, true)
    else
      match parse(inputs[0])
      case None => (s, false)
      case Some(a) => AddEach(s + [build(|s| + 1, a)], inputs[1..], parse, build)
  }

  /**
   * What AddEach adds: the records already there stay in front; then input
   * number j, parsed, becomes the record with id len + j + 1; it stops
   * exactly at the first input that does not parse, and reports success
   * exactly when every input was added.
   */
  lemma {:induction false} AddEachAdds<R, A, T>(s: seq<T>, inputs: seq<R>, parse: R -> Option<A>, build: (int, A) -> T)
    ensures var r := AddEach(s, inputs, parse, build);
      && |s| <= |r.0| <= |s| + |inputs|
      && r.0[..|s|] == s
      && (forall j :: 0 <= j < |r.0| - |s| ==>
            parse(inputs[j]).Some? && r.0[|s| + j] == build(|s| + j + 1, parse(inputs[j]).value))
      && (r.1 <==> |r.0| == |s| + |inputs|)
      && (!r.1 ==> parse(inputs[|r.0| - |s|]).None?)
    decreases |inputs|
  {
    if inputs != [] && parse(inputs[0]).Some? {
      var a := parse(inputs[0]).value;
      var s' := s + [build(|s| + 1, a)];
      AddEachAdds(s', inputs[1..], parse, build);
      var r := AddEach(s', inputs[1..], parse, build);
      assert forall j :: 1 <= j < |inputs| ==> inputs[j] == inputs[1..][j - 1];
      assert r.0[..|s'|][..|s|] == r.0[..|s|];
      forall j | 0 <= j < |r.0| - |s|
        ensures parse(inputs[j]).Some? && r.0[|s| + j] == build(|s| + j + 1, parse(inputs[j]).value)
      {
        if j == 0 {
          assert r.0[..|s'|][|s|] == r.0[|s|];
        } else {
          assert r.0[|s'| + (j - 1)] == r.0[|s| + j];
        }
      }
    }
  }

  /** One step of AddEach: the first input is parsed and, if it parses, added. */
  lemma AddEachStep<R, A, T>(s: seq<T>, inputs: seq<R>, parse: R -> Option<A>, build: (int, A) -> T)
    requires inputs != []
    ensures parse(inputs[0]).None? ==> AddEach(s, inputs, parse, build) == (s, false)
    ensures parse(inputs[0]).Some? ==>
      AddEach(s, inputs, parse, build) == AddEach(s + [build(|s| + 1, parse(inputs[0]).value)], inputs[1..], parse, build)
  {
  }

  /**
   * Whatever ids the inputs carry, the records an import adds are numbered
   * on from the list it started with: old length + 1, + 2, ...
   */
  lemma AddEachNumbersOn<R, A(!new), T>(s: seq<T>, inputs: seq<R>, parse: R -> Option<A>, build: (int, A) -> T, key: T -> int)
    requires forall id, a :: key(build(id, a)) == id
    requires NumberedFromOne(s, key)
    ensures NumberedFromOne(AddEach(s, inputs, parse, build).0, key)
  {
    AddEachAdds(s, inputs, parse, build);
    var r := AddEach(s, inputs, parse, build).0;
    forall i | 0 <= i < |r| ensures key(r[i]) == i + 1 {
      if i < |s| {
        assert r[..|s|][i] == r[i];
        assert r[i] == s[i];
      } else {
        var j := i - |s|;
        assert parse(inputs[j]).Some?;
        var a := parse(inputs[j]).value;
        assert r[|s| + j] == build(|s| + j + 1, a);
        assert key(build(|s| + j + 1, a)) == |s| + j + 1;
      }
    }
  }

  /**
   * Deleting every record with id `id` (the contacts' comprehension) removes
   * the same record as deleting the first match (the notes' and tasks' loop)
   * whenever ids are unique.
   */
  lemma DeleteAllIsDeleteFirst<T(!new)>(s: seq<T>, key: T -> int, id: int, keep: T -> bool)
    requires UniqueIds(s, key)
    requires forall x :: keep(x) == (key(x) != id)
    ensures FirstIndex(s, key, id).None? ==> Seqs.Filter(s, keep) == s
    ensures FirstIndex(s, key, id).Some? ==>
      var i := FirstIndex(s, key, id).value;
      Seqs.Filter(s, keep) == s[..i] + s[i + 1..]
  {
    var r := FirstIndex(s, key, id);
    if r.None? {
      KeepsRun(s, key, id, keep);
    } else {
      var i := r.value;
      forall j | i < j < |s| ensures key(s[j]) != id {
        assert key(s[i]) != key(s[j]);
      }
      DeleteAtFirstMatch(s, key, id, keep, i);
    }
  }

  /** The only record with the id is at position `i`: selecting the others drops exactly it. */
  lemma DeleteAtFirstMatch<T(!new)>(s: seq<T>, key: T -> int, id: int, keep: T -> bool, i: nat)
    requires forall x :: keep(x) == (key(x) != id)
    requires i < |s| && key(s[i]) == id
    requires forall j :: 0 <= j < |s| && j != i ==> key(s[j]) != id
    ensures Seqs.Filter(s, keep) == s[..i] + s[i + 1..]
  {
    KeepsRun(s[..i], key, id, keep);
    KeepsRun(s[i + 1..], key, id, keep);
    FilterDropsAt(s, keep, i);
  }

  /** A run of records none of which has the id is kept whole. */
  lemma KeepsRun<T(!new)>(run: seq<T>, key: T -> int, id: int, keep: T -> bool)
    requires forall j :: 0 <= j < |run| ==> key(run[j]) != id
    requires forall x :: keep(x) == (key(x) != id)
    ensures Seqs.Filter(run, keep) == run
  {
    forall x | x in run ensures keep(x) {
      var j :| 0 <= j < |run| && run[j] == x;
    }
    Seqs.FilterKeepsAll(run, keep);
  }

  /** Selecting around one element that fails, from parts that are kept whole. */
  lemma FilterDropsAt<T(!new)>(s: seq<T>, keep: T -> bool, i: nat)
    requires i < |s| && !keep(s[i])
    requires Seqs.Filter(s[..i], keep) == s[..i] && Seqs.Filter(s[i + 1..], keep) == s[i + 1..]
    ensures Seqs.Filter(s, keep) == s[..i] + s[i + 1..]
  {
    var rest := s[i..];
    assert rest[0] == s[i] && rest[1..] == s[i + 1..];
    assert Seqs.Filter(rest, keep) == s[i + 1..];
    assert s == s[..i] + rest;
    Seqs.FilterConcat(s[..i], rest, keep);
  }
}
