/** Shared vocabulary of the e-learning registry: identifiers, optional values,
    the result shapes every guarded operation returns, and duplicate-freedom of
    the lists the registry keeps. */
module Base {

  type UserId = string
  type CourseId = string
  type QuizId = string
  type CertificateId = string

  /** A value or nothing; the registry's factories return `None` on rejection. */
  datatype Option<+T> = None | Some(value: T)

  /** Result of an operation that reports success as a boolean, paired with the
      state it leaves behind (the unchanged state when it reports failure). */
  datatype Outcome<+S> = Outcome(ok: bool, next: S)

  /** Result of a factory operation: the object it made, if any, and the state
      it leaves behind. */
  datatype Reply<+T, +S> = Reply(made: Option<T>, next: S)

  /** The truthiness test the source applies to an optional string argument:
      absent and empty both count as "no value". */
  predicate Truthy(s: Option<string>) {
    s.Some? && s.value != ""
  }

  /** No element occurs twice in `s`. */
  predicate NoDuplicates<T(==)>(s: seq<T>) {
    forall i, j :: 0 <= i < j < |s| ==> s[i] != s[j]
  }

  /** Appending an element that is not yet present keeps a list duplicate-free. */
  lemma AppendFreshKeepsNoDuplicates<T>(s: seq<T>, x: T)
    requires NoDuplicates(s) && x !in s
    ensures NoDuplicates(s + [x])
  {
    var t := s + [x];
    forall i, j | 0 <= i < j < |t|
      ensures t[i] != t[j]
    {
      if j == |s| {
        assert t[i] == s[i];
      }
    }
  }

  /** In a duplicate-free list an element that occurs, occurs exactly once. */
  lemma {:induction false} OccursOnce<T>(s: seq<T>, x: T)
    requires NoDuplicates(s) && x in s
    ensures multiset(s)[x] == 1
  {
    assert s == [s[0]] + s[1..];
    assert NoDuplicates(s[1..]) by {
      forall i, j | 0 <= i < j < |s[1..]|
        ensures s[1..][i] != s[1..][j]
      {
        assert s[1..][i] == s[i + 1] && s[1..][j] == s[j + 1];
      }
    }
    if s[0] == x {
      assert x !in s[1..] by {
        forall k | 0 <= k < |s[1..]|
          ensures s[1..][k] != x
        {
          assert s[1..][k] == s[k + 1];
        }
      }
      assert multiset(s[1..])[x] == 0;
    } else {
      OccursOnce(s[1..], x);
    }
    assert multiset(s) == multiset{s[0]} + multiset(s[1..]);
  }
}
