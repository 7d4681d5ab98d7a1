/** The task record shared by the board, the edit form and the store, and the
    order-preserving filter that every derived list of tasks is built with. */
module Tasks {

  datatype Option<+T> = None | Some(value: T)

  datatype Result<+T, +E> = Success(value: T) | Failure(error: E)

  /** A JavaScript number as a day field holds it: an integer (milliseconds
      since the epoch), or NaN once `parseInt` has rejected the edit input. */
  datatype Num = Int(n: int) | NaN

  /** The values a task's `type` field takes. The record type declares the
      first four; the drag handler also writes the in-progress column's
      droppable id, `"in-progress"`, which is `InProgressHyphen`. */
  datatype Stage = Todo | InProgress | Review | Done | InProgressHyphen

  /** The string a stage is stored as. */
  function Spelling(s: Stage): string {
    match s
    case Todo => "todo"
    case InProgress => "in_progress"
    case Review => "review"
    case Done => "done"
    case InProgressHyphen => "in-progress"
  }

  /** Distinct stages are distinct strings, so comparing stages is
      comparing the stored strings. */
  lemma SpellingInjective(a: Stage, b: Stage)
    ensures Spelling(a) == Spelling(b) <==> a == b
  {
  }

  /** A task. `stage` is the record's `type` field (`type` is a Dafny
      keyword). */
  datatype Task = Task(id: int, stage: Stage, startDay: Num, endDay: Num, text: string)

  /** `Array.prototype.filter`: the elements of `s` that satisfy `p`, in
      their original order. */
  function Filter<T(!new)>(s: seq<T>, p: T -> bool): (r: seq<T>)
    ensures |r| <= |s|
    ensures forall x :: x in r <==> x in s && p(x)
  {
    if s == [] then []
    else
      assert s == [s[0]] + s[1..];
      (if p(s[0]) then [s[0]] else []) + Filter(s[1..], p)
  }

  /** The filter keeps every occurrence of an element that passes and none
      of one that fails. */
  lemma {:induction false} FilterCount<T(!new)>(s: seq<T>, p: T -> bool, x: T)
    ensures multiset(Filter(s, p))[x] == if p(x) then multiset(s)[x] else 0
  {
    if s != [] {
      FilterCount(s[1..], p, x);
      assert s == [s[0]] + s[1..];
    }
  }

  /** A filter that some element fails returns a shorter list. */
  lemma {:induction false} FilterShrinks<T(!new)>(s: seq<T>, p: T -> bool, x: T)
    requires x in s && !p(x)
    ensures |Filter(s, p)| < |s|
  {
    if s[0] != x {
      FilterShrinks(s[1..], p, x);
    }
  }

  /** Filtering a concatenation filters each part. */
  lemma {:induction false} FilterAppend<T(!new)>(a: seq<T>, b: seq<T>, p: T -> bool)
    ensures Filter(a + b, p) == Filter(a, p) + Filter(b, p)
  {
    if a == [] {
      assert a + b == b;
    } else {
      assert (a + b)[1..] == a[1..] + b;
      FilterAppend(a[1..], b, p);
    }
  }

  /** A filter that every element passes returns its input. */
  lemma {:induction false} FilterKeepsAll<T(!new)>(s: seq<T>, p: T -> bool)
    requires forall x :: x in s ==> p(x)
    ensures Filter(s, p) == s
  {
    if s != [] {
      FilterKeepsAll(s[1..], p);
    }
  }

  /** Two predicates that agree on every element filter alike. */
  lemma {:induction false} FilterAgrees<T(!new)>(s: seq<T>, p: T -> bool, q: T -> bool)
    requires forall x :: x in s ==> p(x) == q(x)
    ensures Filter(s, p) == Filter(s, q)
  {
    if s != [] {
      FilterAgrees(s[1..], p, q);
    }
  }

  /** A filter that no element passes returns the empty list. */
  lemma FilterDropsAll<T(!new)>(s: seq<T>, p: T -> bool)
    requires forall x :: x in s ==> !p(x)
    ensures Filter(s, p) == []
  {
  }
}
