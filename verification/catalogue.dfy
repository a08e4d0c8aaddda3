/** The closed catalogue of task sequences the instance generator draws
    from (subproblem.py, `candidates`). */
module Catalogue {

  /** Task symbols: idle, outbound trip, return trip, charging. */
  datatype Task = NUL | OUT | RET | CRG

  /** The symbol as it appears in the documents. */
  function Name(t: Task): (s: string)
    ensures |s| == 3
    ensures forall k :: 0 <= k < |s| ==> 'A' <= s[k] <= 'Z'
  {
    match t
    case NUL => "NUL"
    case OUT => "OUT"
    case RET => "RET"
    case CRG => "CRG"
  }

  const Candidates: seq<seq<Task>> := [
    [NUL],
    [OUT],
    [RET],
    [CRG],
    [OUT, RET],
    [RET, OUT],
    [RET, CRG],
    [OUT, RET, OUT],
    [OUT, RET, CRG],
    [RET, OUT, RET],
    [RET, CRG, OUT],
    [CRG, OUT, RET],
    [OUT, RET, OUT, RET],
    [OUT, RET, CRG, OUT],
    [RET, OUT, RET, CRG],
    [RET, CRG, OUT, RET],
    [CRG, OUT, RET, OUT],
    [CRG, OUT, RET, CRG],
    [OUT, RET, OUT, RET, CRG],
    [OUT, RET, CRG, OUT, RET],
    [RET, OUT, RET, CRG, OUT],
    [RET, CRG, OUT, RET, OUT],
    [RET, CRG, OUT, RET, CRG],
    [CRG, OUT, RET, OUT, RET],
    [CRG, OUT, RET, CRG, OUT]
  ]

  /** The succession rule of working tasks: an outbound trip is followed by
      a return trip, a return trip by an outbound trip or a charge, and a
      charge by an outbound trip. */
  predicate Follows(a: Task, b: Task)
  {
    || (a == OUT && b == RET)
    || (a == RET && (b == OUT || b == CRG))
    || (a == CRG && b == OUT)
  }

  predicate FollowsGrammar(s: seq<Task>)
  {
    forall k :: 0 <= k < |s| - 1 ==> Follows(s[k], s[k + 1])
  }

  /** A sequence of the shape the catalogue promises: 1 to 5 tasks, idle
      only as the singleton [NUL], and otherwise following the succession
      rule. */
  predicate WellShaped(s: seq<Task>)
  {
    && 1 <= |s| <= 5
    && (NUL in s ==> s == [NUL])
    && FollowsGrammar(s)
  }

  lemma CatalogueShape()
    ensures |Candidates| == 25
    ensures forall i :: 0 <= i < |Candidates| ==> WellShaped(Candidates[i])
  {
    ShortEntriesShaped();
    LongEntriesShaped();
  }

  /** The entries of at most three tasks. */
  lemma ShortEntriesShaped()
    ensures forall i :: 0 <= i < 12 ==> WellShaped(Candidates[i])
  {
  }

  /** The entries of four and five tasks. */
  lemma LongEntriesShaped()
    ensures forall i :: 12 <= i < 25 ==> WellShaped(Candidates[i])
  {
  }

  /** The catalogue is not the whole grammar: [CRG, OUT] is well shaped but
      is never drawn. */
  lemma CatalogueOmitsCrgOut()
    ensures WellShaped([CRG, OUT]) && [CRG, OUT] !in Candidates
  {
  }

  function Rank(t: Task): nat
  {
    match t
    case NUL => 0
    case OUT => 1
    case RET => 2
    case CRG => 3
  }

  /** Strict lexicographic order on sequences of equal length. */
  predicate LexLess(a: seq<Task>, b: seq<Task>)
    requires |a| == |b|
  {
    && |a| > 0
    && (Rank(a[0]) < Rank(b[0]) || (a[0] == b[0] && LexLess(a[1..], b[1..])))
  }

  /** Shortlex order: shorter first, then lexicographic. */
  predicate ShortlexLess(a: seq<Task>, b: seq<Task>)
  {
    |a| < |b| || (|a| == |b| && LexLess(a, b))
  }

  lemma {:induction false} LexLessIrreflexive(a: seq<Task>)
    ensures !LexLess(a, a)
    decreases |a|
  {
    if |a| > 0 {
      LexLessIrreflexive(a[1..]);
    }
  }

  lemma {:induction false} LexLessTransitive(a: seq<Task>, b: seq<Task>, c: seq<Task>)
    requires |a| == |b| == |c|
    requires LexLess(a, b) && LexLess(b, c)
    ensures LexLess(a, c)
    decreases |a|
  {
    if a[0] == b[0] && b[0] == c[0] {
      LexLessTransitive(a[1..], b[1..], c[1..]);
    } else if Rank(a[0]) == Rank(b[0]) {
      assert a[0] == b[0];
    }
  }

  lemma ShortlexTransitive(a: seq<Task>, b: seq<Task>, c: seq<Task>)
    requires ShortlexLess(a, b) && ShortlexLess(b, c)
    ensures ShortlexLess(a, c)
  {
    if |a| == |b| == |c| {
      LexLessTransitive(a, b, c);
    }
  }

  /** Neighbouring entries are in strictly increasing shortlex order. */
  lemma CatalogueSortedAdjacent()
    ensures forall i :: 0 <= i < |Candidates| - 1 ==> ShortlexLess(Candidates[i], Candidates[i + 1])
  {
  }

  lemma {:induction false} CatalogueSortedFrom(i: nat, j: nat)
    requires i < j < |Candidates|
    ensures ShortlexLess(Candidates[i], Candidates[j])
    decreases j - i
  {
    CatalogueSortedAdjacent();
    if i + 1 < j {
      CatalogueSortedFrom(i + 1, j);
      ShortlexTransitive(Candidates[i], Candidates[i + 1], Candidates[j]);
    }
  }

  /** The 25 entries are pairwise distinct, so the catalogue offers 25
      different sequences. */
  lemma CatalogueDistinct()
    ensures forall i, j :: 0 <= i < j < |Candidates| ==> Candidates[i] != Candidates[j]
  {
    forall i, j | 0 <= i < j < |Candidates|
      ensures Candidates[i] != Candidates[j]
    {
      CatalogueSortedFrom(i, j);
      LexLessIrreflexive(Candidates[i]);
    }
  }
}
