/**
 * The verdict aggregator: reduces a list of leveled reasons to the worst
 * verdict (FAIL > WARN > PASS) and returns the reasons stably sorted by
 * category name.
 */
module Compatibility {

  datatype Verdict = PASS | WARN | FAIL

  /** One finding of a rule checker; `message` is opaque text. */
  datatype Reason = Reason(category: string, level: Verdict, message: string)

  /** Severity rank: PASS < WARN < FAIL. */
  function Rank(v: Verdict): nat {
    match v
    case PASS => 0
    case WARN => 1
    case FAIL => 2
  }

  /** The more severe of two verdicts. */
  function Worst(a: Verdict, b: Verdict): (w: Verdict)
    ensures w == a || w == b
    ensures Rank(w) >= Rank(a) && Rank(w) >= Rank(b)
  {
    if Rank(a) >= Rank(b) then a else b
  }

  /** Specification of the reduction: a left fold of `Worst` over the levels, from PASS. */
  function WorstOf(rs: seq<Reason>): Verdict {
    if rs == [] then PASS else Worst(WorstOf(rs[..|rs| - 1]), rs[|rs| - 1].level)
  }

  predicate HasLevel(rs: seq<Reason>, v: Verdict) {
    exists i :: 0 <= i < |rs| && rs[i].level == v
  }

  /** The invariant promised for `overall`: FAIL iff some FAIL; WARN iff no FAIL and some WARN; else PASS. */
  predicate IsWorstVerdict(overall: Verdict, rs: seq<Reason>) {
    && (overall == FAIL <==> HasLevel(rs, FAIL))
    && (overall == WARN <==> !HasLevel(rs, FAIL) && HasLevel(rs, WARN))
    && (overall == PASS <==> !HasLevel(rs, FAIL) && !HasLevel(rs, WARN))
  }

  lemma {:induction false} HasLevelSnoc(init: seq<Reason>, last: Reason, v: Verdict)
    ensures HasLevel(init + [last], v) <==> HasLevel(init, v) || last.level == v
  {
    var rs := init + [last];
    if HasLevel(rs, v) {
      var i :| 0 <= i < |rs| && rs[i].level == v;
      if i < |init| {
        assert init[i] == rs[i];
      }
    }
    if HasLevel(init, v) {
      var i :| 0 <= i < |init| && init[i].level == v;
      assert rs[i] == init[i];
    }
    if last.level == v {
      assert rs[|init|] == last;
    }
  }

  /** The fold computes the worst verdict in the sense of `IsWorstVerdict`. */
  lemma {:induction false} WorstOfIsWorstVerdict(rs: seq<Reason>)
    ensures IsWorstVerdict(WorstOf(rs), rs)
  {
    if rs != [] {
      var init := rs[..|rs| - 1];
      WorstOfIsWorstVerdict(init);
      assert rs == init + [rs[|rs| - 1]];
      HasLevelSnoc(init, rs[|rs| - 1], FAIL);
      HasLevelSnoc(init, rs[|rs| - 1], WARN);
    }
  }

  /** Reordering the reasons keeps every level that occurs, so the worst-of invariant carries over to a permutation. */
  lemma SamePermutationSameWorst(overall: Verdict, rs: seq<Reason>, ts: seq<Reason>)
    requires multiset(rs) == multiset(ts) && IsWorstVerdict(overall, rs)
    ensures IsWorstVerdict(overall, ts)
  {
    forall v: Verdict
      ensures HasLevel(rs, v) <==> HasLevel(ts, v)
    {
      if HasLevel(rs, v) {
        var i :| 0 <= i < |rs| && rs[i].level == v;
        assert rs[i] in multiset(ts);
        var j :| 0 <= j < |ts| && ts[j] == rs[i];
      }
      if HasLevel(ts, v) {
        var j :| 0 <= j < |ts| && ts[j].level == v;
        assert ts[j] in multiset(rs);
        var i :| 0 <= i < |rs| && rs[i] == ts[j];
      }
    }
  }

  /** The worst-of loop: PASS, raised to WARN, and stopping at the first FAIL. */
  method Overall(reasons: seq<Reason>) returns (overall: Verdict)
    ensures overall == WorstOf(reasons)
    ensures IsWorstVerdict(overall, reasons)
  {
    overall := PASS;
    var i := 0;
    while i < |reasons|
      invariant 0 <= i <= |reasons|
      invariant overall == WorstOf(reasons[..i])
    {
      if reasons[i].level == FAIL {
        overall := FAIL;
        break;
      }
      if reasons[i].level == WARN {
        overall := if overall == PASS then WARN else overall;
      }
      assert reasons[..i + 1][..i] == reasons[..i];
      i := i + 1;
    }
    WorstOfIsWorstVerdict(reasons);
    if i < |reasons| {
      assert reasons[i].level == FAIL && overall == FAIL;
    } else {
      assert reasons[..i] == reasons;
    }
  }

  // ---------------------------------------------------------------------
  // Ordering by category

  /** Lexicographic order on category names by character code (the model of `localeCompare(a, b) <= 0`). */
  predicate CategoryLe(a: string, b: string) {
    if a == [] then true
    else if b == [] then false
    else if a[0] != b[0] then a[0] < b[0]
    else CategoryLe(a[1..], b[1..])
  }

  lemma {:induction false} CategoryLeReflexive(a: string)
    ensures CategoryLe(a, a)
  {
    if a != [] {
      CategoryLeReflexive(a[1..]);
    }
  }

  lemma {:induction false} CategoryLeTotal(a: string, b: string)
    ensures CategoryLe(a, b) || CategoryLe(b, a)
  {
    if a != [] && b != [] && a[0] == b[0] {
      CategoryLeTotal(a[1..], b[1..]);
    }
  }

  lemma {:induction false} CategoryLeAntisymmetric(a: string, b: string)
    requires CategoryLe(a, b) && CategoryLe(b, a)
    ensures a == b
  {
    if a != [] && b != [] {
      CategoryLeAntisymmetric(a[1..], b[1..]);
      assert a == [a[0]] + a[1..] && b == [b[0]] + b[1..];
    }
  }

  lemma {:induction false} CategoryLeTransitive(a: string, b: string, c: string)
    requires CategoryLe(a, b) && CategoryLe(b, c)
    ensures CategoryLe(a, c)
  {
    if a != [] && b != [] && c != [] && a[0] == b[0] && b[0] == c[0] {
      CategoryLeTransitive(a[1..], b[1..], c[1..]);
    }
  }

  /** Every earlier reason's category is at most every later one's. */
  predicate SortedByCategory(s: seq<Reason>) {
    forall i, j :: 0 <= i < j < |s| ==> CategoryLe(s[i].category, s[j].category)
  }

  predicate AdjacentSorted(s: seq<Reason>) {
    forall k :: 0 < k < |s| ==> CategoryLe(s[k - 1].category, s[k].category)
  }

  lemma {:induction false} AdjacentSortedStep(s: seq<Reason>, i: nat, j: nat)
    requires AdjacentSorted(s) && i < j < |s|
    ensures CategoryLe(s[i].category, s[j].category)
    decreases j - i
  {
    if i + 1 < j {
      AdjacentSortedStep(s, i, j - 1);
      CategoryLeTransitive(s[i].category, s[j - 1].category, s[j].category);
    }
  }

  lemma AdjacentSortedIsSorted(s: seq<Reason>)
    requires AdjacentSorted(s)
    ensures SortedByCategory(s)
  {
    forall i, j | 0 <= i < j < |s|
      ensures CategoryLe(s[i].category, s[j].category)
    {
      AdjacentSortedStep(s, i, j);
    }
  }

  /** The reasons of category `c`, in their order of appearance in `s`. */
  function Select(s: seq<Reason>, c: string): seq<Reason> {
    if s == [] then []
    else (if s[0].category == c then [s[0]] else []) + Select(s[1..], c)
  }

  /**
   * Stability: every category keeps exactly its reasons, in the same relative
   * order. Together with sortedness this determines the output (StableSortIsUnique).
   */
  ghost predicate SameByCategory(s: seq<Reason>, t: seq<Reason>) {
    forall c :: Select(s, c) == Select(t, c)
  }

  lemma {:induction false} SelectConcat(a: seq<Reason>, b: seq<Reason>, c: string)
    ensures Select(a + b, c) == Select(a, c) + Select(b, c)
  {
    if a == [] {
      assert a + b == b;
    } else {
      var h := if a[0].category == c then [a[0]] else [];
      assert (a + b)[0] == a[0];
      assert (a + b)[1..] == a[1..] + b;
      SelectConcat(a[1..], b, c);
      calc {
        Select(a + b, c);
        h + Select(a[1..] + b, c);
        h + (Select(a[1..], c) + Select(b, c));
        (h + Select(a[1..], c)) + Select(b, c);
        Select(a, c) + Select(b, c);
      }
    }
  }

  /** Swapping two neighbours of different categories keeps every category's subsequence. */
  lemma SwapKeepsSelect(s: seq<Reason>, k: nat)
    requires 0 < k < |s| && s[k - 1].category != s[k].category
    ensures SameByCategory(s[k - 1 := s[k]][k := s[k - 1]], s)
  {
    var t := s[k - 1 := s[k]][k := s[k - 1]];
    var pre, post := s[..k - 1], s[k + 1..];
    assert s == pre + [s[k - 1], s[k]] + post;
    assert t == pre + [s[k], s[k - 1]] + post;
    forall c
      ensures Select(t, c) == Select(s, c)
    {
      SelectConcat(pre + [s[k - 1], s[k]], post, c);
      SelectConcat(pre, [s[k - 1], s[k]], c);
      SelectConcat(pre + [s[k], s[k - 1]], post, c);
      SelectConcat(pre, [s[k], s[k - 1]], c);
      assert [s[k - 1], s[k]][1..] == [s[k]];
      assert [s[k], s[k - 1]][1..] == [s[k - 1]];
    }
  }

  /** Exchanges the out-of-order neighbours `a[k - 1]` and `a[k]`. */
  method SwapNeighbours(a: array<Reason>, k: nat)
    requires 0 < k < a.Length && !CategoryLe(a[k - 1].category, a[k].category)
    modifies a
    ensures a[..] == old(a[..])[k - 1 := old(a[k])][k := old(a[k - 1])]
    ensures SameByCategory(a[..], old(a[..]))
    ensures multiset(a[..]) == multiset(old(a[..]))
  {
    CategoryLeReflexive(a[k].category);
    SwapKeepsSelect(a[..], k);
    a[k - 1], a[k] := a[k], a[k - 1];
  }

  /** The state of one insertion step: `s[j]` is the element being moved left. */
  predicate Inserting(s: seq<Reason>, i: nat, j: nat) {
    && j <= i < |s|
    && AdjacentSorted(s[..j])
    && AdjacentSorted(s[j..i + 1])
    && (0 < j < i ==> CategoryLe(s[j - 1].category, s[j + 1].category))
  }

  lemma InsertingStep(s: seq<Reason>, i: nat, j: nat)
    requires Inserting(s, i, j) && 0 < j && !CategoryLe(s[j - 1].category, s[j].category)
    ensures Inserting(s[j - 1 := s[j]][j := s[j - 1]], i, j - 1)
  {
    CategoryLeTotal(s[j - 1].category, s[j].category);
    var t := s[j - 1 := s[j]][j := s[j - 1]];
    assert t[..j - 1] == s[..j - 1];
    var u, w := t[j - 1..i + 1], s[j..i + 1];
    forall k | 0 < k < |u|
      ensures CategoryLe(u[k - 1].category, u[k].category)
    {
      if k >= 3 {
        assert u[k - 1] == w[k - 2] && u[k] == w[k - 1];
      }
    }
    if 1 < j {
      assert s[..j][j - 2] == s[j - 2] && s[..j][j - 1] == s[j - 1];
    }
  }

  lemma InsertingDone(s: seq<Reason>, i: nat, j: nat)
    requires Inserting(s, i, j) && (j == 0 || CategoryLe(s[j - 1].category, s[j].category))
    ensures AdjacentSorted(s[..i + 1])
  {
    var u, lo, hi := s[..i + 1], s[..j], s[j..i + 1];
    forall k | 0 < k < |u|
      ensures CategoryLe(u[k - 1].category, u[k].category)
    {
      if k < j {
        assert lo[k - 1] == s[k - 1] && lo[k] == s[k];
      } else if k > j {
        assert hi[k - 1 - j] == s[k - 1] && hi[k - j] == s[k];
      }
    }
  }

  /** One insertion step: moves `a[i]` left past every neighbour with a strictly greater category. */
  method InsertLast(a: array<Reason>, i: nat)
    requires i < a.Length && AdjacentSorted(a[..i])
    modifies a
    ensures AdjacentSorted(a[..i + 1])
    ensures SameByCategory(a[..], old(a[..]))
    ensures multiset(a[..]) == multiset(old(a[..]))
    ensures a[i + 1..] == old(a[i + 1..])
  {
    var j := i;
    assert a[i..i + 1] == [a[i]];
    while j > 0 && !CategoryLe(a[j - 1].category, a[j].category)
      invariant 0 <= j <= i
      invariant Inserting(a[..], i, j)
      invariant SameByCategory(a[..], old(a[..]))
      invariant multiset(a[..]) == multiset(old(a[..]))
      invariant a[i + 1..] == old(a[i + 1..])
    {
      InsertingStep(a[..], i, j);
      SwapNeighbours(a, j);
      j := j - 1;
    }
    InsertingDone(a[..], i, j);
  }

  /** The in-place stable sort of the copied list (insertion sort). */
  method SortByCategory(a: array<Reason>)
    modifies a
    ensures SortedByCategory(a[..])
    ensures SameByCategory(a[..], old(a[..]))
    ensures multiset(a[..]) == multiset(old(a[..]))
  {
    var i := 0;
    while i < a.Length
      invariant 0 <= i <= a.Length
      invariant AdjacentSorted(a[..i])
      invariant SameByCategory(a[..], old(a[..]))
      invariant multiset(a[..]) == multiset(old(a[..]))
    {
      InsertLast(a, i);
      i := i + 1;
    }
    assert a[..a.Length] == a[..];
    AdjacentSortedIsSorted(a[..]);
  }

  /** `aggregate`: the worst verdict, and a sorted copy of the reasons (the input is not changed). */
  method Aggregate(reasons: seq<Reason>) returns (overall: Verdict, ordered: seq<Reason>)
    ensures overall == WorstOf(reasons)
    ensures IsWorstVerdict(overall, reasons)
    ensures SortedByCategory(ordered)
    ensures SameByCategory(ordered, reasons)
    ensures multiset(ordered) == multiset(reasons) && |ordered| == |reasons|
  {
    overall := Overall(reasons);
    var copy := new Reason[|reasons|](i requires 0 <= i < |reasons| => reasons[i]);
    assert copy[..] == reasons;
    SortByCategory(copy);
    ordered := copy[..];
  }

  // ---------------------------------------------------------------------
  // The sorted, stable order is unique

  lemma {:induction false} SelectNonEmpty(s: seq<Reason>, c: string)
    requires Select(s, c) != []
    ensures exists i :: 0 <= i < |s| && s[i].category == c
  {
    if s[0].category != c {
      SelectNonEmpty(s[1..], c);
      var i :| 0 <= i < |s[1..]| && s[1..][i].category == c;
      assert s[i + 1].category == c;
    }
  }

  lemma SelectHead(s: seq<Reason>)
    requires s != []
    ensures Select(s, s[0].category) != [] && Select(s, s[0].category)[0] == s[0]
  {
  }

  /** Two sorted lists that agree category by category are equal. */
  lemma {:induction false} StableSortIsUnique(s: seq<Reason>, t: seq<Reason>)
    requires SortedByCategory(s) && SortedByCategory(t)
    requires SameByCategory(s, t)
    ensures s == t
  {
    if s == [] {
      if t != [] {
        SelectHead(t);
        assert false;
      }
    } else if t == [] {
      SelectHead(s);
      assert false;
    } else {
      var c1, c2 := s[0].category, t[0].category;
      SelectHead(s);
      SelectHead(t);
      assert Select(t, c1) == Select(s, c1);
      SelectNonEmpty(t, c1);
      var i :| 0 <= i < |t| && t[i].category == c1;
      if i > 0 {
        assert CategoryLe(c2, c1);
      } else {
        CategoryLeReflexive(c1);
      }
      assert Select(s, c2) == Select(t, c2);
      SelectNonEmpty(s, c2);
      var j :| 0 <= j < |s| && s[j].category == c2;
      if j > 0 {
        assert CategoryLe(c1, c2);
      } else {
        CategoryLeReflexive(c1);
      }
      CategoryLeAntisymmetric(c1, c2);
      assert s[0] == t[0];
      forall c
        ensures Select(s[1..], c) == Select(t[1..], c)
      {
        var h := if s[0].category == c then [s[0]] else [];
        assert Select(s, c) == h + Select(s[1..], c);
        assert Select(t, c) == h + Select(t[1..], c);
        assert Select(s[1..], c) == Select(s, c)[|h|..];
        assert Select(t[1..], c) == Select(t, c)[|h|..];
      }
      StableSortIsUnique(s[1..], t[1..]);
      assert s == [s[0]] + s[1..] && t == [t[0]] + t[1..];
    }
  }

  /** Any output `Aggregate` may produce is the single sorted, stable rearrangement. */
  lemma AggregateOrderIsDetermined(reasons: seq<Reason>, out1: seq<Reason>, out2: seq<Reason>)
    requires SortedByCategory(out1) && SameByCategory(out1, reasons)
    requires SortedByCategory(out2) && SameByCategory(out2, reasons)
    ensures out1 == out2
  {
    StableSortIsUnique(out1, out2);
  }

  /** [Voltage FAIL, Current/Thermal WARN] gives FAIL with "Current/Thermal" first. */
  lemma AggregateExample(ordered: seq<Reason>)
    requires
      var input := [Reason("Voltage", FAIL, "4S on 2-3S ESC"), Reason("Current/Thermal", WARN, "Near cont limit")];
      SortedByCategory(ordered) && SameByCategory(ordered, input)
    ensures WorstOf([Reason("Voltage", FAIL, "4S on 2-3S ESC"), Reason("Current/Thermal", WARN, "Near cont limit")]) == FAIL
    ensures |ordered| == 2 && ordered[0].category == "Current/Thermal" && ordered[1].category == "Voltage"
  {
    var v := Reason("Voltage", FAIL, "4S on 2-3S ESC");
    var ct := Reason("Current/Thermal", WARN, "Near cont limit");
    var input := [v, ct];
    var expected := [ct, v];
    assert input[0 := input[1]][1 := input[0]] == expected;
    SwapKeepsSelect(input, 1);
    assert CategoryLe(ct.category, v.category);
    assert SortedByCategory(expected);
    StableSortIsUnique(ordered, expected);
  }

  /** A lone PASS gives PASS; a PASS and a WARN give WARN. */
  lemma OverallExamples()
    ensures WorstOf([Reason("Voltage", PASS, "")]) == PASS
    ensures WorstOf([Reason("Voltage", PASS, ""), Reason("ERPM/Speed", WARN, "")]) == WARN
  {
  }
}
