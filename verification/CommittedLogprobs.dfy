/** `spec_committed_logprobs`: the walk's logprobs, one row per committed token, cut to what is published. */
module CommittedLogprobs {
  import opened Runtime

  /** `starts[i]..starts[i + 1]` are the rows of request `i`. */
  datatype Logprobs<T> = Logprobs(rows: seq<T>, starts: seq<nat>)

  datatype BoundaryError = BoundaryCount(starts: nat, prefixes: nat)

  ghost predicate Bounded<T>(l: Logprobs<T>) {
    && l.starts != [] && l.starts[0] == 0 && l.starts[|l.starts| - 1] == |l.rows|
    && forall i, j :: 0 <= i <= j < |l.starts| ==> l.starts[i] <= l.starts[j]
  }

  /** Every published prefix is a prefix of what the walk committed. */
  ghost predicate Publishes<T>(l: Logprobs<T>, lens: seq<nat>) {
    |l.starts| == |lens| + 1 && forall i :: 0 <= i < |lens| ==> l.starts[i] + lens[i] <= l.starts[i + 1]
  }

  function Of<T>(l: Logprobs<T>, i: nat): seq<T>
    requires i + 1 < |l.starts| && l.starts[i] <= l.starts[i + 1] <= |l.rows|
  {
    l.rows[l.starts[i]..l.starts[i + 1]]
  }

  function Sum(lens: seq<nat>): nat {
    if lens == [] then 0 else Sum(lens[..|lens| - 1]) + lens[|lens| - 1]
  }

  /** Published counts add up to the walk's exactly when no prefix is shorter than its walk. */
  lemma {:induction false} SumIsWholeExactly<T>(l: Logprobs<T>, lens: seq<nat>, n: nat)
    requires Bounded(l) && Publishes(l, lens) && n <= |lens|
    ensures Sum(lens[..n]) <= l.starts[n]
    ensures Sum(lens[..n]) == l.starts[n] <==> forall i :: 0 <= i < n ==> l.starts[i] + lens[i] == l.starts[i + 1]
  {
    if n > 0 {
      assert lens[..n][..n - 1] == lens[..n - 1];
      SumIsWholeExactly(l, lens, n - 1);
    }
  }

  /** Request `i`'s published rows are the first of its walk's. */
  ghost predicate RowCut<T>(l: Logprobs<T>, lens: seq<nat>, i: nat, cut: Logprobs<T>) {
    && i < |lens| && i + 1 < |l.starts| && i + 1 < |cut.starts|
    && l.starts[i] + lens[i] <= |l.rows|
    && cut.starts[i] + lens[i] == cut.starts[i + 1] <= |cut.rows|
    && Of(cut, i) == l.rows[l.starts[i]..l.starts[i] + lens[i]]
  }

  ghost predicate IsCut<T>(l: Logprobs<T>, lens: seq<nat>, n: nat, cut: Logprobs<T>) {
    && n <= |lens| && |cut.starts| == n + 1 && cut.starts[0] == 0 && cut.starts[n] == |cut.rows| == Sum(lens[..n])
    && forall i :: 0 <= i < n ==> RowCut(l, lens, i, cut)
  }

  function Extended<T>(l: Logprobs<T>, lens: seq<nat>, n: nat, cut: Logprobs<T>): Logprobs<T>
    requires n < |lens| && n < |l.starts| && n < |cut.starts| && l.starts[n] + lens[n] <= |l.rows|
  {
    Logprobs(cut.rows + l.rows[l.starts[n]..l.starts[n] + lens[n]], cut.starts + [cut.starts[n] + lens[n]])
  }

  lemma CutNext<T>(l: Logprobs<T>, lens: seq<nat>, n: nat, cut: Logprobs<T>)
    requires Bounded(l) && Publishes(l, lens) && n < |lens| && IsCut(l, lens, n, cut)
    ensures l.starts[n] + lens[n] <= |l.rows| && IsCut(l, lens, n + 1, Extended(l, lens, n, cut))
  {
    assert l.starts[n + 1] <= l.starts[|l.starts| - 1];
    assert lens[..n + 1][..n] == lens[..n];
    forall i | 0 <= i < n ensures RowCut(l, lens, i, Extended(l, lens, n, cut)) {
      assert RowCut(l, lens, i, cut);
      RowKept(l, lens, n, cut, i);
    }
    LastRow(l, lens, n, cut);
  }

  lemma RowKept<T>(l: Logprobs<T>, lens: seq<nat>, n: nat, cut: Logprobs<T>, i: nat)
    requires n < |lens| && n < |l.starts| && |cut.starts| == n + 1 && l.starts[n] + lens[n] <= |l.rows|
    requires RowCut(l, lens, i, cut) && i < n
    ensures RowCut(l, lens, i, Extended(l, lens, n, cut))
  {
    assert Of(Extended(l, lens, n, cut), i) == Of(cut, i);
  }

  lemma LastRow<T>(l: Logprobs<T>, lens: seq<nat>, n: nat, cut: Logprobs<T>)
    requires n < |lens| && n + 1 < |l.starts| && |cut.starts| == n + 1 && l.starts[n] + lens[n] <= |l.rows| && cut.starts[n] == |cut.rows|
    ensures RowCut(l, lens, n, Extended(l, lens, n, cut))
  {
  }

  /** Nothing is cut when every prefix is its whole walk. */
  lemma {:induction false} UncutIsCut<T>(l: Logprobs<T>, lens: seq<nat>)
    requires Bounded(l) && Publishes(l, lens) && Sum(lens) == |l.rows|
    ensures IsCut(l, lens, |lens|, l)
  {
    assert lens[..|lens|] == lens;
    SumIsWholeExactly(l, lens, |lens|);
    forall i | 0 <= i < |lens| ensures RowCut(l, lens, i, l) {
      assert l.starts[i + 1] <= l.starts[|lens|];
    }
  }

  method KeptRows(lens: seq<nat>) returns (kept: nat)
    ensures kept == Sum(lens)
  {
    kept := 0;
    for i := 0 to |lens|
      invariant kept == Sum(lens[..i])
    {
      assert lens[..i + 1][..i] == lens[..i];
      kept := kept + lens[i];
    }
    assert lens[..|lens|] == lens;
  }

  method CutRows<T>(l: Logprobs<T>, lens: seq<nat>) returns (cut: Logprobs<T>)
    requires Bounded(l) && Publishes(l, lens)
    ensures IsCut(l, lens, |lens|, cut)
  {
    cut := Logprobs([], [0]);
    for i := 0 to |lens|
      invariant IsCut(l, lens, i, cut)
    {
      CutNext(l, lens, i, cut);
      cut := Extended(l, lens, i, cut);
    }
  }

  /** Err is the boundary-count error. The input comes back untouched exactly when nothing was cut. */
  method Cut<T(==)>(l: Logprobs<T>, lens: seq<nat>) returns (result: Result<Logprobs<T>, BoundaryError>)
    requires Bounded(l) && (|l.starts| == |lens| + 1 ==> Publishes(l, lens))
    ensures result.Err? <==> |l.starts| != |lens| + 1
    ensures result.Ok? ==> IsCut(l, lens, |lens|, result.value)
    ensures result.Ok? ==> (result.value == l <==> forall i :: 0 <= i < |lens| ==> l.starts[i] + lens[i] == l.starts[i + 1])
  {
    if |l.starts| != |lens| + 1 { return Err(BoundaryCount(|l.starts|, |lens|)); }
    var kept := KeptRows(lens);
    assert lens[..|lens|] == lens;
    SumIsWholeExactly(l, lens, |lens|);
    if kept == l.starts[|l.starts| - 1] {
      UncutIsCut(l, lens);
      return Ok(l);
    }
    var cut := CutRows(l, lens);
    return Ok(cut);
  }
}
