/** The per-item loop both nodes run: each input item is processed inside
    its own try block; a failure is either recorded as an output item
    (continue-on-fail) or rethrown, which abandons the whole batch. */
module ItemLoop {
  import opened JsValue
  import opened Http

  /** How one item's try block ends: the output json on success; on failure
      the record pushed under continue-on-fail and the value rethrown
      otherwise. */
  datatype Outcome = Succeeded(json: Json) | Failed(record: Json, cause: Json)

  /** One item's outcome and the requests it issued, in order. */
  datatype Step = Step(outcome: Outcome, issued: seq<Request>)

  /** An output item `{json, pairedItem}`. */
  datatype Item = Item(json: Json, pairedItem: nat)

  /** What `execute` does with the batch: return the output items, or throw
      while processing item `itemIndex`. */
  datatype Run = Returned(items: seq<Item>) | Aborted(itemIndex: nat, cause: Json)

  /** The run so far together with every request issued so far. */
  datatype Progress = Progress(run: Run, trace: seq<Request>)

  /** The output item a processed item contributes under continue-on-fail. */
  function Output(o: Outcome): Json {
    match o
    case Succeeded(json) => json
    case Failed(record, _) => record
  }

  /** Folds the outcome `s` of item `k` into the progress of the items before it. */
  function After(prev: Progress, s: Step, k: nat, continueOnFail: bool): Progress
    requires prev.run.Returned?
  {
    var trace := prev.trace + s.issued;
    match s.outcome
    case Succeeded(json) => Progress(Returned(prev.run.items + [Item(json, k)]), trace)
    case Failed(record, cause) =>
      if continueOnFail then Progress(Returned(prev.run.items + [Item(record, k)]), trace)
      else Progress(Aborted(k, cause), trace)
  }

  /** The batch processed item by item in input order; `step` runs one
      item's try block against the requests issued before it. Once an item
      aborts, nothing after it runs. */
  function Fold<P>(items: seq<P>, continueOnFail: bool, step: (P, seq<Request>) -> Step): (g: Progress)
    ensures g.run.Returned? ==> |g.run.items| == |items|
    ensures g.run.Aborted? ==> g.run.itemIndex < |items|
    decreases |items|
  {
    if items == [] then Progress(Returned([]), [])
    else
      var k := |items| - 1;
      var prev := Fold(items[..k], continueOnFail, step);
      if prev.run.Aborted? then prev
      else After(prev, step(items[k], prev.trace), k, continueOnFail)
  }

  /** What item `i` does when its turn comes. */
  function StepAt<P>(items: seq<P>, i: nat, continueOnFail: bool, step: (P, seq<Request>) -> Step): Step
    requires i < |items|
  {
    step(items[i], Fold(items[..i], continueOnFail, step).trace)
  }

  /** Processing item `i` extends the progress of the items before it. */
  lemma FoldSnoc<P>(items: seq<P>, i: nat, continueOnFail: bool, step: (P, seq<Request>) -> Step)
    requires i < |items|
    ensures var prev := Fold(items[..i], continueOnFail, step);
            Fold(items[..i + 1], continueOnFail, step) ==
              if prev.run.Aborted? then prev
              else After(prev, StepAt(items, i, continueOnFail, step), i, continueOnFail)
  {
    assert items[..i + 1][..i] == items[..i];
  }

  /** A returned run's outputs start with those of any prefix of the input;
      once a prefix aborts, the later items change nothing. */
  lemma {:induction false} FoldPrefix<P>(items: seq<P>, j: nat, continueOnFail: bool, step: (P, seq<Request>) -> Step)
    requires j <= |items|
    ensures Fold(items, continueOnFail, step).run.Returned? ==>
              Fold(items[..j], continueOnFail, step).run == Returned(Fold(items, continueOnFail, step).run.items[..j])
    ensures Fold(items[..j], continueOnFail, step).run.Aborted? ==>
              Fold(items, continueOnFail, step) == Fold(items[..j], continueOnFail, step)
    decreases |items|
  {
    if j < |items| {
      var k := |items| - 1;
      var front := items[..k];
      assert front[..j] == items[..j];
      FoldPrefix(front, j, continueOnFail, step);
      var prev := Fold(front, continueOnFail, step);
      if prev.run.Returned? && Fold(items, continueOnFail, step).run.Returned? {
        assert Fold(items, continueOnFail, step).run.items[..k] == prev.run.items;
        assert Fold(items, continueOnFail, step).run.items[..j] == prev.run.items[..j];
      }
    } else {
      assert items[..j] == items;
    }
  }

  /** With continue-on-fail the run always returns, with exactly one output
      per input, in input order, paired with its input's index: the item's
      result on success and its error record on failure. */
  lemma {:induction false} ContinueOnFailKeepsEveryItem<P>(items: seq<P>, step: (P, seq<Request>) -> Step)
    ensures var g := Fold(items, true, step);
            g.run.Returned? && |g.run.items| == |items| &&
            forall i :: 0 <= i < |items| ==>
              g.run.items[i] == Item(Output(StepAt(items, i, true, step).outcome), i)
    decreases |items|
  {
    if items != [] {
      ContinueOnFailKeepsEveryItem(items[..|items| - 1], step);
    }
    var g := Fold(items, true, step);
    forall i | 0 <= i < |items|
      ensures g.run.items[i] == Item(Output(StepAt(items, i, true, step).outcome), i)
    {
      FoldPrefix(items, i + 1, true, step);
      FoldSnoc(items, i, true, step);
      ContinueOnFailKeepsEveryItem(items[..i], step);
      assert g.run.items[i] == g.run.items[..i + 1][i];
    }
  }

  /** Without continue-on-fail the run returns exactly when every item
      succeeds, and then outputs each item's result paired with its index. */
  lemma {:induction false} FailFastReturnsOnlyIfAllSucceed<P>(items: seq<P>, step: (P, seq<Request>) -> Step)
    ensures var g := Fold(items, false, step);
            (g.run.Returned? <==> forall i :: 0 <= i < |items| ==> StepAt(items, i, false, step).outcome.Succeeded?) &&
            (g.run.Returned? ==>
               forall i :: 0 <= i < |items| ==>
                 g.run.items[i] == Item(StepAt(items, i, false, step).outcome.json, i))
    decreases |items|
  {
    var g := Fold(items, false, step);
    if items != [] {
      var k := |items| - 1;
      FailFastReturnsOnlyIfAllSucceed(items[..k], step);
      FoldSnoc(items, k, false, step);
      assert items[..k + 1] == items;
      var prev := Fold(items[..k], false, step);
      forall i | 0 <= i < k
        ensures StepAt(items[..k], i, false, step) == StepAt(items, i, false, step)
      {
        assert items[..k][..i] == items[..i];
      }
      if g.run.Returned? {
        forall i | 0 <= i < |items|
          ensures g.run.items[i] == Item(StepAt(items, i, false, step).outcome.json, i)
        {
          if i < k {
            assert g.run.items[i] == prev.run.items[i];
          }
        }
      }
    }
  }

  /** Without continue-on-fail an aborted run stopped at the first failing
      item: every item before it succeeded, the rethrown value is that
      item's, and no request was issued for any later item. */
  lemma {:induction false} FailFastAbortsAtFirstFailure<P>(items: seq<P>, step: (P, seq<Request>) -> Step)
    ensures var g := Fold(items, false, step);
            g.run.Aborted? ==>
              var k := g.run.itemIndex;
              k < |items| &&
              (forall i :: 0 <= i < k ==> StepAt(items, i, false, step).outcome.Succeeded?) &&
              StepAt(items, k, false, step).outcome.Failed? &&
              g.run.cause == StepAt(items, k, false, step).outcome.cause &&
              g.trace == Fold(items[..k], false, step).trace + StepAt(items, k, false, step).issued
  {
    var g := Fold(items, false, step);
    if g.run.Aborted? {
      var k := g.run.itemIndex;
      AbortedPrefix(items, false, step);
      var prev := Fold(items[..k], false, step);
      FailFastReturnsOnlyIfAllSucceed(items[..k], step);
      forall i | 0 <= i < k
        ensures StepAt(items[..k], i, false, step) == StepAt(items, i, false, step)
      {
        assert items[..k][..i] == items[..i];
      }
      FoldSnoc(items, k, false, step);
      var s := StepAt(items, k, false, step);
      assert g == After(prev, s, k, false);
    }
  }

  /** An aborted run: the items before the aborting one all returned, and
      the run is exactly what the prefix up to that item gives. */
  lemma {:induction false} AbortedPrefix<P>(items: seq<P>, continueOnFail: bool, step: (P, seq<Request>) -> Step)
    ensures var g := Fold(items, continueOnFail, step);
            g.run.Aborted? ==>
              var k := g.run.itemIndex;
              k < |items| &&
              Fold(items[..k], continueOnFail, step).run.Returned? &&
              Fold(items[..k + 1], continueOnFail, step) == g
    decreases |items|
  {
    if items != [] {
      var n := |items| - 1;
      var front := items[..n];
      var prev := Fold(front, continueOnFail, step);
      AbortedPrefix(front, continueOnFail, step);
      if prev.run.Aborted? {
        var k := prev.run.itemIndex;
        assert front[..k] == items[..k];
        assert front[..k + 1] == items[..k + 1];
      } else {
        assert items[..n + 1] == items;
      }
    }
  }
}
