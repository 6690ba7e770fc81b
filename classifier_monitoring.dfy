/** The per-fold result collector of a detection experiment
    (`ClassifierMonitoring`): one model slot per cross-validation fold, a
    running execution-time total, and a coefficient aggregator that is created
    on the first fold that reports coefficients. */
module Monitoring {
  import opened Wrappers
  import Decimal

  /** What the monitor reads from a trained classifier: its `pipeline`, its
      `conf`, and the result of `get_coefs()` (`None` when the model has no
      coefficients). `P`, `K` and `C` stand for the pipeline, configuration and
      coefficient values, which the monitor never inspects. */
  datatype Classifier<P, K, C> = Classifier(pipeline: P, conf: K, coefs: Option<C>)

  /** The coefficient aggregator, seen from outside: the configuration and fold
      count it was created with, every `add_fold(coefs, fold_id)` it received,
      in order, and whether `final_computations` has run. */
  datatype Coefficients<K, C> = Coefficients(conf: K, numFolds: nat, folds: seq<(int, C)>, finalized: bool)

  /** One `set_classifier` call that was carried out. */
  datatype Record<P, K, C> = Record(classifier: Classifier<P, K, C>, execTime: real, foldId: int)

  /** `set_classifier` either records the fold or raises `IndexError` from the
      list assignment, before anything has changed. */
  datatype Outcome = Recorded | IndexError

  /** One `joblib.dump(pipeline, path.join(directory, fileName))` call. */
  datatype Dump<P> = Dump(slot: nat, pipeline: Option<P>, fileName: string)

  /** The fold indices a Python list of `numFolds` entries accepts, negative
      ones counting from the end. */
  predicate InRange(foldId: int, numFolds: nat) {
    -(numFolds as int) <= foldId < numFolds
  }

  /** The list slot a Python index denotes. */
  function Slot(foldId: int, numFolds: nat): (i: nat)
    requires InRange(foldId, numFolds)
    ensures i < numFolds
    ensures i == foldId || i == foldId + numFolds
  {
    if foldId < 0 then foldId + numFolds else foldId
  }

  predicate Targets<P, K, C>(r: Record<P, K, C>, i: nat, numFolds: nat) {
    InRange(r.foldId, numFolds) && Slot(r.foldId, numFolds) == i
  }

  // ---------------------------------------------------------------------
  // Specification of the state in terms of the calls made so far

  /** The sum of the execution times of the calls in `h`. */
  function TotalTime<P, K, C>(h: seq<Record<P, K, C>>): real {
    if h == [] then 0.0 else h[0].execTime + TotalTime(h[1..])
  }

  /** The `add_fold` calls the aggregator receives during the calls `h`. */
  function CoefficientLog<P, K, C>(h: seq<Record<P, K, C>>): seq<(int, C)> {
    if h == [] then []
    else
      (if h[0].classifier.coefs.Some? then [(h[0].foldId, h[0].classifier.coefs.value)] else [])
      + CoefficientLog(h[1..])
  }

  /** The configuration of the first classifier in `h` that had coefficients:
      the one the aggregator is created with. */
  function FirstConf<P, K, C>(h: seq<Record<P, K, C>>): Option<K> {
    if h == [] then None
    else if h[0].classifier.coefs.Some? then Some(h[0].classifier.conf)
    else FirstConf(h[1..])
  }

  /** The pipeline of the last call in `h` that wrote slot `i`, if any. */
  function LastWrite<P, K, C>(h: seq<Record<P, K, C>>, i: nat, numFolds: nat): Option<P> {
    if h == [] then None
    else
      var later := LastWrite(h[1..], i, numFolds);
      if later.Some? then later
      else if Targets(h[0], i, numFolds) then Some(h[0].classifier.pipeline)
      else None
  }

  function FoldsOf<K, C>(agg: Option<Coefficients<K, C>>): seq<(int, C)> {
    if agg.Some? then agg.value.folds else []
  }

  /** What `set_coefficients` does to the aggregator field. */
  function AddFold<P, K, C>(agg: Option<Coefficients<K, C>>, numFolds: nat,
                            classifier: Classifier<P, K, C>, foldId: int): (r: Option<Coefficients<K, C>>)
    // a classifier without coefficients leaves the aggregator untouched
    ensures classifier.coefs.None? ==> r == agg
    // one with coefficients adds exactly one fold entry, keyed by the fold id
    ensures classifier.coefs.Some? ==>
      r.Some? && r.value.folds == FoldsOf(agg) + [(foldId, classifier.coefs.value)]
    // an existing aggregator is kept, never recreated or reset
    ensures agg.Some? ==>
      r.Some? && r.value.conf == agg.value.conf && r.value.numFolds == agg.value.numFolds
      && r.value.finalized == agg.value.finalized
    // a new one takes the classifier's configuration and the monitor's fold count
    ensures agg.None? && r.Some? ==>
      r.value.conf == classifier.conf && r.value.numFolds == numFolds && !r.value.finalized
  {
    match classifier.coefs
    case None => agg
    case Some(coefs) =>
      var created := if agg.None? then Coefficients(classifier.conf, numFolds, [], false) else agg.value;
      Some(created.(folds := created.folds + [(foldId, coefs)]))
  }

  // ---------------------------------------------------------------------
  // Lemmas about the specification functions

  lemma {:induction false} TotalTimeConcat<P, K, C>(h1: seq<Record<P, K, C>>, h2: seq<Record<P, K, C>>)
    ensures TotalTime(h1 + h2) == TotalTime(h1) + TotalTime(h2)
  {
    if h1 == [] {
      assert h1 + h2 == h2;
    } else {
      assert (h1 + h2)[1..] == h1[1..] + h2;
      TotalTimeConcat(h1[1..], h2);
    }
  }

  lemma {:induction false} CoefficientLogAppend<P, K, C>(h: seq<Record<P, K, C>>, r: Record<P, K, C>)
    ensures CoefficientLog(h + [r]) ==
      CoefficientLog(h) + (if r.classifier.coefs.Some? then [(r.foldId, r.classifier.coefs.value)] else [])
  {
    if h != [] {
      assert (h + [r])[1..] == h[1..] + [r];
      CoefficientLogAppend(h[1..], r);
    }
  }

  lemma {:induction false} FirstConfAppend<P, K, C>(h: seq<Record<P, K, C>>, r: Record<P, K, C>)
    ensures FirstConf(h + [r]) ==
      if FirstConf(h).Some? then FirstConf(h)
      else if r.classifier.coefs.Some? then Some(r.classifier.conf)
      else None
  {
    if h != [] {
      assert (h + [r])[1..] == h[1..] + [r];
      FirstConfAppend(h[1..], r);
    }
  }

  /** No aggregator exists exactly when every call so far had no coefficients. */
  lemma {:induction false} FirstConfNoneIff<P, K, C>(h: seq<Record<P, K, C>>)
    ensures FirstConf(h).None? <==> forall k :: 0 <= k < |h| ==> h[k].classifier.coefs.None?
  {
    if h != [] {
      FirstConfNoneIff(h[1..]);
      assert forall k :: 1 <= k < |h| ==> h[k] == h[1..][k - 1];
    }
  }

  /** The aggregator has received folds exactly when it exists. */
  lemma {:induction false} CoefficientLogEmptyIff<P, K, C>(h: seq<Record<P, K, C>>)
    ensures CoefficientLog(h) == [] <==> FirstConf(h).None?
  {
    if h != [] {
      CoefficientLogEmptyIff(h[1..]);
    }
  }

  /** Once created, the aggregator is never replaced, whatever calls follow. */
  lemma {:induction false} FirstConfStable<P, K, C>(h1: seq<Record<P, K, C>>, h2: seq<Record<P, K, C>>)
    requires FirstConf(h1).Some?
    ensures FirstConf(h1 + h2) == FirstConf(h1)
  {
    if h1[0].classifier.coefs.None? {
      assert (h1 + h2)[1..] == h1[1..] + h2;
      FirstConfStable(h1[1..], h2);
    }
  }

  lemma {:induction false} LastWriteConcat<P, K, C>(h1: seq<Record<P, K, C>>, h2: seq<Record<P, K, C>>, i: nat, numFolds: nat)
    ensures LastWrite(h1 + h2, i, numFolds) ==
      if LastWrite(h2, i, numFolds).Some? then LastWrite(h2, i, numFolds) else LastWrite(h1, i, numFolds)
  {
    if h1 == [] {
      assert h1 + h2 == h2;
    } else {
      assert (h1 + h2)[1..] == h1[1..] + h2;
      LastWriteConcat(h1[1..], h2, i, numFolds);
    }
  }

  /** A slot is empty exactly when no call has written it. */
  lemma {:induction false} LastWriteNoneIff<P, K, C>(h: seq<Record<P, K, C>>, i: nat, numFolds: nat)
    ensures LastWrite(h, i, numFolds).None? <==> forall k :: 0 <= k < |h| ==> !Targets(h[k], i, numFolds)
  {
    if h != [] {
      LastWriteNoneIff(h[1..], i, numFolds);
      assert forall k :: 1 <= k < |h| ==> h[k] == h[1..][k - 1];
    }
  }

  /** Last write wins: a slot holds the pipeline of the latest call that wrote
      it, whatever writes to other slots came after. */
  lemma LastWriteWins<P, K, C>(h1: seq<Record<P, K, C>>, r: Record<P, K, C>, h2: seq<Record<P, K, C>>, i: nat, numFolds: nat)
    requires Targets(r, i, numFolds)
    requires forall k :: 0 <= k < |h2| ==> !Targets(h2[k], i, numFolds)
    ensures LastWrite(h1 + [r] + h2, i, numFolds) == Some(r.classifier.pipeline)
  {
    LastWriteNoneIff(h2, i, numFolds);
    LastWriteConcat(h1 + [r], h2, i, numFolds);
    LastWriteConcat(h1, [r], i, numFolds);
  }

  // ---------------------------------------------------------------------
  // Export file names

  /** `'model_%i.out' % i`. */
  function ModelFileName(i: nat): (name: string)
    // `model_`, then decimal digits that read back as `i`, then `.out`
    ensures |name| > 10 && name[..6] == "model_" && name[|name| - 4..] == ".out"
    ensures Decimal.AllDigits(name[6..|name| - 4]) && Decimal.DigitsValue(name[6..|name| - 4]) == i
  {
    var digits := Decimal.NatToString(i);
    var name := "model_" + digits + ".out";
    assert name[6..|name| - 4] == digits;
    Decimal.NatRoundTrip(i);
    name
  }

  lemma ModelFileNameInjective(i: nat, j: nat)
    requires ModelFileName(i) == ModelFileName(j)
    ensures i == j
  {
  }

  /** The files `_export_pipelines` writes: pairs of a slot and a file name. */
  function ExportPlan(numFolds: nat): (plan: seq<(nat, string)>)
    // every slot is written exactly once, in slot order
    ensures |plan| == numFolds
    ensures forall k :: 0 <= k < |plan| ==> plan[k].0 == k
    // a single fold is written as `model.out`, several as `model_<i>.out`
    ensures numFolds == 1 ==> plan[0].1 == "model.out"
    ensures numFolds != 1 ==> forall k :: 0 <= k < |plan| ==> plan[k].1 == ModelFileName(k)
  {
    if numFolds == 1 then [(0, "model.out")]
    else seq(numFolds, k requires 0 <= k => (k, ModelFileName(k)))
  }

  /** No two exported files share a name, so no export overwrites another. */
  lemma ExportPlanDistinct(numFolds: nat, j: nat, k: nat)
    requires j < k < numFolds
    ensures ExportPlan(numFolds)[j].1 != ExportPlan(numFolds)[k].1
  {
    if ExportPlan(numFolds)[j].1 == ExportPlan(numFolds)[k].1 {
      ModelFileNameInjective(j, k);
    }
  }

  // ---------------------------------------------------------------------
  // The monitor

  class ClassifierMonitoring<P, K, C> {
    const numFolds: nat
    const pipelines: array<Option<P>>
    var execTime: real
    var coefficients: Option<Coefficients<K, C>>
    /** The `set_classifier` calls carried out so far. */
    ghost var history: seq<Record<P, K, C>>

    /** Every field is what the calls so far make it: each slot holds the last
        pipeline written to it, the total is the sum of the recorded times, and
        the aggregator exists exactly when some call had coefficients, was
        created with that call's configuration and holds every fold added. */
    ghost predicate Valid()
      reads this, pipelines
    {
      && pipelines.Length == numFolds
      && (forall i :: 0 <= i < numFolds ==> pipelines[i] == LastWrite(history, i, numFolds))
      && execTime == TotalTime(history)
      && (coefficients.None? <==> FirstConf(history).None?)
      && (coefficients.Some? ==>
            && coefficients.value.conf == FirstConf(history).value
            && coefficients.value.numFolds == numFolds
            && coefficients.value.folds == CoefficientLog(history))
    }

    /** `__init__`: `numFolds` empty slots, a zero total and no aggregator. */
    constructor (numFolds: nat := 1)
      ensures Valid() && fresh(pipelines)
      ensures this.numFolds == numFolds
      ensures forall i :: 0 <= i < pipelines.Length ==> pipelines[i] == None
      ensures execTime == 0.0 && coefficients == None && history == []
    {
      this.numFolds := numFolds;
      pipelines := new Option<P>[numFolds](_ => None);
      execTime := 0.0;
      coefficients := None;
      history := [];
    }

    /** `set_classifier`: stores the pipeline in slot `foldId`, adds the
        execution time and feeds the coefficients to the aggregator. */
    method SetClassifier(classifier: Classifier<P, K, C>, execTime: real, foldId: int := 0) returns (outcome: Outcome)
      requires Valid()
      modifies this, pipelines
      ensures Valid()
      ensures outcome == if InRange(foldId, numFolds) then Recorded else IndexError
      ensures outcome == IndexError ==>
        pipelines[..] == old(pipelines[..]) && this.execTime == old(this.execTime)
        && coefficients == old(coefficients) && history == old(history)
      ensures outcome == Recorded ==>
        // only slot `foldId` changes
        && pipelines[..] == old(pipelines[..])[Slot(foldId, numFolds) := Some(classifier.pipeline)]
        && this.execTime == old(this.execTime) + execTime
        && coefficients == AddFold(old(coefficients), numFolds, classifier, foldId)
        && history == old(history) + [Record(classifier, execTime, foldId)]
    {
      if !InRange(foldId, numFolds) {
        return IndexError;
      }
      ghost var h := history;
      ghost var r := Record(classifier, execTime, foldId);
      pipelines[Slot(foldId, numFolds)] := Some(classifier.pipeline);
      this.execTime := this.execTime + execTime;
      SetCoefficients(classifier, foldId);
      history := h + [r];
      outcome := Recorded;

      forall i | 0 <= i < numFolds
        ensures pipelines[i] == LastWrite(history, i, numFolds)
      {
        LastWriteConcat(h, [r], i, numFolds);
      }
      TotalTimeConcat(h, [r]);
      FirstConfAppend(h, r);
      CoefficientLogAppend(h, r);
      CoefficientLogEmptyIff(h);
    }

    /** `set_coefficients`: creates the aggregator on the first coefficients
        and adds one fold to it. */
    method SetCoefficients(classifier: Classifier<P, K, C>, foldId: int)
      modifies this`coefficients
      ensures coefficients == AddFold(old(coefficients), numFolds, classifier, foldId)
    {
      if classifier.coefs.Some? {
        if coefficients.None? {
          coefficients := Some(Coefficients(classifier.conf, numFolds, [], false));
        }
        var agg := coefficients.value;
        coefficients := Some(agg.(folds := agg.folds + [(foldId, classifier.coefs.value)]));
      }
    }

    /** `final_computations`: runs the aggregator's final computations, if
        there is an aggregator; nothing else changes. */
    method FinalComputations()
      requires Valid()
      modifies this`coefficients
      ensures Valid()
      ensures old(coefficients).None? ==> coefficients == None
      ensures old(coefficients).Some? ==> coefficients == Some(old(coefficients).value.(finalized := true))
    {
      if coefficients.Some? {
        coefficients := Some(coefficients.value.(finalized := true));
      }
    }

    /** `_export_pipelines`: the dumps it makes, in order. */
    method ExportPipelines() returns (dumps: seq<Dump<P>>)
      requires pipelines.Length == numFolds
      ensures |dumps| == |ExportPlan(numFolds)|
      ensures forall k :: 0 <= k < |dumps| ==>
        dumps[k] == Dump(ExportPlan(numFolds)[k].0, pipelines[k], ExportPlan(numFolds)[k].1)
    {
      if numFolds == 1 {
        dumps := [Dump(0, pipelines[0], "model.out")];
      } else {
        dumps := [];
        var i := 0;
        while i < pipelines.Length
          invariant 0 <= i <= pipelines.Length
          invariant |dumps| == i
          invariant forall k :: 0 <= k < i ==> dumps[k] == Dump(k, pipelines[k], ModelFileName(k))
        {
          dumps := dumps + [Dump(i, pipelines[i], ModelFileName(i))];
          i := i + 1;
        }
      }
    }

    /** `display`: exports the pipelines, then hands the aggregator, when there
        is one, to its own display. */
    method Display() returns (dumps: seq<Dump<P>>, shown: Option<Coefficients<K, C>>)
      requires pipelines.Length == numFolds
      ensures |dumps| == |ExportPlan(numFolds)|
      ensures forall k :: 0 <= k < |dumps| ==>
        dumps[k] == Dump(ExportPlan(numFolds)[k].0, pipelines[k], ExportPlan(numFolds)[k].1)
      ensures shown == coefficients
    {
      dumps := ExportPipelines();
      shown := coefficients;
    }
  }

  /** One fold (the default count), recorded at the default fold index with
      4.2 s and no coefficients: the total is 4.2,
      no aggregator is created and one file, `model.out`, is written. */
  method SingleFoldScenario() {
    var m := new ClassifierMonitoring<int, int, int>();
    var o := m.SetClassifier(Classifier(7, 0, None), 4.2);
    assert o == Recorded && m.execTime == 4.2;
    m.FinalComputations();
    assert m.coefficients == None;
    var dumps := m.ExportPipelines();
    assert dumps == [Dump(0, Some(7), "model.out")];
  }
}
