/**
 * The client's side of a session (`BaseALModel`): what it emits on start, on
 * (re)connection and on each server event, and the simulation loop. The
 * messages it emits are appended to `outbox`, in order.
 *
 * The scores of a classifier and its confidence in an utterance are functions
 * of the data it was fit on. Random choice takes its draws from parameters.
 */
module Session {
  import opened Common
  import opened PyText
  import opened Datasets
  import opened Selection
  import opened LabelledSet
  import opened Protocol

  class Client {
    const model: SvmALModel
    const projectName: string
    const name: string
    const simulation: bool
    /** `get_scores`: the test-split scores of a classifier fit on the given data. */
    const scoresOf: TrainingData -> Scores
    /** The confidence of a classifier fit on the given data in an utterance. */
    const confidence: TrainingData -> string -> int
    var outbox: seq<ClientMessage>
    var connected: bool

    ghost predicate Valid()
      reads model
    {
      model.Valid()
    }

    /** `_get_register_message`. */
    function RegisterMessage(): ClientMessage
      reads model
    {
      Register(projectName, name, model.count)
    }

    /**
     * `__init__`: take the scores and the count, connect (the connection
     * handler registers), then report the scores at that count.
     */
    constructor (model: SvmALModel, projectName: string, name: string, simulation: bool,
                 scoresOf: TrainingData -> Scores, confidence: TrainingData -> string -> int)
      requires model.Valid()
      ensures Valid() && connected
      ensures this.model == model && this.projectName == projectName && this.name == name
      ensures this.simulation == simulation && this.scoresOf == scoresOf && this.confidence == confidence
      ensures outbox == [Register(projectName, name, model.count), ScoresReport(scoresOf(model.trained), model.count)]
    {
      this.model := model;
      this.projectName := projectName;
      this.name := name;
      this.simulation := simulation;
      this.scoresOf := scoresOf;
      this.confidence := confidence;
      var scores := scoresOf(model.trained);
      var count := model.count;
      connected := true;
      outbox := [Register(projectName, name, model.count)];
      outbox := outbox + [ScoresReport(scores, count)];
    }

    /** `on_connect`: register with the current count. */
    method OnConnect()
      modifies this
      ensures connected && outbox == old(outbox) + [RegisterMessage()]
    {
      connected := true;
      outbox := outbox + [RegisterMessage()];
    }

    /** `on_reconnect`: the same registration as on connect. */
    method OnReconnect()
      modifies this
      ensures connected && outbox == old(outbox) + [RegisterMessage()]
    {
      connected := true;
      outbox := outbox + [RegisterMessage()];
    }

    /** `_emit_scores`: report `scores` at `count`, or at the current count when none is given. */
    method EmitScores(scores: Scores, count: Option<int>)
      modifies this
      ensures connected == old(connected)
      ensures outbox == old(outbox) + [ScoresReport(scores, if count.Some? then count.value else model.count)]
    {
      var c := if count.Some? then count.value else model.count;
      outbox := outbox + [ScoresReport(scores, c)];
    }

    /**
     * `_emit_next_utterance`: select the next utterance and emit it at the
     * current count, with its pool label only in simulation mode. A failed
     * selection emits nothing.
     */
    method EmitNextUtterance(draws: seq<nat>) returns (r: Result<Pick, SelectError>, ghost at: nat)
      requires Valid() && DrawsInPool(model.dataset, model.strategy, draws)
      modifies this
      ensures connected == old(connected)
      ensures Chosen(model.dataset, model.strategy, model.batchSize, model.alafLines, confidence(model.trained), draws, r, at)
      ensures outbox == old(outbox) + if r.Err? then [] else
        [Utterance(r.value.utterance, if simulation then r.value.poolLabel else None, model.count)]
    {
      r, at := model.GetNextUtterance(confidence, draws);
      if r.Ok? {
        outbox := outbox + [Utterance(r.value.utterance, if simulation then r.value.poolLabel else None, model.count)];
      }
    }

    /**
     * `_on_annotation`: add the annotated instance, report the new scores at the
     * new count, then emit the next utterance, also at the new count.
     */
    method OnAnnotation(utterance: string, annotation: int, draws: seq<nat>)
      returns (r: Result<Pick, SelectError>, ghost at: nat)
      requires Valid() && DrawsInPool(model.dataset, model.strategy, draws)
      modifies this, model
      ensures Valid()
      ensures model.count == old(model.count) + 1 && model.yAlaf == old(model.yAlaf) + [annotation]
      ensures model.xAlaf == if old(model.count) == 0 then [utterance] else old(model.xAlaf) + [utterance]
      ensures model.alafLines == old(model.alafLines) + {utterance}
      ensures model.selected == old(model.selected) + [utterance]
      ensures model.alafText == old(model.alafText) + (utterance + "\n")
      ensures model.annotationText == old(model.annotationText) + (Decimal(annotation) + "\n")
      ensures model.trained == TrainingData(model.dataset.xTrain + model.xAlaf, model.dataset.yTrain + model.yAlaf)
      ensures connected == old(connected)
      ensures Chosen(model.dataset, model.strategy, model.batchSize, model.alafLines, confidence(model.trained), draws, r, at)
      ensures outbox == old(outbox) + [ScoresReport(scoresOf(model.trained), model.count)]
        + if r.Err? then [] else [Utterance(r.value.utterance, if simulation then r.value.poolLabel else None, model.count)]
    {
      model.AddInstance(utterance, annotation);
      var scores := scoresOf(model.trained);
      EmitScores(scores, None);
      r, at := EmitNextUtterance(draws);
    }

    /** `_on_next_utterance`: in simulation mode nothing; otherwise select and emit one utterance. */
    method OnNextUtterance(draws: seq<nat>) returns (r: Option<Result<Pick, SelectError>>, ghost at: nat)
      requires Valid() && DrawsInPool(model.dataset, model.strategy, draws)
      modifies this
      ensures connected == old(connected)
      ensures simulation ==> r.None? && outbox == old(outbox)
      ensures !simulation ==> (
        && r.Some?
        && Chosen(model.dataset, model.strategy, model.batchSize, model.alafLines, confidence(model.trained), draws, r.value, at)
        && outbox == old(outbox) + if r.value.Err? then [] else [Utterance(r.value.value.utterance, None, model.count)])
    {
      if simulation {
        return None, 0;
      }
      var picked;
      picked, at := EmitNextUtterance(draws);
      r := Some(picked);
    }

    /** `_on_finished`: disconnect, emitting nothing. */
    method OnFinished(cause: string)
      modifies this
      ensures !connected && outbox == old(outbox)
    {
      connected := false;
    }

    /**
     * `_run_simulation`: each round selects and emits an utterance with its pool
     * label, adds it with that label, and reports the scores at the new count.
     * `draws[k]` feeds round `k`. The source loops until selection raises; the
     * model runs at most `rounds` rounds and stops at the first failed
     * selection, which `stop` reports: it is a failure of selection, by the
     * model's strategy, on the final state. `added` are the instances added,
     * in order: each is a pool line with its pool label, none was annotated
     * before and none repeats.
     */
    method RunSimulation(rounds: nat, draws: seq<seq<nat>>)
      returns (added: seq<(string, int)>, stop: Option<SelectError>)
      requires Valid() && simulation && model.dataset.poolLabels.Some? && model.dataset.poolLabels.value != []
      requires |draws| >= rounds && forall k :: 0 <= k < rounds ==> DrawsInPool(model.dataset, model.strategy, draws[k])
      modifies this, model
      ensures Valid()
      ensures |added| <= rounds && (stop.None? ==> |added| == rounds)
      ensures stop.Some? ==>
        && |added| < rounds
        && SelectionFails(model.dataset, model.strategy, model.batchSize, model.alafLines, confidence(model.trained),
                          draws[|added|], stop.value)
      ensures SimulatedFrom(model.dataset, scoresOf, added,
                            old(model.count), old(model.xAlaf), old(model.yAlaf), old(model.alafLines), old(outbox),
                            model.count, model.xAlaf, model.yAlaf, model.alafLines, outbox)
    {
      added, stop := [], None;
      ghost var count0, x0, y0, alaf0, out0 := model.count, model.xAlaf, model.yAlaf, model.alafLines, outbox;
      while |added| < rounds
        invariant |added| <= rounds && Simulated(added, count0, x0, y0, alaf0, out0)
        decreases rounds - |added|
      {
        var instance := SimulationStep(draws[|added|], added, count0, x0, y0, alaf0, out0);
        if instance.Err? {
          return added, Some(instance.error);
        }
        added := added + [instance.value];
      }
    }

    /**
     * The simulation started at count `count0`, with rows `x0`, annotations
     * `y0`, seen utterances `alaf0` and messages `out0`, and has added `added`
     * since: pool lines with their pool labels, each one new, and for each
     * one round of messages.
     */
    ghost predicate Simulated(added: seq<(string, int)>, count0: nat, x0: seq<string>, y0: seq<int>,
                              alaf0: set<string>, out0: seq<ClientMessage>)
      reads this, model
    {
      && Valid()
      && SimulatedFrom(model.dataset, scoresOf, added, count0, x0, y0, alaf0, out0,
                       model.count, model.xAlaf, model.yAlaf, model.alafLines, outbox)
    }

    /** One pass of the simulation loop: a round, and what it adds to `added`, or the failed selection that ends the loop. */
    method SimulationStep(draws: seq<nat>, ghost added: seq<(string, int)>, ghost count0: nat, ghost x0: seq<string>,
                          ghost y0: seq<int>, ghost alaf0: set<string>, ghost out0: seq<ClientMessage>)
      returns (instance: Result<(string, int), SelectError>)
      requires Simulated(added, count0, x0, y0, alaf0, out0)
      requires simulation && model.dataset.poolLabels.Some? && model.dataset.poolLabels.value != []
      requires DrawsInPool(model.dataset, model.strategy, draws)
      modifies this, model
      ensures Simulated(if instance.Ok? then added + [instance.value] else added, count0, x0, y0, alaf0, out0)
      ensures instance.Err? ==>
        SelectionFails(model.dataset, model.strategy, model.batchSize, model.alafLines, confidence(model.trained),
                       draws, instance.error)
    {
      ghost var at;
      ghost var count, x, y, alaf, out := model.count, model.xAlaf, model.yAlaf, model.alafLines, outbox;
      instance, at := SimulationRound(draws);
      if instance.Err? {
        return;
      }
      SimulatedStep(model.dataset, scoresOf, added, count0, x0, y0, alaf0, out0, count, x, y, alaf, out,
                    instance.value, at, model.xAlaf, model.yAlaf, model.alafLines, outbox);
    }

    /**
     * One round of `_run_simulation`: select and emit an utterance with its pool
     * label, add it with that label, report the scores at the new count. A
     * round fails only when selection fails, and then changes nothing; a
     * successful one adds the utterance
     * of pool line `at` with its pool label, as chosen from the state before
     * the round.
     */
    method SimulationRound(draws: seq<nat>) returns (instance: Result<(string, int), SelectError>, ghost at: nat)
      requires Valid() && simulation && model.dataset.poolLabels.Some? && model.dataset.poolLabels.value != []
      requires DrawsInPool(model.dataset, model.strategy, draws)
      modifies this, model
      ensures Valid()
      ensures instance.Err? ==> unchanged(model) && outbox == old(outbox)
      ensures instance.Err? ==>
        Chosen(model.dataset, model.strategy, model.batchSize, model.alafLines, confidence(model.trained),
               draws, Err(instance.error), at)
      ensures instance.Ok? ==> var (u, a) := instance.value;
        && model.count == old(model.count) + 1
        && model.yAlaf == old(model.yAlaf) + [a]
        && model.xAlaf == (if old(model.count) == 0 then [u] else old(model.xAlaf) + [u])
        && model.alafLines == old(model.alafLines) + {u}
        && u !in old(model.alafLines)
        && FromPoolLine(model.dataset, (u, a), at)
        && Chosen(model.dataset, model.strategy, model.batchSize, old(model.alafLines), confidence(old(model.trained)),
                  draws, Ok(Pick(u, Some(a))), at)
        && model.trained == TrainingData(model.dataset.xTrain + model.xAlaf, model.dataset.yTrain + model.yAlaf)
        && outbox == old(outbox) + RoundMessages((u, a), old(model.count),
                                                 scoresOf(TrainingData(model.dataset.xTrain + model.xAlaf, model.dataset.yTrain + model.yAlaf)))
    {
      var r;
      r, at := EmitNextUtterance(draws);
      if r.Err? {
        return Err(r.error), at;
      }
      PickedFromPool(model.dataset, model.strategy, model.batchSize, model.alafLines, confidence(model.trained), draws, r, at);
      instance := Ok((r.value.utterance, r.value.poolLabel.value));
      assert r == Ok(Pick(instance.value.0, Some(instance.value.1)));
      assert model.alafLines == old(model.alafLines) && model.trained == old(model.trained);
      RecordRound(instance.value.0, instance.value.1);
    }

    /** The second half of a round: add the picked instance and report the new scores at the new count. */
    method RecordRound(u: string, a: int)
      requires Valid()
      modifies this, model
      ensures Valid()
      ensures model.count == old(model.count) + 1
      ensures model.yAlaf == old(model.yAlaf) + [a]
      ensures model.xAlaf == (if old(model.count) == 0 then [u] else old(model.xAlaf) + [u])
      ensures model.alafLines == old(model.alafLines) + {u}
      ensures model.trained == TrainingData(model.dataset.xTrain + model.xAlaf, model.dataset.yTrain + model.yAlaf)
      ensures outbox == old(outbox) + [ScoresReport(scoresOf(model.trained), model.count)]
    {
      model.AddInstance(u, a);
      var scores := scoresOf(model.trained);
      EmitScores(scores, None);
    }
  }

  /**
   * A simulation that started at count `count0`, with rows `x0`, annotations
   * `y0`, seen utterances `alaf0` and messages `out0`, and has added `added`,
   * is at count `count` with rows `x`, annotations `y`, seen utterances `alaf`
   * and messages `out`: the added instances are pool lines with their pool
   * labels, each one new, and each added one round of messages.
   */
  ghost predicate SimulatedFrom(d: Dataset, scoresOf: TrainingData -> Scores, added: seq<(string, int)>,
                                count0: nat, x0: seq<string>, y0: seq<int>, alaf0: set<string>, out0: seq<ClientMessage>,
                                count: nat, x: seq<string>, y: seq<int>, alaf: set<string>, out: seq<ClientMessage>)
  {
    && AllFromPool(d, added)
    && FreshUtterances(alaf0, added)
    && count == count0 + |added|
    && y == y0 + Seconds(added)
    && x == RowsAfter(count0, x0, Firsts(added))
    && alaf == alaf0 + SetOf(Firsts(added))
    && out == out0 + SimulationLog(added, count0, scoresOf, d, x0, y0)
  }

  /** A round that adds a new pool line with its pool label extends the simulation by that instance. */
  lemma SimulatedStep(d: Dataset, scoresOf: TrainingData -> Scores, added: seq<(string, int)>,
                      count0: nat, x0: seq<string>, y0: seq<int>, alaf0: set<string>, out0: seq<ClientMessage>,
                      count: nat, x: seq<string>, y: seq<int>, alaf: set<string>, out: seq<ClientMessage>,
                      instance: (string, int), at: nat,
                      x': seq<string>, y': seq<int>, alaf': set<string>, out': seq<ClientMessage>)
    requires SimulatedFrom(d, scoresOf, added, count0, x0, y0, alaf0, out0, count, x, y, alaf, out)
    requires FromPoolLine(d, instance, at) && instance.0 !in alaf
    requires y' == y + [instance.1]
    requires x' == if count == 0 then [instance.0] else x + [instance.0]
    requires alaf' == alaf + {instance.0}
    requires out' == out + RoundMessages(instance, count, scoresOf(TrainingData(d.xTrain + x', d.yTrain + y')))
    ensures SimulatedFrom(d, scoresOf, added + [instance], count0, x0, y0, alaf0, out0, count + 1, x', y', alaf', out')
  {
    FromPoolAppend(d, added, instance, at);
    FreshAppend(alaf0, added, instance);
    RoundKeepsLog(d, scoresOf, count0, x0, y0, alaf0, out0, added, instance, x', y', alaf', out, out');
  }

  /** Pool line `at` holds the utterance of `instance`, and its pool label is the annotation. */
  ghost predicate FromPoolLine(d: Dataset, instance: (string, int), at: nat) {
    var u := PoolUtterances(d.pool);
    && at < |u| && instance.0 == u[at]
    && d.poolLabels.Some? && at < |d.poolLabels.value| && instance.1 == d.poolLabels.value[at]
  }

  /** With pool labels, a pick is an unseen pool line together with its pool label. */
  lemma PickedFromPool(d: Dataset, strategy: Strategy, n: int, alaf: set<string>, conf: string -> int,
                       draws: seq<nat>, r: Result<Pick, SelectError>, at: nat)
    requires PoolReady(d) && DrawsInPool(d, strategy, draws)
    requires Chosen(d, strategy, n, alaf, conf, draws, r, at) && r.Ok? && d.poolLabels.Some? && d.poolLabels.value != []
    ensures r.value.poolLabel.Some? && r.value.utterance !in alaf
    ensures FromPoolLine(d, (r.value.utterance, r.value.poolLabel.value), at)
  {
    ChosenHasLabel(d, strategy, n, alaf, conf, draws, r, at);
  }

  /** Selection with these draws, on this state, can fail with `e`. */
  ghost predicate SelectionFails(d: Dataset, strategy: Strategy, n: int, alaf: set<string>, conf: string -> int,
                                 draws: seq<nat>, e: SelectError)
    requires PoolReady(d) && DrawsInPool(d, strategy, draws)
  {
    exists at: nat :: Chosen(d, strategy, n, alaf, conf, draws, Err(e), at)
  }

  /** Some pool line holds the utterance of `instance`, with the annotation as its pool label. */
  ghost predicate PoolInstance(d: Dataset, instance: (string, int)) {
    exists at: nat :: FromPoolLine(d, instance, at)
  }

  /** Every instance of `added` is a pool line with its pool label. */
  ghost predicate AllFromPool(d: Dataset, added: seq<(string, int)>) {
    forall k :: 0 <= k < |added| ==> PoolInstance(d, added[k])
  }

  /** No utterance of `added` is in `alaf`, and no two of them are the same. */
  predicate FreshUtterances(alaf: set<string>, added: seq<(string, int)>) {
    && (forall k :: 0 <= k < |added| ==> added[k].0 !in alaf)
    && (forall j, k :: 0 <= j < k < |added| ==> added[j].0 != added[k].0)
  }

  lemma FromPoolAppend(d: Dataset, added: seq<(string, int)>, instance: (string, int), at: nat)
    requires AllFromPool(d, added) && FromPoolLine(d, instance, at)
    ensures AllFromPool(d, added + [instance])
  {
    assert PoolInstance(d, instance);
    var more := added + [instance];
    assert forall k :: 0 <= k < |added| ==> more[k] == added[k];
  }

  /** An utterance outside `alaf` and outside what was added keeps the added utterances fresh. */
  lemma FreshAppend(alaf: set<string>, added: seq<(string, int)>, instance: (string, int))
    requires FreshUtterances(alaf, added) && instance.0 !in alaf + SetOf(Firsts(added))
    ensures FreshUtterances(alaf, added + [instance])
  {
    var more := added + [instance];
    forall j | 0 <= j < |added|
      ensures more[j].0 != instance.0
    {
      assert Firsts(added)[j] == added[j].0;
    }
  }

  /** The utterances of `added`, in order. */
  function Firsts(added: seq<(string, int)>): (us: seq<string>)
    ensures |us| == |added|
  {
    seq(|added|, k requires 0 <= k < |added| => added[k].0)
  }

  /** The annotations of `added`, in order. */
  function Seconds(added: seq<(string, int)>): (ys: seq<int>)
    ensures |ys| == |added|
  {
    seq(|added|, k requires 0 <= k < |added| => added[k].1)
  }

  /** The alaf rows after adding `us` to rows `xAlaf` at count `count`: a first addition at count 0 replaces them. */
  function RowsAfter(count: nat, xAlaf: seq<string>, us: seq<string>): seq<string> {
    if count == 0 && us != [] then us else xAlaf + us
  }

  /** The training set after adding `added` to rows `xAlaf` and annotations `yAlaf` at count `count`. */
  function TrainedAfter(d: Dataset, count: nat, xAlaf: seq<string>, yAlaf: seq<int>, added: seq<(string, int)>): TrainingData {
    TrainingData(d.xTrain + RowsAfter(count, xAlaf, Firsts(added)), d.yTrain + (yAlaf + Seconds(added)))
  }

  /** What one simulation round emits: the utterance with its label at `count`, then the new scores at `count + 1`. */
  function RoundMessages(instance: (string, int), count: int, scores: Scores): seq<ClientMessage> {
    [Utterance(instance.0, Some(instance.1), count), ScoresReport(scores, count + 1)]
  }

  /**
   * What a simulation that added `added`, starting at count `count` with rows
   * `xAlaf` and annotations `yAlaf`, emitted: for round `k`, the utterance with
   * its label at count `count + k`, then the scores of the classifier fit on
   * the training set so far at count `count + k + 1`.
   */
  function SimulationLog(added: seq<(string, int)>, count: nat, scoresOf: TrainingData -> Scores, d: Dataset,
                         xAlaf: seq<string>, yAlaf: seq<int>): (log: seq<ClientMessage>)
    ensures |log| == 2 * |added|
    decreases |added|
  {
    if added == [] then []
    else
      var n := |added| - 1;
      SimulationLog(added[..n], count, scoresOf, d, xAlaf, yAlaf)
        + RoundMessages(added[n], count + n, scoresOf(TrainedAfter(d, count, xAlaf, yAlaf, added)))
  }

  /** One more round of the simulation adds one instance and appends its two messages to the log. */
  lemma RoundKeepsLog(d: Dataset, scoresOf: TrainingData -> Scores, count0: nat, x0: seq<string>, y0: seq<int>,
                      alaf0: set<string>, out0: seq<ClientMessage>, added: seq<(string, int)>, instance: (string, int),
                      x: seq<string>, y: seq<int>, alaf: set<string>, outBefore: seq<ClientMessage>, out: seq<ClientMessage>)
    requires y == (y0 + Seconds(added)) + [instance.1]
    requires x == if count0 + |added| == 0 then [instance.0] else RowsAfter(count0, x0, Firsts(added)) + [instance.0]
    requires alaf == (alaf0 + SetOf(Firsts(added))) + {instance.0}
    requires outBefore == out0 + SimulationLog(added, count0, scoresOf, d, x0, y0)
    requires out == outBefore + RoundMessages(instance, count0 + |added|, scoresOf(TrainingData(d.xTrain + x, d.yTrain + y)))
    ensures y == y0 + Seconds(added + [instance])
    ensures x == RowsAfter(count0, x0, Firsts(added + [instance]))
    ensures alaf == alaf0 + SetOf(Firsts(added + [instance]))
    ensures out == out0 + SimulationLog(added + [instance], count0, scoresOf, d, x0, y0)
  {
    var more := added + [instance];
    PairsAppend(added, instance);
    SetOfAppend(Firsts(added), instance.0);
    RowsAppend(count0, x0, Firsts(added), instance.0);
    AppendAssoc(y0, Seconds(added), [instance.1]);
    LogKeeps(d, scoresOf, count0, x0, y0, out0, added, instance, x, y, outBefore, out);
  }

  lemma RowsAppend(count: nat, xAlaf: seq<string>, us: seq<string>, u: string)
    ensures RowsAfter(count, xAlaf, us + [u]) == if count + |us| == 0 then [u] else RowsAfter(count, xAlaf, us) + [u]
  {
    if count != 0 {
      AppendAssoc(xAlaf, us, [u]);
    }
  }

  lemma AppendAssoc<T>(a: seq<T>, b: seq<T>, c: seq<T>)
    ensures (a + b) + c == a + (b + c)
  {
  }

  lemma LogKeeps(d: Dataset, scoresOf: TrainingData -> Scores, count0: nat, x0: seq<string>, y0: seq<int>,
                 out0: seq<ClientMessage>, added: seq<(string, int)>, instance: (string, int),
                 x: seq<string>, y: seq<int>, outBefore: seq<ClientMessage>, out: seq<ClientMessage>)
    requires x == RowsAfter(count0, x0, Firsts(added + [instance])) && y == y0 + Seconds(added + [instance])
    requires outBefore == out0 + SimulationLog(added, count0, scoresOf, d, x0, y0)
    requires out == outBefore + RoundMessages(instance, count0 + |added|, scoresOf(TrainingData(d.xTrain + x, d.yTrain + y)))
    ensures out == out0 + SimulationLog(added + [instance], count0, scoresOf, d, x0, y0)
  {
    LogAppend(added, instance, count0, scoresOf, d, x0, y0);
    assert TrainedAfter(d, count0, x0, y0, added + [instance]) == TrainingData(d.xTrain + x, d.yTrain + y);
  }

  lemma PairsAppend(added: seq<(string, int)>, instance: (string, int))
    ensures Firsts(added + [instance]) == Firsts(added) + [instance.0]
    ensures Seconds(added + [instance]) == Seconds(added) + [instance.1]
  {
  }

  lemma SetOfAppend(us: seq<string>, u: string)
    ensures SetOf(us + [u]) == SetOf(us) + {u}
  {
  }

  lemma LogAppend(added: seq<(string, int)>, instance: (string, int), count: nat, scoresOf: TrainingData -> Scores,
                  d: Dataset, xAlaf: seq<string>, yAlaf: seq<int>)
    ensures SimulationLog(added + [instance], count, scoresOf, d, xAlaf, yAlaf) ==
      SimulationLog(added, count, scoresOf, d, xAlaf, yAlaf)
        + RoundMessages(instance, count + |added|, scoresOf(TrainedAfter(d, count, xAlaf, yAlaf, added + [instance])))
  {
    var more := added + [instance];
    assert more[..|added|] == added;
  }
}
