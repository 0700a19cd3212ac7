/**
 * The client's labelled set (`SvmALModel`): the instances annotated so far
 * ("alaf" data), the set of their utterances that selection skips, the
 * annotation count, the two files they are persisted in, and the training set
 * the classifier is fit on.
 *
 * The classifier itself is not modelled: what it is trained on is recorded in
 * `trained`, and the confidence it gives an utterance is a function of that
 * training data, passed in where selection needs it. A feature vector is the
 * utterance it was computed from.
 */
module LabelledSet {
  import opened Common
  import opened PyText
  import opened PyIO
  import opened Datasets
  import opened Selection

  /** Inputs and labels, row by row. */
  datatype TrainingData = TrainingData(x: seq<string>, y: seq<int>)

  /** Which `get_next_utterance` the model class provides. */
  datatype Strategy = LeastConfidence | RandomChoice

  /** Why the model could not be restored from its files. */
  datatype OpenError =
    | BadAnnotation(line: nat) // `int()` rejected this line of the annotation file
    | SampleCountMismatch      // fitting on alaf rows and labels of different lengths raises

  /** `get_ml_model`: the seed train split, followed by the annotated instances once there are any. */
  function TrainingSet(d: Dataset, xAlaf: seq<string>, yAlaf: seq<int>, count: nat): TrainingData {
    if count > 0 then TrainingData(d.xTrain + xAlaf, d.yTrain + yAlaf)
    else TrainingData(d.xTrain, d.yTrain)
  }

  /** `[l.rstrip() for l in open(alaf_file).readlines()]`. */
  function ReadAlaf(text: string): (us: seq<string>)
    ensures |us| == |Lines(text, '\n')|
  {
    var ls := Lines(text, '\n');
    seq(|ls|, i requires 0 <= i < |ls| => RStrip(ls[i]))
  }

  /** `[int(l.rstrip()) for l in open(alaf_annotation_file).readlines()]`; the error is the first line `int` rejects. */
  function ReadAnnotations(text: string): Result<seq<int>, nat> {
    ParseInts(ReadAlaf(text))
  }

  /** A file as the `'a'`-mode writes leave it: empty, or ending with a newline. */
  predicate EndsLine(text: string) {
    text == [] || text[|text| - 1] == '\n'
  }

  /** An utterance that reads back as itself from its own line: no newline inside, nothing for `rstrip` to drop. */
  predicate Clean(u: string) {
    '\n' !in u && RStrip(u) == u
  }

  /** Every utterance of `us`, as a set. */
  function SetOf(us: seq<string>): (s: set<string>)
    ensures forall i :: 0 <= i < |us| ==> us[i] in s
    ensures forall x :: x in s ==> exists i :: 0 <= i < |us| && us[i] == x
  {
    set x | x in us
  }

  /** The fit in `__init__` raises when there are annotations and the two files disagree in length. */
  predicate FitsTogether(xAlaf: seq<string>, yAlaf: seq<int>) {
    |yAlaf| > 0 ==> |xAlaf| == |yAlaf|
  }

  /** What a dataset must satisfy for selection: its offsets index the pool file. */
  predicate PoolReady(d: Dataset) {
    IsPoolIndex(d.pool, d.poolOffsets)
  }

  lemma RStripNewline(s: string)
    ensures RStrip(s + "\n") == RStrip(s)
  {
    assert (s + "\n")[..|s|] == s;
  }

  /** A clean utterance written as a line of a file is read back after the lines already there. */
  lemma AlafAppend(text: string, u: string)
    requires EndsLine(text) && Clean(u)
    ensures ReadAlaf(text + (u + "\n")) == ReadAlaf(text) + [u]
  {
    var w := u + "\n";
    assert IsTerminatedLine(w, '\n') by {
      forall j | 0 <= j < |w| - 1
        ensures w[j] != '\n'
      {
        assert w[j] == u[j];
      }
    }
    LinesOfTerminated([w], '\n');
    assert Flatten([w]) == w by {
      assert Flatten([w]) == w + Flatten([]);
    }
    LinesAppend(text, w, '\n');
    ReadAlafAppend(text, w);
    RStripNewline(u);
  }

  lemma ReadAlafAppend(text: string, w: string)
    requires Lines(text + w, '\n') == Lines(text, '\n') + [w]
    ensures ReadAlaf(text + w) == ReadAlaf(text) + [RStrip(w)]
  {
    var a, b := ReadAlaf(text + w), ReadAlaf(text) + [RStrip(w)];
    forall i | 0 <= i < |a|
      ensures a[i] == b[i]
    {
    }
  }

  /** An annotation written as `str(a)` on its own line is read back after the annotations already there. */
  lemma AnnotationAppend(text: string, a: int)
    requires EndsLine(text) && ReadAnnotations(text).Ok?
    ensures ReadAnnotations(text + (Decimal(a) + "\n")) == Ok(ReadAnnotations(text).value + [a])
  {
    var d := Decimal(a);
    DecimalHasNoNewline(a);
    ParseIntDecimal(a);
    assert RStrip(d) == d by {
      assert !IsSpace(d[|d| - 1]);
    }
    AlafAppend(text, d);
    ParseIntsAppend(ReadAlaf(text), d);
  }

  /**
   * After an instance is added, reopening the two files restores the same
   * annotations and the same set of seen utterances, provided the files were
   * well formed and the utterance is clean.
   */
  lemma ReopenAfterAdd(alafText: string, annotationText: string, u: string, a: int)
    requires EndsLine(alafText) && EndsLine(annotationText) && Clean(u)
    requires ReadAnnotations(annotationText).Ok?
    ensures ReadAlaf(alafText + (u + "\n")) == ReadAlaf(alafText) + [u]
    ensures SetOf(ReadAlaf(alafText + (u + "\n"))) == SetOf(ReadAlaf(alafText)) + {u}
    ensures ReadAnnotations(annotationText + (Decimal(a) + "\n")) == Ok(ReadAnnotations(annotationText).value + [a])
  {
    AlafAppend(alafText, u);
    AnnotationAppend(annotationText, a);
  }

  /** A pool utterance is clean: the only newline of its line is the one `rstrip` removes. */
  lemma PoolUtteranceClean(pool: seq<byte>, k: nat)
    requires k < |PoolLines(pool)|
    ensures Clean(PoolUtterances(pool)[k])
  {
    var line := PoolLines(pool)[k];
    var d := Decode(line);
    ReadLineAt(pool, Newline, k);
    var g := pool[LineStart(PoolLines(pool), k)..];
    LineLengthStops(g, Newline);
    assert line == g[..LineLength(g, Newline)];
    RStripSpec(d);
    var r := RStrip(d);
    forall i | 0 <= i < |r|
      ensures r[i] != '\n'
    {
      if i == |d| - 1 {
        assert !IsSpace(r[|r| - 1]);
      } else {
        assert r[i] == d[i] == line[i] as char;
      }
    }
    RStripSpec(r);
    if r != [] {
      assert RStrip(r) == r;
    }
  }

  /**
   * `SvmALModel` with its state: `xAlaf`/`yAlaf` are `dataset['x_alaf']` and
   * `dataset['y_alaf']`, `alafLines` the set selection skips, and the two file
   * texts are the contents of `alaf.txt` and `alaf_annotation.txt`.
   */
  class SvmALModel {
    const dataset: Dataset
    const strategy: Strategy
    /** `batch_size` as given on the command line; only least confidence uses it. */
    const batchSize: int
    var xAlaf: seq<string>
    var yAlaf: seq<int>
    var alafLines: set<string>
    var count: nat
    var alafText: string
    var annotationText: string
    /** What the current classifier was fit on. */
    var trained: TrainingData
    /** Every utterance restored from the file or added since, in order. */
    ghost var selected: seq<string>

    ghost predicate Valid()
      reads this
    {
      && PoolReady(dataset)
      && count == |yAlaf|
      && FitsTogether(xAlaf, yAlaf)
      && (forall i :: 0 <= i < |selected| ==> selected[i] in alafLines)
      && (forall i :: 0 <= i < |xAlaf| ==> xAlaf[i] in alafLines)
      && trained == TrainingSet(dataset, xAlaf, yAlaf, count)
    }

    /**
     * `__init__`: restore the annotated instances from the two files, count the
     * annotations, and fit the classifier on the training set.
     */
    constructor (dataset: Dataset, strategy: Strategy, batchSize: int, alafText: string, annotationText: string)
      requires PoolReady(dataset)
      requires ReadAnnotations(annotationText).Ok?
      requires FitsTogether(ReadAlaf(alafText), ReadAnnotations(annotationText).value)
      ensures Valid()
      ensures this.dataset == dataset && this.strategy == strategy && this.batchSize == batchSize
      ensures this.alafText == alafText && this.annotationText == annotationText
      ensures xAlaf == ReadAlaf(alafText) && yAlaf == ReadAnnotations(annotationText).value
      ensures count == |yAlaf|
      ensures alafLines == SetOf(ReadAlaf(alafText))
      ensures selected == ReadAlaf(alafText)
    {
      this.dataset := dataset;
      this.strategy := strategy;
      this.batchSize := batchSize;
      this.alafText := alafText;
      this.annotationText := annotationText;
      var lines := ReadAlaf(alafText);
      var ys := ReadAnnotations(annotationText).value;
      xAlaf := lines;
      yAlaf := ys;
      alafLines := SetOf(lines);
      count := |ys|;
      trained := TrainingSet(dataset, lines, ys, |ys|);
      selected := lines;
    }

    /**
     * `add_instance`: the first annotation replaces the alaf rows, later ones
     * are appended; the utterance and the annotation are appended to their
     * files, the utterance joins the seen set, the count goes up by one and the
     * classifier is fit again.
     */
    method AddInstance(utterance: string, annotation: int)
      requires Valid()
      modifies this
      ensures Valid()
      ensures count == old(count) + 1
      ensures yAlaf == old(yAlaf) + [annotation]
      ensures xAlaf == if old(count) == 0 then [utterance] else old(xAlaf) + [utterance]
      ensures alafLines == old(alafLines) + {utterance}
      ensures selected == old(selected) + [utterance]
      ensures alafText == old(alafText) + (utterance + "\n")
      ensures annotationText == old(annotationText) + (Decimal(annotation) + "\n")
      ensures trained == TrainingData(dataset.xTrain + xAlaf, dataset.yTrain + yAlaf)
    {
      if count == 0 {
        xAlaf := [utterance];
        yAlaf := [annotation];
      } else {
        xAlaf := xAlaf + [utterance];
        yAlaf := yAlaf + [annotation];
      }
      alafText := alafText + (utterance + "\n");
      alafLines := alafLines + {utterance};
      selected := selected + [utterance];
      annotationText := annotationText + (Decimal(annotation) + "\n");
      count := count + 1;
      trained := TrainingSet(dataset, xAlaf, yAlaf, count);
    }

    /**
     * `get_next_utterance` of the model's strategy, with the confidences of the
     * classifier fit on `trained`.
     */
    method GetNextUtterance(confidence: TrainingData -> string -> int, draws: seq<nat>)
      returns (r: Result<Pick, SelectError>, ghost at: nat)
      requires Valid() && DrawsInPool(dataset, strategy, draws)
      ensures Chosen(dataset, strategy, batchSize, alafLines, confidence(trained), draws, r, at)
    {
      if strategy == LeastConfidence {
        r, at := SelectLeastConfidentAsWritten(dataset.pool, dataset.poolOffsets, alafLines, dataset.poolLabels,
                                               confidence(trained), batchSize);
      } else {
        ghost var used;
        r, at, used := SelectRandom(dataset.pool, dataset.poolOffsets, alafLines, dataset.poolLabels, draws);
      }
      if r.Ok? {
        PoolUtteranceClean(dataset.pool, at);
      }
    }
  }

  /** Random choice draws line numbers of the pool. */
  predicate DrawsInPool(d: Dataset, strategy: Strategy, draws: seq<nat>) {
    strategy == RandomChoice ==> forall i :: 0 <= i < |draws| ==> draws[i] < |d.poolOffsets|
  }

  /**
   * What `get_next_utterance` may return: an unseen, clean pool utterance,
   * found at pool line `at`, or an error only in the cases below. Least
   * confidence, as written (see `Selection.SelectLeastConfidentAsWritten`),
   * fails on a batch size `n` of 0 or below; otherwise it fails exactly on an
   * empty pool, on a chunk of `n` lines with every line seen, or on a chunk
   * whose line lies past the pool labels, and otherwise returns the first
   * least-confident unseen line with `pool_labels[at]` if the pool labels are
   * non-empty. Random choice ignores `n` and takes the next values of `draws`;
   * it fails on an empty pool, when every draw hits a seen line, or when the
   * line drawn lies past the pool labels; otherwise the line is the first
   * draw to hit an unseen line, with `pool_labels[at]` whenever there are
   * pool labels.
   */
  ghost predicate Chosen(d: Dataset, strategy: Strategy, n: int, alaf: set<string>, conf: string -> int,
                         draws: seq<nat>, r: Result<Pick, SelectError>, at: nat)
    requires PoolReady(d) && DrawsInPool(d, strategy, draws)
  {
    var u := PoolUtterances(d.pool);
    && (r.Ok? ==> at < |u| && u[at] !in alaf && r.value.utterance == u[at] && Clean(u[at]))
    && (strategy == LeastConfidence && n <= 0 ==> r == Err(if n == 0 then ZeroBatchSize else EmptyPool))
    && (strategy == LeastConfidence && n >= 1 ==>
          var chunks := Chunks(|u|, n);
          && (r == Err(EmptyPool) <==> |u| == 0)
          && (r.Err? <==> |u| == 0 || SomeChunkExhausted(u, alaf, chunks)
                          || ChunkLabelMissing(u, conf, alaf, d.poolLabels, chunks))
          && (r == Err(NoUnseenPoolInstancesLeft) ==> SomeChunkExhausted(u, alaf, chunks))
          && (r == Err(PoolLabelMissing) ==> ChunkLabelMissing(u, conf, alaf, d.poolLabels, chunks))
          && (r.Err? ==> r.error in {EmptyPool, NoUnseenPoolInstancesLeft, PoolLabelMissing})
          && (r.Ok? ==> IsFirstLeast(u, Confidences(u, conf), alaf, 0, |u|, at) && !LabelMissing(d.poolLabels, at)
                        && r.value.poolLabel == LabelAt(d.poolLabels, at)))
    && (strategy == RandomChoice ==>
          && (r == Err(EmptyPool) <==> |u| == 0)
          && (r.Err? ==> r.error in {EmptyPool, DrawsExhausted, PoolLabelMissing})
          && (r.Ok? || r == Err(PoolLabelMissing) ==> exists used: nat :: DrewUnseen(u, alaf, draws, used, at))
          && (r == Err(DrawsExhausted) ==> forall i :: 0 <= i < |draws| ==> u[draws[i]] in alaf)
          && (r == Err(PoolLabelMissing) ==>
                at < |u| && u[at] !in alaf && d.poolLabels.Some? && at >= |d.poolLabels.value|)
          && (r.Ok? ==> (d.poolLabels.Some? ==> at < |d.poolLabels.value|)
                        && r.value.poolLabel == if d.poolLabels.Some? then Some(d.poolLabels.value[at]) else None))
  }

  /** With non-empty pool labels, whatever is chosen comes with its label. */
  lemma ChosenHasLabel(d: Dataset, strategy: Strategy, n: int, alaf: set<string>, conf: string -> int,
                       draws: seq<nat>, r: Result<Pick, SelectError>, at: nat)
    requires PoolReady(d) && DrawsInPool(d, strategy, draws)
    requires Chosen(d, strategy, n, alaf, conf, draws, r, at) && r.Ok? && d.poolLabels.Some? && d.poolLabels.value != []
    ensures at < |d.poolLabels.value| && r.value.poolLabel == Some(d.poolLabels.value[at])
  {
  }

  /**
   * `__init__` with its failures: an annotation line `int` rejects, or alaf rows
   * and annotations of different lengths, which the first fit rejects.
   */
  method Open(dataset: Dataset, strategy: Strategy, batchSize: int, alafText: string, annotationText: string)
    returns (r: Result<SvmALModel, OpenError>)
    requires PoolReady(dataset)
    ensures var ys := ReadAnnotations(annotationText);
      && (r.Ok? <==> ys.Ok? && FitsTogether(ReadAlaf(alafText), ys.value))
      && (ys.Err? ==> r == Err(BadAnnotation(ys.error)))
      && (r.Ok? ==> fresh(r.value) && r.value.Valid() && r.value.count == |ys.value|
                    && r.value.alafLines == SetOf(ReadAlaf(alafText)))
  {
    var ys := ReadAnnotations(annotationText);
    if ys.Err? {
      return Err(BadAnnotation(ys.error));
    }
    if !FitsTogether(ReadAlaf(alafText), ys.value) {
      return Err(SampleCountMismatch);
    }
    var m := new SvmALModel(dataset, strategy, batchSize, alafText, annotationText);
    return Ok(m);
  }
}
