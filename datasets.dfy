/**
 * Loading a data directory (`get_dataset`): the seed, dev and test splits with
 * their label files, the byte offset of every line of the unlabelled pool file,
 * and the pool's own labels.
 *
 * Files are values here: a text file is a `string`, the pool file (opened in
 * binary mode to index it) a sequence of bytes. Feature extraction is not part
 * of this model, so a split's `x` is the list of its lines.
 */
module Datasets {
  import opened Common
  import opened PyText
  import opened PyIO

  /** The byte a binary-mode line ends with. */
  const Newline: byte := 10

  /** The pool file's lines, as `for line in f` yields them in binary mode. */
  function PoolLines(pool: seq<byte>): seq<seq<byte>> {
    Lines(pool, Newline)
  }

  /** Reading bytes in text mode: one character per byte. */
  function Decode(bs: seq<byte>): (s: string)
    ensures |s| == |bs|
  {
    seq(|bs|, i requires 0 <= i < |bs| => bs[i] as char)
  }

  /** The utterance a pool line holds: the line read in text mode, then `rstrip()`. */
  function Utterance(line: seq<byte>): string {
    RStrip(Decode(line))
  }

  /** The utterance of every line of `ls`, in order. */
  function Utterances(ls: seq<seq<byte>>): (u: seq<string>)
    ensures |u| == |ls|
  {
    seq(|ls|, i requires 0 <= i < |ls| => Utterance(ls[i]))
  }

  /** The utterance of every pool line, in file order. */
  function PoolUtterances(pool: seq<byte>): (u: seq<string>)
    ensures |u| == |PoolLines(pool)|
  {
    Utterances(PoolLines(pool))
  }

  /** Taking utterances commutes with slicing. */
  lemma UtterancesSlice(ls: seq<seq<byte>>, a: nat, b: nat)
    requires a <= b <= |ls|
    ensures Utterances(ls[a..b]) == Utterances(ls)[a..b]
  {
  }

  /** `offsets` holds, for every pool line in order, the sum of the byte lengths of the lines before it. */
  predicate IsPoolIndex(pool: seq<byte>, offsets: seq<nat>) {
    |offsets| == |PoolLines(pool)|
    && forall k :: 0 <= k < |offsets| ==> offsets[k] == LineStart(PoolLines(pool), k)
  }

  /**
   * The offset index: one pass over the pool file in binary mode, appending the
   * running byte count before adding each line's length to it.
   */
  method PoolFileOffsets(pool: seq<byte>) returns (offsets: seq<nat>)
    ensures IsPoolIndex(pool, offsets)
    ensures offsets == [] <==> pool == []
    ensures offsets != [] ==> offsets[0] == 0
  {
    ghost var ls := PoolLines(pool);
    offsets := [];
    var offset: nat := 0;
    var rest := pool;
    while rest != []
      invariant |offsets| <= |ls| && offset == LineStart(ls, |offsets|)
      invariant offset <= |pool| && rest == pool[offset..]
      invariant forall k :: 0 <= k < |offsets| ==> offsets[k] == LineStart(ls, k)
      decreases |rest|
    {
      NextLineStart(pool, |offsets|);
      var line := ReadLine(rest, Newline);
      offsets := offsets + [offset];
      offset := offset + |line|;
      DropDrop(pool, offset - |line|, |line|);
      rest := rest[|line|..];
    }
    LastLineStart(pool, |offsets|);
  }

  /** Where some line starts before the end of the pool, the next line read there is that line. */
  lemma NextLineStart(pool: seq<byte>, m: nat)
    requires m <= |PoolLines(pool)| && LineStart(PoolLines(pool), m) < |pool|
    ensures m < |PoolLines(pool)|
    ensures var s := LineStart(PoolLines(pool), m);
      |ReadLine(pool[s..], Newline)| == |PoolLines(pool)[m]|
      && LineStart(PoolLines(pool), m + 1) == s + |PoolLines(pool)[m]| <= |pool|
  {
    var ls := PoolLines(pool);
    LinesFrom(pool, Newline, m);
    ReadLineAt(pool, Newline, m);
  }

  /** Where the line starts reach the end of the pool, every line has been counted. */
  lemma LastLineStart(pool: seq<byte>, m: nat)
    requires m <= |PoolLines(pool)| && LineStart(PoolLines(pool), m) == |pool|
    ensures m == |PoolLines(pool)|
  {
    LinesFrom(pool, Newline, m);
  }

  /** Pool lines are never empty, so offsets strictly increase. */
  lemma OffsetsIncreasing(pool: seq<byte>, offsets: seq<nat>, j: nat, k: nat)
    requires IsPoolIndex(pool, offsets) && j < k < |offsets|
    ensures offsets[j] < offsets[k]
  {
    LinesFlatten(pool, Newline);
    LineStartIncreasing(PoolLines(pool), j, k);
  }

  /** Seeking to `offsets[k]` and reading a line gives pool line `k`, and the lines from there on are lines `k..`. */
  lemma ReadAtOffset(pool: seq<byte>, offsets: seq<nat>, k: nat)
    requires IsPoolIndex(pool, offsets) && k < |offsets|
    ensures offsets[k] < |pool|
    ensures ReadLine(pool[offsets[k]..], Newline) == PoolLines(pool)[k]
    ensures Utterance(ReadLine(pool[offsets[k]..], Newline)) == PoolUtterances(pool)[k]
    ensures Lines(pool[offsets[k]..], Newline) == PoolLines(pool)[k..]
  {
    ReadLineAt(pool, Newline, k);
    LinesFrom(pool, Newline, k);
  }

  /**
   * Reading on from a point where the lines ahead are pool lines `k..`: the file
   * ends exactly when `k` is the line count, and otherwise the next line is pool
   * line `k`, its utterance utterance `k`, and what follows holds lines `k + 1..`.
   */
  lemma NextPoolLine(pool: seq<byte>, f: seq<byte>, k: nat)
    requires k <= |PoolLines(pool)| && Lines(f, Newline) == PoolLines(pool)[k..]
    ensures f == [] <==> k == |PoolLines(pool)|
    ensures f != [] ==>
      && ReadLine(f, Newline) == PoolLines(pool)[k]
      && Utterance(ReadLine(f, Newline)) == PoolUtterances(pool)[k]
      && Lines(f[LineLength(f, Newline)..], Newline) == PoolLines(pool)[k + 1..]
  {
    var ls := PoolLines(pool);
    if f != [] {
      LinesCons(f, Newline);
      assert ls[k..][0] == ls[k] && ls[k..][1..] == ls[k + 1..];
    }
  }

  /** The characters `rstrip('/n')` removes: slash and the letter n (not the newline). */
  const SlashN: set<char> := {'/', 'n'}

  /** Every line of a label file with `rstrip('/n')` applied, in file order. */
  function LabelFields(text: string): (fs: seq<string>)
    ensures var ls := Lines(text, '\n');
      |fs| == |ls| && forall i :: 0 <= i < |ls| ==> fs[i] == RStripChars(ls[i], SlashN)
  {
    var ls := Lines(text, '\n');
    seq(|ls|, i requires 0 <= i < |ls| => RStripChars(ls[i], SlashN))
  }

  /** `get_labels`: `int()` of every field, in file order; the error is the first line `int()` rejects. */
  function GetLabels(text: string): Result<seq<int>, nat> {
    ParseInts(LabelFields(text))
  }

  /** A label file as written one `str(label)` per line. */
  function LabelText(ys: seq<int>): string {
    Flatten(seq(|ys|, i requires 0 <= i < |ys| => Decimal(ys[i]) + "\n"))
  }

  lemma DecimalHasNoNewline(n: int)
    ensures '\n' !in Decimal(n)
  {
    var d := Digits(if n < 0 then -n else n);
    assert AllDigits(d);
  }

  /** `str(n) + '\n'` is one terminated line. */
  lemma DecimalLineTerminated(n: int)
    ensures IsTerminatedLine(Decimal(n) + "\n", '\n')
  {
    DecimalHasNoNewline(n);
    var w := Decimal(n) + "\n";
    forall j | 0 <= j < |w| - 1
      ensures w[j] != '\n'
    {
      assert w[j] == Decimal(n)[j];
    }
  }

  /** `rstrip('/n')` stops at the newline, so it leaves a newline-terminated line alone. */
  lemma SlashNKeepsNewline(s: string)
    ensures RStripChars(s + "\n", SlashN) == s + "\n"
  {
  }

  /** A label file written one `str(label)` per line is read back by `get_labels` as the same labels. */
  lemma {:induction false} LabelFileRoundTrip(ys: seq<int>)
    ensures GetLabels(LabelText(ys)) == Ok(ys)
  {
    var ws := seq(|ys|, i requires 0 <= i < |ys| => Decimal(ys[i]) + "\n");
    forall i | 0 <= i < |ws|
      ensures IsTerminatedLine(ws[i], '\n')
    {
      DecimalLineTerminated(ys[i]);
    }
    LinesOfTerminated(ws, '\n');
    var fs := LabelFields(LabelText(ys));
    var r := ParseInts(fs);
    forall i | 0 <= i < |ws|
      ensures ParseInt(fs[i]) == Some(ys[i])
    {
      SlashNKeepsNewline(Decimal(ys[i]));
      ParseIntIgnoresNewline(Decimal(ys[i]));
      ParseIntDecimal(ys[i]);
    }
    assert r.Ok?;
    assert r.value == ys;
  }

  /** Which label file a parse error came from. */
  datatype LabelFile = TrainLabels | DevLabels | TestLabels | PoolLabels

  /** `int()` rejected line `line` of `file`. */
  datatype LoadError = BadLabel(file: LabelFile, line: nat)

  /** The files of a data directory. */
  datatype DataFiles = DataFiles(
    train: string, trainLabels: string,
    dev: string, devLabels: string,
    test: string, testLabels: string,
    pool: seq<byte>, poolLabels: string)

  /** The `dataset` dictionary `get_dataset` returns. */
  datatype Dataset = Dataset(
    xTrain: seq<string>, yTrain: seq<int>,
    xDev: seq<string>, yDev: seq<int>,
    xTest: seq<string>, yTest: seq<int>,
    pool: seq<byte>, poolOffsets: seq<nat>,
    poolLabels: Option<seq<int>>)

  /**
   * `get_dataset`: read the three labelled splits, index the pool, then attach the
   * pool labels. The pool label file path is never `None`, so `pool_labels` is
   * always present. Label files are read in the order train, dev, test, pool;
   * the first that `int()` rejects is the error.
   */
  method GetDataset(files: DataFiles) returns (r: Result<Dataset, LoadError>)
    ensures r.Ok? <==> GetLabels(files.trainLabels).Ok? && GetLabels(files.devLabels).Ok?
                       && GetLabels(files.testLabels).Ok? && GetLabels(files.poolLabels).Ok?
    ensures var train, dev, test, pool :=
        GetLabels(files.trainLabels), GetLabels(files.devLabels), GetLabels(files.testLabels), GetLabels(files.poolLabels);
      && (train.Err? ==> r == Err(BadLabel(TrainLabels, train.error)))
      && (train.Ok? && dev.Err? ==> r == Err(BadLabel(DevLabels, dev.error)))
      && (train.Ok? && dev.Ok? && test.Err? ==> r == Err(BadLabel(TestLabels, test.error)))
      && (train.Ok? && dev.Ok? && test.Ok? && pool.Err? ==> r == Err(BadLabel(PoolLabels, pool.error)))
    ensures r.Ok? ==> var d := r.value;
      && d.xTrain == Lines(files.train, '\n')
      && d.xDev == Lines(files.dev, '\n')
      && d.xTest == Lines(files.test, '\n')
      && d.yTrain == GetLabels(files.trainLabels).value
      && d.yDev == GetLabels(files.devLabels).value
      && d.yTest == GetLabels(files.testLabels).value
      && d.pool == files.pool
      && IsPoolIndex(d.pool, d.poolOffsets)
      && d.poolLabels == Some(GetLabels(files.poolLabels).value)
  {
    var yTrain := GetLabels(files.trainLabels);
    if yTrain.Err? { return Err(BadLabel(TrainLabels, yTrain.error)); }
    var yDev := GetLabels(files.devLabels);
    if yDev.Err? { return Err(BadLabel(DevLabels, yDev.error)); }
    var yTest := GetLabels(files.testLabels);
    if yTest.Err? { return Err(BadLabel(TestLabels, yTest.error)); }
    var offsets := PoolFileOffsets(files.pool);
    var poolLabels := GetLabels(files.poolLabels);
    if poolLabels.Err? { return Err(BadLabel(PoolLabels, poolLabels.error)); }
    var d := Dataset(
      Lines(files.train, '\n'), yTrain.value,
      Lines(files.dev, '\n'), yDev.value,
      Lines(files.test, '\n'), yTest.value,
      files.pool, offsets, Some(poolLabels.value));
    return Ok(d);
  }
}
