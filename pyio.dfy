/**
 * How Python splits a file into lines: `f.readline()`, `f.readlines()` and
 * `for line in f` all cut the contents after each terminator and keep it, and the
 * last line may lack one. The same rules serve files opened in binary mode
 * (bytes, terminator 10) and in text mode (characters, terminator '\n').
 */
module PyIO {

  /** Length of what `readline()` returns at the start of `f`: up to and including the first `nl`, or the rest of `f`. */
  function LineLength<T(==)>(f: seq<T>, nl: T): (n: nat)
    ensures n <= |f| && (f != [] ==> n >= 1)
  {
    if f == [] then 0 else if f[0] == nl then 1 else 1 + LineLength(f[1..], nl)
  }

  /** `readline()` stops at the first `nl` and keeps it, or takes the rest of `f` when there is none. */
  lemma {:induction false} LineLengthStops<T>(f: seq<T>, nl: T)
    ensures var n := LineLength(f, nl);
      && (n == |f| || f[n - 1] == nl)
      && (forall i :: 0 <= i < n - 1 ==> f[i] != nl)
    decreases |f|
  {
    if f != [] && f[0] != nl {
      LineLengthStops(f[1..], nl);
    }
  }

  /** `readline()` at the start of `f`. */
  function ReadLine<T(==)>(f: seq<T>, nl: T): seq<T> {
    f[..LineLength(f, nl)]
  }

  /** The concatenation of `ls`. */
  function Flatten<T>(ls: seq<seq<T>>): seq<T> {
    if ls == [] then [] else ls[0] + Flatten(ls[1..])
  }

  /** The lines `for line in f` yields, in order, each with its terminator. */
  function Lines<T(==)>(f: seq<T>, nl: T): seq<seq<T>>
    decreases |f|
  {
    if f == [] then []
    else
      var n := LineLength(f, nl);
      [f[..n]] + Lines(f[n..], nl)
  }

  /** No line is empty, and together the lines are the whole file. */
  lemma {:induction false} LinesFlatten<T>(f: seq<T>, nl: T)
    ensures forall i :: 0 <= i < |Lines(f, nl)| ==> Lines(f, nl)[i] != []
    ensures Flatten(Lines(f, nl)) == f
    decreases |f|
  {
    if f != [] {
      var n := LineLength(f, nl);
      var ls := Lines(f, nl);
      LinesFlatten(f[n..], nl);
      assert ls[1..] == Lines(f[n..], nl);
      assert f == f[..n] + f[n..];
    }
  }

  /** A line as `write(text + nl)` leaves it: one terminator, at the end. */
  predicate IsTerminatedLine<T(==)>(w: seq<T>, nl: T) {
    w != [] && w[|w| - 1] == nl && forall j :: 0 <= j < |w| - 1 ==> w[j] != nl
  }

  /** Sum of the lengths of `ls[..k]`: where line `k` starts in the file. */
  function LineStart<T>(ls: seq<seq<T>>, k: nat): nat
    requires k <= |ls|
  {
    if k == 0 then 0 else LineStart(ls, k - 1) + |ls[k - 1]|
  }

  lemma {:induction false} LineLengthOfTerminated<T>(w: seq<T>, rest: seq<T>, nl: T)
    requires IsTerminatedLine(w, nl)
    ensures LineLength(w + rest, nl) == |w|
    decreases |w|
  {
    if |w| > 1 {
      assert (w + rest)[1..] == w[1..] + rest;
      LineLengthOfTerminated(w[1..], rest, nl);
    }
  }

  /** Reading back lines that were each written with one terminator gives those lines. */
  lemma {:induction false} LinesOfTerminated<T>(ws: seq<seq<T>>, nl: T)
    requires forall i :: 0 <= i < |ws| ==> IsTerminatedLine(ws[i], nl)
    ensures Lines(Flatten(ws), nl) == ws
    decreases |ws|
  {
    if ws != [] {
      var f := Flatten(ws);
      LineLengthOfTerminated(ws[0], Flatten(ws[1..]), nl);
      assert f[..|ws[0]|] == ws[0];
      assert f[|ws[0]|..] == Flatten(ws[1..]);
      LinesOfTerminated(ws[1..], nl);
    }
  }

  /** A nonempty file is its first line followed by the lines of the rest. */
  lemma LinesCons<T>(g: seq<T>, nl: T)
    requires g != []
    ensures Lines(g, nl) == [ReadLine(g, nl)] + Lines(g[LineLength(g, nl)..], nl)
  {
  }

  /** Dropping the first line of `g` leaves the lines of what follows it. */
  lemma LinesTail<T>(g: seq<T>, nl: T, rest: seq<seq<T>>)
    requires Lines(g, nl) == rest && rest != []
    ensures |rest[0]| <= |g| && Lines(g[|rest[0]|..], nl) == rest[1..]
  {
    assert g != [];
    LinesCons(g, nl);
  }

  lemma DropDrop<T>(f: seq<T>, s: nat, n: nat)
    requires s + n <= |f|
    ensures f[s..][n..] == f[s + n..]
  {
  }

  /** Dropping the first of the lines of `f[s..]` leaves the lines of what follows it. */
  lemma DropFirstLine<T>(f: seq<T>, nl: T, s: nat, rest: seq<seq<T>>)
    requires s <= |f| && Lines(f[s..], nl) == rest && rest != []
    ensures s + |rest[0]| <= |f| && Lines(f[s + |rest[0]|..], nl) == rest[1..]
  {
    LinesTail(f[s..], nl, rest);
    DropDrop(f, s, |rest[0]|);
  }

  /** After the first `k` lines, the rest of the file splits into the remaining lines. */
  lemma {:induction false} LinesFrom<T>(f: seq<T>, nl: T, k: nat)
    requires k <= |Lines(f, nl)|
    ensures LineStart(Lines(f, nl), k) <= |f|
    ensures Lines(f[LineStart(Lines(f, nl), k)..], nl) == Lines(f, nl)[k..]
  {
    if k == 0 {
      LinesFromStart(f, nl);
    } else {
      LinesFrom(f, nl, k - 1);
      LinesFromStep(f, nl, Lines(f, nl), k);
    }
  }

  lemma LinesFromStart<T>(f: seq<T>, nl: T)
    ensures LineStart(Lines(f, nl), 0) == 0
    ensures Lines(f[0..], nl) == Lines(f, nl)[0..]
  {
    assert f[0..] == f;
  }

  /** If the lines after line `k - 1` starts are `ls[k - 1..]`, the lines after line `k` starts are `ls[k..]`. */
  lemma LinesFromStep<T>(f: seq<T>, nl: T, ls: seq<seq<T>>, k: nat)
    requires 0 < k <= |ls|
    requires LineStart(ls, k - 1) <= |f| && Lines(f[LineStart(ls, k - 1)..], nl) == ls[k - 1..]
    ensures LineStart(ls, k) <= |f| && Lines(f[LineStart(ls, k)..], nl) == ls[k..]
  {
    var s, rest := LineStart(ls, k - 1), ls[k - 1..];
    DropFirstLine(f, nl, s, rest);
    assert rest[1..] == ls[k..];
    assert LineStart(ls, k) == s + |rest[0]|;
  }

  /** `seek` to where line `k` starts, then `readline()`, reads line `k`. */
  lemma ReadLineAt<T>(f: seq<T>, nl: T, k: nat)
    requires k < |Lines(f, nl)|
    ensures LineStart(Lines(f, nl), k) < |f|
    ensures ReadLine(f[LineStart(Lines(f, nl), k)..], nl) == Lines(f, nl)[k]
  {
    var ls := Lines(f, nl);
    LinesFrom(f, nl, k);
    var g := f[LineStart(ls, k)..];
    assert Lines(g, nl) == ls[k..];
    assert g != [];
    assert Lines(g, nl)[0] == ReadLine(g, nl);
  }

  /** Lines are never empty, so line starts strictly increase. */
  lemma {:induction false} LineStartIncreasing<T>(ls: seq<seq<T>>, j: nat, k: nat)
    requires forall i :: 0 <= i < |ls| ==> ls[i] != []
    requires j < k <= |ls|
    ensures LineStart(ls, j) < LineStart(ls, k)
    decreases k
  {
    if j < k - 1 {
      LineStartIncreasing(ls, j, k - 1);
    }
  }

  /** A file that ends with `nl` keeps its first line when more is appended. */
  lemma {:induction false} LineLengthPrefix<T>(t: seq<T>, w: seq<T>, nl: T)
    requires t != [] && t[|t| - 1] == nl
    ensures LineLength(t + w, nl) == LineLength(t, nl)
    decreases |t|
  {
    if t[0] != nl {
      assert (t + w)[1..] == t[1..] + w;
      LineLengthPrefix(t[1..], w, nl);
    }
  }

  /** Appending to a file that is empty or ends with `nl` appends lines: the old ones are not touched. */
  lemma {:induction false} LinesAppend<T>(t: seq<T>, w: seq<T>, nl: T)
    requires t == [] || t[|t| - 1] == nl
    ensures Lines(t + w, nl) == Lines(t, nl) + Lines(w, nl)
    decreases |t|
  {
    if t == [] {
      assert t + w == w;
    } else {
      var n := LineLength(t, nl);
      LineLengthPrefix(t, w, nl);
      assert (t + w)[..n] == t[..n];
      assert (t + w)[n..] == t[n..] + w;
      LinesAppend(t[n..], w, nl);
    }
  }
}
