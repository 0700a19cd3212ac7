/**
 * The project form and its validators: names made of word characters with
 * bounded length, a project name no other project uses, a model list of
 * bounded size with distinct names, and a budget that defaults to 500.
 */
module Forms {
  import opened Common
  import opened PyText
  import opened Coordination
  import opened Views

  /** Bounds on project and model names. */
  const MinNameLength: nat := 4
  const MaxNameLength: nat := 75

  /** Bounds on the model list; the upper one is the number of plot colours. */
  const MinModels: nat := 1
  const MaxModels: nat := 20

  /** The budget a new project gets when the form does not say. */
  const DefaultMaxCount: int := 500

  /** `\w` on ASCII: a letter, a digit or the underscore. */
  predicate IsWordChar(c: char) {
    ('a' <= c <= 'z') || ('A' <= c <= 'Z') || ('0' <= c <= '9') || c == '_'
  }

  /** The length of the longest run of word characters `s` starts with: what greedy `\w+` consumes. */
  function WordRun(s: string): (k: nat)
    ensures k <= |s|
  {
    if s == [] || !IsWordChar(s[0]) then 0 else 1 + WordRun(s[1..])
  }

  lemma {:induction false} WordRunSpec(s: string)
    ensures var k := WordRun(s);
      && (forall i :: 0 <= i < k ==> IsWordChar(s[i]))
      && (k < |s| ==> !IsWordChar(s[k]))
    decreases |s|
  {
    if s != [] && IsWordChar(s[0]) {
      WordRunSpec(s[1..]);
      var k := WordRun(s);
      forall i | 0 <= i < k ensures IsWordChar(s[i]) {
        if i > 0 { assert s[i] == s[1..][i - 1]; }
      }
      if k < |s| { assert s[k] == s[1..][k - 1]; }
    }
  }

  /**
   * `re.match('^\w+$', s)`: greedy `\w+` from the start, then `$`, which
   * holds at the end of the text or just before a newline that ends it.
   * Giving back characters cannot help, since `$` never holds before a word
   * character.
   */
  function MatchesWordPattern(s: string): bool {
    var k := WordRun(s);
    k >= 1 && (k == |s| || (k == |s| - 1 && s[k] == '\n'))
  }

  /** The texts the pattern describes: one or more word characters, optionally followed by one final newline. */
  predicate WordName(s: string) {
    || (|s| >= 1 && forall i :: 0 <= i < |s| ==> IsWordChar(s[i]))
    || (|s| >= 2 && s[|s| - 1] == '\n' && forall i :: 0 <= i < |s| - 1 ==> IsWordChar(s[i]))
  }

  /** The matcher accepts exactly the texts the pattern describes. */
  lemma MatchesWordPatternSpec(s: string)
    ensures MatchesWordPattern(s) <==> WordName(s)
  {
    WordRunSpec(s);
    var k := WordRun(s);
    if WordName(s) && k == |s| - 1 {
      assert !IsWordChar(s[k]) && s[|s| - 1] == '\n';
    }
  }

  /** `DataRequired`: something other than whitespace was entered. */
  predicate DataPresent(s: string) {
    Strip(s) != []
  }

  /** A text the pattern accepts is never refused as missing. */
  lemma PatternImpliesPresent(s: string)
    requires MatchesWordPattern(s)
    ensures DataPresent(s)
  {
    WordRunSpec(s);
    RStripSpec(s);
    var r := RStrip(s);
    assert !IsSpace(s[0]);
    assert r != [];
    assert r[0] == s[0];
  }

  /** `length_val(min, max)`: the length lies in `[min, max]`. */
  predicate LengthWithin(s: string, min: nat, max: nat) {
    min <= |s| <= max
  }

  /** The validators of a model name: required, word characters, 4 to 75 characters. */
  predicate ValidModelName(s: string) {
    DataPresent(s) && MatchesWordPattern(s) && LengthWithin(s, MinNameLength, MaxNameLength)
  }

  /** An accepted model name is 4 to 75 characters of `\w`, save possibly a final newline. */
  lemma ValidModelNameSpec(s: string)
    ensures ValidModelName(s) <==> WordName(s) && MinNameLength <= |s| <= MaxNameLength
  {
    MatchesWordPatternSpec(s);
    if WordName(s) {
      PatternImpliesPresent(s);
    }
  }

  /** The set of a sequence's elements: Python's `set(data)`. */
  function Elements<T>(s: seq<T>): set<T> {
    set x | x in s
  }

  /** `distinct('name', …)`: the entries' names are as many as their set. */
  predicate DistinctNames(es: seq<ModelEntry>) {
    var names := seq(|es|, j requires 0 <= j < |es| => es[j].name);
    |names| == |Elements(names)|
  }

  /** A sequence has as many distinct elements as entries exactly when no two entries are equal. */
  lemma {:induction false} ElementsCount<T>(s: seq<T>)
    ensures |Elements(s)| <= |s|
    ensures |Elements(s)| == |s| <==> forall i, j :: 0 <= i < j < |s| ==> s[i] != s[j]
    decreases |s|
  {
    if s != [] {
      var front, last := s[..|s| - 1], s[|s| - 1];
      ElementsCount(front);
      assert s == front + [last];
      assert Elements(s) == Elements(front) + {last};
      if last in front {
        var i :| 0 <= i < |front| && front[i] == last;
        assert s[i] == s[|s| - 1];
        assert Elements(s) == Elements(front);
      } else {
        assert |Elements(s)| == |Elements(front)| + 1;
        if |Elements(s)| == |s| {
          forall i, j | 0 <= i < j < |s| ensures s[i] != s[j] {
            if j < |s| - 1 {
              assert s[i] == front[i] && s[j] == front[j];
            } else {
              assert s[i] == front[i];
            }
          }
        }
        if forall i, j :: 0 <= i < j < |s| ==> s[i] != s[j] {
          forall i, j | 0 <= i < j < |front| ensures front[i] != front[j] {
            assert s[i] == front[i] && s[j] == front[j];
          }
        }
      }
    }
  }

  /** `distinct` rejects a model list exactly when two entries share a name. */
  lemma DistinctNamesSpec(es: seq<ModelEntry>)
    ensures DistinctNames(es) <==> forall i, j :: 0 <= i < j < |es| ==> es[i].name != es[j].name
  {
    var names := seq(|es|, j requires 0 <= j < |es| => es[j].name);
    ElementsCount(names);
    assert forall i :: 0 <= i < |es| ==> names[i] == es[i].name;
  }

  /**
   * `unique_project_name` as written: a project with the name is let through
   * only when its id, an integer, equals the form's hidden id, which is
   * submitted as text. In Python an `int` never equals a `str`, so every
   * project with the name refuses it, and `formId` plays no part.
   */
  predicate UniqueProjectNameAsWritten(projects: map<nat, ProjectRow>, name: string, formId: string) {
    forall q :: q in projects ==> projects[q].name != name
  }

  /** `unique_project_name` comparing the project's id in its decimal spelling, as the edit view does. */
  predicate UniqueProjectName(projects: map<nat, ProjectRow>, name: string, formId: string) {
    forall q :: q in projects && projects[q].name == name ==> Decimal(q) == formId
  }

  /** As written, a project cannot be saved under its own name: the form for project `p` is always refused. */
  lemma OwnNameRefusedAsWritten(projects: map<nat, ProjectRow>, p: nat)
    requires p in projects
    ensures !UniqueProjectNameAsWritten(projects, projects[p].name, Decimal(p))
  {
    assert p in projects && projects[p].name == projects[p].name;
  }

  /**
   * A name passes exactly when no other project than the one the form
   * edits uses it; on the create form, whose id is empty, exactly when no
   * project uses it.
   */
  lemma UniqueProjectNameSpec(projects: map<nat, ProjectRow>, name: string, p: nat)
    ensures UniqueProjectName(projects, name, Decimal(p)) <==>
      forall q :: q in projects && projects[q].name == name ==> q == p
    ensures UniqueProjectName(projects, name, "") <==>
      forall q :: q in projects ==> projects[q].name != name
  {
    forall q | q in projects && Decimal(q) == Decimal(p) ensures q == p {
      DecimalInjective(q, p);
    }
    forall q | q in projects ensures Decimal(q) != "" {
      assert |Digits(q)| >= 1;
    }
  }

  /** The validators of a project name: required, `unique_project_name` as written, word characters, 4 to 75 characters. */
  predicate ValidProjectName(projects: map<nat, ProjectRow>, name: string, formId: string) {
    && DataPresent(name) && UniqueProjectNameAsWritten(projects, name, formId)
    && MatchesWordPattern(name) && LengthWithin(name, MinNameLength, MaxNameLength)
  }

  /**
   * The entries the model list holds after reading the request: at most
   * the first 20 submitted, and one empty entry when none was submitted.
   */
  function FormEntries(submitted: seq<ModelEntry>): (es: seq<ModelEntry>)
    ensures MinModels <= |es| <= MaxModels
    ensures 1 <= |submitted| <= MaxModels ==> es == submitted
  {
    if |submitted| > MaxModels then submitted[..MaxModels]
    else if submitted == [] then [ModelEntry("", "")]
    else submitted
  }

  /** An empty submitted list leaves one entry whose name is refused as missing. */
  lemma EmptyListRefused()
    ensures exists e :: e in FormEntries([]) && !ValidModelName(e.name)
  {
    assert !DataPresent(FormEntries([])[0].name);
  }

  /**
   * How an integer is written: a digit or a sign, then digits only, with at
   * least one digit in all.
   */
  predicate IntegerText(t: string) {
    && t != []
    && (IsDigit(t[0]) || ((t[0] == '-' || t[0] == '+') && |t| >= 2))
    && forall i :: 1 <= i < |t| ==> IsDigit(t[i])
  }

  /**
   * The budget field: its default when the request does not carry it,
   * otherwise `int()` of the text, which refuses (with no value) what is not
   * an integer.
   */
  function MaxCountValue(raw: Option<string>, default: int): (r: Option<int>)
    ensures raw.None? ==> r == Some(default)
    ensures raw.Some? ==> (r.Some? <==> IntegerText(Strip(raw.value)))
    ensures raw.Some? && r.Some? && r.value < 0 ==> Strip(raw.value)[0] == '-'
  {
    if raw.None? then Some(default) else ParseInt(raw.value)
  }

  /** A new project whose form leaves the budget out gets 500 instances. */
  lemma NewProjectDefaultBudget(projects: map<nat, ProjectRow>, f: ProjectForm)
    requires f.maxCount.None?
    ensures var r := ValidateProjectForm(projects, f, DefaultMaxCount);
      r.Some? ==> r.value.maxCount == 500
  {
  }

  /** A budget entered as a decimal number is read back as that number. */
  lemma MaxCountValueDecimal(n: int, default: int)
    ensures MaxCountValue(Some(Decimal(n)), default) == Some(n)
  {
    ParseIntDecimal(n);
  }

  /** What the project form submits. */
  datatype ProjectForm = ProjectForm(id: string, name: string, maxCount: Option<string>, models: seq<ModelEntry>)

  /** What a valid project form yields for the views. */
  datatype ProjectData = ProjectData(name: string, maxCount: int, models: seq<ModelEntry>)

  /**
   * `validate_on_submit` of the project form: every field's validators pass.
   * The budget falls back on `default` (500 for a new project, the stored
   * budget when editing).
   */
  function ValidateProjectForm(projects: map<nat, ProjectRow>, f: ProjectForm, default: int): Option<ProjectData> {
    var es := FormEntries(f.models);
    var maxCount := MaxCountValue(f.maxCount, default);
    if && ValidProjectName(projects, f.name, f.id) && maxCount.Some?
       && DistinctNames(es) && forall j :: 0 <= j < |es| ==> ValidModelName(es[j].name)
    then Some(ProjectData(f.name, maxCount.value, es))
    else None
  }

  /**
   * A form passes only with a project name of 4 to 75 word characters
   * (save a final newline) that no project uses, not even the one the form
   * edits (see `OwnNameRefusedAsWritten`), 1 to 20 models whose
   * names are pairwise different and of the same shape, and a budget given
   * as an integer or left to its default.
   */
  lemma ValidateProjectFormSpec(projects: map<nat, ProjectRow>, f: ProjectForm, default: int)
    ensures var r := ValidateProjectForm(projects, f, default);
      r.Some? ==>
        && r.value.name == f.name && WordName(f.name) && MinNameLength <= |f.name| <= MaxNameLength
        && (forall q :: q in projects ==> projects[q].name != f.name)
        && (f.maxCount.None? ==> r.value.maxCount == default)
        && (f.maxCount.Some? ==> ParseInt(f.maxCount.value) == Some(r.value.maxCount))
        && MinModels <= |r.value.models| <= MaxModels
        && (|f.models| <= MaxModels ==> r.value.models == f.models)
        && (forall i, j :: 0 <= i < j < |r.value.models| ==> r.value.models[i].name != r.value.models[j].name)
        && (forall j :: 0 <= j < |r.value.models| ==>
              WordName(r.value.models[j].name) && MinNameLength <= |r.value.models[j].name| <= MaxNameLength)
  {
    var r := ValidateProjectForm(projects, f, default);
    if r.Some? {
      var es := FormEntries(f.models);
      MatchesWordPatternSpec(f.name);
      DistinctNamesSpec(es);
      forall j | 0 <= j < |es| ensures WordName(es[j].name) {
        MatchesWordPatternSpec(es[j].name);
      }
    }
  }
}
