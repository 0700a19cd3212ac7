/**
 * The HTTP views that read and change the server's tables: choosing the next
 * instance to annotate (with load balancing between models), recording an
 * annotation, reporting model status, and the model add/rename/delete diff
 * applied when a project is edited.
 */
module Views {
  import opened Common
  import opened PyText
  import opened Protocol
  import opened Coordination

  /** Largest count difference between models before annotation is steered to the least-advanced one. */
  const MaxCountDiff: int := 5

  datatype ViewError =
    | MissingInstanceId       // 400 "no instance id found"
    | UnknownInstance         // no instance has the id: the view dereferences `None`
    | NoInstanceLeft          // 500 "No instance without annotation left"
    | UncountedModel          // a model of the project has no count: the subtraction fails
    | CountDifferenceTooHigh  // the least-advanced model has nothing waiting
    | UnknownProject          // no project has the id: the view dereferences `None`
    | ProjectNameTaken        // another project has the name: the commit fails

  /** The instances of project `p` waiting for an annotation. */
  function Pending(db: Database, p: nat): set<nat>
    reads db
  {
    set i | i in db.instances && db.instances[i].projectId == p && db.instances[i].annotation.None?
  }

  /** The models of project `p`. */
  function ProjectModels(db: Database, p: nat): set<nat>
    reads db
  {
    set m | m in db.models && db.models[m].projectId == p
  }

  /** Every model of project `p` has a count, and `first` is one with the least. */
  predicate LeastAdvanced(db: Database, p: nat, first: nat)
    reads db
  {
    && first in ProjectModels(db, p)
    && (forall m :: m in ProjectModels(db, p) ==> db.models[m].count.Some?)
    && (forall m :: m in ProjectModels(db, p) ==> db.models[first].count.value <= db.models[m].count.value)
  }

  /** Some model of project `p` is more than `MaxCountDiff` instances ahead of `first`. */
  predicate Spread(db: Database, p: nat, first: nat)
    reads db
    requires LeastAdvanced(db, p, first)
  {
    exists m :: m in ProjectModels(db, p) && db.models[m].count.value - db.models[first].count.value > MaxCountDiff
  }

  /** A nonempty set of counted models has one with the least count. */
  lemma {:induction false} LeastCountExists(models: map<nat, ModelRow>, s: set<nat>)
    requires s != {}
    requires forall m :: m in s ==> m in models && models[m].count.Some?
    ensures exists x :: x in s && forall m :: m in s ==> models[x].count.value <= models[m].count.value
  {
    var y :| y in s;
    if s == {y} {
      assert forall m :: m in s ==> m == y;
    } else {
      var rest := s - {y};
      LeastCountExists(models, rest);
      var x :| x in rest && forall m :: m in rest ==> models[x].count.value <= models[m].count.value;
      if models[y].count.value < models[x].count.value {
        assert forall m :: m in s ==> models[y].count.value <= models[m].count.value by {
          forall m | m in s ensures models[y].count.value <= models[m].count.value {
            if m != y { assert m in rest; }
          }
        }
      } else {
        assert forall m :: m in s ==> models[x].count.value <= models[m].count.value by {
          forall m | m in s ensures models[x].count.value <= models[m].count.value {
            if m != y { assert m in rest; }
          }
        }
      }
    }
  }

  /**
   * `next_instance`: serve an instance of the project that waits for an
   * annotation. With nothing waiting the view fails with status 500. The
   * models are ordered by count and `first` is the one listed first; when
   * some model is more than five instances ahead of it, only instances of
   * `first` are served, and if it has none the view fails. Which candidate
   * is served, and which of several least-advanced models is listed first,
   * is not determined.
   */
  method NextInstance(db: Database, p: nat) returns (r: Result<(nat, string), ViewError>, ghost first: nat)
    requires db.Valid()
    ensures r.Err? ==> r.error in {NoInstanceLeft, UncountedModel, CountDifferenceTooHigh}
    ensures Pending(db, p) == {} <==> r == Err(NoInstanceLeft)
    ensures r == Err(UncountedModel) <==>
      Pending(db, p) != {} && exists m :: m in ProjectModels(db, p) && db.models[m].count.None?
    ensures r.Ok? || r == Err(CountDifferenceTooHigh) ==> LeastAdvanced(db, p, first)
    ensures r == Err(CountDifferenceTooHigh) <==>
      && LeastAdvanced(db, p, first) && Pending(db, p) != {} && Spread(db, p, first)
      && forall i :: i in Pending(db, p) ==> db.instances[i].modelId != first
    ensures r.Ok? ==> var i := r.value.0;
      && i in Pending(db, p) && r.value.1 == db.instances[i].utterance
      && (Spread(db, p, first) ==> db.instances[i].modelId == first)
  {
    var pending := Pending(db, p);
    if pending == {} {
      return Err(NoInstanceLeft), 0;
    }
    var ms := ProjectModels(db, p);
    var some :| some in pending;
    assert db.instances[some].modelId in ms;
    if exists m :: m in ms && db.models[m].count.None? {
      return Err(UncountedModel), 0;
    }
    LeastCountExists(db.models, ms);
    var least :| least in ms && forall m :: m in ms ==> db.models[least].count.value <= db.models[m].count.value;
    first := least;
    var candidates := pending;
    if exists m :: m in ms && db.models[m].count.value - db.models[least].count.value > MaxCountDiff {
      candidates := set i | i in pending && db.instances[i].modelId == least;
      if candidates == {} {
        assert forall i :: i in pending ==> db.instances[i].modelId != least by {
          forall i | i in pending ensures db.instances[i].modelId != least {
            assert i in candidates <==> db.instances[i].modelId == least;
          }
        }
        return Err(CountDifferenceTooHigh), first;
      }
    }
    var i :| i in candidates;
    r := Ok((i, db.instances[i].utterance));
  }

  /**
   * `annotate`: with no instance id the request is refused with status 400;
   * otherwise the instance takes the annotation (which may be null) and it
   * is forwarded to the instance's model (to every client when the model
   * has no session).
   */
  method Annotate(db: Database, instanceId: Option<nat>, annotation: Option<int>) returns (r: Result<(), ViewError>)
    requires db.Valid()
    modifies db
    ensures db.Valid()
    ensures instanceId.None? ==> r == Err(MissingInstanceId)
    ensures instanceId.Some? ==> (r.Err? <==> instanceId.value !in old(db.instances))
    ensures r.Err? ==> r.error in {MissingInstanceId, UnknownInstance} && unchanged(db)
    ensures r.Ok? ==> var i := instanceId.value; var row := old(db.instances)[i].(annotation := annotation);
      && db.instances == old(db.instances)[i := row]
      && db.projects == old(db.projects) && db.models == old(db.models) && db.scores == old(db.scores)
      && db.nextModelId == old(db.nextModelId) && db.nextInstanceId == old(db.nextInstanceId)
      && var e := AnnotationEmissionAsWritten(db.models[row.modelId], row);
         db.emitted == old(db.emitted) + if e.Some? then [e.value] else []
  {
    if instanceId.None? {
      return Err(MissingInstanceId);
    }
    var i := instanceId.value;
    if i !in db.instances {
      return Err(UnknownInstance);
    }
    db.instances := db.instances[i := db.instances[i].(annotation := annotation)];
    db.SendAnnotation(i);
    r := Ok(());
  }

  /** What the status view reports about one model. */
  datatype ModelStatus = ModelStatus(name: string, online: bool, count: Option<int>)

  /**
   * `check_model_status`: for each model of the project, its name, whether a
   * client session is bound to it, and the one-based number of the instance
   * it is working on (its count plus one; nothing before it registered).
   */
  function ModelStatuses(db: Database, p: nat): (r: Result<map<nat, ModelStatus>, ViewError>)
    reads db
    ensures r.Err? <==> p !in db.projects
    ensures r.Ok? ==> r.value.Keys == ProjectModels(db, p)
    ensures r.Ok? ==> forall m :: m in r.value ==>
      && r.value[m].name == db.models[m].name
      && (r.value[m].online <==> db.models[m].sid.Some?)
      && (r.value[m].count.Some? <==> db.models[m].count.Some?)
      && (r.value[m].count.Some? ==> r.value[m].count.value == db.models[m].count.value + 1)
  {
    if p !in db.projects then Err(UnknownProject)
    else Ok(map m | m in ProjectModels(db, p) ::
              ModelStatus(db.models[m].name, db.models[m].sid.Some?,
                          if db.models[m].count.Some? then Some(db.models[m].count.value + 1) else None))
  }

  /** One row of the project form's model list: the hidden id (as submitted text) and the name. */
  datatype ModelEntry = ModelEntry(id: string, name: string)

  /** The model id a submitted id spells, when it is the decimal spelling of one. */
  function ModelIdOf(id: string): (r: Option<nat>)
    ensures r.Some? ==> Decimal(r.value) == id
  {
    var v := ParseInt(id);
    if v.Some? && v.value >= 0 && Decimal(v.value) == id then Some(v.value) else None
  }

  lemma ModelIdOfDecimal(n: nat)
    ensures ModelIdOf(Decimal(n)) == Some(n)
  {
    ParseIntDecimal(n);
  }

  /** `Model.query.get(id)` for a submitted id: the model, of any project, whose id it spells. */
  function LookupModel(models: map<nat, ModelRow>, id: string): Option<nat> {
    var n := ModelIdOf(id);
    if n.Some? && n.value in models then n else None
  }

  /** The model the lookup finds is the one whose id is spelled `id`, and it finds one whenever there is one. */
  lemma LookupModelSpec(models: map<nat, ModelRow>, id: string)
    ensures var r := LookupModel(models, id);
      && (r.Some? ==> r.value in models && Decimal(r.value) == id)
      && (r.None? ==> forall m :: m in models ==> Decimal(m) != id)
  {
    forall m | m in models && Decimal(m) == id
      ensures LookupModel(models, id).Some?
    {
      ModelIdOfDecimal(m);
    }
  }

  /**
   * One turn of the loop over submitted entries: a model found by the
   * entry's id takes the entry's name (a no-op when the name is the same);
   * otherwise a new model of project `p` is created under the next id.
   */
  function EntryStep(models: map<nat, ModelRow>, next: nat, p: nat, e: ModelEntry): (map<nat, ModelRow>, nat) {
    var found := LookupModel(models, e.id);
    if found.Some? then (models[found.value := models[found.value].(name := e.name)], next)
    else (models[next := ModelRow(e.name, p, None, None)], next + 1)
  }

  /** The loop over all submitted entries, in order. */
  function ApplyEntries(models: map<nat, ModelRow>, next: nat, p: nat, es: seq<ModelEntry>): (map<nat, ModelRow>, nat)
    decreases |es|
  {
    if es == [] then (models, next)
    else
      var prior := ApplyEntries(models, next, p, es[..|es| - 1]);
      EntryStep(prior.0, prior.1, p, es[|es| - 1])
  }

  /** The ids of the submitted entries. */
  function Ids(es: seq<ModelEntry>): set<string> {
    set j | 0 <= j < |es| :: es[j].id
  }

  /** The models of project `p` whose id is not among the submitted ids: they are deleted. */
  function Doomed(models: map<nat, ModelRow>, p: nat, es: seq<ModelEntry>): set<nat> {
    set m | m in models && models[m].projectId == p && Decimal(m) !in Ids(es)
  }

  /** The models after an edit: the entries applied, then the doomed models removed. */
  function EditModels(models: map<nat, ModelRow>, next: nat, p: nat, es: seq<ModelEntry>): (map<nat, ModelRow>, nat) {
    var applied := ApplyEntries(models, next, p, es);
    (WithoutModels(applied.0, Doomed(models, p, es)), applied.1)
  }

  /** The models not in `doomed`. */
  function WithoutModels(models: map<nat, ModelRow>, doomed: set<nat>): map<nat, ModelRow> {
    map m | m in models && m !in doomed :: models[m]
  }

  /** The instances of models not in `doomed`: deleting a model deletes its instances. */
  function WithoutInstancesOf(instances: map<nat, InstanceRow>, doomed: set<nat>): map<nat, InstanceRow> {
    map i | i in instances && instances[i].modelId !in doomed :: instances[i]
  }

  /** The scores of models not in `doomed`: deleting a model deletes its scores. */
  function WithoutScoresOf(scores: map<(nat, int), Scores>, doomed: set<nat>): map<(nat, int), Scores> {
    map k | k in scores && k.0 !in doomed :: scores[k]
  }

  /** The name the last entry with id `id` gives, or `dflt` when no entry has that id. */
  function LastName(es: seq<ModelEntry>, id: string, dflt: string): (r: string)
    decreases |es|
  {
    if es == [] then dflt
    else if es[|es| - 1].id == id then es[|es| - 1].name
    else LastName(es[..|es| - 1], id, dflt)
  }

  /** Every key of `models` is below `next`. */
  predicate KeysBelow(models: map<nat, ModelRow>, next: nat) {
    forall m :: m in models ==> m < next
  }

  /**
   * One turn of the loop: an entry whose id spells an existing model's id
   * renames that model and nothing else; any other entry adds a model of
   * project `p` under `next` and advances the counter.
   */
  lemma EntryStepSpec(models: map<nat, ModelRow>, next: nat, p: nat, e: ModelEntry)
    requires KeysBelow(models, next)
    ensures var out := EntryStep(models, next, p, e);
      && var created := forall m :: m in models ==> Decimal(m) != e.id;
      && out.1 == (if created then next + 1 else next) && KeysBelow(out.0, out.1)
      && (forall m :: m in out.0 <==> m in models || (created && m == next))
      && (forall m :: m in models ==>
            out.0[m] == if Decimal(m) == e.id then models[m].(name := e.name) else models[m])
      && (created ==> out.0[next] == ModelRow(e.name, p, None, None))
  {
    LookupModelSpec(models, e.id);
    var found := LookupModel(models, e.id);
    if found.Some? {
      forall m | m in models && Decimal(m) == e.id ensures m == found.value {
        DecimalInjective(m, found.value);
      }
    }
  }

  /** Applying the entries only adds the ids from `next` up to the new counter. */
  lemma {:induction false} ApplyEntriesKeys(models: map<nat, ModelRow>, next: nat, p: nat, es: seq<ModelEntry>)
    requires KeysBelow(models, next)
    ensures var out := ApplyEntries(models, next, p, es);
      && next <= out.1 && KeysBelow(out.0, out.1)
      && (forall m :: m in out.0 <==> m in models || next <= m < out.1)
    decreases |es|
  {
    if es != [] {
      ApplyEntriesKeys(models, next, p, es[..|es| - 1]);
      var prior := ApplyEntries(models, next, p, es[..|es| - 1]);
      EntryStepSpec(prior.0, prior.1, p, es[|es| - 1]);
    }
  }

  /** Applying the entries changes an existing model only in its name: the last name submitted with its id. */
  lemma {:induction false} ApplyEntriesKept(models: map<nat, ModelRow>, next: nat, p: nat, es: seq<ModelEntry>)
    requires KeysBelow(models, next)
    ensures var out := ApplyEntries(models, next, p, es);
      forall m :: m in models ==> m in out.0 && out.0[m] == models[m].(name := LastName(es, Decimal(m), models[m].name))
    decreases |es|
  {
    if es != [] {
      var front := es[..|es| - 1];
      ApplyEntriesKeys(models, next, p, front);
      ApplyEntriesKept(models, next, p, front);
      var prior := ApplyEntries(models, next, p, front);
      EntryStepSpec(prior.0, prior.1, p, es[|es| - 1]);
    }
  }

  /** Some submitted entry carries `name`. */
  predicate SubmittedName(es: seq<ModelEntry>, name: string) {
    exists j :: 0 <= j < |es| && es[j].name == name
  }

  /** Every model the entries create belongs to project `p`, has no session and no count, and has a submitted name. */
  lemma {:induction false} ApplyEntriesCreated(models: map<nat, ModelRow>, next: nat, p: nat, es: seq<ModelEntry>)
    requires KeysBelow(models, next)
    ensures var out := ApplyEntries(models, next, p, es);
      forall m :: next <= m < out.1 ==>
        && m in out.0 && out.0[m].projectId == p && out.0[m].sid.None? && out.0[m].count.None?
        && SubmittedName(es, out.0[m].name)
    decreases |es|
  {
    if es != [] {
      var front := es[..|es| - 1];
      var e := es[|es| - 1];
      ApplyEntriesKeys(models, next, p, front);
      ApplyEntriesCreated(models, next, p, front);
      var prior := ApplyEntries(models, next, p, front);
      EntryStepSpec(prior.0, prior.1, p, e);
      assert SubmittedName(es, e.name) by {
        assert es[|es| - 1].name == e.name;
      }
      forall name | SubmittedName(front, name) ensures SubmittedName(es, name) {
        var j :| 0 <= j < |front| && front[j].name == name;
        assert es[j] == front[j];
      }
    }
  }

  /**
   * The entries a well-formed form submits: each id spells no model id, or
   * spells the id of a model of project `p`, and no such id is submitted
   * twice.
   */
  predicate WellFormedEntries(models: map<nat, ModelRow>, p: nat, es: seq<ModelEntry>) {
    && (forall j :: 0 <= j < |es| ==> var n := ModelIdOf(es[j].id);
          n.None? || (n.value in models && models[n.value].projectId == p))
    && (forall i, j :: 0 <= i < j < |es| && ModelIdOf(es[i].id).Some? ==> es[i].id != es[j].id)
  }

  /** Applying `a + b` is applying `a`, then `b`. */
  lemma {:induction false} ApplyEntriesAppend(models: map<nat, ModelRow>, next: nat, p: nat,
                                              a: seq<ModelEntry>, b: seq<ModelEntry>)
    ensures var mid := ApplyEntries(models, next, p, a);
      ApplyEntries(models, next, p, a + b) == ApplyEntries(mid.0, mid.1, p, b)
    decreases |b|
  {
    if b == [] {
      assert a + b == a;
    } else {
      var front := b[..|b| - 1];
      assert (a + b)[..|a + b| - 1] == a + front;
      assert (a + b)[|a + b| - 1] == b[|b| - 1];
      ApplyEntriesAppend(models, next, p, a, front);
    }
  }

  /** With no entry carrying `id`, the default name stays. */
  lemma {:induction false} LastNameAbsent(es: seq<ModelEntry>, id: string, dflt: string)
    requires id !in Ids(es)
    ensures LastName(es, id, dflt) == dflt
    decreases |es|
  {
    if es != [] {
      var front := es[..|es| - 1];
      assert Ids(front) <= Ids(es) by {
        forall x | x in Ids(front) ensures x in Ids(es) {
          var j :| 0 <= j < |front| && front[j].id == x;
          assert es[j] == front[j];
        }
      }
      assert es[|es| - 1].id in Ids(es);
      LastNameAbsent(front, id, dflt);
    }
  }

  /**
   * From a well-formed form, entry `j`'s name ends up on a model of project
   * `p`: the model its id names, or one created for it, which no later
   * entry touches.
   */
  lemma EntryLands(models: map<nat, ModelRow>, next: nat, p: nat, es: seq<ModelEntry>, j: nat)
    requires KeysBelow(models, next) && WellFormedEntries(models, p, es) && j < |es|
    ensures var out := ApplyEntries(models, next, p, es);
      exists m :: m in out.0 && out.0[m].projectId == p && out.0[m].name == es[j].name
                  && (m in models ==> Decimal(m) == es[j].id)
  {
    var before, upto, after := es[..j], es[..j + 1], es[j + 1..];
    assert upto[..|upto| - 1] == before && upto[|upto| - 1] == es[j];
    assert es == upto + after;
    ApplyEntriesKeys(models, next, p, before);
    ApplyEntriesKept(models, next, p, before);
    ApplyEntriesKeys(models, next, p, upto);
    var prior := ApplyEntries(models, next, p, before);
    var mid := ApplyEntries(models, next, p, upto);
    assert mid == EntryStep(prior.0, prior.1, p, es[j]);
    EntryCovered(models, p, prior.0, prior.1, es[j], mid.0);
    var m :| m in mid.0 && mid.0[m].projectId == p && mid.0[m].name == es[j].name
             && (m in models ==> Decimal(m) == es[j].id);
    LaterIdsMiss(models, p, es, j, m);
    ApplyEntriesAppend(models, next, p, upto, after);
    ApplyEntriesKept(mid.0, mid.1, p, after);
    LastNameAbsent(after, Decimal(m), mid.0[m].name);
  }

  /** No entry after entry `j` spells the id of model `m`: the model entry `j` names, or a model no entry can name. */
  lemma LaterIdsMiss(models: map<nat, ModelRow>, p: nat, es: seq<ModelEntry>, j: nat, m: nat)
    requires WellFormedEntries(models, p, es) && j < |es|
    requires m in models ==> Decimal(m) == es[j].id
    ensures Decimal(m) !in Ids(es[j + 1..])
  {
    var after := es[j + 1..];
    if Decimal(m) in Ids(after) {
      var k :| 0 <= k < |after| && after[k].id == Decimal(m);
      assert es[j + 1 + k] == after[k];
      ModelIdOfDecimal(m);
      assert false;
    }
  }

  /** The last entry's name lands on a model of project `p`: the one its id names, or a new one. */
  lemma EntryCovered(models: map<nat, ModelRow>, p: nat, prior: map<nat, ModelRow>, next: nat, e: ModelEntry,
                     out: map<nat, ModelRow>)
    requires KeysBelow(prior, next) && KeysBelow(models, next)
    requires forall m :: m in models ==> m in prior && prior[m].projectId == models[m].projectId
    requires var n := ModelIdOf(e.id); n.None? || (n.value in models && models[n.value].projectId == p)
    requires out == EntryStep(prior, next, p, e).0
    ensures exists m :: m in out && out[m].projectId == p && out[m].name == e.name
                        && (m in models ==> Decimal(m) == e.id)
  {
    EntryStepSpec(prior, next, p, e);
    var n := ModelIdOf(e.id);
    if n.Some? {
      assert out[n.value].name == e.name && out[n.value].projectId == p;
    } else {
      forall m | m in prior ensures Decimal(m) != e.id {
        ModelIdOfDecimal(m);
      }
      assert out[next].name == e.name && next !in models;
    }
  }

  /**
   * `edit_project`'s diff, as the tables see it: an existing model is
   * deleted exactly when it belongs to the project and its id was not
   * submitted; a kept one only changes name, to the last name submitted
   * with its id; every other model is new, belongs to the project, has no
   * session and no count, and is named after a submitted entry.
   */
  lemma EditModelsSpec(models: map<nat, ModelRow>, next: nat, p: nat, es: seq<ModelEntry>)
    requires KeysBelow(models, next)
    ensures var out := EditModels(models, next, p, es);
      && next <= out.1 && KeysBelow(out.0, out.1)
      && (forall m :: m in models ==>
            (m !in out.0 <==> models[m].projectId == p && Decimal(m) !in Ids(es)))
      && (forall m :: m in models && m in out.0 ==>
            out.0[m] == models[m].(name := LastName(es, Decimal(m), models[m].name)))
      && (forall m :: m in out.0 && m !in models ==>
            && next <= m && out.0[m].projectId == p && out.0[m].sid.None? && out.0[m].count.None?
            && SubmittedName(es, out.0[m].name))
  {
    ApplyEntriesKeys(models, next, p, es);
    ApplyEntriesKept(models, next, p, es);
    ApplyEntriesCreated(models, next, p, es);
  }

  /**
   * From a well-formed form, the project's models after the edit carry
   * exactly the submitted names.
   */
  lemma EditKeepsSubmittedNames(models: map<nat, ModelRow>, next: nat, p: nat, es: seq<ModelEntry>)
    requires KeysBelow(models, next) && WellFormedEntries(models, p, es)
    ensures var out := EditModels(models, next, p, es).0;
      (set m | m in out && out[m].projectId == p :: out[m].name) == (set j | 0 <= j < |es| :: es[j].name)
  {
    var applied := ApplyEntries(models, next, p, es);
    var out := EditModels(models, next, p, es).0;
    ApplyEntriesKeys(models, next, p, es);
    ApplyEntriesKept(models, next, p, es);
    ApplyEntriesCreated(models, next, p, es);
    var have := set m | m in out && out[m].projectId == p :: out[m].name;
    var want := set j | 0 <= j < |es| :: es[j].name;
    forall name | name in want ensures name in have {
      var j :| 0 <= j < |es| && es[j].name == name;
      EntryLands(models, next, p, es, j);
      var m :| m in applied.0 && applied.0[m].projectId == p && applied.0[m].name == es[j].name
               && (m in models ==> Decimal(m) == es[j].id);
      assert m in out;
    }
    forall name | name in have ensures name in want {
      var m :| m in out && out[m].projectId == p && out[m].name == name;
      if m in models {
        var id := Decimal(m);
        assert id in Ids(es);
        LastNameFound(es, id, models[m].name);
      } else {
        assert SubmittedName(es, name);
        var j :| 0 <= j < |es| && es[j].name == name;
      }
    }
  }

  /** When some entry has id `id`, the last name given is some entry's name. */
  lemma {:induction false} LastNameFound(es: seq<ModelEntry>, id: string, dflt: string)
    requires id in Ids(es)
    ensures exists j :: 0 <= j < |es| && LastName(es, id, dflt) == es[j].name
    decreases |es|
  {
    var front := es[..|es| - 1];
    if es[|es| - 1].id != id {
      var k :| 0 <= k < |es| && es[k].id == id;
      assert front[k] == es[k];
      LastNameFound(front, id, dflt);
      var j :| 0 <= j < |front| && LastName(front, id, dflt) == front[j].name;
      assert es[j] == front[j];
    }
  }

  /** The tables stay consistent through an edit that keeps project names unique. */
  lemma EditKeepsConsistent(projects: map<nat, ProjectRow>, models: map<nat, ModelRow>,
                            instances: map<nat, InstanceRow>, scores: map<(nat, int), Scores>,
                            nextModelId: nat, nextInstanceId: nat, p: nat, row: ProjectRow, es: seq<ModelEntry>)
    requires Consistent(projects, models, instances, scores, nextModelId, nextInstanceId)
    requires p in projects && forall q :: q in projects && q != p ==> projects[q].name != row.name
    ensures var out := EditModels(models, nextModelId, p, es);
      var doomed := Doomed(models, p, es);
      Consistent(projects[p := row], out.0, WithoutInstancesOf(instances, doomed), WithoutScoresOf(scores, doomed),
                 out.1, nextInstanceId)
  {
    EditModelsSpec(models, nextModelId, p, es);
  }

  /**
   * `edit_project` once the form is valid: the project takes the submitted
   * name and budget; each submitted entry renames the model its id names or
   * creates a model of the project; then the project's models whose id was
   * not submitted are deleted, with their instances and scores. A name
   * already used by another project makes the commit fail and nothing
   * changes.
   */
  method EditProject(db: Database, p: nat, name: string, maxCount: int, entries: seq<ModelEntry>)
    returns (r: Result<(), ViewError>)
    requires db.Valid()
    modifies db
    ensures db.Valid()
    ensures r == Err(UnknownProject) <==> p !in old(db.projects)
    ensures r == Err(ProjectNameTaken) <==>
      p in old(db.projects) && exists q :: q in old(db.projects) && q != p && old(db.projects)[q].name == name
    ensures r.Err? ==> unchanged(db)
    ensures r.Ok? ==>
      var doomed := Doomed(old(db.models), p, entries);
      && db.projects == old(db.projects)[p := ProjectRow(name, maxCount)]
      && (db.models, db.nextModelId) == EditModels(old(db.models), old(db.nextModelId), p, entries)
      && db.instances == WithoutInstancesOf(old(db.instances), doomed)
      && db.scores == WithoutScoresOf(old(db.scores), doomed)
      && db.nextInstanceId == old(db.nextInstanceId) && db.emitted == old(db.emitted)
  {
    if p !in db.projects {
      return Err(UnknownProject);
    }
    if exists q :: q in db.projects && q != p && db.projects[q].name == name {
      return Err(ProjectNameTaken);
    }
    CommitEdit(db, p, ProjectRow(name, maxCount), entries);
    r := Ok(());
  }

  /** The edit of a known project whose new name no other project uses. */
  method CommitEdit(db: Database, p: nat, row: ProjectRow, entries: seq<ModelEntry>)
    requires db.Valid() && p in db.projects
    requires forall q :: q in db.projects && q != p ==> db.projects[q].name != row.name
    modifies db
    ensures db.Valid()
    ensures var doomed := Doomed(old(db.models), p, entries);
      && db.projects == old(db.projects)[p := row]
      && (db.models, db.nextModelId) == EditModels(old(db.models), old(db.nextModelId), p, entries)
      && db.instances == WithoutInstancesOf(old(db.instances), doomed)
      && db.scores == WithoutScoresOf(old(db.scores), doomed)
      && db.nextInstanceId == old(db.nextInstanceId) && db.emitted == old(db.emitted)
  {
    EditKeepsConsistent(db.projects, db.models, db.instances, db.scores, db.nextModelId, db.nextInstanceId,
                        p, row, entries);
    var doomed := Doomed(db.models, p, entries);
    db.projects := db.projects[p := row];
    ApplyModelEntries(db, p, entries);
    db.models := WithoutModels(db.models, doomed);
    db.instances := WithoutInstancesOf(db.instances, doomed);
    db.scores := WithoutScoresOf(db.scores, doomed);
  }

  /** The loop over the submitted entries: rename the model an entry's id names, or create one for the project. */
  method ApplyModelEntries(db: Database, p: nat, entries: seq<ModelEntry>)
    modifies db
    ensures (db.models, db.nextModelId) == ApplyEntries(old(db.models), old(db.nextModelId), p, entries)
    ensures db.projects == old(db.projects) && db.instances == old(db.instances) && db.scores == old(db.scores)
    ensures db.nextInstanceId == old(db.nextInstanceId) && db.emitted == old(db.emitted)
  {
    var k := 0;
    while k < |entries|
      invariant 0 <= k <= |entries|
      invariant (db.models, db.nextModelId) == ApplyEntries(old(db.models), old(db.nextModelId), p, entries[..k])
      invariant db.projects == old(db.projects) && db.instances == old(db.instances) && db.scores == old(db.scores)
      invariant db.nextInstanceId == old(db.nextInstanceId) && db.emitted == old(db.emitted)
    {
      var e := entries[k];
      var found := LookupModel(db.models, e.id);
      if found.None? {
        db.models := db.models[db.nextModelId := ModelRow(e.name, p, None, None)];
        db.nextModelId := db.nextModelId + 1;
      } else if db.models[found.value].name != e.name {
        db.models := db.models[found.value := db.models[found.value].(name := e.name)];
      } else {
        assert db.models[found.value := db.models[found.value].(name := e.name)] == db.models;
      }
      assert entries[..k + 1][..k] == entries[..k];
      k := k + 1;
    }
    assert entries[..k] == entries;
  }
}
