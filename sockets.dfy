/**
 * The server's side of the `/model` namespace: the tables it keeps (projects,
 * models with their session id and count, instances, scores) and the socket
 * handlers that update them and emit messages to clients.
 *
 * The database is a set of maps from primary keys to rows; a commit that the
 * database rejects leaves every table as it was. An emission is addressed to
 * a room (a session id) or, with no room, to every client of the namespace.
 */
module Coordination {
  import opened Common
  import opened PyText
  import opened Protocol

  datatype ProjectRow = ProjectRow(name: string, maxCount: int)
  datatype ModelRow = ModelRow(name: string, projectId: nat, sid: Option<string>, count: Option<int>)
  datatype InstanceRow = InstanceRow(projectId: nat, modelId: nat, utterance: string, annotation: Option<int>)
  datatype Emission = Emission(room: Option<string>, message: ServerMessage)

  /** Which failures a handler raises; a raising handler leaves the tables and the emissions as they were. */
  datatype HandlerError =
    | NoSession       // no model has the sender's sid: the handler dereferences `None`
    | SharedSession   // several models have the sender's sid: `one_or_none` raises
    | AmbiguousModel  // several models of the project have the name: `one` raises
    | DuplicateScore  // a score for this model and count is already stored: the commit fails
    | UnknownColumn   // a row is built with a keyword that is not a column: the constructor raises TypeError

  /** A client with session `sid` receives `e`: it is addressed to its room, or to nobody in particular. */
  predicate Reaches(e: Emission, sid: string) {
    e.room.None? || e.room == Some(sid)
  }

  /** The cause sent when a model's reported count reaches the project's budget. */
  function MaxCountCause(maxCount: int): string {
    "max count: " + Decimal(maxCount) + " reached"
  }

  /** The cause sent when a registration names an unknown project or model. */
  function NotFoundCause(projectName: string, modelName: string): string {
    "project_name: " + projectName + " or model_name: " + modelName + " not found"
  }

  /** `send_annotation` as written: the annotation goes to the owning model's `sid`, which may be `None`. */
  function AnnotationEmissionAsWritten(owner: ModelRow, instance: InstanceRow): Option<Emission> {
    if instance.annotation.None? then None
    else Some(Emission(owner.sid, Annotation(instance.utterance, instance.annotation.value)))
  }

  /** `send_annotation` sending only to a connected owner. */
  function AnnotationEmission(owner: ModelRow, instance: InstanceRow): Option<Emission> {
    if instance.annotation.None? || owner.sid.None? then None
    else Some(Emission(owner.sid, Annotation(instance.utterance, instance.annotation.value)))
  }

  /** As written, an annotation for a model without a session is emitted with no room: every client receives it. */
  lemma AnnotationBroadcastWhenOffline(owner: ModelRow, instance: InstanceRow, other: string)
    requires owner.sid.None? && instance.annotation.Some?
    ensures var e := AnnotationEmissionAsWritten(owner, instance);
      e.Some? && e.value.room.None? && Reaches(e.value, other)
      && e.value.message == Annotation(instance.utterance, instance.annotation.value)
  {
  }

  /**
   * The annotation reaches exactly the session of the owning model, carrying
   * the instance's utterance and annotation; nothing is sent for an instance
   * without annotation or an owner without a session.
   */
  lemma AnnotationReachesOnlyOwner(owner: ModelRow, instance: InstanceRow, sid: string)
    ensures var e := AnnotationEmission(owner, instance);
      && (e.Some? <==> instance.annotation.Some? && owner.sid.Some?)
      && (e.Some? ==> (Reaches(e.value, sid) <==> owner.sid == Some(sid))
                      && e.value.message == Annotation(instance.utterance, instance.annotation.value))
  {
  }

  /** The columns of the `Instance` table, which its declarative constructor accepts as keywords. */
  const InstanceColumns: set<string> :=
    {"id", "project_id", "model_id", "utterance", "annotation", "client_time", "al_time", "io_time"}

  /** The keywords `receive_utterance` builds its `Instance` with. */
  const ReceivedInstanceKeywords: set<string> :=
    {"utterance", "annotation", "project_id", "model_id", "client_time", "al_time", "io_time",
     "show_time", "submit_time", "copied"}

  /** As written, three of those keywords name no column, so building the instance raises. */
  lemma ReceivedKeywordsRejected()
    ensures ReceivedInstanceKeywords - InstanceColumns == {"show_time", "submit_time", "copied"}
    ensures !(ReceivedInstanceKeywords <= InstanceColumns)
  {
    assert "show_time" in ReceivedInstanceKeywords - InstanceColumns;
  }

  class Database {
    var projects: map<nat, ProjectRow>
    var models: map<nat, ModelRow>
    var instances: map<nat, InstanceRow>
    /** Scores, keyed by model id and count. */
    var scores: map<(nat, int), Scores>
    var nextModelId: nat
    var nextInstanceId: nat
    var emitted: seq<Emission>

    /** Foreign keys resolve, primary keys are below the autoincrement counters, project names are unique. */
    ghost predicate Valid()
      reads this
    {
      Consistent(projects, models, instances, scores, nextModelId, nextInstanceId)
    }

    /** The models whose session id is `sid`. */
    function SessionModels(sid: string): set<nat>
      reads this
    {
      set m | m in models && models[m].sid == Some(sid)
    }

    /** The models of project `p` named `name`. */
    function NamedModels(p: nat, name: string): set<nat>
      reads this
    {
      set m | m in models && models[m].projectId == p && models[m].name == name
    }

    /** Model `m` has an instance waiting for its annotation. */
    predicate HasPending(m: nat)
      reads this
    {
      exists i :: i in instances && instances[i].modelId == m && instances[i].annotation.None?
    }

    /**
     * `receive_utterance`, building the instance from the columns the table
     * has: find the sender's model. When the reported count has reached the
     * project's budget, tell the sender it is finished and clear its session;
     * otherwise adopt the reported count and store the utterance as a new
     * instance with the label the client sent (in simulation mode), or none.
     */
    method ReceiveUtterance(sid: string, utterance: string, poolLabel: Option<int>, count: int)
      returns (r: Result<(), HandlerError>, ghost m: nat)
      requires Valid()
      modifies this
      ensures Valid()
      ensures var ms := old(SessionModels(sid));
        && (|ms| == 0 ==> r == Err(NoSession))
        && (|ms| > 1 ==> r == Err(SharedSession))
        && (|ms| == 1 ==> r.Ok? && ms == {m})
      ensures r.Err? ==> unchanged(this)
      ensures r.Ok? ==> var row := old(models)[m]; var maxCount := old(projects)[row.projectId].maxCount;
        && projects == old(projects) && scores == old(scores) && nextModelId == old(nextModelId)
        && (count >= maxCount ==>
              && models == old(models)[m := row.(sid := None)]
              && instances == old(instances) && nextInstanceId == old(nextInstanceId)
              && emitted == old(emitted) + [Emission(Some(sid), Finished(MaxCountCause(maxCount)))])
        && (count < maxCount ==>
              && models == old(models)[m := row.(count := Some(count))]
              && instances == old(instances)[old(nextInstanceId) := InstanceRow(row.projectId, m, utterance, poolLabel)]
              && nextInstanceId == old(nextInstanceId) + 1
              && emitted == old(emitted))
    {
      var ms := SessionModels(sid);
      if |ms| == 0 {
        return Err(NoSession), 0;
      }
      var id :| id in ms;
      m := id;
      if |ms| > 1 {
        return Err(SharedSession), m;
      }
      OnlyMember(ms, id);
      var row := models[id];
      var maxCount := projects[row.projectId].maxCount;
      if count >= maxCount {
        emitted := emitted + [Emission(row.sid, Finished(MaxCountCause(maxCount)))];
        ModelUpdateKeeps(projects, models, instances, scores, nextModelId, nextInstanceId, id, row.(sid := None));
        models := models[id := row.(sid := None)];
        return Ok(()), m;
      }
      ModelUpdateKeeps(projects, models, instances, scores, nextModelId, nextInstanceId, id, row.(count := Some(count)));
      models := models[id := row.(count := Some(count))];
      InstanceAddKeeps(projects, models, instances, scores, nextModelId, nextInstanceId,
                       InstanceRow(row.projectId, id, utterance, poolLabel));
      instances := instances[nextInstanceId := InstanceRow(row.projectId, id, utterance, poolLabel)];
      nextInstanceId := nextInstanceId + 1;
      r := Ok(());
    }

    /**
     * `receive_utterance` as written: below the budget, the instance is built
     * with keywords the table does not have, so the handler raises before its
     * commit and nothing is stored; at the budget it behaves as above.
     */
    method ReceiveUtteranceAsWritten(sid: string, utterance: string, poolLabel: Option<int>, count: int)
      returns (r: Result<(), HandlerError>, ghost m: nat)
      requires Valid()
      modifies this
      ensures Valid()
      ensures var ms := old(SessionModels(sid));
        && (|ms| == 0 ==> r == Err(NoSession))
        && (|ms| > 1 ==> r == Err(SharedSession))
        && (|ms| == 1 ==> ms == {m})
      ensures r.Err? ==> unchanged(this)
      ensures |old(SessionModels(sid))| == 1 ==>
        var row := old(models)[m]; var maxCount := old(projects)[row.projectId].maxCount;
        && (count < maxCount ==> r == Err(UnknownColumn))
        && (count >= maxCount ==>
              && r.Ok? && models == old(models)[m := row.(sid := None)]
              && projects == old(projects) && instances == old(instances) && scores == old(scores)
              && nextModelId == old(nextModelId) && nextInstanceId == old(nextInstanceId)
              && emitted == old(emitted) + [Emission(Some(sid), Finished(MaxCountCause(maxCount)))])
    {
      var ms := SessionModels(sid);
      if |ms| == 1 {
        var id :| id in ms;
        OnlyMember(ms, id);
        if count < projects[models[id].projectId].maxCount {
          ReceivedKeywordsRejected();
          return Err(UnknownColumn), id;
        }
      }
      r, m := ReceiveUtterance(sid, utterance, poolLabel, count);
    }

    /** `receive_scores`: store the scores for the sender's model at the reported count. */
    method ReceiveScores(sid: string, reported: Scores, count: int)
      returns (r: Result<(), HandlerError>, ghost m: nat)
      requires Valid()
      modifies this
      ensures Valid()
      ensures var ms := old(SessionModels(sid));
        && (|ms| == 0 ==> r == Err(NoSession))
        && (|ms| > 1 ==> r == Err(SharedSession))
        && (|ms| == 1 ==> ms == {m} && (r.Err? <==> (m, count) in old(scores)))
      ensures r.Err? ==> unchanged(this)
      ensures r.Ok? ==> (scores == old(scores)[(m, count) := reported]
        && projects == old(projects) && models == old(models) && instances == old(instances)
        && nextModelId == old(nextModelId) && nextInstanceId == old(nextInstanceId)
        && emitted == old(emitted))
    {
      var ms := SessionModels(sid);
      if |ms| == 0 {
        return Err(NoSession), 0;
      }
      var id :| id in ms;
      m := id;
      if |ms| > 1 {
        return Err(SharedSession), m;
      }
      OnlyMember(ms, id);
      if (id, count) in scores {
        return Err(DuplicateScore), m;
      }
      scores := scores[(id, count) := reported];
      r := Ok(());
    }

    /**
     * `on_register`: look up the project by name and its model by name. If
     * either is missing, tell the sender and change nothing; otherwise bind the
     * model to the sender's session, adopt the reported count, and ask for an
     * utterance unless the model has an instance waiting for its annotation.
     */
    method OnRegister(sid: string, projectName: string, modelName: string, count: int)
      returns (r: Result<(), HandlerError>, ghost m: nat)
      requires Valid()
      modifies this
      ensures Valid()
      ensures projects == old(projects) && instances == old(instances) && scores == old(scores)
      ensures nextModelId == old(nextModelId) && nextInstanceId == old(nextInstanceId)
      ensures var ps := ProjectsNamed(old(projects), projectName);
        var found := exists p :: p in ps && old(NamedModels(p, modelName)) != {};
        && (!found ==> r.Ok? && models == old(models)
                       && emitted == old(emitted) + [Emission(Some(sid), Finished(NotFoundCause(projectName, modelName)))])
        && (found && r.Err? ==> r == Err(AmbiguousModel) && unchanged(this))
        && (found && r.Ok? ==>
              && m in old(models) && old(models)[m].projectId in ps && old(models)[m].name == modelName
              && models == old(models)[m := old(models)[m].(sid := Some(sid), count := Some(count))]
              && emitted == old(emitted) + if old(HasPending(m)) then [] else [Emission(Some(sid), NextUtterance)])
      ensures r.Err? <==> exists p :: p in ProjectsNamed(old(projects), projectName) && |old(NamedModels(p, modelName))| > 1
    {
      var ps := ProjectsNamed(projects, projectName);
      if ps == {} {
        emitted := emitted + [Emission(Some(sid), Finished(NotFoundCause(projectName, modelName)))];
        return Ok(()), 0;
      }
      var p :| p in ps;
      NamedProjectUnique(projects, models, instances, scores, nextModelId, nextInstanceId, projectName, p);
      var named := NamedModels(p, modelName);
      if named == {} {
        emitted := emitted + [Emission(Some(sid), Finished(NotFoundCause(projectName, modelName)))];
        return Ok(()), 0;
      }
      var id :| id in named;
      m := id;
      if |named| > 1 {
        return Err(AmbiguousModel), m;
      }
      BindSession(id, sid, count);
      r := Ok(());
    }

    /** The found half of `on_register`: model `id` takes the session and the count, and asks for an utterance unless one awaits annotation. */
    method BindSession(id: nat, sid: string, count: int)
      requires Valid() && id in models
      modifies this
      ensures Valid()
      ensures projects == old(projects) && instances == old(instances) && scores == old(scores)
      ensures nextModelId == old(nextModelId) && nextInstanceId == old(nextInstanceId)
      ensures models == old(models)[id := old(models)[id].(sid := Some(sid), count := Some(count))]
      ensures emitted == old(emitted) + if old(HasPending(id)) then [] else [Emission(Some(sid), NextUtterance)]
    {
      ModelUpdateKeeps(projects, models, instances, scores, nextModelId, nextInstanceId, id,
                       models[id].(sid := Some(sid), count := Some(count)));
      var pending := HasPending(id);
      models := models[id := models[id].(sid := Some(sid), count := Some(count))];
      if !pending {
        emitted := emitted + [Emission(Some(sid), NextUtterance)];
      }
    }

    /** `on_disconnect`: the sender's model, if any, loses its session; its count stays. */
    method OnDisconnect(sid: string) returns (r: Result<(), HandlerError>, ghost m: nat)
      requires Valid()
      modifies this
      ensures Valid()
      ensures var ms := old(SessionModels(sid));
        && (|ms| == 0 ==> r.Ok? && unchanged(this))
        && (|ms| > 1 ==> r == Err(SharedSession) && unchanged(this))
        && (|ms| == 1 ==> r.Ok? && ms == {m} && models == old(models)[m := old(models)[m].(sid := None)]
                          && projects == old(projects) && instances == old(instances) && scores == old(scores)
                          && nextModelId == old(nextModelId) && nextInstanceId == old(nextInstanceId)
                          && emitted == old(emitted))
    {
      var ms := SessionModels(sid);
      if |ms| == 0 {
        return Ok(()), 0;
      }
      var id :| id in ms;
      m := id;
      if |ms| > 1 {
        return Err(SharedSession), m;
      }
      OnlyMember(ms, id);
      ModelUpdateKeeps(projects, models, instances, scores, nextModelId, nextInstanceId, id, models[id].(sid := None));
      models := models[id := models[id].(sid := None)];
      r := Ok(());
    }

    /**
     * `send_annotation`: an annotated instance's utterance and annotation go
     * to its model's session, or, when the model has none, to every client.
     */
    method SendAnnotation(i: nat)
      requires Valid() && i in instances
      modifies this
      ensures projects == old(projects) && models == old(models) && instances == old(instances)
      ensures scores == old(scores) && nextModelId == old(nextModelId) && nextInstanceId == old(nextInstanceId)
      ensures var e := AnnotationEmissionAsWritten(models[instances[i].modelId], instances[i]);
        emitted == old(emitted) + if e.Some? then [e.value] else []
    {
      var e := AnnotationEmissionAsWritten(models[instances[i].modelId], instances[i]);
      if e.Some? {
        emitted := emitted + [e.value];
      }
    }
  }

  /** The tables' integrity constraints: see `Database.Valid`. */
  ghost predicate Consistent(projects: map<nat, ProjectRow>, models: map<nat, ModelRow>,
                             instances: map<nat, InstanceRow>, scores: map<(nat, int), Scores>,
                             nextModelId: nat, nextInstanceId: nat)
  {
    && (forall m :: m in models ==> m < nextModelId && models[m].projectId in projects)
    && (forall i :: i in instances ==>
          && i < nextInstanceId && instances[i].modelId in models
          && instances[i].projectId == models[instances[i].modelId].projectId)
    && (forall k :: k in scores ==> k.0 in models)
    && (forall p, q :: p in projects && q in projects && projects[p].name == projects[q].name ==> p == q)
  }

  /** The ids of the projects named `name`. */
  function ProjectsNamed(projects: map<nat, ProjectRow>, name: string): set<nat> {
    set p | p in projects && projects[p].name == name
  }

  /** Project names are unique: a project with the name is the only one. */
  lemma NamedProjectUnique(projects: map<nat, ProjectRow>, models: map<nat, ModelRow>,
                           instances: map<nat, InstanceRow>, scores: map<(nat, int), Scores>,
                           nextModelId: nat, nextInstanceId: nat, name: string, p: nat)
    requires Consistent(projects, models, instances, scores, nextModelId, nextInstanceId)
    requires p in ProjectsNamed(projects, name)
    ensures ProjectsNamed(projects, name) == {p}
  {
  }

  /** Rewriting a model's row in place, within its project, keeps the constraints. */
  lemma ModelUpdateKeeps(projects: map<nat, ProjectRow>, models: map<nat, ModelRow>,
                         instances: map<nat, InstanceRow>, scores: map<(nat, int), Scores>,
                         nextModelId: nat, nextInstanceId: nat, m: nat, row: ModelRow)
    requires Consistent(projects, models, instances, scores, nextModelId, nextInstanceId)
    requires m in models && row.projectId == models[m].projectId
    ensures Consistent(projects, models[m := row], instances, scores, nextModelId, nextInstanceId)
  {
  }

  /** Adding an instance of an existing model under the next instance id keeps the constraints. */
  lemma InstanceAddKeeps(projects: map<nat, ProjectRow>, models: map<nat, ModelRow>,
                         instances: map<nat, InstanceRow>, scores: map<(nat, int), Scores>,
                         nextModelId: nat, nextInstanceId: nat, row: InstanceRow)
    requires Consistent(projects, models, instances, scores, nextModelId, nextInstanceId)
    requires row.modelId in models && row.projectId == models[row.modelId].projectId
    ensures Consistent(projects, models, instances[nextInstanceId := row], scores, nextModelId, nextInstanceId + 1)
  {
  }

  /** The one member of a set of size one. */
  lemma OnlyMember<T>(s: set<T>, x: T)
    requires x in s && |s| <= 1
    ensures s == {x}
  {
    var rest := s - {x};
    assert |rest| == |s| - 1;
  }
}
