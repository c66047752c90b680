/** The network model factory: a table of network classes per exercise and a cache
    that builds each (exercise, name) instance on first request and hands out that
    same instance afterwards. The factory's static fields are the fields of one
    `ModelFactory` object. */
module ModelCache {
  import opened Wrappers
  import opened Types
  import opened Records
  import opened Fcnn

  /** The network classes registered for the exercise, in declaration order. The
      first key is written in the table as the characters shown here. */
  function Registered(e: Exercise): seq<(string, FcnnKind)> {
    match e
    case HighPlank => [("FCNN - \U{C3}\U{201A}ngulos", AnglesModel), ("FCNN - Pontos", PointsModel)]
  }

  /** `getExerciseModelNames`: the keys of the table, unsorted. */
  function ExerciseModelNames(e: Exercise): seq<string> {
    Keys(Registered(e))
  }

  /** What `new undefined()` throws for a name with no registered class: some
      TypeError, here in one engine's wording. */
  const NotAConstructor: string := "TypeError: this.modelsPerExercise[exercise][modelName] is not a constructor"

  /** The cached instances of one exercise; an exercise never asked for has none. */
  function CachedFor(models: map<Exercise, map<string, FcnnModel>>, e: Exercise): map<string, FcnnModel> {
    if e in models then models[e] else map[]
  }

  class ModelFactory {
    var models: map<Exercise, map<string, FcnnModel>>

    /** Every cached instance is of the class registered under its name. */
    predicate Valid()
      reads this
    {
      forall e, n :: e in models && n in models[e] ==> Lookup(Registered(e), n) == Some(models[e][n].kind)
    }

    /** The cache starts empty. */
    constructor ()
      ensures models == map[] && Valid()
    {
      models := map[];
    }

    /** `getModel`: the cached instance if there is one; otherwise a new instance of
        the registered class, which is cached first. A name with no class throws,
        after the exercise's empty cache has been created. No other cached entry
        changes. */
    method GetModel(e: Exercise, name: string) returns (r: Result<FcnnModel, string>)
      modifies this
      ensures e in models
      ensures name in CachedFor(old(models), e) ==>
        r == Success(old(models)[e][name]) && models == old(models)
      ensures name !in CachedFor(old(models), e) && Lookup(Registered(e), name).Some? ==>
        && r.Success? && fresh(r.value)
        && r.value.kind == Lookup(Registered(e), name).value && r.value.model.None?
        && models == old(models)[e := CachedFor(old(models), e)[name := r.value]]
      ensures name !in CachedFor(old(models), e) && Lookup(Registered(e), name).None? ==>
        r == Failure(NotAConstructor) && models == old(models)[e := CachedFor(old(models), e)]
      ensures forall e', n' :: e' in old(models) && n' in old(models)[e'] ==>
        e' in models && n' in models[e'] && models[e'][n'] == old(models)[e'][n']
      ensures old(Valid()) ==> Valid()
    {
      if e !in models {
        models := models[e := map[]];
      }
      if name !in models[e] {
        var kind := Lookup(Registered(e), name);
        if kind.None? {
          return Failure(NotAConstructor);
        }
        var instance := new FcnnModel(kind.value);
        models := models[e := models[e][name := instance]];
      }
      r := Success(models[e][name]);
    }
  }

  // ---------------------------------------------------------------------------
  // Properties

  /** The registered names, and the names `getModel` can build: exactly the listed ones. */
  lemma RegisteredNames(e: Exercise, name: string)
    ensures ExerciseModelNames(HighPlank) == ["FCNN - \U{C3}\U{201A}ngulos", "FCNN - Pontos"]
    ensures Lookup(Registered(e), name).Some? <==> name in ExerciseModelNames(e)
  {
  }

  /** The angles entry builds the angles network and the points entry the points
      network. */
  lemma RegisteredKinds()
    ensures Lookup(Registered(HighPlank), "FCNN - \U{C3}\U{201A}ngulos") == Some(AnglesModel)
    ensures Lookup(Registered(HighPlank), "FCNN - Pontos") == Some(PointsModel)
  {
  }
}
