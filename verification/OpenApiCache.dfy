/** The locked per-app cache of rewritten OpenAPI documents. The lock is held for the whole of each
    call and each invalidation, so an interleaving of threads is a sequence of these operations.

    A Doc is one deep-copied document with everything it owns: copying shares nothing, so changing
    any part of one Doc is a change of that Doc alone. */
module OpenApiCache {
  import opened Wrappers
  import opened JsonValues
  import opened OpenApi

  datatype Generated = Raises | Gives(value: Json)

  // ---------------------------------------------------------------- the cache as a map of values

  datatype Event =
    | Call(app: nat, generator: Generated)   // the generator's outcome, should it be asked
    | InvalidateOne(app: nat)
    | InvalidateAll
    | EditReturned                           // a caller changes a document it was given

  datatype Result = Result(cache: map<nat, Json>, answer: Option<Json>, generated: bool)

  predicate Hit(cache: map<nat, Json>, app: nat) {
    app in cache && cache[app] != Null
  }

  function Step(cache: map<nat, Json>, e: Event): Result {
    match e
    case Call(app, generator) =>
      if Hit(cache, app) then Result(cache, Some(cache[app]), false)
      else (
        match generator
        case Raises => Result(cache, None, true)
        case Gives(v) => Result(cache[app := Normalize(v)], Some(Normalize(v)), true)
      )
    case InvalidateOne(app) => Result(cache - {app}, None, false)
    case InvalidateAll => Result(map[], None, false)
    case EditReturned => Result(cache, None, false)
  }

  function Results(cache: map<nat, Json>, events: seq<Event>): (rs: seq<Result>)
    ensures |rs| == |events|
    decreases |events|
  {
    if events == [] then []
    else
      var r := Step(cache, events[0]);
      [r] + Results(r.cache, events[1..])
  }

  /** No invalidation of this app, and a generator that, when it succeeds, returns a document. */
  predicate Window(events: seq<Event>, app: nat) {
    forall i :: 0 <= i < |events| ==>
      && events[i] != InvalidateOne(app)
      && events[i] != InvalidateAll
      && (events[i].Call? && events[i].app == app ==> events[i].generator != Gives(Null))
  }

  lemma {:induction false} AnswersRepeat(cache: map<nat, Json>, events: seq<Event>, app: nat)
    requires Window(events, app) && Hit(cache, app)
    ensures var rs := Results(cache, events);
      forall i :: 0 <= i < |events| && events[i].Call? && events[i].app == app ==>
        rs[i].answer == Some(cache[app]) && !rs[i].generated
    decreases |events|
  {
    if events != [] {
      assert events[0] != InvalidateOne(app) && events[0] != InvalidateAll;
      var r := Step(cache, events[0]);
      assert Hit(r.cache, app) && r.cache[app] == cache[app];
      assert forall i :: 0 <= i < |events[1..]| ==> events[1..][i] == events[i + 1];
      AnswersRepeat(r.cache, events[1..], app);
      var rs := Results(cache, events);
      forall i | 0 <= i < |events| && events[i].Call? && events[i].app == app
        ensures rs[i].answer == Some(cache[app]) && !rs[i].generated
      {
        if i > 0 {
          assert events[1..][i - 1] == events[i] && rs[i] == Results(r.cache, events[1..])[i - 1];
        }
      }
    }
  }

  /** Between invalidations of an app its generator succeeds at most once: from the first call that
      is answered on, every call for the app gets that very value and generates nothing. */
  lemma {:induction false} GeneratedOncePerWindow(cache: map<nat, Json>, events: seq<Event>, app: nat, i: nat, j: nat)
    requires Window(events, app)
    requires i < j < |events|
    requires events[i].Call? && events[i].app == app && events[j].Call? && events[j].app == app
    requires Results(cache, events)[i].answer.Some?
    ensures var rs := Results(cache, events);
      rs[j].answer == rs[i].answer && !rs[j].generated
    decreases |events|
  {
    var r := Step(cache, events[0]);
    var rest := events[1..];
    assert forall k :: 0 <= k < |rest| ==> rest[k] == events[k + 1];
    var rs := Results(cache, events);
    assert forall k :: 0 <= k < |rest| ==> rs[k + 1] == Results(r.cache, rest)[k];
    if i == 0 {
      assert events[0].generator != Gives(Null);
      assert Hit(r.cache, app) && r.answer == Some(r.cache[app]);
      AnswersRepeat(r.cache, rest, app);
      assert rest[j - 1] == events[j];
    } else {
      GeneratedOncePerWindow(r.cache, rest, app, i - 1, j - 1);
    }
  }

  /** The condition on the generator is needed: a document of null is stored but never found, and
      the next call generates again. */
  lemma NullDocumentIsNotCached(cache: map<nat, Json>, app: nat, next: Generated)
    requires !Hit(cache, app)
    ensures var rs := Results(cache, [Call(app, Gives(Null)), Call(app, next)]);
      rs[0].answer == Some(Null) && rs[1].generated
  {
    var events := [Call(app, Gives(Null)), Call(app, next)];
    var r := Step(cache, events[0]);
    assert events[1..] == [Call(app, next)];
    assert Results(cache, events)[1] == Results(r.cache, events[1..])[0] == Step(r.cache, Call(app, next));
  }

  // ---------------------------------------------------------------- the cache on the heap

  class Doc {
    var value: Json

    constructor (value: Json)
      ensures this.value == value
    {
      this.value := value;
    }
  }

  class App {
    const id: nat
    var openapiSchema: Doc?

    constructor (id: nat)
      ensures this.id == id && openapiSchema == null
    {
      this.id := id;
      this.openapiSchema := null;
    }
  }

  class Cache {
    var cached: map<nat, Doc>
    ghost var returned: set<Doc>   // every document given to a caller

    /** No stored document was ever given to a caller, and no two apps share one. */
    ghost predicate Valid()
      reads this
    {
      && (forall k :: k in cached ==> cached[k] !in returned)
      && (forall k, m :: k in cached && m in cached && k != m ==> cached[k] != cached[m])
    }

    ghost function Contents(): map<nat, Json>
      reads this, cached.Values
    {
      map k | k in cached :: cached[k].value
    }

    constructor ()
      ensures Valid() && Contents() == map[] && returned == {}
    {
      cached := map[];
      returned := {};
    }

    /** `copy.deepcopy` of a stored document, handed to the caller. */
    method HandOut(stored: Doc) returns (d: Doc)
      requires Valid()
      modifies this`returned
      ensures Valid() && fresh(d) && d.value == stored.value && returned == old(returned) + {d}
    {
      d := new Doc(stored.value);
      returned := returned + {d};
    }

    /** The wrapped `app.openapi`. */
    method OpenApi(app: App, generator: Generated) returns (d: Doc?)
      requires Valid()
      modifies this, app
      ensures Valid()
      ensures var r := Step(old(Contents()), Call(app.id, generator));
        && Contents() == r.cache
        && (d == null <==> r.answer.None?)
        && (d != null ==> fresh(d) && d in returned && Some(d.value) == r.answer)
        && (r.generated && d != null ==> app.id in cached && app.openapiSchema == cached[app.id])
        && (!r.generated || d == null ==> app.openapiSchema == old(app.openapiSchema))
      ensures old(returned) <= returned
    {
      if app.id in cached && cached[app.id].value != Null {
        d := HandOut(cached[app.id]);
      } else {
        match generator
        case Raises => return null;
        case Gives(v) =>
          var stored := new Doc(Normalize(v));
          cached := cached[app.id := stored];
          app.openapiSchema := stored;
          d := HandOut(stored);
      }
    }

    /** `invalidate_openapi_cache`; without an app, only the map is cleared. */
    method Invalidate(app: App?)
      requires Valid()
      modifies this, app
      ensures Valid() && returned == old(returned)
      ensures Contents() == Step(old(Contents()), if app == null then InvalidateAll else InvalidateOne(app.id)).cache
      ensures app != null ==> app.openapiSchema == null
    {
      if app == null {
        cached := map[];
      } else {
        cached := cached - {app.id};
        app.openapiSchema := null;
      }
    }

    /** A caller changes a document it was given: no later answer changes. */
    method EditReturnedDoc(d: Doc, value: Json)
      requires Valid() && d in returned
      modifies d
      ensures Valid() && d.value == value
      ensures Contents() == Step(old(Contents()), EditReturned).cache
    {
      d.value := value;
    }
  }

  /** One operation of a run: on one of the apps, or on one of the documents handed out so far, in the
      order in which they were. */
  datatype Operation =
    | DoCall(app: nat, generator: Generated)
    | DoEdit(document: nat, value: Json)
    | DoInvalidate(app: nat)
    | DoInvalidateAll

  predicate Concerns(o: Operation, apps: seq<App>) {
    (o.DoCall? || o.DoInvalidate?) ==> o.app < |apps|
  }

  function EventOf(o: Operation, apps: seq<App>): Event
    requires Concerns(o, apps)
  {
    match o
    case DoCall(a, g) => Call(apps[a].id, g)
    case DoEdit(_, _) => EditReturned
    case DoInvalidate(a) => InvalidateOne(apps[a].id)
    case DoInvalidateAll => InvalidateAll
  }

  /** Any run of calls on any apps, edits of any documents the calls returned, and invalidations gives
      the answers the map of values gives: deep copies make the aliasing invisible. */
  method RunOperations(cache: Cache, apps: seq<App>, operations: seq<Operation>)
    returns (answers: seq<Option<Json>>, events: seq<Event>)
    requires cache.Valid() && forall i :: 0 <= i < |operations| ==> Concerns(operations[i], apps)
    modifies cache, apps
    ensures cache.Valid()
    ensures |answers| == |events| == |operations|
    ensures forall i :: 0 <= i < |events| ==> events[i] == EventOf(operations[i], apps)
    ensures var rs := Results(old(cache.Contents()), events);
      && (forall i :: 0 <= i < |answers| ==> answers[i] == rs[i].answer)
      && cache.Contents() == if rs == [] then old(cache.Contents()) else rs[|rs| - 1].cache
  {
    answers, events := [], [];
    var documents: seq<Doc> := [];
    var i := 0;
    while i < |operations|
      invariant 0 <= i <= |operations| && |answers| == |events| == i
      invariant cache.Valid() && forall k :: 0 <= k < |documents| ==>
        documents[k] in cache.returned && fresh(documents[k])
      invariant forall k :: 0 <= k < i ==> events[k] == EventOf(operations[k], apps)
      invariant var rs := Results(old(cache.Contents()), events);
        && (forall k :: 0 <= k < i ==> answers[k] == rs[k].answer)
        && cache.Contents() == if rs == [] then old(cache.Contents()) else rs[|rs| - 1].cache
    {
      ghost var before := cache.Contents();
      var answer: Option<Json>;
      answer, documents := Perform(cache, apps, operations[i], documents);
      ResultsSnoc(old(cache.Contents()), events, EventOf(operations[i], apps), before);
      answers, events := answers + [answer], events + [EventOf(operations[i], apps)];
      i := i + 1;
    }
  }

  method Perform(cache: Cache, apps: seq<App>, o: Operation, documents0: seq<Doc>)
    returns (answer: Option<Json>, documents: seq<Doc>)
    requires cache.Valid() && Concerns(o, apps)
    requires forall k :: 0 <= k < |documents0| ==> documents0[k] in cache.returned
    modifies cache, apps, documents0
    ensures cache.Valid()
    ensures forall k :: 0 <= k < |documents| ==> documents[k] in cache.returned
    ensures documents0 <= documents && forall k :: |documents0| <= k < |documents| ==> fresh(documents[k])
    ensures var r := Step(old(cache.Contents()), EventOf(o, apps)); answer == r.answer && cache.Contents() == r.cache
  {
    answer, documents := None, documents0;
    match o
    case DoCall(a, g) =>
      var d := cache.OpenApi(apps[a], g);
      if d != null {
        documents := documents + [d];
        answer := Some(d.value);
      }
    case DoEdit(k, v) =>
      if k < |documents| {
        cache.EditReturnedDoc(documents[k], v);
      }
    case DoInvalidate(a) => cache.Invalidate(apps[a]);
    case DoInvalidateAll => cache.Invalidate(null);
  }

  lemma {:induction false} ResultsSnoc(cache: map<nat, Json>, events: seq<Event>, e: Event, now: map<nat, Json>)
    requires var rs := Results(cache, events);
      now == if rs == [] then cache else rs[|rs| - 1].cache
    ensures Results(cache, events + [e]) == Results(cache, events) + [Step(now, e)]
    decreases |events|
  {
    if events == [] {
      assert events + [e] == [e] && [e][1..] == [];
    } else {
      var r := Step(cache, events[0]);
      var rs := Results(r.cache, events[1..]);
      assert (events + [e])[1..] == events[1..] + [e];
      assert Results(cache, events) == [r] + rs;
      ResultsSnoc(r.cache, events[1..], e, now);
    }
  }

  /** `app.openapi_schema` is the stored document itself: a write through it changes every later
      answer. */
  method WriteThroughAlias(cache: Cache, app: App, value: Json, generator: Generated) returns (d: Doc?)
    requires cache.Valid()
    requires app.id in cache.cached && app.openapiSchema == cache.cached[app.id] && value != Null
    modifies cache, app, app.openapiSchema
    ensures d != null && d.value == value
  {
    app.openapiSchema.value := value;
    d := cache.OpenApi(app, generator);
  }
}
