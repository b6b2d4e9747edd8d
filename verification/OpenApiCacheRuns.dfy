/** What the cached documents are, over whole runs from an empty cache: rewritten ones, from the last
    generation, and generated anew exactly when they have to be. */
module OpenApiCacheRuns {
  import opened Wrappers
  import opened JsonValues
  import opened OpenApi
  import opened OpenApiCache

  predicate CallOf(e: Event, app: nat) {
    e.Call? && e.app == app
  }

  /** No call for this app up to here asked its generator. */
  predicate AsksNothing(events: seq<Event>, rs: seq<Result>, app: nat, from: int, to: int)
    requires |rs| == |events|
  {
    forall k :: 0 <= k < |events| && from < k <= to && CallOf(events[k], app) ==> !rs[k].generated
  }

  lemma {:induction false} WhereAnAnswerComesFrom(cache: map<nat, Json>, events: seq<Event>, i: nat) returns (j: int)
    requires i < |events| && events[i].Call? && Results(cache, events)[i].answer.Some?
    ensures var rs, app := Results(cache, events), events[i].app;
      && -1 <= j <= i && AsksNothing(events, rs, app, j, i)
      && (j == -1 ==> Hit(cache, app) && rs[i].answer == Some(cache[app]))
      && (j >= 0 ==>
            && rs[j].generated && CallOf(events[j], app) && events[j].generator.Gives?
            && rs[i].answer == Some(Normalize(events[j].generator.value)))
    decreases |events|
  {
    var rs, app, r := Results(cache, events), events[i].app, Step(cache, events[0]);
    var rest := Results(r.cache, events[1..]);
    assert rs[0] == r && forall k :: 0 < k < |events| ==> rs[k] == rest[k - 1];
    if i == 0 {
      j := if r.generated then 0 else -1;
    } else {
      assert events[1..][i - 1] == events[i];
      j := WhereAnAnswerComesFrom(r.cache, events[1..], i - 1);
      var k := j;
      j := if j >= 0 then j + 1 else if CallOf(events[0], app) && r.generated then 0 else -1;
      forall m | 0 <= m < |events| && j < m <= i && CallOf(events[m], app)
        ensures !rs[m].generated
      {
        if m > 0 {
          assert events[1..][m - 1] == events[m] && k < m - 1;
        }
      }
    }
  }

  /** Every answer of a run from an empty cache is the rewritten form of what the app's generator gave
      the last time it was asked. */
  lemma AnswersAreTheLastGenerated(events: seq<Event>, i: nat) returns (j: nat)
    requires i < |events| && events[i].Call? && Results(map[], events)[i].answer.Some?
    ensures j <= i && CallOf(events[j], events[i].app) && events[j].generator.Gives?
    ensures var rs := Results(map[], events);
      && rs[j].generated && AsksNothing(events, rs, events[i].app, j, i)
      && rs[i].answer == Some(Normalize(events[j].generator.value))
  {
    j := WhereAnAnswerComesFrom(map[], events, i);
  }

  /** With generators whose type lists hold names, no answer has a list under `type`, at any depth. */
  lemma AnswersAreNormal(events: seq<Event>, i: nat)
    requires i < |events| && events[i].Call? && Results(map[], events)[i].answer.Some?
    requires forall k :: 0 <= k < |events| && events[k].Call? && events[k].generator.Gives? ==>
      TypeListsHoldStrings(events[k].generator.value)
    ensures NormalForm(Results(map[], events)[i].answer.value)
  {
    hide NormalForm, TypeListsHoldStrings, Normalize, Results;
    var j := AnswersAreTheLastGenerated(events, i);
    StringTypeListsAreReplaceable(events[j].generator.value);
  }

  // ---------------------------------------------------------------- when the generator is asked

  predicate Drops(e: Event, app: nat) {
    e == InvalidateOne(app) || e == InvalidateAll
  }

  /** A call whose generator would give a document. */
  predicate Supplies(e: Event, app: nat) {
    CallOf(e, app) && e.generator.Gives? && e.generator.value != Null
  }

  predicate Undropped(events: seq<Event>, app: nat, from: int, to: nat) {
    forall m :: 0 <= m < |events| && from < m < to ==> !Drops(events[m], app)
  }

  /** Some earlier call supplied a document, and no invalidation followed. */
  predicate Supplied(events: seq<Event>, app: nat, j: nat)
    requires j <= |events|
  {
    exists k :: 0 <= k < j && Supplies(events[k], app) && Undropped(events, app, k, j)
  }

  lemma SuppliedRest(events: seq<Event>, app: nat, j: nat)
    requires 1 <= j <= |events|
    ensures Supplied(events, app, j)
       <==> Supplied(events[1..], app, j - 1) || (Supplies(events[0], app) && Undropped(events, app, 0, j))
    ensures Undropped(events, app, -1, j) <==> !Drops(events[0], app) && Undropped(events[1..], app, -1, j - 1)
    ensures Undropped(events, app, 0, j) <==> Undropped(events[1..], app, -1, j - 1)
  {
    hide Supplies, Drops;
    var rest := events[1..];
    forall k: int
      ensures k >= 0 ==> (Undropped(events, app, k, j) <==> Undropped(rest, app, k - 1, j - 1))
    {
      UndroppedRest(events, app, k, j);
    }
    UndroppedRest(events, app, 0, j);
    if k :| 0 <= k < j && Supplies(events[k], app) && Undropped(events, app, k, j) && k > 0 {
      assert rest[k - 1] == events[k];
    }
    if k :| 0 <= k < j - 1 && Supplies(rest[k], app) && Undropped(rest, app, k, j - 1) {
      assert events[k + 1] == rest[k] && Undropped(events, app, k + 1, j);
    }
    UndroppedAll(events, app, j);
  }

  lemma UndroppedAll(events: seq<Event>, app: nat, j: nat)
    requires 1 <= j <= |events|
    ensures Undropped(events, app, -1, j) <==> !Drops(events[0], app) && Undropped(events, app, 0, j)
  {
  }

  lemma UndroppedRest(events: seq<Event>, app: nat, k: int, j: nat)
    requires 1 <= j <= |events|
    ensures k >= 0 ==> (Undropped(events, app, k, j) <==> Undropped(events[1..], app, k - 1, j - 1))
  {
    var rest := events[1..];
    assert forall m :: 0 <= m < |rest| ==> rest[m] == events[m + 1];
    if k >= 0 && Undropped(rest, app, k - 1, j - 1) {
      forall m | 0 <= m < |events| && k < m < j
        ensures !Drops(events[m], app)
      {
        assert rest[m - 1] == events[m];
      }
    }
  }

  lemma {:induction false} AsksUnlessSupplied(cache: map<nat, Json>, events: seq<Event>, app: nat, j: nat)
    requires j < |events| && CallOf(events[j], app)
    ensures Results(cache, events)[j].generated
       <==> !Supplied(events, app, j) && !(Hit(cache, app) && Undropped(events, app, -1, j))
    decreases |events|
  {
    var r := Step(cache, events[0]);
    if j > 0 {
      assert Results(cache, events)[j] == Results(r.cache, events[1..])[j - 1] && events[1..][j - 1] == events[j];
      AsksUnlessSupplied(r.cache, events[1..], app, j - 1);
      SuppliedRest(events, app, j);
      HitAfter(cache, events[0], app);
      hide Supplied, Undropped, Hit, Supplies, Drops, Results, Step;
    }
  }

  lemma HitAfter(cache: map<nat, Json>, e: Event, app: nat)
    ensures Hit(Step(cache, e).cache, app) <==> Supplies(e, app) || (Hit(cache, app) && !Drops(e, app))
  {
  }

  /** In a run from an empty cache a call asks the generator exactly when no call before it supplied a
      document that was not invalidated since; and then the answer is the new document, rewritten, or
      none where the generator raises. So the next call after an invalidation always asks. */
  lemma AsksExactlyWhenItMust(events: seq<Event>, app: nat, j: nat)
    requires j < |events| && CallOf(events[j], app)
    ensures var r := Results(map[], events)[j];
      && (r.generated <==> !Supplied(events, app, j))
      && (r.generated ==>
            match events[j].generator
            case Raises => r.answer == None
            case Gives(v) => r.answer == Some(Normalize(v)))
  {
    AsksUnlessSupplied(map[], events, app, j);
    ResultIsAStep(map[], events, j);
  }

  lemma {:induction false} ResultIsAStep(cache: map<nat, Json>, events: seq<Event>, j: nat)
    requires j < |events|
    ensures exists before :: Results(cache, events)[j] == Step(before, events[j])
    decreases |events|
  {
    var r := Step(cache, events[0]);
    if j == 0 {
      assert Results(cache, events)[0] == Step(cache, events[0]);
    } else {
      ResultIsAStep(r.cache, events[1..], j - 1);
      assert events[1..][j - 1] == events[j] && Results(cache, events)[j] == Results(r.cache, events[1..])[j - 1];
    }
  }

  lemma NextCallAfterInvalidationAsks(events: seq<Event>, app: nat, i: nat, j: nat)
    requires i < j < |events| && Drops(events[i], app) && CallOf(events[j], app)
    requires forall k :: i < k < j ==> !CallOf(events[k], app)
    ensures Results(map[], events)[j].generated
  {
    AsksExactlyWhenItMust(events, app, j);
    if k :| 0 <= k < j && Supplies(events[k], app) && Undropped(events, app, k, j) {
      assert k < i || k == i || k > i;
      assert !Drops(events[i], app) || k >= i;
    }
  }
}
