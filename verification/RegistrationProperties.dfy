/** The registration sync writes what it would resolve again, so repeating it changes nothing. */
module RegistrationProperties {
  import opened Wrappers
  import opened JsonValues
  import opened Registration

  /** Everything the proxy reads back from a synced registration. */
  lemma SyncedMetaHolds(reg: seq<Field>, p: Presentation, r: Reach)
    ensures var m, m0 := WithReach(SyncedMeta(reg, p), r), FieldsOf(Get(reg, "metadata"));
      && Has(m, "description") && Get(m, "description") == String(p.description)
      && Has(m, "version") && Get(m, "version") == String(p.version)
      && Has(m, "server_name")
      && Get(m, "server_name") == (if Has(m0, "server_name") then Get(m0, "server_name") else String(p.title))
      && (Truthy(Get(reg, "server_id")) ==> Has(m, "server_id"))
      && Get(m, "server_id")
           == (if Truthy(Get(reg, "server_id")) && !Has(m0, "server_id") then Get(reg, "server_id")
               else Get(m0, "server_id"))
      && (r.host.Some? ==> Has(m, "host") && Get(m, "host") == String(r.host.value))
      && (r.host.None? ==> Get(m, "host") == Get(m0, "host"))
      && (r.port.Some? ==> Has(m, "port") && Get(m, "port") == Number(r.port.value as real))
      && (r.port.None? ==> Get(m, "port") == Get(m0, "port"))
      && forall k :: k !in ["description", "version", "server_id", "server_name", "host", "port"] ==>
           Get(m, k) == Get(m0, k) && (Has(m, k) <==> Has(m0, k))
  {
    hide Get, Put, Has;
    var m0 := FieldsOf(Get(reg, "metadata"));
    var m1 := Put(m0, "description", String(p.description));
    Puts(m0, "description", String(p.description));
    var m2 := Put(m1, "version", String(p.version));
    Puts(m1, "version", String(p.version));
    var m3 := if Truthy(Get(reg, "server_id")) then SetDefault(m2, "server_id", Get(reg, "server_id")) else m2;
    Puts(m2, "server_id", Get(reg, "server_id"));
    var m4 := SetDefault(m3, "server_name", String(p.title));
    Puts(m3, "server_name", String(p.title));
    var m5 := if r.host.Some? then Put(m4, "host", String(r.host.value)) else m4;
    if r.host.Some? {
      Puts(m4, "host", String(r.host.value));
    }
    if r.port.Some? {
      Puts(m5, "port", Number(r.port.value as real));
    }
  }

  /** The registration section after the sync, key by key. */
  lemma SyncedRegHolds(reg: seq<Field>, p: Presentation, r: Reach)
    ensures var out := SyncedReg(reg, p, r);
      && Has(out, "metadata") && Get(out, "metadata") == Object(WithReach(SyncedMeta(reg, p), r))
      && Get(out, "server_name")
           == (if Truthy(Get(reg, "server_name")) then Get(reg, "server_name") else String(p.title))
      && (!r.raised ==> Has(out, "description") && Get(out, "description") == String(p.description)
                        && Has(out, "version") && Get(out, "version") == String(p.version))
      && (r.raised ==> Get(out, "description") == Get(reg, "description") && Get(out, "version") == Get(reg, "version"))
      && forall k :: k !in ["metadata", "server_name", "description", "version"] ==>
           Get(out, k) == Get(reg, k) && (Has(out, k) <==> Has(reg, k))
  {
    hide Get, Put, Has, WithReach, SyncedMeta;
    var m := Object(WithReach(SyncedMeta(reg, p), r));
    var r1 := Put(reg, "metadata", m);
    Puts(reg, "metadata", m);
    var r2 := if Truthy(Get(reg, "server_name")) then r1 else Put(r1, "server_name", String(p.title));
    Puts(r1, "server_name", String(p.title));
    Puts(r2, "description", String(p.description));
    Puts(Put(r2, "description", String(p.description)), "version", String(p.version));
  }

  /** What the sync leaves alone: every other section, and every other key of the registration. */
  lemma SyncTouchesOnlyTheRegistration(env: Env, config: seq<Field>, k: string)
    requires k != "registration"
    ensures Get(Sync(env, config).config, k) == Get(config, k)
  {
    Puts(config, "registration", Object([]));
    var c := SetDefault(config, "registration", Object([]));
    if Get(c, "registration").Object? {
      Puts(c, "registration",
        Object(SyncedReg(Get(c, "registration").fields, Resolve(env, config), Reachable(env, c))));
    }
  }

  // ---------------------------------------------------------------- priorities

  /** The candidates for a title, in order of priority. */
  function TitleCandidates(config: seq<Field>): seq<Json> {
    var pres, reg := FieldsOf(Get(config, "server_presentation")), FieldsOf(Get(config, "registration"));
    var meta := FieldsOf(Get(reg, "metadata"));
    [Get(pres, "title"), Get(reg, "server_name"), Get(meta, "server_name"), Get(reg, "server_id"),
      Get(meta, "server_id"), String("Code Analysis Server")]
  }

  /** The candidates for a description or a version, the last one being the built-in fallback. */
  function Candidates(config: seq<Field>, key: string, fallback: string): seq<Json> {
    var pres, reg := FieldsOf(Get(config, "server_presentation")), FieldsOf(Get(config, "registration"));
    [Get(pres, key), Get(FieldsOf(Get(reg, "metadata")), key), Get(reg, key), String(fallback)]
  }

  predicate IsFirst(candidates: seq<Json>, i: nat) {
    i < |candidates| && Truthy(candidates[i]) && forall j :: 0 <= j < i ==> !Truthy(candidates[j])
  }

  /** Title, description and version are each the first candidate that is given: the presentation
      section first, and for description and version the metadata before the registration itself. */
  lemma ResolveTakesTheFirst(env: Env, config: seq<Field>, t: nat, d: nat, v: nat)
    requires IsFirst(TitleCandidates(config), t)
    requires IsFirst(Candidates(config, "description", env.defaultDescription), d)
    requires IsFirst(Candidates(config, "version", env.packageVersion), v)
    ensures Resolve(env, config) == Presentation(
      StrOf(env, TitleCandidates(config)[t]),
      StrOf(env, Candidates(config, "description", env.defaultDescription)[d]),
      StrOf(env, Candidates(config, "version", env.packageVersion)[v]))
  {
    hide Get, Resolve, StrOf, Truthy, Or;
    ResolveSections(env, config);
    var tc := TitleCandidates(config);
    FirstOfSix(tc[0], tc[1], tc[2], tc[3], tc[4], tc[5], t);
    assert tc == [tc[0], tc[1], tc[2], tc[3], tc[4], tc[5]];
    var dc, vc :=
      Candidates(config, "description", env.defaultDescription), Candidates(config, "version", env.packageVersion);
    FirstOfFour(dc[0], dc[1], dc[2], dc[3], d);
    FirstOfFour(vc[0], vc[1], vc[2], vc[3], v);
    assert dc == [dc[0], dc[1], dc[2], dc[3]] && vc == [vc[0], vc[1], vc[2], vc[3]];
  }

  lemma FirstOfFour(a: Json, b: Json, c: Json, d: Json, i: nat)
    requires IsFirst([a, b, c, d], i)
    ensures Or(Or(Or(a, b), c), d) == [a, b, c, d][i]
  {
    hide Truthy;
    var all := [a, b, c, d];
    assert (i > 0 ==> !Truthy(all[0])) && (i > 1 ==> !Truthy(all[1])) && (i > 2 ==> !Truthy(all[2]));
  }

  lemma FirstOfSix(a: Json, b: Json, c: Json, d: Json, e: Json, f: Json, i: nat)
    requires IsFirst([a, b, c, d, e, f], i)
    ensures Or(Or(Or(Or(Or(a, b), c), d), e), f) == [a, b, c, d, e, f][i]
  {
    hide Truthy;
    var all := [a, b, c, d, e, f];
    assert (i > 0 ==> !Truthy(all[0])) && (i > 1 ==> !Truthy(all[1])) && (i > 2 ==> !Truthy(all[2]));
    assert (i > 3 ==> !Truthy(all[3])) && (i > 4 ==> !Truthy(all[4]));
  }

  // ---------------------------------------------------------------- resolving again

  /** Title, description and version are not changed by the sync's own writes. */
  lemma SyncKeepsThePresentation(env: Env, config: seq<Field>)
    ensures Resolve(env, Sync(env, config).config) == Resolve(env, config)
  {
    hide Get, Put, Has, SyncedReg, Reachable, Resolve, SetDefault, Sync;
    var c, p := SetDefault(config, "registration", Object([])), Resolve(env, config);
    Defaulted(config);
    SyncUnfold(env, config);
    SyncTouchesOnlyTheRegistration(env, config, "server_presentation");
    var out := Sync(env, config).config;
    if Get(c, "registration").Object? {
      var reg, r := Get(c, "registration").fields, Reachable(env, c);
      GetPut(c, "registration", Object(SyncedReg(reg, p, r)), "registration");
      ResolveSynced(env, FieldsOf(Get(config, "server_presentation")), reg, p, r, config);
      ResolveSections(env, out);
    } else {
      ResolveSections(env, out);
      ResolveSections(env, config);
    }
  }

  lemma ResolveSections(env: Env, config: seq<Field>)
    ensures var pres, reg := FieldsOf(Get(config, "server_presentation")), FieldsOf(Get(config, "registration"));
      var meta := FieldsOf(Get(reg, "metadata"));
      Resolve(env, config) == Presentation(
        StrOf(env, Or(Or(Or(Or(Or(Get(pres, "title"), Get(reg, "server_name")), Get(meta, "server_name")),
          Get(reg, "server_id")), Get(meta, "server_id")), String(DEFAULT_TITLE))),
        StrOf(env, Or(Or(Or(Get(pres, "description"), Get(meta, "description")), Get(reg, "description")),
          String(env.defaultDescription))),
        StrOf(env, Or(Or(Or(Get(pres, "version"), Get(meta, "version")), Get(reg, "version")),
          String(env.packageVersion))))
  {
  }

  /** The same, on the sections. */
  lemma ResolveSynced(env: Env, pres: seq<Field>, reg: seq<Field>, p: Presentation, r: Reach, config: seq<Field>)
    requires pres == FieldsOf(Get(config, "server_presentation")) && reg == FieldsOf(Get(config, "registration"))
    requires p == Resolve(env, config)
    ensures var out := SyncedReg(reg, p, r);
      var meta := FieldsOf(Get(out, "metadata"));
      && p.title == StrOf(env, Or(Or(Or(Or(Or(Get(pres, "title"), Get(out, "server_name")), Get(meta, "server_name")),
           Get(out, "server_id")), Get(meta, "server_id")), String(DEFAULT_TITLE)))
      && p.description
           == StrOf(env,
             Or(Or(Or(Get(pres, "description"), Get(meta, "description")), Get(out, "description")),
               String(env.defaultDescription)))
      && p.version
           == StrOf(env,
             Or(Or(Or(Get(pres, "version"), Get(meta, "version")), Get(out, "version")), String(env.packageVersion)))
  {
    SyncedRegHolds(reg, p, r);
    SyncedMetaHolds(reg, p, r);
    TitleIsNotEmpty(env, config);
    hide Get, Put, Has, SyncedReg, SyncedMeta, WithReach;
    var meta := FieldsOf(Get(reg, "metadata"));
    assert Truthy(String(DEFAULT_TITLE));
  }

  // ---------------------------------------------------------------- the fixpoint

  lemma ReachAgain(m: seq<Field>, r: Reach)
    requires r.host.Some? ==> Has(m, "host") && Get(m, "host") == String(r.host.value)
    requires r.port.Some? ==> Has(m, "port") && Get(m, "port") == Number(r.port.value as real)
    ensures WithReach(m, r) == m
  {
    hide Get, Put, Has;
    if r.host.Some? {
      PutPresent(m, "host", String(r.host.value));
    }
    if r.port.Some? {
      PutPresent(m, "port", Number(r.port.value as real));
    }
  }

  lemma PresentAgain(reg: seq<Field>, m: seq<Field>, p: Presentation)
    requires FieldsOf(Get(reg, "metadata")) == m
    requires Has(m, "description") && Get(m, "description") == String(p.description)
    requires Has(m, "version") && Get(m, "version") == String(p.version)
    requires Has(m, "server_name") && (Truthy(Get(reg, "server_id")) ==> Has(m, "server_id"))
    ensures SyncedMeta(reg, p) == m
  {
    hide Get, Put, Has;
    PutPresent(m, "description", String(p.description));
    PutPresent(m, "version", String(p.version));
  }

  lemma MetaAgain(reg: seq<Field>, p: Presentation, r: Reach)
    ensures var out := SyncedReg(reg, p, r); WithReach(SyncedMeta(out, p), r) == WithReach(SyncedMeta(reg, p), r)
  {
    SyncedRegHolds(reg, p, r);
    SyncedMetaHolds(reg, p, r);
    hide Get, Put, Has, SyncedReg, SyncedMeta, WithReach;
    var out, m := SyncedReg(reg, p, r), WithReach(SyncedMeta(reg, p), r);
    PresentAgain(out, m, p);
    ReachAgain(m, r);
  }

  lemma RegAgain(reg: seq<Field>, p: Presentation, r: Reach)
    requires p.title != ""
    ensures var out := SyncedReg(reg, p, r); SyncedReg(out, p, r) == out
  {
    MetaAgain(reg, p, r);
    SyncedRegHolds(reg, p, r);
    var out := SyncedReg(reg, p, r);
    var m := Object(WithReach(SyncedMeta(reg, p), r));
    PutPresent(out, "metadata", m);
    if !r.raised {
      PutPresent(out, "description", String(p.description));
      PutPresent(out, "version", String(p.version));
    }
    assert Truthy(Get(out, "server_name"));
    hide Get, Put, Has, SyncedMeta, WithReach;
    SyncedRegUnfold(out, p, r);
  }

  lemma SyncedRegUnfold(reg: seq<Field>, p: Presentation, r: Reach)
    requires Truthy(Get(reg, "server_name"))
    ensures var m := Put(reg, "metadata", Object(WithReach(SyncedMeta(reg, p), r)));
      SyncedReg(reg, p, r) == if r.raised then m
        else Put(Put(m, "description", String(p.description)), "version", String(p.version))
  {
  }

  /** Syncing a second time changes nothing, not even the order of the keys, and raises exactly if the
      first time did: whatever the configuration, and also where a raise left the first half done. */
  lemma SyncIsAFixpoint(env: Env, config: seq<Field>)
    ensures Sync(env, Sync(env, config).config) == Sync(env, config)
  {
    hide Get, Put, Has, SyncedReg, Reachable, Resolve, SetDefault, Sync;
    var c, p := SetDefault(config, "registration", Object([])), Resolve(env, config);
    Defaulted(config);
    SyncUnfold(env, config);
    if Get(c, "registration").Object? {
      var reg, r := Get(c, "registration").fields, Reachable(env, c);
      var out := SyncedReg(reg, p, r);
      var c1 := Put(c, "registration", Object(out));
      GetPut(c, "registration", Object(out), "registration");
      GetPut(c, "registration", Object(out), "server");
      ReachableDependsOnServer(env, c, c1);
      SyncKeepsThePresentation(env, config);
      TitleIsNotEmpty(env, config);
      RegAgain(reg, p, r);
      PutPresent(c1, "registration", Object(out));
      SyncOfSynced(env, c1);
    } else {
      SyncUnfold(env, c);
      DefaultPresent(c);
    }
  }

  lemma DefaultPresent(c: seq<Field>)
    requires Has(c, "registration")
    ensures SetDefault(c, "registration", Object([])) == c
  {
  }

  lemma ReachableDependsOnServer(env: Env, c: seq<Field>, d: seq<Field>)
    requires Get(c, "server") == Get(d, "server")
    ensures Reachable(env, c) == Reachable(env, d)
  {
  }

  lemma SyncUnfold(env: Env, config: seq<Field>)
    ensures var c := SetDefault(config, "registration", Object([]));
      Sync(env, config) ==
      if Get(c, "registration").Object? then
        var r := Reachable(env, c);
        Synced(Put(c, "registration", Object(SyncedReg(Get(c, "registration").fields, Resolve(env, config), r))),
          r.raised)
      else Synced(c, false)
  {
  }

  lemma SyncOfSynced(env: Env, c: seq<Field>)
    requires Has(c, "registration") && Get(c, "registration").Object?
    ensures var r := Reachable(env, c);
      Sync(env, c)
        == Synced(Put(c, "registration", Object(SyncedReg(Get(c, "registration").fields, Resolve(env, c), r))),
          r.raised)
  {
  }

  /** What a successful sync publishes: the registration and its metadata carry exactly the resolved
      description and version, and a listener bound to all interfaces is advertised under its
      reachable host. */
  lemma SyncPublishesThePresentation(env: Env, config: seq<Field>)
    requires !Sync(env, config).raised && (Has(config, "registration") ==> Get(config, "registration").Object?)
    ensures var out, p := Sync(env, config).config, Resolve(env, config);
      var reg := FieldsOf(Get(out, "registration"));
      var meta, server := FieldsOf(Get(reg, "metadata")), FieldsOf(Get(config, "server"));
      && Get(reg, "description") == Get(meta, "description") == String(p.description)
      && Get(reg, "version") == Get(meta, "version") == String(p.version)
      && Truthy(Get(reg, "server_name"))
      && (&& UnreachableBindHost(Get(server, "host"))
          && Truthy(Get(server, "advertised_host")) && !UnreachableBindHost(Get(server, "advertised_host")) ==>
            Get(meta, "host") == String(StrOf(env, Get(server, "advertised_host"))))
  {
    hide *;
    var c := SetDefault(config, "registration", Object([]));
    SyncForm(env, config);
    var reg, p, r := RegOf(config), Resolve(env, config), Reachable(env, c);
    SyncedRegHolds(reg, p, r);
    SyncedMetaHolds(reg, p, r);
    NamedAfter(env, config, reg, r);
    AdvertisedHost(env, c);
    Opened(SyncedReg(reg, p, r));
    Opened(WithReach(SyncedMeta(reg, p), r));
  }

  lemma Opened(fields: seq<Field>)
    ensures FieldsOf(Object(fields)) == fields
  {
  }

  function RegOf(config: seq<Field>): seq<Field> {
    FieldsOf(Get(config, "registration"))
  }

  lemma NamedAfter(env: Env, config: seq<Field>, reg: seq<Field>, r: Reach)
    ensures Truthy(Get(SyncedReg(reg, Resolve(env, config), r), "server_name"))
  {
    hide Get, Put, Has, SyncedReg, Resolve;
    SyncedRegHolds(reg, Resolve(env, config), r);
    TitleIsNotEmpty(env, config);
  }

  lemma Defaulted(config: seq<Field>)
    ensures var c := SetDefault(config, "registration", Object([]));
      && Has(c, "registration") && Get(c, "server") == Get(config, "server")
      && Get(c, "registration") == (if Has(config, "registration") then Get(config, "registration") else Object([]))
      && (!Has(config, "registration") ==> Get(config, "registration") == Null)
  {
    hide Get, Put, Has;
    GetPut(config, "registration", Object([]), "registration");
    GetPut(config, "registration", Object([]), "server");
    if !Has(config, "registration") {
      GetAbsent(config, "registration");
    }
  }

  /** The sync of a configuration whose registration, if any, is a dictionary. */
  lemma SyncForm(env: Env, config: seq<Field>)
    requires Has(config, "registration") ==> Get(config, "registration").Object?
    ensures var c, out := SetDefault(config, "registration", Object([])), Sync(env, config);
      && Get(out.config, "registration") == Object(SyncedReg(RegOf(config), Resolve(env, config), Reachable(env, c)))
      && out.raised == Reachable(env, c).raised
      && Get(c, "server") == Get(config, "server")
  {
    hide SyncedReg, Resolve, Reachable, Put, Get, Has, SetDefault;
    Defaulted(config);
    var c := SetDefault(config, "registration", Object([]));
    GetPut(c, "registration", Object(SyncedReg(RegOf(config), Resolve(env, config), Reachable(env, c))),
      "registration");
  }

  lemma AdvertisedHost(env: Env, c: seq<Field>)
    ensures var server := FieldsOf(Get(c, "server"));
      (&& UnreachableBindHost(Get(server, "host"))
       && Truthy(Get(server, "advertised_host")) && !UnreachableBindHost(Get(server, "advertised_host"))
       && !Reachable(env, c).raised) ==>
        Reachable(env, c).host == Some(StrOf(env, Get(server, "advertised_host")))
  {
  }

  // ---------------------------------------------------------------- host and port, spelled out

  /** One of the three addresses that stand for all interfaces. */
  predicate Wildcard(v: Json) {
    v == String("0.0.0.0") || v == String("::") || v == String("[::]")
  }

  predicate Structured(v: Json) {
    v.Array? || v.Object?
  }

  /** The listener is bound to all interfaces and its configuration names another host. */
  predicate Advertises(server: Json) {
    && server.Object? && Wildcard(Get(server.fields, "host"))
    && Truthy(Get(server.fields, "advertised_host")) && !Wildcard(Get(server.fields, "advertised_host"))
  }

  /** The sync breaks off: on a host, or an advertised host that is looked at, that is a list or a dict,
      or on a port that is no number. */
  predicate BreaksOff(env: Env, server: Json) {
    && server.Object?
    && (|| Structured(Get(server.fields, "host"))
        || (&& Advertises(server)
            && (|| Structured(Get(server.fields, "advertised_host"))
                || (Get(server.fields, "port") != Null && env.toInt(Get(server.fields, "port")) == None))))
  }

  lemma ReachableSpelledOut(env: Env, config: seq<Field>)
    ensures var server, r := Get(config, "server"), Reachable(env, config);
      && (r.raised <==> BreaksOff(env, server))
      && (if Advertises(server) && !Structured(Get(server.fields, "advertised_host")) then
            var port := Get(server.fields, "port");
            && r.host == Some(StrOf(env, Get(server.fields, "advertised_host")))
            && r.port == (if port == Null then None else env.toInt(port))
          else r.host == None && r.port == None)
  {
    hide Get;
  }

  /** Host and port are published for the proxy exactly where the listener is bound to all interfaces
      and names another host; bound anywhere else, or without such a host, the metadata keeps what it
      had. The port is published with the host, unless there is none or it is no number. */
  lemma HostAndPortPublished(env: Env, config: seq<Field>)
    requires Has(config, "registration") ==> Get(config, "registration").Object?
    ensures var server, out := Get(config, "server"), Sync(env, config);
      var before := FieldsOf(Get(FieldsOf(Get(config, "registration")), "metadata"));
      var after := FieldsOf(Get(FieldsOf(Get(out.config, "registration")), "metadata"));
      && (out.raised <==> BreaksOff(env, server))
      && (if Advertises(server) && !Structured(Get(server.fields, "advertised_host")) then
            var advertised, port := Get(server.fields, "advertised_host"), Get(server.fields, "port");
            && Get(after, "host") == String(if advertised.String? then advertised.text else env.render(advertised))
            && Get(after, "port")
                 == (if port == Null || env.toInt(port) == None then Get(before, "port")
                     else Number(env.toInt(port).value as real))
          else Get(after, "host") == Get(before, "host") && Get(after, "port") == Get(before, "port"))
  {
    hide *;
    var c := SetDefault(config, "registration", Object([]));
    SyncForm(env, config);
    var reg, p, r := RegOf(config), Resolve(env, config), Reachable(env, c);
    ReachableSpelledOut(env, c);
    SyncedRegHolds(reg, p, r);
    SyncedMetaHolds(reg, p, r);
    Opened(SyncedReg(reg, p, r));
    Opened(WithReach(SyncedMeta(reg, p), r));
    assert reg == FieldsOf(Get(config, "registration")) by {
      RegSpelled(config);
    }
    var server := Get(config, "server");
    if server.Object? {
      StrSpelled(env, Get(server.fields, "advertised_host"));
    }
    NotAdvertised(server);
  }

  lemma RegSpelled(config: seq<Field>)
    ensures RegOf(config) == FieldsOf(Get(config, "registration"))
  {
  }

  lemma StrSpelled(env: Env, v: Json)
    ensures StrOf(env, v) == if v.String? then v.text else env.render(v)
  {
  }

  lemma NotAdvertised(server: Json)
    ensures Advertises(server) ==> server.Object?
  {
  }

  // ---------------------------------------------------------------- the merge

  lemma {:induction false} AddMissingKeeps(app: seq<Field>, full: seq<Field>, k: string)
    ensures Has(app, k) || k == "registration" ==> Get(AddMissing(app, full), k) == Get(app, k)
    ensures !Has(app, k) && k != "registration" ==> Get(AddMissing(app, full), k) == Get(full, k)
    ensures Has(AddMissing(app, full), k) <==> Has(app, k) || (k != "registration" && Has(full, k))
    decreases |full|
  {
    if full == [] {
      if !Has(app, k) {
        GetAbsent(app, k);
      }
    } else {
      var f := full[0];
      var next := if f.key == "registration" || Has(app, f.key) then app else Put(app, f.key, f.value);
      GetPut(app, f.key, f.value, k);
      AddMissingKeeps(next, full[1..], k);
      HasUnfold(full, k);
    }
  }

  lemma {:induction false} PutAllOverrides(dst: seq<Field>, src: seq<Field>, k: string)
    requires DistinctKeys(src)
    ensures Get(PutAll(dst, src), k) == if Has(src, k) then Get(src, k) else Get(dst, k)
    ensures Has(PutAll(dst, src), k) <==> Has(src, k) || Has(dst, k)
    decreases |src|
  {
    if src != [] {
      var f, rest := src[0], src[1..];
      GetPut(dst, f.key, f.value, k);
      PutAllOverrides(Put(dst, f.key, f.value), rest, k);
      HasUnfold(src, k);
      if f.key == k {
        assert !Has(rest, k);
      }
    }
  }

  /** After the merge a section the loaded configuration already has is kept and a missing one comes
      from the file; within `registration` it is the other way round, the file's keys win. */
  lemma MergePriorities(app: seq<Field>, full: seq<Field>, k: string)
    requires DistinctKeys(FieldsOf(Get(full, "registration")))
    ensures k != "registration" ==> Get(Merged(app, full), k) == if Has(app, k) then Get(app, k) else Get(full, k)
    ensures Get(full, "registration").Object? ==>
              var src, dst := FieldsOf(Get(full, "registration")), FieldsOf(Get(app, "registration"));
              && Get(Merged(app, full), "registration").Object?
              && Get(FieldsOf(Get(Merged(app, full), "registration")), k) == if Has(src, k) then Get(src, k)
                   else Get(dst, k)
    ensures !Get(full, "registration").Object? ==> Get(Merged(app, full), "registration") == Get(app, "registration")
  {
    var c, src := AddMissing(app, full), Get(full, "registration");
    AddMissingKeeps(app, full, k);
    AddMissingKeeps(app, full, "registration");
    if src.Object? {
      if Get(c, "registration").Object? {
        var dst := Get(c, "registration").fields;
        PutAllOverrides(dst, src.fields, k);
        GetPut(c, "registration", Object(PutAll(dst, src.fields)), k);
        GetPut(c, "registration", Object(PutAll(dst, src.fields)), "registration");
      } else {
        GetPut(c, "registration", src, k);
        GetPut(c, "registration", src, "registration");
        if !Has(src.fields, k) {
          GetAbsent(src.fields, k);
        }
      }
    }
  }

  /** Start-up: merge, sync, and the second sync of `apply_global_config` on the same dictionary. The
      second one is a no-op; it never raises, as the first one did not. */
  method Start(env: Env, app: AppConfig, full: seq<Field>) returns (raised: bool)
    modifies app
    ensures Synced(app.fields, raised) == Sync(env, Merged(old(app.fields), full))
  {
    app.MergeConfigSections(full);
    SyncIsAFixpoint(env, app.fields);
    raised := app.SyncRegistrationPresentation(env);
    if !raised {
      var again := app.SyncRegistrationPresentation(env);
      assert !again;
    }
  }
}
