/** How the server presents itself to the proxy: merging the raw configuration, resolving title,
    description and version, and copying them into `registration.metadata`. */
module Registration {
  import opened Wrappers
  import opened JsonValues

  type NonEmpty = s: string | s != "" witness "?"

  /** What is outside: `str` of a value that is no string, `int(port)` (None where it raises), the
      version of the installed package, and the long built-in description. None of the texts is empty. */
  datatype Env = Env(render: Json -> NonEmpty, toInt: Json -> Option<int>, packageVersion: NonEmpty,
    defaultDescription: NonEmpty)

  const DEFAULT_TITLE := "Code Analysis Server"

  function StrOf(env: Env, v: Json): string {
    if v.String? then v.text else env.render(v)
  }

  function FieldsOf(v: Json): seq<Field> {
    if v.Object? then v.fields else []
  }

  datatype Presentation = Presentation(title: string, description: string, version: string)

  /** `resolve_server_presentation` */
  function Resolve(env: Env, config: seq<Field>): Presentation {
    var pres := FieldsOf(Get(config, "server_presentation"));
    var reg := FieldsOf(Get(config, "registration"));
    var meta := FieldsOf(Get(reg, "metadata"));
    Presentation(
      StrOf(env, Or(Or(Or(Or(Or(Get(pres, "title"), Get(reg, "server_name")), Get(meta, "server_name")),
        Get(reg, "server_id")), Get(meta, "server_id")), String(DEFAULT_TITLE))),
      StrOf(env, Or(Or(Or(Get(pres, "description"), Get(meta, "description")), Get(reg, "description")),
        String(env.defaultDescription))),
      StrOf(env, Or(Or(Or(Get(pres, "version"), Get(meta, "version")), Get(reg, "version")),
        String(env.packageVersion))))
  }

  // ---------------------------------------------------------------- the reachable host

  predicate UnreachableBindHost(v: Json) {
    v.String? && v.text in ["0.0.0.0", "::", "[::]"]
  }

  /** What `_sync_registration_reachable_host` writes before it returns or raises: looking up a list or
      a dict in the set of hosts raises, as does a port that is no number. */
  datatype Reach = Reach(host: Option<string>, port: Option<int>, raised: bool)

  function Reachable(env: Env, config: seq<Field>): Reach {
    var server := Get(config, "server");
    if !server.Object? then Reach(None, None, false)
    else
      var bind, advertised, port :=
        Get(server.fields, "host"), Get(server.fields, "advertised_host"), Get(server.fields, "port");
      if !Hashable(bind) then Reach(None, None, true)
      else if !UnreachableBindHost(bind) || !Truthy(advertised) then Reach(None, None, false)
      else if !Hashable(advertised) then Reach(None, None, true)
      else if UnreachableBindHost(advertised) then Reach(None, None, false)
      else if port.Null? then Reach(Some(StrOf(env, advertised)), None, false)
      else Reach(Some(StrOf(env, advertised)), env.toInt(port), env.toInt(port).None?)
  }

  // ---------------------------------------------------------------- the sync

  function SyncedMeta(reg: seq<Field>, p: Presentation): seq<Field> {
    var m := Put(Put(FieldsOf(Get(reg, "metadata")), "description", String(p.description)), "version",
      String(p.version));
    var withId := if Truthy(Get(reg, "server_id")) then SetDefault(m, "server_id", Get(reg, "server_id")) else m;
    SetDefault(withId, "server_name", String(p.title))
  }

  function WithReach(meta: seq<Field>, r: Reach): seq<Field> {
    var hosted := if r.host.Some? then Put(meta, "host", String(r.host.value)) else meta;
    if r.port.Some? then Put(hosted, "port", Number(r.port.value as real)) else hosted
  }

  function SyncedReg(reg: seq<Field>, p: Presentation, r: Reach): seq<Field> {
    var m := Put(reg, "metadata", Object(WithReach(SyncedMeta(reg, p), r)));
    var named := if Truthy(Get(reg, "server_name")) then m else Put(m, "server_name", String(p.title));
    if r.raised then named
    else Put(Put(named, "description", String(p.description)), "version", String(p.version))
  }

  datatype Synced = Synced(config: seq<Field>, raised: bool)

  /** What `sync_registration_presentation` makes of a configuration; a raise leaves part of it done. */
  function Sync(env: Env, config: seq<Field>): Synced {
    var c := SetDefault(config, "registration", Object([]));
    if !Get(c, "registration").Object? then Synced(c, false)
    else
      var r := Reachable(env, c);
      Synced(Put(c, "registration", Object(SyncedReg(Get(c, "registration").fields, Resolve(env, config), r))),
        r.raised)
  }

  /** A configuration dictionary that is written in place. */
  class AppConfig {
    var fields: seq<Field>

    constructor (fields: seq<Field>)
      ensures this.fields == fields
    {
      this.fields := fields;
    }

    /** `sync_registration_presentation`; true is a raised error. */
    method SyncRegistrationPresentation(env: Env) returns (raised: bool)
      modifies this
      ensures Synced(fields, raised) == Sync(env, old(fields))
    {
      var p := Resolve(env, fields);
      TitleIsNotEmpty(env, fields);
      fields := SetDefault(fields, "registration", Object([]));
      if !Get(fields, "registration").Object? {
        return false;
      }
      var reg := Get(fields, "registration").fields;
      var meta := FieldsOf(Get(reg, "metadata"));
      meta := Put(meta, "description", String(p.description));
      meta := Put(meta, "version", String(p.version));
      if Truthy(Get(reg, "server_id")) {
        meta := SetDefault(meta, "server_id", Get(reg, "server_id"));
      }
      var unnamed := !Truthy(Get(reg, "server_name"));
      if p.title != "" {
        meta := SetDefault(meta, "server_name", String(p.title));
      }
      var reach := Reachable(env, fields);
      meta := WithReach(meta, reach);
      reg := Put(reg, "metadata", Object(meta));
      if p.title != "" && unnamed {
        reg := Put(reg, "server_name", String(p.title));
      }
      if reach.raised {
        fields := Put(fields, "registration", Object(reg));
        return true;
      }
      reg := Put(reg, "description", String(p.description));
      reg := Put(reg, "version", String(p.version));
      fields := Put(fields, "registration", Object(reg));
      raised := false;
    }

    /** `_merge_config_sections` */
    method MergeConfigSections(full: seq<Field>)
      modifies this
      ensures fields == Merged(old(fields), full)
    {
      var i := 0;
      while i < |full|
        invariant 0 <= i <= |full|
        invariant AddMissing(fields, full[i..]) == AddMissing(old(fields), full)
      {
        assert full[i..][1..] == full[i + 1..];
        if full[i].key != "registration" && !Has(fields, full[i].key) {
          fields := Put(fields, full[i].key, full[i].value);
        }
        i := i + 1;
      }
      var src := Get(full, "registration");
      if !src.Object? {
        return;
      }
      if !Get(fields, "registration").Object? {
        fields := Put(fields, "registration", src);
        return;
      }
      var dst := Get(fields, "registration").fields;
      ghost var dst0 := dst;
      i := 0;
      while i < |src.fields|
        invariant 0 <= i <= |src.fields|
        invariant PutAll(dst, src.fields[i..]) == PutAll(dst0, src.fields)
      {
        assert src.fields[i..][1..] == src.fields[i + 1..];
        dst := Put(dst, src.fields[i].key, src.fields[i].value);
        i := i + 1;
      }
      fields := Put(fields, "registration", Object(dst));
    }
  }

  function AddMissing(app: seq<Field>, full: seq<Field>): seq<Field>
    decreases |full|
  {
    if full == [] then app
    else AddMissing(if full[0].key == "registration" || Has(app, full[0].key) then app
      else Put(app, full[0].key, full[0].value), full[1..])
  }

  function PutAll(dst: seq<Field>, src: seq<Field>): seq<Field>
    decreases |src|
  {
    if src == [] then dst else PutAll(Put(dst, src[0].key, src[0].value), src[1..])
  }

  function Merged(app: seq<Field>, full: seq<Field>): seq<Field> {
    var c, src := AddMissing(app, full), Get(full, "registration");
    if !src.Object? then c
    else if !Get(c, "registration").Object? then Put(c, "registration", src)
    else Put(c, "registration", Object(PutAll(Get(c, "registration").fields, src.fields)))
  }

  // ---------------------------------------------------------------- facts about one resolution

  lemma TitleIsNotEmpty(env: Env, config: seq<Field>)
    ensures var p := Resolve(env, config); p.title != "" && p.description != "" && p.version != ""
  {
    assert Truthy(String(DEFAULT_TITLE)) && Truthy(String(env.defaultDescription))
      && Truthy(String(env.packageVersion));
  }

  lemma Puts(fields: seq<Field>, key: string, value: Json)
    ensures forall k :: Get(Put(fields, key, value), k) == if k == key then value else Get(fields, k)
    ensures forall k :: Has(Put(fields, key, value), k) <==> k == key || Has(fields, k)
  {
    forall k
      ensures Get(Put(fields, key, value), k) == if k == key then value else Get(fields, k)
      ensures Has(Put(fields, key, value), k) <==> k == key || Has(fields, k)
    {
      GetPut(fields, key, value, k);
    }
  }

  lemma PutPresent(fields: seq<Field>, key: string, value: Json)
    requires Has(fields, key) && Get(fields, key) == value
    ensures Put(fields, key, value) == fields
  {
    PutSame(fields, key);
  }
}
