/**
 * Database schema routing: which Postgres schema a role or the legacy
 * global client uses, how the schema is put into and taken out of the
 * connection string, and the per-schema client cache.  The process
 * environment is a record of optional variables; a Prisma client is the
 * connection string and log levels it was created with, and a number that
 * tells clients apart.
 */
module Prisma {
  import opened Common

  datatype Role = DevRole | UserRole

  const Production: string := "production"
  const PublicSchema: string := "public"
  const DevSchema: string := "dev"

  /** `process.env.APP_ENV || 'dev'`. */
  function AppEnvOf(appEnv: Option<string>): string
  {
    if Present(appEnv) then appEnv.value else "dev"
  }

  /** `getSchemaForRole`: production always uses `public`; elsewhere only the dev role gets `dev`. */
  function GetSchemaForRole(role: Role, appEnv: Option<string>): (schema: string)
    ensures AppEnvOf(appEnv) == Production ==> schema == PublicSchema
    ensures AppEnvOf(appEnv) != Production ==> (schema == DevSchema <==> role == DevRole)
    ensures schema in {PublicSchema, DevSchema}
  {
    if AppEnvOf(appEnv) == Production then PublicSchema
    else if role == DevRole then DevSchema
    else PublicSchema
  }

  /** `addSchemaToUrl`: `&` joins the parameter when the url already has a query, `?` otherwise. */
  function AddSchemaToUrl(url: string, schema: string): (r: string)
    ensures |r| == |url| + 8 + |schema| && r[..|url|] == url && r[|url| + 1..] == "schema=" + schema
    ensures r[|url|] == '?' <==> !ContainsChar(url, '?')
    ensures IsSeparator(r[|url|]) && ContainsChar(r, '?')
  {
    var separator := if ContainsChar(url, '?') then '&' else '?';
    url + [separator] + "schema=" + schema
  }

  predicate IsSeparator(c: char) { c == '?' || c == '&' }

  /** Where `/([?&])schema=[^&]+(&|$)/` can match: a separator, `schema=` and at least one value character. */
  predicate SchemaParamAt(s: string, i: nat)
  {
    i + 8 < |s| && IsSeparator(s[i]) && s[i + 1..i + 8] == "schema=" && s[i + 8] != '&'
  }

  /** The leftmost match of the schema parameter at or after `i`. */
  function FirstSchemaParam(s: string, i: nat): (m: Option<nat>)
    requires i <= |s|
    ensures m.Some? ==> i <= m.value && SchemaParamAt(s, m.value)
    ensures forall k :: i <= k && (m.None? || k < m.value) ==> !SchemaParamAt(s, k)
    decreases |s| - i
  {
    if i == |s| then None
    else if SchemaParamAt(s, i) then Some(i)
    else FirstSchemaParam(s, i + 1)
  }

  /** The end of the run of non-`&` characters that starts at `i` (`[^&]+`, taken greedily). */
  function ValueEnd(s: string, i: nat): (j: nat)
    requires i <= |s|
    ensures i <= j <= |s|
    ensures forall k :: i <= k < j ==> s[k] != '&'
    ensures j < |s| ==> s[j] == '&'
    decreases |s| - i
  {
    if i < |s| && s[i] != '&' then ValueEnd(s, i + 1) else i
  }

  /**
   * The first replace: the first schema parameter, with the `&` after it if
   * there is one, is replaced by the separator in front of it.
   */
  function RemoveSchemaParam(s: string): string
  {
    match FirstSchemaParam(s, 0)
    case None => s
    case Some(i) =>
      var j := ValueEnd(s, i + 8);
      s[..i + 1] + (if j < |s| then s[j + 1..] else "")
  }

  /** The second replace: one trailing `?` or `&` is dropped. */
  function DropTrailingSeparator(s: string): (r: string)
    ensures |r| <= |s| <= |r| + 1 && r == s[..|r|]
    ensures |r| < |s| <==> |s| > 0 && IsSeparator(s[|s| - 1])
  {
    if |s| > 0 && IsSeparator(s[|s| - 1]) then s[..|s| - 1] else s
  }

  const MissingUrlMessage: string := "DATABASE_URL is not defined"

  /** `getBaseUrl`: a missing or empty `DATABASE_URL` throws; otherwise the url without its schema parameter. */
  function GetBaseUrl(databaseUrl: Option<string>): (r: Result<string, string>)
    ensures !Present(databaseUrl) <==> r == Failure(MissingUrlMessage)
    ensures Present(databaseUrl) ==> r == Success(DropTrailingSeparator(RemoveSchemaParam(databaseUrl.value)))
  {
    if !Present(databaseUrl) then Failure(MissingUrlMessage)
    else Success(DropTrailingSeparator(RemoveSchemaParam(databaseUrl.value)))
  }

  /** A url with no schema parameter is untouched by the first replace. */
  lemma NoParamUnchanged(s: string)
    requires forall k :: 0 <= k <= |s| ==> !SchemaParamAt(s, k)
    ensures RemoveSchemaParam(s) == s
  {
  }

  /**
   * The first replace keeps everything up to and including the separator
   * of the leftmost parameter, removes `schema=` and its value, and keeps
   * what follows the `&` that ended it.
   */
  lemma RemovesLeftmostParam(s: string, i: nat)
    requires SchemaParamAt(s, i)
    requires forall k :: 0 <= k < i ==> !SchemaParamAt(s, k)
    ensures var j := ValueEnd(s, i + 8);
            var value := s[i + 8..j];
            |value| > 0 && !ContainsChar(value, '&') &&
            s == s[..i + 1] + "schema=" + value + s[j..] &&
            RemoveSchemaParam(s) == s[..i + 1] + (if j < |s| then s[j + 1..] else "")
  {
    assert FirstSchemaParam(s, 0) == Some(i);
    var j := ValueEnd(s, i + 8);
    assert s == s[..i + 1] + s[i + 1..i + 8] + s[i + 8..j] + s[j..];
  }

  /** Neither `?schema=` nor `&schema=` appears anywhere in the url. */
  predicate HasNoSchemaParam(base: string)
  {
    forall k :: 0 <= k && k + 8 <= |base| ==> !(IsSeparator(base[k]) && base[k + 1..k + 8] == "schema=")
  }

  /**
   * Taking the schema out of a url it was just added to gives the url
   * back, when the url has no schema parameter of its own and does not end
   * in a separator and the schema is a non-empty name without `&`.
   */
  lemma {:induction false} BaseUrlOfSchemaUrl(base: string, schema: string)
    requires HasNoSchemaParam(base)
    requires !(|base| > 0 && IsSeparator(base[|base| - 1]))
    requires |schema| > 0 && !ContainsChar(schema, '&')
    ensures GetBaseUrl(Some(AddSchemaToUrl(base, schema))) == Success(base)
  {
    var s := AddSchemaToUrl(base, schema);
    var n := |base|;
    AppendedParamAt(base, schema);
    NoParamBeforeAppended(base, schema);
    RemovesLeftmostParam(s, n);
    assert s[..n + 1] == base + [s[n]];
    assert RemoveSchemaParam(s) == base + [s[n]];
    assert (base + [s[n]])[..n] == base;
  }

  /** The appended parameter is a schema parameter whose value runs to the end of the url. */
  lemma AppendedParamAt(base: string, schema: string)
    requires |schema| > 0 && !ContainsChar(schema, '&')
    ensures var s := AddSchemaToUrl(base, schema);
            SchemaParamAt(s, |base|) && ValueEnd(s, |base| + 8) == |s|
  {
    var s := AddSchemaToUrl(base, schema);
    var n := |base|;
    assert s[n + 1..n + 8] == "schema=";
    assert s[n + 8..] == schema;
    ValueEndOfTail(s, n + 8);
  }

  /** No schema parameter starts inside the original url. */
  lemma NoParamBeforeAppended(base: string, schema: string)
    requires HasNoSchemaParam(base)
    ensures var s := AddSchemaToUrl(base, schema);
            forall k :: 0 <= k < |base| ==> !SchemaParamAt(s, k)
  {
    var s := AddSchemaToUrl(base, schema);
    var n := |base|;
    forall k | 0 <= k < n
      ensures !SchemaParamAt(s, k)
    {
      if k + 8 <= n {
        assert s[k] == base[k] && s[k + 1..k + 8] == base[k + 1..k + 8];
      } else {
        assert s[k + 1..k + 8][n - k - 1] == s[n];
      }
    }
  }

  lemma {:induction false} ValueEndOfTail(s: string, i: nat)
    requires i <= |s| && !ContainsChar(s[i..], '&')
    ensures ValueEnd(s, i) == |s|
    decreases |s| - i
  {
    if i < |s| {
      assert s[i] == s[i..][0];
      assert s[i + 1..] == s[i..][1..];
      ValueEndOfTail(s, i + 1);
    }
  }

  const ProductionSchemaMessage: string := "Production must use \"public\" schema only."

  /**
   * `getLegacySchema`: production accepts no schema but `public` (a
   * missing or empty `APP_SCHEMA` is fine); elsewhere `APP_SCHEMA` or
   * `dev`.
   */
  function GetLegacySchema(appEnv: Option<string>, appSchema: Option<string>): (r: Result<string, string>)
    ensures AppEnvOf(appEnv) == Production ==>
              (r.Failure? <==> Present(appSchema) && appSchema.value != PublicSchema) &&
              (r.Success? ==> r.value == PublicSchema)
    ensures AppEnvOf(appEnv) != Production ==>
              r == Success(if Present(appSchema) then appSchema.value else DevSchema)
  {
    if AppEnvOf(appEnv) == Production then
      if Present(appSchema) && appSchema.value != PublicSchema then
        Failure("FATAL: Production environment (APP_ENV=production) cannot use schema \"" + appSchema.value +
                "\". " + ProductionSchemaMessage)
      else Success(PublicSchema)
    else Success(if Present(appSchema) then appSchema.value else DevSchema)
  }

  /** The variables read here. */
  datatype Env = Env(databaseUrl: Option<string>, appEnv: Option<string>, appSchema: Option<string>,
                     nodeEnv: Option<string>)

  /**
   * Loading the module: the legacy schema is chosen and `DATABASE_URL` is
   * overwritten with the base url carrying that schema; a throw on the way
   * fails the load.
   */
  function LoadLegacy(env: Env): (r: Result<Env, string>)
    ensures r.Success? ==> r.value == env.(databaseUrl := r.value.databaseUrl)
  {
    match GetLegacySchema(env.appEnv, env.appSchema)
    case Failure(e) => Failure(e)
    case Success(schema) =>
      match GetBaseUrl(env.databaseUrl)
      case Failure(e) => Failure(e)
      case Success(base) => Success(env.(databaseUrl := Some(AddSchemaToUrl(base, schema))))
  }

  /** In production the loaded module's url always names the public schema. */
  lemma ProductionLoadsPublic(env: Env)
    requires AppEnvOf(env.appEnv) == Production
    requires LoadLegacy(env).Success?
    ensures exists base :: LoadLegacy(env).value.databaseUrl == Some(AddSchemaToUrl(base, PublicSchema))
  {
    var base := GetBaseUrl(env.databaseUrl).value;
    assert LoadLegacy(env).value.databaseUrl == Some(AddSchemaToUrl(base, PublicSchema));
  }

  /**
   * After loading, reading the base url again gives the base url read
   * during the load, so clients for other schemas do not inherit the legacy
   * schema (given a base url and schema as in `BaseUrlOfSchemaUrl`).
   */
  lemma LoadedUrlKeepsBase(env: Env)
    requires LoadLegacy(env).Success?
    requires var base := GetBaseUrl(env.databaseUrl).value;
             HasNoSchemaParam(base) && !(|base| > 0 && IsSeparator(base[|base| - 1]))
    requires var schema := GetLegacySchema(env.appEnv, env.appSchema).value;
             |schema| > 0 && !ContainsChar(schema, '&')
    ensures GetBaseUrl(LoadLegacy(env).value.databaseUrl) == GetBaseUrl(env.databaseUrl)
  {
    BaseUrlOfSchemaUrl(GetBaseUrl(env.databaseUrl).value, GetLegacySchema(env.appEnv, env.appSchema).value);
  }

  /** The client options that matter: the connection string and the log levels. */
  datatype PrismaClient = PrismaClient(serial: nat, url: string, log: seq<string>)

  function ClientLog(nodeEnv: Option<string>): seq<string>
  {
    if nodeEnv == Some("development") then ["error", "warn"] else ["error"]
  }

  /** `clientCache` with the environment it reads and the schemas a client was created for, in order. */
  class ClientCache {
    var env: Env
    var cache: map<string, PrismaClient>
    var created: seq<string>

    /** Each cached client was created once, for its own schema, with that schema in its url. */
    ghost predicate Valid()
      reads this
    {
      NoDuplicates(created) &&
      (forall s :: s in cache <==> s in created) &&
      (forall k :: 0 <= k < |created| ==> created[k] in cache && cache[created[k]].serial == k)
    }

    constructor (env: Env)
      ensures Valid() && this.env == env && cache == map[] && created == []
    {
      this.env := env;
      cache := map[];
      created := [];
    }

    /**
     * `getPrismaForSchema`: a cached client is returned as it is; otherwise
     * a client for the base url with the schema added is created and cached,
     * unless reading the base url throws.
     */
    method GetPrismaForSchema(schema: string) returns (r: Result<PrismaClient, string>)
      requires Valid()
      modifies this
      ensures Valid() && env == old(env)
      ensures schema in old(cache) ==> r == Success(old(cache)[schema]) && cache == old(cache) && created == old(created)
      ensures schema !in old(cache) ==>
                match GetBaseUrl(env.databaseUrl)
                case Failure(e) => r == Failure(e) && cache == old(cache) && created == old(created)
                case Success(base) =>
                  r == Success(PrismaClient(|old(created)|, AddSchemaToUrl(base, schema), ClientLog(env.nodeEnv))) &&
                  cache == old(cache)[schema := r.value] && created == old(created) + [schema]
    {
      if schema in cache {
        return Success(cache[schema]);
      }
      var baseUrl := GetBaseUrl(env.databaseUrl);
      if baseUrl.Failure? {
        return Failure(baseUrl.error);
      }
      var schemaUrl := AddSchemaToUrl(baseUrl.value, schema);
      var client := PrismaClient(|created|, schemaUrl, ClientLog(env.nodeEnv));
      cache := cache[schema := client];
      created := created + [schema];
      r := Success(client);
    }

    /** `getPrismaForRole`: the client of the role's schema. */
    method GetPrismaForRole(role: Role) returns (r: Result<PrismaClient, string>)
      requires Valid()
      modifies this
      ensures Valid() && env == old(env)
      ensures r.Success? ==> var schema := GetSchemaForRole(role, env.appEnv);
                             schema in cache && r.value == cache[schema] && schema in created
    {
      var schema := GetSchemaForRole(role, env.appEnv);
      r := GetPrismaForSchema(schema);
    }
  }
}
