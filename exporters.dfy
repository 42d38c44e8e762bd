/** The HTTP entry points of the exporters: the bearer-token validators, the normalisation of
  * the requested scope, and the middleware that copies an `apitoken` query parameter into the
  * `Authorization` header. The three entry points (the combined exporter, the FlashArray one
  * and the FlashBlade one) differ only in the token pattern and in the scopes they accept. */
module Exporters {
  import opened Records
  import FaCollector
  import FbCollector

  // ---------------------------------------------------------------- token patterns

  /** One position of a fixed-width pattern: a lower-case hex digit or one literal character. */
  datatype Atom = Hex | Lit(c: char)

  predicate LowerHex(c: char)
  {
    '0' <= c <= '9' || 'a' <= c <= 'f'
  }

  predicate Fits(a: Atom, c: char)
  {
    match a
    case Hex => LowerHex(c)
    case Lit(l) => c == l
  }

  function Hexes(n: nat): (p: seq<Atom>)
    ensures |p| == n && forall i :: 0 <= i < n ==> p[i] == Hex
  {
    if n == 0 then [] else Hexes(n - 1) + [Hex]
  }

  /** `[0-9a-f]{8}-[0-9a-f]{4}-[0-9a-f]{4}-[0-9a-f]{4}-[0-9a-f]{12}` */
  const Uuid: seq<Atom> := Hexes(8) + [Lit('-')] + Hexes(4) + [Lit('-')] + Hexes(4) + [Lit('-')] + Hexes(4) + [Lit('-')] + Hexes(12)

  /** `T-` followed by a UUID. */
  const TaggedUuid: seq<Atom> := [Lit('T'), Lit('-')] + Uuid

  /** The pattern matches the whole of `s`, one atom per character, left to right. */
  function Whole(pat: seq<Atom>, s: string): bool
  {
    if |pat| == 0 then |s| == 0
    else |s| > 0 && Fits(pat[0], s[0]) && Whole(pat[1..], s[1..])
  }

  /** `^pat$` searched with Python's `re`: `$` matches at the end of the string and also just
    * before a newline that ends it. */
  function Anchored(pat: seq<Atom>, s: string): bool
  {
    Whole(pat, s) || (|s| > 0 && s[|s| - 1] == '\n' && Whole(pat, s[..|s| - 1]))
  }

  /** The declarative reading of `Whole`: same length, every character in its class. */
  lemma {:induction false} WholeIff(pat: seq<Atom>, s: string)
    ensures Whole(pat, s) <==> |s| == |pat| && forall i :: 0 <= i < |s| ==> Fits(pat[i], s[i])
    decreases |pat|
  {
    if |pat| > 0 && |s| > 0 {
      WholeIff(pat[1..], s[1..]);
      if |s| == |pat| && forall i :: 0 <= i < |s| ==> Fits(pat[i], s[i]) {
        forall i | 0 <= i < |s| - 1 ensures Fits(pat[1..][i], s[1..][i]) {
          assert Fits(pat[i + 1], s[i + 1]);
        }
      }
      if Whole(pat, s) {
        forall i | 0 <= i < |s| ensures Fits(pat[i], s[i]) {
          if i > 0 {
            assert Fits(pat[1..][i - 1], s[1..][i - 1]);
          }
        }
      }
    }
  }

  /** A UUID in the canonical lower-case form. */
  predicate IsUuid(s: string)
  {
    |s| == 36 && forall i :: 0 <= i < 36 ==> if i in {8, 13, 18, 23} then s[i] == '-' else LowerHex(s[i])
  }

  lemma UuidAtoms()
    ensures |Uuid| == 36
    ensures forall i :: 0 <= i < 36 ==> Uuid[i] == if i in {8, 13, 18, 23} then Lit('-') else Hex
  {
    var h8, h4, h12 := Hexes(8), Hexes(4), Hexes(12);
    assert Uuid == h8 + [Lit('-')] + h4 + [Lit('-')] + h4 + [Lit('-')] + h4 + [Lit('-')] + h12;
  }

  /** The UUID pattern matches exactly the canonical UUIDs. */
  lemma {:induction false} UuidPattern(s: string)
    ensures Whole(Uuid, s) <==> IsUuid(s)
  {
    WholeIff(Uuid, s);
    UuidAtoms();
    if IsUuid(s) {
      forall i | 0 <= i < 36 ensures Fits(Uuid[i], s[i]) {
      }
    }
    if Whole(Uuid, s) {
      forall i | 0 <= i < 36 ensures if i in {8, 13, 18, 23} then s[i] == '-' else LowerHex(s[i]) {
        assert Fits(Uuid[i], s[i]);
      }
    }
  }

  /** The tagged pattern matches exactly `T-` followed by a canonical UUID. */
  lemma {:induction false} TaggedPattern(s: string)
    ensures Whole(TaggedUuid, s) <==> |s| >= 2 && s[..2] == "T-" && IsUuid(s[2..])
  {
    assert TaggedUuid[1..] == [Lit('-')] + Uuid;
    assert TaggedUuid[1..][1..] == Uuid;
    if |s| >= 2 {
      UuidPattern(s[2..]);
      assert s[1..][1..] == s[2..];
      if s[..2] == "T-" {
        assert s[0] == 'T' && s[1] == '-';
      }
      if s[0] == 'T' && s[1] == '-' {
        assert s[..2] == "T-";
      }
    } else if |s| == 1 {
      assert s[1..] == [] && |TaggedUuid[1..]| > 0;
    }
  }

  /** The token without the one newline Python's `$` lets through. */
  function Trimmed(token: string): (t: string)
    ensures |t| <= |token| && t == token[..|t|]
  {
    if |token| > 0 && token[|token| - 1] == '\n' then token[..|token| - 1] else token
  }

  /** Both patterns end in a hex digit. */
  lemma LastIsHex(pat: seq<Atom>)
    requires pat == Uuid || pat == TaggedUuid
    ensures |pat| > 0 && pat[|pat| - 1] == Hex
  {
    UuidAtoms();
    if pat == TaggedUuid {
      assert TaggedUuid[|TaggedUuid| - 1] == Uuid[35];
    }
  }

  /** No UUID, tagged or not, ends in a newline. */
  lemma {:induction false} NoFinalNewline(pat: seq<Atom>, s: string)
    requires pat == Uuid || pat == TaggedUuid
    requires |s| > 0 && s[|s| - 1] == '\n'
    ensures !Whole(pat, s)
  {
    WholeIff(pat, s);
    LastIsHex(pat);
    if |s| == |pat| {
      assert !Fits(pat[|s| - 1], s[|s| - 1]);
    }
  }

  /** So matching the untrimmed token adds nothing. */
  lemma {:induction false} AnchoredTrimmed(pat: seq<Atom>, token: string)
    requires pat == Uuid || pat == TaggedUuid
    ensures Anchored(pat, token) <==> Whole(pat, Trimmed(token))
  {
    if |token| > 0 && token[|token| - 1] == '\n' {
      NoFinalNewline(pat, token);
    }
  }

  // ---------------------------------------------------------------- the three validators

  /** `verify_token` of the combined exporter: a UUID, tagged with `T-` or not. */
  function VerifyToken(token: string): Option<string>
  {
    if Anchored(Uuid, token) || Anchored(TaggedUuid, token) then Some(token) else None
  }

  /** `verify_token` of the FlashArray exporter: a plain UUID only. */
  function VerifyFaToken(token: string): Option<string>
  {
    if Anchored(Uuid, token) then Some(token) else None
  }

  /** `verify_token` of the FlashBlade exporter: a `T-`-tagged UUID only. */
  function VerifyFbToken(token: string): Option<string>
  {
    if Anchored(TaggedUuid, token) then Some(token) else None
  }

  /** What the combined validator accepts, stated without patterns: the token itself, when
    * it is a canonical UUID, possibly tagged `T-`, possibly followed by one newline. */
  lemma VerifyTokenAccepts(token: string)
    ensures VerifyToken(token).Some? ==> VerifyToken(token).value == token
    ensures VerifyToken(token).Some? <==>
      IsUuid(Trimmed(token)) || (|Trimmed(token)| >= 2 && Trimmed(token)[..2] == "T-" && IsUuid(Trimmed(token)[2..]))
  {
    AnchoredTrimmed(Uuid, token);
    AnchoredTrimmed(TaggedUuid, token);
    UuidPattern(Trimmed(token));
    TaggedPattern(Trimmed(token));
  }

  /** The FlashArray validator accepts exactly canonical UUIDs, possibly followed by one newline. */
  lemma VerifyFaTokenAccepts(token: string)
    ensures VerifyFaToken(token).Some? ==> VerifyFaToken(token).value == token
    ensures VerifyFaToken(token).Some? <==> IsUuid(Trimmed(token))
  {
    AnchoredTrimmed(Uuid, token);
    UuidPattern(Trimmed(token));
  }

  /** The FlashBlade validator accepts exactly `T-` and a canonical UUID, possibly followed by
    * one newline. */
  lemma VerifyFbTokenAccepts(token: string)
    ensures VerifyFbToken(token).Some? ==> VerifyFbToken(token).value == token
    ensures VerifyFbToken(token).Some? <==>
      |Trimmed(token)| >= 2 && Trimmed(token)[..2] == "T-" && IsUuid(Trimmed(token)[2..])
  {
    AnchoredTrimmed(TaggedUuid, token);
    TaggedPattern(Trimmed(token));
  }

  /** The combined validator accepts what either array's validator accepts, and nothing else. */
  lemma CombinedIsUnion(token: string)
    ensures VerifyToken(token).Some? <==> VerifyFaToken(token).Some? || VerifyFbToken(token).Some?
  {
  }

  /** A UUID starts with a hex digit, so never with the tag. */
  lemma UuidStartsHex(u: string)
    requires IsUuid(u)
    ensures LowerHex(u[0])
  {
  }

  /** A string with an upper-case hex letter is no UUID. */
  lemma NotUuid(u: string, i: nat)
    requires i < |u| && 'A' <= u[i] <= 'F'
    ensures !IsUuid(u)
  {
  }

  /** A FlashBlade token is refused by the FlashArray exporter and the other way round. */
  lemma {:induction false} ValidatorsDisjoint(token: string)
    ensures !(VerifyFaToken(token).Some? && VerifyFbToken(token).Some?)
  {
    VerifyFaTokenAccepts(token);
    VerifyFbTokenAccepts(token);
    var t := Trimmed(token);
    if IsUuid(t) {
      UuidStartsHex(t);
    }
    if |t| >= 2 && t[..2] == "T-" {
      assert t[0] == t[..2][0];
    }
  }

  /** Upper-case hex digits are refused by all three validators. */
  lemma {:induction false} UpperCaseRejected(token: string, i: nat)
    requires i < |token| && 'A' <= token[i] <= 'F'
    ensures VerifyToken(token).None? && VerifyFaToken(token).None? && VerifyFbToken(token).None?
  {
    VerifyTokenAccepts(token);
    VerifyFaTokenAccepts(token);
    VerifyFbTokenAccepts(token);
    var t := Trimmed(token);
    assert i < |t| && t[i] == token[i];
    NotUuid(t, i);
    if |t| >= 2 {
      if i >= 2 {
        assert t[2..][i - 2] == t[i];
        NotUuid(t[2..], i - 2);
      } else {
        assert t[..2][i] == t[i];
      }
    }
  }

  /** A canonical UUID followed by a newline passes, newline included. */
  lemma {:induction false} TrailingNewlineAccepted(u: string)
    requires IsUuid(u)
    ensures VerifyToken(u + "\n") == Some(u + "\n")
    ensures VerifyFaToken(u + "\n") == Some(u + "\n")
    ensures VerifyFbToken("T-" + u + "\n") == Some("T-" + u + "\n")
  {
    assert Trimmed(u + "\n") == u;
    VerifyTokenAccepts(u + "\n");
    VerifyFaTokenAccepts(u + "\n");
    var t := "T-" + u;
    assert Trimmed(t + "\n") == t && t[..2] == "T-" && t[2..] == u;
    VerifyFbTokenAccepts(t + "\n");
  }

  // ---------------------------------------------------------------- scope normalisation

  /** `route_flasharray`: a scope other than the four FlashArray ones becomes `all`. */
  function FaScope(mType: string): (scope: string)
    ensures scope in {"all", "array", "volumes", "hosts", "pods"}
  {
    if mType in ["array", "volumes", "hosts", "pods"] then mType else "all"
  }

  /** `route_flashblade`: a scope other than the three FlashBlade ones becomes `all`. */
  function FbScope(mType: string): (scope: string)
    ensures scope in {"all", "array", "clients", "usage"}
  {
    if mType in ["array", "clients", "usage"] then mType else "all"
  }

  /** Where `route_array` of the combined exporter sends a request. */
  datatype Route = FlashArrayScrape(scope: string) | FlashBladeScrape(scope: string) | NotFound

  /** `route_array`: the array type picks the collector and its normalisation; any other array
    * type is answered with 404. */
  function RouteArray(arrayType: string, mType: string): Route
  {
    if arrayType == "flasharray" then FlashArrayScrape(FaScope(mType))
    else if arrayType == "flashblade" then FlashBladeScrape(FbScope(mType))
    else NotFound
  }

  /** A scope the collector knows is passed through; anything else becomes `all`; normalising
    * twice is normalising once. */
  lemma ScopesNormalised(mType: string)
    ensures mType in {"all", "array", "volumes", "hosts", "pods"} ==> FaScope(mType) == mType
    ensures mType !in {"all", "array", "volumes", "hosts", "pods"} ==> FaScope(mType) == "all"
    ensures mType in {"all", "array", "clients", "usage"} ==> FbScope(mType) == mType
    ensures mType !in {"all", "array", "clients", "usage"} ==> FbScope(mType) == "all"
    ensures FaScope(FaScope(mType)) == FaScope(mType) && FbScope(FbScope(mType)) == FbScope(mType)
  {
  }

  /** The advertised FlashBlade `quotas` page is not a scope the exporters accept, so it
    * serves a whole scrape. */
  lemma QuotasIsAll()
    ensures FbScope("quotas") == "all"
    ensures RouteArray("flashblade", "quotas") == FlashBladeScrape("all")
  {
  }

  /** The evidently intended FlashBlade normalisation: the advertised `quotas` page selects the
    * users and groups usage builders; every other scope is normalised as before. */
  function FbScopeWithQuotas(mType: string): (scope: string)
    ensures scope in {"all", "array", "clients", "usage"}
  {
    if mType == "quotas" then "usage" else FbScope(mType)
  }

  /** Under the intended normalisation the `quotas` page runs exactly the usage builders, and
    * no other request changes scope. */
  lemma QuotasIsUsage(mType: string)
    ensures FbCollector.Plan(FbScopeWithQuotas("quotas")) == FbCollector.UsageSections
    ensures mType != "quotas" ==> FbScopeWithQuotas(mType) == FbScope(mType)
  {
    FbCollector.PlanByRequest("usage");
  }

  /** The combined exporter routes exactly like the dedicated ones, and answers 404 otherwise. */
  lemma RouteArrayAgrees(arrayType: string, mType: string)
    ensures RouteArray(arrayType, mType).NotFound? <==> arrayType !in {"flasharray", "flashblade"}
    ensures arrayType == "flasharray" ==> RouteArray(arrayType, mType) == FlashArrayScrape(FaScope(mType))
    ensures arrayType == "flashblade" ==> RouteArray(arrayType, mType) == FlashBladeScrape(FbScope(mType))
  {
  }

  /** After normalisation the collector always has builders to run: a request reaching a
    * collector never yields an empty scrape plan. */
  lemma NormalisedScopesRun(mType: string)
    ensures FaCollector.Plan(FaScope(mType)) != []
    ensures FbCollector.Plan(FbScope(mType)) != []
  {
    FaCollector.PlanByRequest(FaScope(mType));
    FbCollector.PlanByRequest(FbScope(mType));
  }

  // ---------------------------------------------------------------- the middleware

  /** The first `apitoken` query value, or `''` when there is none; a present but empty list
    * raises `IndexError`. */
  function FirstApiToken(query: map<string, seq<string>>): Result<string>
  {
    if "apitoken" !in query then Ok("")
    else if |query["apitoken"]| == 0 then Err(IndexError)
    else Ok(query["apitoken"][0])
  }

  /** The environment after `InterceptRequestMiddleware.__call__`, given the parsed query
    * string. */
  function Intercepted(environ: map<string, string>, query: map<string, seq<string>>): Result<map<string, string>>
  {
    if "QUERY_STRING" !in environ then Err(KeyError(Str("QUERY_STRING")))
    else match FirstApiToken(query)
      case Err(f) => Err(f)
      case Ok(token) =>
        if "HTTP_AUTHORIZATION" in environ then Ok(environ)
        else Ok(environ["HTTP_AUTHORIZATION" := "Bearer " + token])
  }

  /** The middleware never overrides a header the client sent, always leaves one in place,
    * and touches no other variable. */
  lemma InterceptedKeepsHeader(environ: map<string, string>, query: map<string, seq<string>>)
    requires Intercepted(environ, query).Ok?
    ensures var e := Intercepted(environ, query).value;
      "HTTP_AUTHORIZATION" in e &&
      ("HTTP_AUTHORIZATION" in environ ==> e == environ) &&
      ("HTTP_AUTHORIZATION" !in environ ==>
         e["HTTP_AUTHORIZATION"] == "Bearer " + FirstApiToken(query).value &&
         e.Keys == environ.Keys + {"HTTP_AUTHORIZATION"} &&
         forall k :: k in environ ==> e[k] == environ[k])
  {
  }

  /** Running the middleware on its own output changes nothing. */
  lemma InterceptedIdempotent(environ: map<string, string>, query: map<string, seq<string>>)
    requires Intercepted(environ, query).Ok?
    ensures Intercepted(Intercepted(environ, query).value, query) == Intercepted(environ, query)
  {
  }

  /** The WSGI environment of one request, which the middleware updates in place. */
  class Environ {
    var vars: map<string, string>

    constructor (vars: map<string, string>)
      ensures this.vars == vars
    {
      this.vars := vars;
    }
  }

  /** `InterceptRequestMiddleware.__call__` up to the call of the wrapped application; the
    * parsing of the query string is taken as given. */
  method Intercept(environ: Environ, query: map<string, seq<string>>) returns (out: Outcome)
    modifies environ
    ensures out.Pass? <==> Intercepted(old(environ.vars), query).Ok?
    ensures out.Pass? ==> environ.vars == Intercepted(old(environ.vars), query).value
    ensures out.Fail? ==> out.error == Intercepted(old(environ.vars), query).error && environ.vars == old(environ.vars)
  {
    if "QUERY_STRING" !in environ.vars {
      return Fail(KeyError(Str("QUERY_STRING")));
    }
    var apiToken := "";
    if "apitoken" in query {
      if |query["apitoken"]| == 0 {
        return Fail(IndexError);
      }
      apiToken := query["apitoken"][0];
    }
    if "HTTP_AUTHORIZATION" !in environ.vars {
      environ.vars := environ.vars["HTTP_AUTHORIZATION" := "Bearer " + apiToken];
    }
    out := Pass;
  }
}
