// The guards a production build passes before it is made (front/next.config.ts).
// What the URL parser, the legal slots and the list parsers answer are inputs.
module BuildGuards {
  import opened Journal
  import Base58

  // ---- strings -----------------------------------------------------------------------

  predicate IsSpace(c: char) {
    c as int in {9, 10, 11, 12, 13, 32, 160, 0x1680, 0x2028, 0x2029, 0x202F, 0x205F, 0x3000, 0xFEFF}
    || 0x2000 <= c as int <= 0x200A
  }

  function TrimStart(s: string): string {
    if s != "" && IsSpace(s[0]) then TrimStart(s[1..]) else s
  }

  function TrimEnd(s: string): string {
    if s != "" && IsSpace(s[|s| - 1]) then TrimEnd(s[..|s| - 1]) else s
  }

  function Trim(s: string): string {
    TrimEnd(TrimStart(s))
  }

  predicate Spaces(s: string) {
    forall c | c in s :: IsSpace(c)
  }

  lemma {:induction false} StartTrimmed(s: string) returns (a: string)
    ensures s == a + TrimStart(s) && Spaces(a)
    ensures TrimStart(s) != "" ==> !IsSpace(TrimStart(s)[0])
  {
    hide IsSpace;
    if s != "" && IsSpace(s[0]) {
      a := StartTrimmed(s[1..]);
      assert s == [s[0]] + s[1..];
      a := [s[0]] + a;
    } else {
      a := "";
    }
  }

  lemma {:induction false} EndTrimmed(s: string) returns (b: string)
    ensures s == TrimEnd(s) + b && Spaces(b)
    ensures TrimEnd(s) != "" ==> !IsSpace(TrimEnd(s)[|TrimEnd(s)| - 1])
  {
    hide IsSpace;
    if s != "" && IsSpace(s[|s| - 1]) {
      b := EndTrimmed(s[..|s| - 1]);
      assert s == s[..|s| - 1] + [s[|s| - 1]];
      b := b + [s[|s| - 1]];
    } else {
      b := "";
    }
  }

  /** What is trimmed is space at the two ends, all of it. */
  lemma TrimExactly(s: string) returns (a: string, b: string)
    ensures s == a + Trim(s) + b && Spaces(a) && Spaces(b)
    ensures Trim(s) == "" || (!IsSpace(Trim(s)[0]) && !IsSpace(Trim(s)[|Trim(s)| - 1]))
  {
    hide TrimStart, TrimEnd, IsSpace, Spaces;
    a := StartTrimmed(s);
    b := EndTrimmed(TrimStart(s));
  }

  function LowerChar(c: char): char {
    if 'A' <= c <= 'Z' then c - 'A' + 'a' else c
  }

  function Lower(s: string): (out: string)
    ensures |out| == |s|
  {
    seq(|s|, i requires 0 <= i < |s| => LowerChar(s[i]))
  }

  predicate OccursAt(s: string, part: string, i: nat) {
    i + |part| <= |s| && s[i..i + |part|] == part
  }

  predicate Includes(s: string, part: string) {
    exists i: nat | i <= |s| :: OccursAt(s, part, i)
  }

  predicate StartsWith(s: string, part: string) {
    |part| <= |s| && s[..|part|] == part
  }

  predicate EndsWith(s: string, part: string) {
    |part| <= |s| && s[|s| - |part|..] == part
  }

  function Split(s: string, sep: char): (parts: seq<string>)
    ensures parts != []
  {
    if s == "" then [""]
    else
      var init := Split(s[..|s| - 1], sep);
      var last := s[|s| - 1];
      if last == sep then init + [""] else init[..|init| - 1] + [init[|init| - 1] + [last]]
  }

  /** `part` stands between two separators, or an end, of `s`. */
  ghost predicate Between(s: string, sep: char, part: string, a: string, b: string) {
    && s == a + part + b && sep !in part
    && (a == "" || a[|a| - 1] == sep) && (b == "" || b[0] == sep)
  }

  lemma SplitGrows(init: string, last: char, sep: char)
    ensures
      var parts := Split(init, sep);
      Split(init + [last], sep)
      == if last == sep then parts + [""] else parts[..|parts| - 1] + [parts[|parts| - 1] + [last]]
  {
    assert (init + [last])[..|init|] == init;
  }

  /** A part that ends the string is the last one, any other comes before it. */
  lemma {:induction false} PartIsSplit(s: string, sep: char, a: string, part: string, b: string)
    requires Between(s, sep, part, a, b)
    ensures
      var parts := Split(s, sep);
      if b == "" then parts[|parts| - 1] == part else exists k :: 0 <= k < |parts| - 1 && parts[k] == part
    decreases |s|
  {
    hide Split;
    if s != "" {
      var init, last := s[..|s| - 1], s[|s| - 1];
      assert s == init + [last];
      if b != "" {
        assert b == b[..|b| - 1] + [last];
        MiddleIsSplit(init, last, sep, a, part, b[..|b| - 1]);
      } else if part != "" {
        assert part == part[..|part| - 1] + [last];
        EndIsSplit(init, last, sep, a, part[..|part| - 1]);
      } else {
        assert s == a;
        SplitGrows(init, last, sep);
      }
    } else {
      EmptySplit(sep);
    }
  }

  lemma EmptySplit(sep: char)
    ensures Split("", sep) == [""]
  {
  }

  lemma EndIsSplit(init: string, last: char, sep: char, a: string, part: string)
    requires Between(init + [last], sep, part + [last], a, "")
    ensures
      var parts := Split(init + [last], sep);
      parts[|parts| - 1] == part + [last]
    decreases |init| + 1, 0
  {
    hide Split;
    SplitGrows(init, last, sep);
    assert a + (part + [last]) + "" == (a + part) + [last];
    assert init == (init + [last])[..|init|] == a + part + "";
    assert last in part + [last] && forall c | c in part :: c in part + [last];
    PartIsSplit(init, sep, a, part, "");
  }

  lemma MiddleIsSplit(init: string, last: char, sep: char, a: string, part: string, b: string)
    requires Between(init + [last], sep, part, a, b + [last])
    ensures
      var parts := Split(init + [last], sep);
      exists k :: 0 <= k < |parts| - 1 && parts[k] == part
    decreases |init| + 1, 0
  {
    hide Split;
    SplitGrows(init, last, sep);
    assert a + part + (b + [last]) == (a + part + b) + [last];
    assert init == (init + [last])[..|init|] == a + part + b;
    assert b != "" ==> b[0] == (b + [last])[0];
    PartIsSplit(init, sep, a, part, b);
    var before, parts := Split(init, sep), Split(init + [last], sep);
    if b == "" {
      assert last == sep && parts[|before| - 1] == part;
    } else {
      var k :| 0 <= k < |before| - 1 && before[k] == part;
      assert parts[k] == part;
    }
  }

  lemma {:induction false} SplitIsPart(s: string, sep: char, k: nat) returns (a: string, b: string)
    requires k < |Split(s, sep)|
    ensures Between(s, sep, Split(s, sep)[k], a, b)
    ensures b == "" <==> k == |Split(s, sep)| - 1
  {
    if s == "" {
      a, b := "", "";
    } else {
      var init, last := s[..|s| - 1], s[|s| - 1];
      var before := Split(init, sep);
      assert s == init + [last];
      if k < |before| - 1 || (k == |before| - 1 && last == sep) {
        a, b := SplitIsPart(init, sep, k);
        assert s == a + before[k] + (b + [last]);
        b := b + [last];
      } else if last == sep {
        a, b := s, "";
        assert s == a + "" + b;
      } else {
        a, b := SplitIsPart(init, sep, k);
        assert s == a + (before[k] + [last]) + "";
      }
    }
  }

  /** Splitting gives exactly the parts that stand between two separators. */
  lemma SplitExactly(s: string, sep: char, part: string)
    ensures part in Split(s, sep) <==> exists a, b :: Between(s, sep, part, a, b)
  {
    if part in Split(s, sep) {
      var k :| 0 <= k < |Split(s, sep)| && Split(s, sep)[k] == part;
      var a, b := SplitIsPart(s, sep, k);
    }
    if exists a, b :: Between(s, sep, part, a, b) {
      var a, b :| Between(s, sep, part, a, b);
      PartIsSplit(s, sep, a, part, b);
    }
  }

  // ---- the environment -----------------------------------------------------------------

  type Env = map<string, string>

  /** A parsed URL, as the platform's URL class gives it. */
  datatype Url = Url(
    protocol: string,
    host: string,
    hostname: string,
    pathname: string,
    search: string,
    hash: string,
    params: seq<(string, string)>,
    username: string,
    password: string)

  /** The environment, the URL parser and what the unmodelled parsers answer. */
  datatype Build = Build(
    env: Env,
    parse: string -> Option<Url>,
    mainnetRef: Option<string>,
    devnetRef: Option<string>,
    legalComplete: bool,
    geoblockReadable: bool,
    geoblockSet: bool,
    assetClassesReadable: bool)

  function Value(env: Env, name: string): string {
    if name in env then env[name] else ""
  }

  function Trimmed(env: Env, name: string): string {
    Trim(Value(env, name))
  }

  function ParsedUrl(b: Build, name: string): Option<Url> {
    if Trimmed(b.env, name) == "" then None else b.parse(Trimmed(b.env, name))
  }

  // ---- the two notions of the network ----------------------------------------------------

  function Explicit(env: Env): string {
    Lower(Trimmed(env, "NEXT_PUBLIC_NETWORK"))
  }

  /** The network the build would run as. */
  function BuildNetwork(env: Env): string {
    var rpc := Value(env, "NEXT_PUBLIC_SOLANA_RPC_URL");
    if Explicit(env) != "" then Explicit(env)
    else if Includes(rpc, "devnet") then "devnet"
    else if Includes(rpc, "testnet") then "testnet"
    else if Includes(rpc, "mainnet") then "mainnet"
    else if Includes(rpc, "localhost") || Includes(rpc, "127.0.0.1") then "localnet"
    else "devnet"
  }

  predicate OnVercel(env: Env) {
    Value(env, "VERCEL") == "1" || Value(env, "VERCEL_ENV") != ""
  }

  predicate AssertBuildNetwork(env: Env) {
    var value := Explicit(env);
    if value != "" && value !in ["mainnet", "devnet", "testnet", "localnet"] then false
    else if OnVercel(env) && value == "" then false
    else if value == "" && BuildNetwork(env) == "mainnet" then false
    else !(value == "mainnet" && Trimmed(env, "MAINNET_LEGAL_COPY_APPROVED") != "true")
  }

  /** Past the first guard the two notions agree on what is mainnet. */
  lemma OneMainnet(env: Env)
    requires AssertBuildNetwork(env)
    ensures BuildNetwork(env) == "mainnet" <==> Explicit(env) == "mainnet"
  {
  }

  /** Without it they do not: a build named by its RPC address alone. */
  lemma TwoMainnets()
    ensures
      var env := map["NEXT_PUBLIC_SOLANA_RPC_URL" := "mainnet"];
      BuildNetwork(env) == "mainnet" && Explicit(env) == ""
  {
    var env := map["NEXT_PUBLIC_SOLANA_RPC_URL" := "mainnet"];
    var rpc := "mainnet";
    assert OccursAt(rpc, "mainnet", 0);
    forall i: nat | i <= |rpc| ensures !OccursAt(rpc, "devnet", i) && !OccursAt(rpc, "testnet", i) {
      if i + 6 <= |rpc| {
        assert rpc[i..i + 6][0] == rpc[i] != 'd';
      }
      if i + 7 <= |rpc| {
        assert rpc[i..i + 7][0] == rpc[i] != 't';
      }
    }
  }

  // ---- Supabase ------------------------------------------------------------------------------

  predicate RefChar(c: char) {
    'a' <= c <= 'z' || '0' <= c <= '9'
  }

  predicate IsRef(s: string) {
    |s| == 20 && forall i | 0 <= i < 20 :: RefChar(s[i])
  }

  const SCHEME: string := "https://"
  const DOMAIN: string := ".supabase.co"

  /** The project a Supabase URL names. */
  function SupabaseRef(raw: string): Option<string> {
    var body := if EndsWith(raw, "/") then raw[..|raw| - 1] else raw;
    if StartsWith(body, SCHEME) && EndsWith(body, DOMAIN) && |body| == |SCHEME| + 20 + |DOMAIN|
       && IsRef(body[|SCHEME|..|SCHEME| + 20])
    then Some(body[|SCHEME|..|SCHEME| + 20])
    else None
  }

  predicate AssertBuildSupabase(b: Build) {
    var network := Explicit(b.env);
    var raw := Trimmed(b.env, "NEXT_PUBLIC_SUPABASE_URL");
    var project := SupabaseRef(raw);
    if network == "mainnet" then
      && b.mainnetRef.Some? && project == b.mainnetRef
      && StartsWith(Trimmed(b.env, "NEXT_PUBLIC_SUPABASE_ANON_KEY"), "sb_publishable_")
    else
      && !(project.Some? && b.mainnetRef.Some? && project == b.mainnetRef)
      && !(network == "devnet" && b.devnetRef.Some? && raw != "" && project != b.devnetRef)
  }

  /** The project read from a URL is the one it was built from, with or without the closing slash, and only from such a URL. */
  lemma SupabaseExactly(raw: string, project: string)
    requires IsRef(project)
    ensures SupabaseRef(raw) == Some(project)
       <==> raw == SCHEME + project + DOMAIN || raw == SCHEME + project + DOMAIN + "/"
  {
    var url := SCHEME + project + DOMAIN;
    var body := if EndsWith(raw, "/") then raw[..|raw| - 1] else raw;
    assert |SCHEME| == 8 && |DOMAIN| == 12;
    if SupabaseRef(raw) == Some(project) {
      assert body[..8] == SCHEME && body[8..28] == project && body[28..] == DOMAIN;
      assert body == body[..8] + body[8..28] + body[28..];
      assert body == url;
    }
    if raw == url || raw == url + "/" {
      assert url[|url| - 1] == 'o';
      if raw == url {
        assert raw[|raw| - 1..] == [raw[|raw| - 1]];
        assert !EndsWith(raw, "/");
      } else {
        assert raw[|raw| - 1..] == "/";
        assert raw[..|raw| - 1] == url;
      }
      assert body == url;
      assert url[..8] == SCHEME && url[8..28] == project && url[|url| - 12..] == DOMAIN;
    }
  }

  // ---- Turnstile, the flags, geoblocking ---------------------------------------------------------

  predicate AssertBuildTurnstile(env: Env) {
    Trimmed(env, "TURNSTILE_SECRET_KEY") != "" ==> Trimmed(env, "NEXT_PUBLIC_TURNSTILE_SITE_KEY") != ""
  }

  const FLAG_VALUES: seq<string> := ["true", "false", "1", "0", "yes", "no", "on", "off"]

  const FLAG_NAMES: seq<string> := [
    "NEXT_PUBLIC_FEATURE_PAYOUT_AIRDROP", "NEXT_PUBLIC_FEATURE_STARTUP_RAISES",
    "NEXT_PUBLIC_FEATURE_ISSUER_ROTATION", "NEXT_PUBLIC_FEATURE_PASSPORT_CLOSE",
    "NEXT_PUBLIC_FEATURE_SECONDARY_TRADING", "NEXT_PUBLIC_FEATURE_GOVERNANCE",
    "NEXT_PUBLIC_FEATURE_VESTING", "NEXT_PUBLIC_FEATURE_RIGHTS",
    "NEXT_PUBLIC_FEATURE_DISTRIBUTIONS", "NEXT_PUBLIC_FEATURE_CUSTODY_CONVERSION",
    "NEXT_PUBLIC_FEATURE_CUSTODY_DELIVERY", "NEXT_PUBLIC_FEATURE_KYC_ONLY"]

  predicate FlagReadable(env: Env, name: string) {
    Trimmed(env, name) == "" || Lower(Trimmed(env, name)) in FLAG_VALUES
  }

  predicate FlagsOk(env: Env) {
    forall name | name in FLAG_NAMES :: FlagReadable(env, name)
  }

  method AssertBuildFeatureFlags(env: Env) returns (ok: bool)
    ensures ok <==> FlagsOk(env)
  {
    for i := 0 to |FLAG_NAMES|
      invariant forall k | 0 <= k < i :: FlagReadable(env, FLAG_NAMES[k])
    {
      var name := FLAG_NAMES[i];
      if !FlagReadable(env, name) {
        assert name in FLAG_NAMES;
        return false;
      }
    }
    return true;
  }

  predicate GeoblockOk(b: Build) {
    b.geoblockReadable && (BuildNetwork(b.env) == "mainnet" ==> b.geoblockSet)
  }

  predicate LegalOk(b: Build) {
    BuildNetwork(b.env) == "mainnet" ==> b.legalComplete
  }

  // ---- the KYC registry's pin ---------------------------------------------------------------------

  ghost predicate KycOk(env: Env) {
    var pin := Trimmed(env, "NEXT_PUBLIC_KYC_REGISTRY");
    if pin != "" then Base58.EncodesAddress(pin)
    else Explicit(env) != "mainnet" && Value(env, "VERCEL_ENV") != "production"
  }

  method AssertBuildKycRegistry(env: Env) returns (ok: bool)
    ensures ok <==> KycOk(env)
  {
    var pin := Trimmed(env, "NEXT_PUBLIC_KYC_REGISTRY");
    if pin != "" {
      ok := Base58.IsBase58Address(pin);
    } else {
      ok := !(Explicit(env) == "mainnet" || Value(env, "VERCEL_ENV") == "production");
    }
  }

  // ---- the RPC endpoints ------------------------------------------------------------------------------

  const PUBLIC_CLUSTER_HOSTS: seq<string> :=
    ["api.mainnet-beta.solana.com", "api.devnet.solana.com", "api.testnet.solana.com"]

  predicate SecretName(name: string) {
    var n := Lower(name);
    Includes(n, "key") || Includes(n, "token") || Includes(n, "secret") || Includes(n, "auth")
  }

  /** A value of a parameter named like a secret, a long path segment, or user info. */
  ghost predicate IsCredential(url: Url, c: string) {
    || (c != "" && exists p :: p in url.params && SecretName(p.0) && p.1 == c)
    || (|c| >= 16 && exists a, b :: Between(url.pathname, '/', c, a, b))
    || (c != "" && (c == url.username || c == url.password))
  }

  /** `rpcCredentials`: everything pushed along the way. */
  method RpcCredentials(url: Url) returns (out: seq<string>)
    ensures forall c :: c in out <==> IsCredential(url, c)
  {
    out := SecretValues(url.params);
    var segments := LongSegments(url.pathname);
    out := out + segments;
    if url.username != "" {
      out := out + [url.username];
    }
    if url.password != "" {
      out := out + [url.password];
    }
  }

  method SecretValues(params: seq<(string, string)>) returns (out: seq<string>)
    ensures forall c :: c in out <==> c != "" && exists p :: p in params && SecretName(p.0) && p.1 == c
  {
    hide SecretName;
    out := [];
    for i := 0 to |params|
      invariant forall c :: c in out <==> c != "" && exists p :: p in params[..i] && SecretName(p.0) && p.1 == c
    {
      assert params[..i + 1] == params[..i] + [params[i]];
      if SecretName(params[i].0) && params[i].1 != "" {
        out := out + [params[i].1];
      }
    }
    assert params[..|params|] == params;
  }

  method LongSegments(pathname: string) returns (out: seq<string>)
    ensures forall c :: c in out <==> |c| >= 16 && exists a, b :: Between(pathname, '/', c, a, b)
  {
    hide Between;
    var segments := Split(pathname, '/');
    out := [];
    for i := 0 to |segments|
      invariant forall c :: c in out <==> |c| >= 16 && c in segments[..i]
    {
      assert segments[..i + 1] == segments[..i] + [segments[i]];
      if |segments[i]| >= 16 {
        out := out + [segments[i]];
      }
    }
    assert segments[..|segments|] == segments;
    forall c ensures c in segments <==> exists a, b :: Between(pathname, '/', c, a, b) {
      SplitExactly(pathname, '/', c);
    }
  }

  function WithoutSlashes(path: string): (out: string)
    ensures out == "" || out[|out| - 1] != '/'
    ensures out <= path && forall i | |out| <= i < |path| :: path[i] == '/'
  {
    if path != "" && path[|path| - 1] == '/' then WithoutSlashes(path[..|path| - 1]) else path
  }

  /** Host, path and query, whatever the scheme. */
  function EndpointOf(url: Url): string {
    Lower(url.host) + WithoutSlashes(url.pathname) + url.search
  }

  /** The parts of a URL as a parser leaves them: where one ends, the next begins with its own mark. */
  predicate WellFormed(url: Url) {
    && '/' !in url.host && '?' !in url.host
    && '?' !in url.pathname && (url.pathname == "" || url.pathname[0] == '/')
    && (url.search == "" || url.search[0] == '?')
  }

  lemma LowerMarks(host: string)
    ensures '/' !in host ==> '/' !in Lower(host)
    ensures '?' !in host ==> '?' !in Lower(host)
  {
  }

  /** Where a text free of `mark` ends and one that is empty or begins with it starts. */
  lemma CutAtMark(mark: char, a: string, b: string, x: string, y: string)
    requires mark !in a && mark !in b && (x == "" || x[0] == mark) && (y == "" || y[0] == mark)
    requires a + x == b + y
    ensures a == b && x == y
  {
    var s := a + x;
    assert forall i | 0 <= i < |a| :: s[i] == a[i] && a[i] != mark;
    assert forall i | 0 <= i < |b| :: s[i] == b[i] && b[i] != mark;
    assert |a| < |s| ==> s[|a|] == x[0];
    assert |b| < |s| ==> s[|b|] == y[0];
    assert |a| == |b|;
    assert a == s[..|a|] && b == s[..|b|];
    assert x == s[|a|..] && y == s[|b|..];
  }

  /** Two URLs compare equal exactly when host (whatever its case), path (but for its last slashes) and query are. */
  lemma EndpointExactly(u: Url, v: Url)
    requires WellFormed(u) && WellFormed(v)
    ensures EndpointOf(u) == EndpointOf(v)
       <==> && Lower(u.host) == Lower(v.host)
            && WithoutSlashes(u.pathname) == WithoutSlashes(v.pathname) && u.search == v.search
  {
    if EndpointOf(u) == EndpointOf(v) {
      LowerMarks(u.host);
      LowerMarks(v.host);
      var p, q := WithoutSlashes(u.pathname), WithoutSlashes(v.pathname);
      assert '?' !in p && '?' !in q;
      CutAtMark('?', Lower(u.host) + p, Lower(v.host) + q, u.search, v.search);
      CutAtMark('/', Lower(u.host), Lower(v.host), p, q);
    }
  }

  predicate Paid(b: Build, name: string, protocol: string) {
    && ParsedUrl(b, name).Some?
    && ParsedUrl(b, name).value.protocol == protocol
    && Lower(ParsedUrl(b, name).value.hostname) !in PUBLIC_CLUSTER_HOSTS
  }

  /** The browser's URL gives away the server's: the same endpoint, or a credential of it. */
  ghost predicate Exposes(browser: Url, server: Url) {
    EndpointOf(browser) == EndpointOf(server) || exists c :: IsCredential(browser, c) && IsCredential(server, c)
  }

  const SERVERS: seq<string> := ["HELIUS_MAINNET_RPC", "SOLANA_MAINNET_RPC"]

  const RPC: string := "NEXT_PUBLIC_SOLANA_RPC_URL"
  const WS: string := "NEXT_PUBLIC_SOLANA_WS_URL"

  function Server(env: Env): string {
    if Trimmed(env, "HELIUS_MAINNET_RPC") != "" then "HELIUS_MAINNET_RPC" else "SOLANA_MAINNET_RPC"
  }

  ghost predicate Separate(b: Build, browser: Url) {
    forall name | name in SERVERS && ParsedUrl(b, name).Some? :: !Exposes(browser, ParsedUrl(b, name).value)
  }

  ghost predicate RpcOk(b: Build) {
    BuildNetwork(b.env) == "mainnet" ==>
      && Paid(b, RPC, "https:") && Paid(b, WS, "wss:") && Paid(b, Server(b.env), "https:")
      && Separate(b, ParsedUrl(b, RPC).value) && Separate(b, ParsedUrl(b, WS).value)
  }

  method IsExposed(browser: Url, server: Url) returns (yes: bool)
    ensures yes <==> Exposes(browser, server)
  {
    hide IsCredential, EndpointOf;
    var exposed := RpcCredentials(browser);
    var credentials := RpcCredentials(server);
    yes := EndpointOf(browser) == EndpointOf(server) || exists c | c in credentials :: c in exposed;
  }

  method IsSeparate(b: Build, browser: Url) returns (ok: bool)
    ensures ok <==> Separate(b, browser)
  {
    hide Exposes;
    for i := 0 to |SERVERS|
      invariant forall k | 0 <= k < i :: ParsedUrl(b, SERVERS[k]).Some? ==> !Exposes(browser, ParsedUrl(b, SERVERS[k]).value)
    {
      var server := ParsedUrl(b, SERVERS[i]);
      if server.Some? {
        var exposed := IsExposed(browser, server.value);
        if exposed {
          assert SERVERS[i] in SERVERS;
          return false;
        }
      }
    }
    return true;
  }

  method AssertBuildRpc(b: Build) returns (ok: bool)
    ensures ok <==> RpcOk(b)
  {
    hide Separate;
    if BuildNetwork(b.env) != "mainnet" {
      return true;
    }
    if !Paid(b, RPC, "https:") || !Paid(b, WS, "wss:") || !Paid(b, Server(b.env), "https:") {
      return false;
    }
    ok := IsSeparate(b, ParsedUrl(b, RPC).value);
    if ok {
      ok := IsSeparate(b, ParsedUrl(b, WS).value);
    }
  }

  // ---- operations -------------------------------------------------------------------------------------------

  const REQUIREMENTS: seq<string> :=
    ["sentry", "health-token", "turnstile", "alert-webhook", "session-secret", "site-url"]

  const WAIVERS := "MAINNET_OPS_WAIVERS"

  /** The names any object inherits, as the waivers' lookup finds them too. */
  const INHERITED: seq<string> := ["constructor", "__proto__"]

  predicate Letter(c: char) {
    'a' <= c <= 'z' || 'A' <= c <= 'Z'
  }

  predicate Digit(c: char) {
    '0' <= c <= '9'
  }

  function LastPart(parts: seq<string>): string {
    if parts == [] then ""
    else if parts[|parts| - 1] != "" then parts[|parts| - 1]
    else LastPart(parts[..|parts| - 1])
  }

  predicate SentryDsnUsable(url: Option<Url>) {
    && url.Some? && url.value.protocol == "https:"
    && 1 <= |url.value.username| <= 64 && (forall c | c in url.value.username :: Letter(c) || Digit(c))
    && (var project := LastPart(Split(url.value.pathname, '/'));
        1 <= |project| <= 20 && forall c | c in project :: Digit(c))
    && EndsWith(Lower(url.value.hostname), ".de.sentry.io")
  }

  /** A digit, an x, zeros, and two letters from A to F. */
  predicate IsTurnstileTestKey(value: string) {
    var k := Lower(Trim(value));
    && |k| >= 5 && Digit(k[0]) && k[1] == 'x'
    && (forall i | 2 <= i < |k| - 2 :: k[i] == '0')
    && 'a' <= k[|k| - 2] <= 'f' && 'a' <= k[|k| - 1] <= 'f'
  }

  predicate Met(b: Build, name: string) {
    if name == "sentry" then SentryDsnUsable(ParsedUrl(b, "SENTRY_DSN"))
    else if name == "health-token" then
      var token := Trimmed(b.env, "HEALTH_TOKEN");
      |token| >= 32 && forall c | c in token :: !IsSpace(c)
    else if name == "turnstile" then
      var secret, site := Value(b.env, "TURNSTILE_SECRET_KEY"), Value(b.env, "NEXT_PUBLIC_TURNSTILE_SITE_KEY");
      Trim(secret) != "" && Trim(site) != "" && !IsTurnstileTestKey(secret) && !IsTurnstileTestKey(site)
    else if name == "alert-webhook" then
      var url := ParsedUrl(b, "ALERT_WEBHOOK_URL");
      url.Some? && url.value.protocol == "https:"
    else if name == "session-secret" then |Trimmed(b.env, "SESSION_SECRET")| >= 32
    else
      var url := ParsedUrl(b, "NEXT_PUBLIC_SITE_URL");
      url.Some? && url.value.protocol == "https:" && url.value.pathname == "/" && url.value.search == ""
      && url.value.hash == ""
  }

  function Waivers(env: Env): set<string> {
    set w | w in Split(Value(env, WAIVERS), ',') && Lower(Trim(w)) != "" :: Lower(Trim(w))
  }

  /** The names refused: `in` finds an inherited name in the table too. */
  function Unknown(env: Env): set<string> {
    set w | w in Waivers(env) && w !in REQUIREMENTS && w !in INHERITED
  }

  predicate OpsOk(b: Build) {
    BuildNetwork(b.env) == "mainnet" ==>
      && Unknown(b.env) == {}
      && (forall name | name in REQUIREMENTS :: name in Waivers(b.env) || Met(b, name))
  }

  /** The names refused are the ones that are no requirement exactly when no waiver is an inherited name. */
  lemma UnknownExactly(env: Env)
    ensures Unknown(env) == (set w | w in Waivers(env) && w !in REQUIREMENTS)
       <==> forall w | w in Waivers(env) :: w !in INHERITED
  {
    hide Waivers;
    assert "constructor" !in REQUIREMENTS && "__proto__" !in REQUIREMENTS;
    var all := set w | w in Waivers(env) && w !in REQUIREMENTS;
    if w :| w in Waivers(env) && w in INHERITED {
      assert w in all && w !in Unknown(env);
    } else {
      assert all == Unknown(env);
    }
  }

  lemma {:induction false} SplitWhole(s: string, sep: char)
    requires sep !in s
    ensures Split(s, sep) == [s]
  {
    if s != "" {
      SplitWhole(s[..|s| - 1], sep);
      assert s == s[..|s| - 1] + [s[|s| - 1]];
    }
  }

  predicate Small(w: string) {
    forall c | c in w :: c != ',' && !IsSpace(c) && !('A' <= c <= 'Z')
  }

  lemma SmallStays(w: string)
    requires Small(w)
    ensures Trim(w) == w && Lower(w) == w
  {
    hide IsSpace;
    forall i | 0 <= i < |w| ensures Lower(w)[i] == w[i] {
      assert w[i] in w;
    }
    assert w != "" ==> w[0] in w && w[|w| - 1] in w;
  }

  /** A list of one name in small letters waives that name. */
  lemma OneWaiver(env: Env, w: string)
    requires Value(env, WAIVERS) == w && w != "" && Small(w)
    ensures Waivers(env) == {w}
  {
    hide IsSpace, Trim, Lower, Split, Value;
    SplitWhole(w, ',');
    SmallStays(w);
    assert forall v | v in [w] :: v == w;
    assert w in Split(Value(env, WAIVERS), ',');
  }

  lemma InheritedIsSmall()
    ensures Small("constructor")
  {
  }

  /** A mainnet build that passes without a waiver passes with `constructor` waived as well, and nothing refuses the name. */
  lemma InheritedNamePasses(b: Build)
    requires BuildNetwork(b.env) == "mainnet" && OpsOk(b) && Waivers(b.env) == {}
    ensures
      var odd := b.(env := b.env[WAIVERS := "constructor"]);
      BuildNetwork(odd.env) == "mainnet" && Waivers(odd.env) == {"constructor"} && "constructor" !in REQUIREMENTS && OpsOk(odd)
  {
    hide Met, BuildNetwork, Waivers, Small;
    InheritedIsSmall();
    var odd := b.(env := b.env[WAIVERS := "constructor"]);
    OneWaiver(odd.env, "constructor");
    SameNetwork(b.env, "constructor");
    forall name | name in REQUIREMENTS ensures Met(odd, name) {
      SameMet(b, "constructor", name);
    }
    assert Unknown(odd.env) == {};
  }

  lemma SameValue(env: Env, w: string, key: string)
    requires key != WAIVERS
    ensures Trimmed(env[WAIVERS := w], key) == Trimmed(env, key) && Value(env[WAIVERS := w], key) == Value(env, key)
  {
  }

  lemma SameNetwork(env: Env, w: string)
    ensures BuildNetwork(env[WAIVERS := w]) == BuildNetwork(env)
  {
    hide Trimmed, Value, Lower, Includes;
    assert WAIVERS[0] == 'M';
    SameValue(env, w, "NEXT_PUBLIC_NETWORK");
    SameValue(env, w, RPC);
  }

  /** The waivers bear on no requirement themselves. */
  lemma SameMet(b: Build, w: string, name: string)
    ensures Met(b.(env := b.env[WAIVERS := w]), name) == Met(b, name)
  {
    hide Trimmed, Value, Trim, SentryDsnUsable, IsTurnstileTestKey, IsSpace;
    assert |WAIVERS| == 19 && WAIVERS[0] == 'M';
    SameValue(b.env, w, "SENTRY_DSN");
    SameValue(b.env, w, "HEALTH_TOKEN");
    SameValue(b.env, w, "TURNSTILE_SECRET_KEY");
    SameValue(b.env, w, "NEXT_PUBLIC_TURNSTILE_SITE_KEY");
    SameValue(b.env, w, "ALERT_WEBHOOK_URL");
    SameValue(b.env, w, "SESSION_SECRET");
    SameValue(b.env, w, "NEXT_PUBLIC_SITE_URL");
  }

  /** A name nobody asked for passes the lookup, but it waives nothing: each requirement is met or named itself. */
  lemma NothingWaivedByMistake(b: Build, name: string)
    requires OpsOk(b) && BuildNetwork(b.env) == "mainnet" && name in REQUIREMENTS && !Met(b, name)
    ensures exists w :: w in Split(Value(b.env, WAIVERS), ',') && Lower(Trim(w)) == name
  {
    assert name in Waivers(b.env);
  }

  // ---- the whole sequence ---------------------------------------------------------------------------------------

  datatype Guard = Network | Supabase | Turnstile | KycRegistry | MainnetLegal | Rpc | MainnetOps | FeatureFlags
                 | Geoblock | AssetClasses

  ghost predicate Passes(b: Build, g: Guard) {
    match g
    case Network => AssertBuildNetwork(b.env)
    case Supabase => AssertBuildSupabase(b)
    case Turnstile => AssertBuildTurnstile(b.env)
    case KycRegistry => KycOk(b.env)
    case MainnetLegal => LegalOk(b)
    case Rpc => RpcOk(b)
    case MainnetOps => OpsOk(b)
    case FeatureFlags => FlagsOk(b.env)
    case Geoblock => GeoblockOk(b)
    case AssetClasses => b.assetClassesReadable
  }

  /** The guards in the order they are asked. */
  const ORDER: seq<Guard> := [Network, Supabase, Turnstile, KycRegistry, MainnetLegal, Rpc, MainnetOps, FeatureFlags,
                              Geoblock, AssetClasses]

  /** `config` of a production build: the first guard that refuses, or none. */
  method Config(b: Build) returns (refused: Option<Guard>)
    ensures refused.None? <==> forall g :: Passes(b, g)
    ensures refused.Some? ==>
              exists k :: 0 <= k < |ORDER| && ORDER[k] == refused.value && !Passes(b, ORDER[k])
                          && forall j | 0 <= j < k :: Passes(b, ORDER[j])
  {
    hide AssertBuildNetwork, AssertBuildSupabase, AssertBuildTurnstile, KycOk, LegalOk, RpcOk, OpsOk, FlagsOk, GeoblockOk;
    for k := 0 to |ORDER|
      invariant forall j | 0 <= j < k :: Passes(b, ORDER[j])
    {
      var ok := Ask(b, ORDER[k]);
      if !ok {
        return Some(ORDER[k]);
      }
    }
    forall g ensures Passes(b, g) {
      EveryGuard(g);
    }
    return None;
  }

  lemma EveryGuard(g: Guard)
    ensures exists k :: 0 <= k < |ORDER| && ORDER[k] == g
  {
    match g
    case Network => assert ORDER[0] == g;
    case Supabase => assert ORDER[1] == g;
    case Turnstile => assert ORDER[2] == g;
    case KycRegistry => assert ORDER[3] == g;
    case MainnetLegal => assert ORDER[4] == g;
    case Rpc => assert ORDER[5] == g;
    case MainnetOps => assert ORDER[6] == g;
    case FeatureFlags => assert ORDER[7] == g;
    case Geoblock => assert ORDER[8] == g;
    case AssetClasses => assert ORDER[9] == g;
  }

  method Ask(b: Build, g: Guard) returns (ok: bool)
    ensures ok <==> Passes(b, g)
  {
    hide AssertBuildNetwork, AssertBuildSupabase, AssertBuildTurnstile, KycOk, LegalOk, RpcOk, OpsOk, FlagsOk, GeoblockOk;
    match g {
      case Network => ok := AssertBuildNetwork(b.env);
      case Supabase => ok := AssertBuildSupabase(b);
      case Turnstile => ok := AssertBuildTurnstile(b.env);
      case KycRegistry => ok := AssertBuildKycRegistry(b.env);
      case MainnetLegal => ok := LegalOk(b);
      case Rpc => ok := AssertBuildRpc(b);
      case MainnetOps => ok := OpsOk(b);
      case FeatureFlags => ok := AssertBuildFeatureFlags(b.env);
      case Geoblock => ok := GeoblockOk(b);
      case AssetClasses => ok := b.assetClassesReadable;
    }
  }

  /**
   * A production build that passes runs as mainnet exactly when it says so;
   * if it does, it uses the mainnet Supabase project with a publishable key,
   * its registry pin is an address, and every operations requirement is met
   * or waived by its own name; if it does not, it never uses that project.
   */
  lemma AcceptedBuilds(b: Build)
    requires (forall g :: Passes(b, g)) && (b.mainnetRef.Some? ==> IsRef(b.mainnetRef.value))
    ensures BuildNetwork(b.env) == "mainnet" <==> Explicit(b.env) == "mainnet"
    ensures BuildNetwork(b.env) == "mainnet" ==>
              && b.mainnetRef.Some?
              && (var url := SCHEME + b.mainnetRef.value + DOMAIN;
                  Trimmed(b.env, "NEXT_PUBLIC_SUPABASE_URL") in {url, url + "/"})
              && StartsWith(Trimmed(b.env, "NEXT_PUBLIC_SUPABASE_ANON_KEY"), "sb_publishable_")
    ensures BuildNetwork(b.env) == "mainnet" ==>
              && Base58.EncodesAddress(Trimmed(b.env, "NEXT_PUBLIC_KYC_REGISTRY"))
              && (forall name | name in REQUIREMENTS :: name in Waivers(b.env) || Met(b, name))
              && b.legalComplete && b.geoblockSet
    ensures BuildNetwork(b.env) != "mainnet" && b.mainnetRef.Some? ==>
              SupabaseRef(Trimmed(b.env, "NEXT_PUBLIC_SUPABASE_URL")) != b.mainnetRef
  {
    hide SupabaseRef, Met, Waivers, Base58.EncodesAddress, RpcOk, BuildNetwork, Trim;
    assert Passes(b, Network) && Passes(b, Supabase) && Passes(b, KycRegistry);
    assert Passes(b, MainnetLegal) && Passes(b, MainnetOps) && Passes(b, Geoblock);
    OneMainnet(b.env);
    if b.mainnetRef.Some? {
      SupabaseExactly(Trimmed(b.env, "NEXT_PUBLIC_SUPABASE_URL"), b.mainnetRef.value);
    }
  }

  /** And neither URL inlined into the browser's bundle gives away a server URL that can be read. */
  lemma AcceptedEndpoints(b: Build, inlined: string, name: string)
    requires (forall g :: Passes(b, g)) && BuildNetwork(b.env) == "mainnet"
    requires inlined in {RPC, WS} && name in SERVERS && ParsedUrl(b, name).Some?
    ensures ParsedUrl(b, inlined).Some?
    ensures EndpointOf(ParsedUrl(b, inlined).value) != EndpointOf(ParsedUrl(b, name).value)
    ensures forall c :: !(IsCredential(ParsedUrl(b, inlined).value, c) && IsCredential(ParsedUrl(b, name).value, c))
  {
    hide EndpointOf, IsCredential, BuildNetwork;
    assert Passes(b, Rpc);
    assert !Exposes(ParsedUrl(b, inlined).value, ParsedUrl(b, name).value);
  }
}
