/**
 * `AzureAuth.config`: for every configured repository that the host knows and
 * has enabled, attach the Azure Storage API-version header and a bearer token.
 * The token comes from `DNF_PLUGIN_AZURE_AUTH_TOKEN` when that is non-empty,
 * and otherwise from `get_token`, called lazily and reused once it succeeds.
 */
module Plugin {
  import opened Wrappers
  import opened Commands
  import opened TokenFetch
  import opened AuthConfig

  /** The storage service API version every authenticated request announces. */
  const ApiVersionHeader := "x-ms-version: 2022-11-02"

  /** The headers set on a repository authenticated with `token`, in order. */
  function AuthHeaders(token: string): seq<string>
  {
    [ApiVersionHeader, "Authorization: Bearer " + token]
  }

  /** What the plugin sees of a host repository. */
  datatype Repo = Repo(enabled: bool, headers: seq<string>)

  /**
   * The process environment: the two environment variables, what each
   * `get_token` call finds when it runs a command (`world(n)` for the call
   * made after `n` earlier ones), and how the CLI's output decodes.
   */
  datatype Env = Env(
    tokenVar: Option<string>,
    sudoUser: Option<string>,
    world: nat -> Cmd -> Outcome,
    decode: string -> Extract)

  /** Python truthiness of an optional string: set and non-empty. */
  predicate Truthy(t: Option<string>)
  {
    t.Some? && t.value != ""
  }

  /** What each call to `get_token` does in `env`: `Fetcher(env)(n)` is the call made after `n` earlier ones. */
  function Fetcher(env: Env): nat -> Fetch
  {
    (n: nat) => GetToken(env.sudoUser, env.world(n), env.decode)
  }

  /** A call that ends the search for a token: a usable token, or an exception. */
  predicate Stops(f: Fetch)
  {
    f.result.Raised? || (f.result.Got? && f.result.token != "")
  }

  /**
   * The state of the per-repository loop: the host's repositories, the
   * `token` variable, how many `get_token` calls were made and which commands
   * they ran, the repositories a warning was logged for, and an exception
   * that ended the loop.
   */
  datatype Loop = Loop(
    repos: map<string, Repo>,
    token: Option<string>,
    calls: nat,
    tried: seq<Cmd>,
    warned: seq<string>,
    raised: Option<Escape>)

  function Start(repos: map<string, Repo>, tokenVar: Option<string>): Loop
  {
    Loop(repos, tokenVar, 0, [], [], None)
  }

  /** `token = get_token()`. */
  function Resolve(fetch: nat -> Fetch, s: Loop): Loop
  {
    var f := fetch(s.calls);
    s.(calls := s.calls + 1,
       tried := s.tried + f.tried,
       token := if f.result.Got? then Some(f.result.token) else None,
       raised := if f.result.Raised? then Some(f.result.error) else None)
  }

  /** One iteration of the loop, for repository id `key`. */
  function Step(fetch: nat -> Fetch, s: Loop, key: string): Loop
  {
    if key in s.repos && s.repos[key].enabled then
      var s1 := if Truthy(s.token) then s else Resolve(fetch, s);
      if s1.raised.Some? then s1
      else if Truthy(s1.token) then
        s1.(repos := s1.repos[key := s1.repos[key].(headers := AuthHeaders(s1.token.value))])
      else s1.(warned := s1.warned + [key])
    else s
  }

  /** The loop over `keys`, stopped by an escaping exception. */
  function Run(fetch: nat -> Fetch, s: Loop, keys: seq<string>): Loop
    decreases |keys|
  {
    if keys == [] || s.raised.Some? then s else Run(fetch, Step(fetch, s, keys[0]), keys[1..])
  }

  /** The ids among `keys` of repositories the host has and has enabled, in order. */
  function EnabledKeys(keys: seq<string>, repos: map<string, Repo>): (e: seq<string>)
    ensures |e| <= |keys|
    ensures forall k :: k in e <==> k in keys && k in repos && repos[k].enabled
    decreases |keys|
  {
    if keys == [] then []
    else
      var rest := EnabledKeys(keys[1..], repos);
      if keys[0] in repos && repos[keys[0]].enabled then [keys[0]] + rest else rest
  }

  /** `repos` with the headers of every enabled repository named in `keys` set to `hs`. */
  function Paint(repos: map<string, Repo>, keys: seq<string>, hs: seq<string>): map<string, Repo>
  {
    map k | k in repos :: if k in keys && repos[k].enabled then repos[k].(headers := hs) else repos[k]
  }

  /**
   * `m` is the position of the first of the `n` calls to `get_token` starting
   * at call `from` that stops the search, or `n` when none of them does.
   */
  ghost predicate IsFirstStop(fetch: nat -> Fetch, from: nat, n: nat, m: nat)
  {
    && m <= n
    && (forall j :: from <= j < from + m ==> !Stops(fetch(j)))
    && (m < n ==> Stops(fetch(from + m)))
  }

  /** The first of the `n` calls starting at call `from` that stops the search, found by scanning. */
  function FirstStop(fetch: nat -> Fetch, from: nat, n: nat): (m: nat)
    ensures IsFirstStop(fetch, from, n, m)
    decreases n
  {
    if n == 0 || Stops(fetch(from)) then 0 else 1 + FirstStop(fetch, from + 1, n - 1)
  }

  lemma PaintHead(repos: map<string, Repo>, k: string, keys: seq<string>, hs: seq<string>)
    requires k in repos && repos[k].enabled
    ensures Paint(repos[k := repos[k].(headers := hs)], keys, hs) == Paint(repos, [k] + keys, hs)
  {
  }

  lemma PaintEnabled(repos: map<string, Repo>, keys: seq<string>, hs: seq<string>)
    ensures Paint(repos, keys, hs) == Paint(repos, EnabledKeys(keys, repos), hs)
  {
  }

  /** Once the token is usable it is reused: no more calls, every remaining enabled repository gets it. */
  lemma {:induction false} ReuseToken(fetch: nat -> Fetch, s: Loop, keys: seq<string>)
    requires s.raised.None? && Truthy(s.token)
    ensures Run(fetch, s, keys) == s.(repos := Paint(s.repos, keys, AuthHeaders(s.token.value)))
    decreases |keys|
  {
    var hs := AuthHeaders(s.token.value);
    if keys == [] {
      assert Paint(s.repos, keys, hs) == s.repos;
    } else {
      var k := keys[0];
      assert keys == [k] + keys[1..];
      ReuseToken(fetch, Step(fetch, s, k), keys[1..]);
      if k in s.repos && s.repos[k].enabled {
        PaintHead(s.repos, k, keys[1..], hs);
      } else {
        assert Paint(s.repos, keys[1..], hs) == Paint(s.repos, keys, hs);
      }
    }
  }

  /** The loop from `s` over enabled ids `e` ends in `r`, the search having stopped at `e[m]` with `stop`. */
  ghost predicate StoppedAt(s: Loop, e: seq<string>, m: nat, stop: TokenResult, r: Loop)
  {
    && m <= |e|
    && r.calls == s.calls + (if m < |e| then m + 1 else m)
    && r.warned == s.warned + e[..m]
    && (m == |e| ==> r.repos == s.repos && r.raised.None? && !Truthy(r.token))
    && (m < |e| && stop.Raised? ==> r.repos == s.repos && r.raised == Some(stop.error))
    && (m < |e| && stop.Got? ==>
          r.raised.None? && r.token == Some(stop.token) && r.repos == Paint(s.repos, e[m..], AuthHeaders(stop.token)))
  }

  /**
   * Without a usable token, the loop calls `get_token` once per enabled
   * repository until a call stops the search. The repositories before that
   * one get a warning; if the call produced a token, that repository and every
   * later enabled one get it; if it raised, nothing is authenticated.
   */
  lemma {:induction false} Search(fetch: nat -> Fetch, s: Loop, keys: seq<string>, m: nat)
    requires s.raised.None? && !Truthy(s.token)
    requires IsFirstStop(fetch, s.calls, |EnabledKeys(keys, s.repos)|, m)
    ensures StoppedAt(s, EnabledKeys(keys, s.repos), m, fetch(s.calls + m).result, Run(fetch, s, keys))
    decreases |keys|, 1
  {
    if keys != [] {
      var k := keys[0];
      var e := EnabledKeys(keys, s.repos);
      var e' := EnabledKeys(keys[1..], s.repos);
      assert keys == [k] + keys[1..];
      if !(k in s.repos && s.repos[k].enabled) {
        assert e == e';
        Search(fetch, s, keys[1..], m);
        assert Run(fetch, s, keys) == Run(fetch, s, keys[1..]) by {
          assert Step(fetch, s, k) == s;
        }
      } else if Stops(fetch(s.calls)) {
        assert e == [k] + e';
        SearchStop(fetch, s, keys);
      } else {
        SearchContinue(fetch, s, keys, m);
      }
    }
  }

  /** The first enabled repository's call does not stop the search: warn and go on. */
  lemma {:induction false} SearchContinue(fetch: nat -> Fetch, s: Loop, keys: seq<string>, m: nat)
    requires s.raised.None? && !Truthy(s.token)
    requires keys != [] && keys[0] in s.repos && s.repos[keys[0]].enabled
    requires !Stops(fetch(s.calls))
    requires IsFirstStop(fetch, s.calls, |EnabledKeys(keys, s.repos)|, m)
    ensures StoppedAt(s, EnabledKeys(keys, s.repos), m, fetch(s.calls + m).result, Run(fetch, s, keys))
    decreases |keys|, 0
  {
    var k := keys[0];
    var e' := EnabledKeys(keys[1..], s.repos);
    assert EnabledKeys(keys, s.repos) == [k] + e' by {
      assert keys == [k] + keys[1..];
    }
    var s1 := Step(fetch, s, k);
    StepWarns(fetch, s, k);
    assert IsFirstStop(fetch, s1.calls, |e'|, m - 1);
    Search(fetch, s1, keys[1..], m - 1);
    assert Run(fetch, s, keys) == Run(fetch, s1, keys[1..]);
    assert s.calls + m == s1.calls + (m - 1);
    SearchShift(s, s1, k, e', m - 1, fetch(s.calls + m).result, Run(fetch, s, keys));
  }

  /** The first enabled repository's call stops the search. */
  lemma SearchStop(fetch: nat -> Fetch, s: Loop, keys: seq<string>)
    requires s.raised.None? && !Truthy(s.token)
    requires keys != [] && keys[0] in s.repos && s.repos[keys[0]].enabled
    requires Stops(fetch(s.calls))
    ensures StoppedAt(s, EnabledKeys(keys, s.repos), 0, fetch(s.calls).result, Run(fetch, s, keys))
  {
    var k := keys[0];
    var e := EnabledKeys(keys, s.repos);
    assert keys == [k] + keys[1..];
    assert e == [k] + EnabledKeys(keys[1..], s.repos);
    var f := fetch(s.calls);
    var s1 := Step(fetch, s, k);
    assert Run(fetch, s, keys) == Run(fetch, s1, keys[1..]);
    if f.result.Got? {
      var hs := AuthHeaders(f.result.token);
      ReuseToken(fetch, s1, keys[1..]);
      PaintHead(s.repos, k, keys[1..], hs);
      PaintEnabled(s.repos, keys, hs);
    }
  }

  /** A call that does not stop the search leaves a warning and no usable token. */
  lemma StepWarns(fetch: nat -> Fetch, s: Loop, k: string)
    requires s.raised.None? && !Truthy(s.token)
    requires k in s.repos && s.repos[k].enabled
    requires !Stops(fetch(s.calls))
    ensures var s1 := Step(fetch, s, k);
      && s1.repos == s.repos && s1.calls == s.calls + 1 && s1.warned == s.warned + [k]
      && s1.raised.None? && !Truthy(s1.token)
  {
  }

  /** Bookkeeping of `SearchContinue`: one more warning, one more call, the same outcome. */
  lemma SearchShift(s: Loop, s1: Loop, k: string, e': seq<string>, m': nat, stop: TokenResult, r: Loop)
    requires s1.repos == s.repos && s1.calls == s.calls + 1 && s1.warned == s.warned + [k]
    requires StoppedAt(s1, e', m', stop, r)
    ensures StoppedAt(s, [k] + e', m' + 1, stop, r)
  {
    var e := [k] + e';
    assert e[..m' + 1] == [k] + e'[..m'];
    assert e[m' + 1..] == e'[m'..];
  }

  /** Every call to `get_token` runs one or two commands. */
  ghost predicate OneOrTwoCommands(fetch: nat -> Fetch)
  {
    forall n: nat :: 1 <= |fetch(n).tried| <= 2
  }

  lemma FetcherRunsOneOrTwoCommands(env: Env)
    ensures OneOrTwoCommands(Fetcher(env))
  {
    forall n: nat ensures 1 <= |Fetcher(env)(n).tried| <= 2 {
      assert Fetcher(env)(n) == GetToken(env.sudoUser, env.world(n), env.decode);
    }
  }

  /** The loop runs one or two commands per `get_token` call. */
  lemma {:induction false} InvocationBound(fetch: nat -> Fetch, s: Loop, keys: seq<string>)
    requires OneOrTwoCommands(fetch)
    ensures var r := Run(fetch, s, keys);
      && s.calls <= r.calls
      && |s.tried| + (r.calls - s.calls) <= |r.tried| <= |s.tried| + 2 * (r.calls - s.calls)
    decreases |keys|
  {
    if keys != [] && s.raised.None? {
      InvocationBound(fetch, Step(fetch, s, keys[0]), keys[1..]);
    }
  }

  /** The command lines run by the `n` calls to `get_token` starting at call `from`, in call order. */
  function CallsTried(fetch: nat -> Fetch, from: nat, n: nat): seq<Cmd>
    decreases n
  {
    if n == 0 then [] else fetch(from).tried + CallsTried(fetch, from + 1, n - 1)
  }

  /**
   * The loop's command log is the commands of its `get_token` calls, call
   * after call, each call's commands in the order that call ran them.
   */
  lemma {:induction false} TriedInCallOrder(fetch: nat -> Fetch, s: Loop, keys: seq<string>)
    ensures var r := Run(fetch, s, keys);
      && s.calls <= r.calls
      && r.tried == s.tried + CallsTried(fetch, s.calls, r.calls - s.calls)
    decreases |keys|
  {
    if keys != [] && s.raised.None? {
      var s1 := Step(fetch, s, keys[0]);
      TriedInCallOrder(fetch, s1, keys[1..]);
      var r := Run(fetch, s, keys);
      if s1.calls != s.calls {
        assert s1.calls == s.calls + 1 && s1.tried == s.tried + fetch(s.calls).tried;
        assert CallsTried(fetch, s.calls, r.calls - s.calls)
            == fetch(s.calls).tried + CallsTried(fetch, s1.calls, r.calls - s1.calls);
      }
    }
  }

  /**
   * A non-empty `DNF_PLUGIN_AZURE_AUTH_TOKEN` short-circuits the CLI: no
   * `get_token` call, no command, no warning, and every configured enabled
   * repository gets headers built from it.
   */
  lemma EnvTokenShortCircuits(fetch: nat -> Fetch, tokenVar: Option<string>, repos: map<string, Repo>, order: seq<string>)
    requires Truthy(tokenVar)
    ensures var r := Run(fetch, Start(repos, tokenVar), order);
      && r.calls == 0 && r.tried == [] && r.warned == [] && r.raised.None?
      && r.repos == Paint(repos, order, AuthHeaders(tokenVar.value))
  {
    ReuseToken(fetch, Start(repos, tokenVar), order);
  }

  /**
   * What the loop does to the host's repositories: none is added or removed,
   * none is enabled or disabled, those not configured or not enabled keep
   * their headers, and every other one keeps its headers or gets exactly the
   * two headers for the one token the loop ended with.
   */
  lemma HeadersExactOrUntouched(fetch: nat -> Fetch, tokenVar: Option<string>, repos: map<string, Repo>, order: seq<string>)
    ensures var r := Run(fetch, Start(repos, tokenVar), order);
      && r.repos.Keys == repos.Keys
      && (forall x :: x in repos ==> r.repos[x].enabled == repos[x].enabled)
      && (forall x :: x in repos && (x !in order || !repos[x].enabled) ==> r.repos[x] == repos[x])
      && (forall x :: x in repos && r.repos[x] != repos[x] ==>
            Truthy(r.token) && r.repos[x].headers == AuthHeaders(r.token.value))
  {
    var s := Start(repos, tokenVar);
    if Truthy(tokenVar) {
      ReuseToken(fetch, s, order);
    } else {
      var e := EnabledKeys(order, repos);
      var m := FirstStop(fetch, 0, |e|);
      Search(fetch, s, order, m);
      if m < |e| && fetch(m).result.Got? {
        forall x | x in e[m..] ensures x in e { }
      }
    }
  }

  /**
   * An exception escaping `get_token` ends the loop before any repository has
   * been changed: it is what the last `get_token` call raised, and headers are
   * only set once a token has been obtained.
   */
  lemma RaisedLeavesReposUnchanged(fetch: nat -> Fetch, tokenVar: Option<string>, repos: map<string, Repo>, order: seq<string>)
    ensures var r := Run(fetch, Start(repos, tokenVar), order);
      r.raised.Some? ==>
        && r.repos == repos
        && r.calls >= 1
        && fetch(r.calls - 1).result == Raised(r.raised.value)
  {
    var s := Start(repos, tokenVar);
    if Truthy(tokenVar) {
      ReuseToken(fetch, s, order);
    } else {
      var e := EnabledKeys(order, repos);
      var m := FirstStop(fetch, 0, |e|);
      Search(fetch, s, order, m);
    }
  }

  /** The host's package-manager state that the plugin touches. */
  class Base {
    var repos: map<string, Repo>

    constructor (repos: map<string, Repo>)
      ensures this.repos == repos
    {
      this.repos := repos;
    }

    /** `repo.set_http_headers(headers)` on the repository with id `id`. */
    method SetHttpHeaders(id: string, headers: seq<string>)
      requires id in repos
      modifies this
      ensures repos == old(repos)[id := old(repos)[id].(headers := headers)]
    {
      repos := repos[id := repos[id].(headers := headers)];
    }
  }

  class AzureAuth {
    const base: Base
    /** Repository ids a "failed to get token" warning was logged for. */
    ghost var warned: seq<string>
    /** Every command line handed to the operating system, in order. */
    ghost var invoked: seq<Cmd>
    /** How many times `get_token` was called. */
    ghost var tokenCalls: nat

    constructor (base: Base)
      ensures this.base == base && warned == [] && invoked == [] && tokenCalls == 0
    {
      this.base := base;
      warned, invoked, tokenCalls := [], [], 0;
    }

    /**
     * `config()`: read the configuration's sections, then authenticate the
     * configured repositories in section order. Returns the exception that
     * escaped, if one did.
     */
    method Config(sections: seq<string>, env: Env) returns (raised: Option<Escape>)
      modifies this, base
      ensures var r := Run(Fetcher(env), Start(old(base.repos), env.tokenVar), Dedup(sections));
        && base.repos == r.repos && raised == r.raised
        && warned == r.warned && invoked == r.tried && tokenCalls == r.calls
      ensures invoked == CallsTried(Fetcher(env), 0, tokenCalls)
    {
      var authMap := ParseConfig(sections);
      var keys := authMap.order;
      ghost var fetch := Fetcher(env);
      ghost var goal := Run(fetch, Start(base.repos, env.tokenVar), keys);
      TriedInCallOrder(fetch, Start(base.repos, env.tokenVar), keys);
      var token := env.tokenVar;
      var calls: nat := 0;
      ghost var tried: seq<Cmd> := [];
      ghost var warns: seq<string> := [];
      var i := 0;
      while i < |keys|
        invariant 0 <= i <= |keys|
        invariant goal == Run(fetch, Loop(base.repos, token, calls, tried, warns, None), keys[i..])
      {
        var key := keys[i];
        ghost var cur := Loop(base.repos, token, calls, tried, warns, None);
        assert keys[i..][0] == key && keys[i..][1..] == keys[i + 1..];
        assert goal == Run(fetch, Step(fetch, cur, key), keys[i + 1..]);
        if key in base.repos && base.repos[key].enabled {
          if !Truthy(token) {
            var f := GetToken(env.sudoUser, env.world(calls), env.decode);
            assert f == fetch(calls);
            ghost var resolved := Resolve(fetch, cur);
            calls := calls + 1;
            tried := tried + f.tried;
            match f.result
            case Raised(e) =>
              assert Step(fetch, cur, key) == resolved == Loop(base.repos, None, calls, tried, warns, Some(e));
              warned, invoked, tokenCalls := warns, tried, calls;
              raised := Some(e);
              return;
            case Got(t) =>
              token := Some(t);
              assert resolved == Loop(base.repos, token, calls, tried, warns, None);
            case NoToken =>
              token := None;
              assert resolved == Loop(base.repos, token, calls, tried, warns, None);
          }
          if Truthy(token) {
            base.SetHttpHeaders(key, AuthHeaders(token.value));
          } else {
            warns := warns + [key];
          }
        }
        assert goal == Run(fetch, Loop(base.repos, token, calls, tried, warns, None), keys[i + 1..]);
        i := i + 1;
      }
      warned, invoked, tokenCalls := warns, tried, calls;
      raised := None;
    }
  }
}
