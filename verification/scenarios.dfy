/**
 * Concrete runs of the plugin: a sudo user whose CLI session is rejected,
 * a pre-generated token, and a repository that is not configured.
 */
module Scenarios {
  import opened Wrappers
  import opened Commands
  import opened TokenFetch
  import opened Plugin

  /** A CLI that fails when run through `runuser` and prints a token document otherwise. */
  function RootOnly(c: Cmd): Outcome
  {
    if RunAsUser(c).Some? then NonZeroExit else Exited("{\"accessToken\": \"tok1\"}")
  }

  /** Any output decodes to the token `tok1`. */
  function AlwaysTok1(out: string): Extract
  {
    Token("tok1")
  }

  /** Two strings whose characters line up with a third concatenate to it. */
  lemma Joined(a: string, b: string, c: string)
    requires |a| + |b| == |c|
    requires forall i :: 0 <= i < |a| ==> a[i] == c[i]
    requires forall i :: 0 <= i < |b| ==> b[i] == c[|a| + i]
    ensures a + b == c
  {
  }

  /** Under `sudo` as alice, with alice's session rejected: two commands, alice first, then root's token. */
  lemma SudoFallbackScenario()
    ensures var f := GetToken(Some("alice"), RootOnly, AlwaysTok1);
      && f.tried == [["runuser", "-u", "alice", "--"] + AzCommand, AzCommand]
      && f.result == Got("tok1")
  {
  }

  /** One configured, enabled repository and the same CLI: it gets root's token. */
  lemma SudoFallbackHeadersScenario()
    ensures var env := Env(None, Some("alice"), (n: nat) => RootOnly, AlwaysTok1);
      var r := Run(Fetcher(env), Start(map["azure-rpm-repo" := Repo(true, [])], None), ["azure-rpm-repo"]);
      && r.repos["azure-rpm-repo"].headers == ["x-ms-version: 2022-11-02", "Authorization: Bearer tok1"]
      && r.calls == 1 && r.tried == [["runuser", "-u", "alice", "--"] + AzCommand, AzCommand] && r.warned == [] && r.raised.None?
  {
    var env := Env(None, Some("alice"), (n: nat) => RootOnly, AlwaysTok1);
    SudoFallbackScenario();
    assert Fetcher(env)(0) == GetToken(Some("alice"), RootOnly, AlwaysTok1);
    Joined("Authorization: Bearer ", "tok1", "Authorization: Bearer tok1");
  }

  /** `DNF_PLUGIN_AZURE_AUTH_TOKEN=zzz999`: the CLI is never run. */
  lemma EnvTokenScenario(world: nat -> Cmd -> Outcome, decode: string -> Extract)
    ensures var env := Env(Some("zzz999"), None, world, decode);
      var r := Run(Fetcher(env), Start(map["azure-rpm-repo" := Repo(true, [])], Some("zzz999")), ["azure-rpm-repo"]);
      && r.repos["azure-rpm-repo"].headers == ["x-ms-version: 2022-11-02", "Authorization: Bearer zzz999"]
      && r.calls == 0 && r.tried == []
  {
    var env := Env(Some("zzz999"), None, world, decode);
    var repos := map["azure-rpm-repo" := Repo(true, [])];
    EnvTokenShortCircuits(Fetcher(env), Some("zzz999"), repos, ["azure-rpm-repo"]);
    Joined("Authorization: Bearer ", "zzz999", "Authorization: Bearer zzz999");
  }

  /** A repository with no section is neither authenticated nor the cause of a CLI run. */
  lemma UnconfiguredRepoScenario(env: Env)
    ensures var repos := map["azure-rpm-repo" := Repo(true, [])];
      var r := Run(Fetcher(env), Start(repos, env.tokenVar), ["other-repo"]);
      && r.repos == repos && r.calls == 0 && r.tried == [] && r.warned == []
  {
  }
}
