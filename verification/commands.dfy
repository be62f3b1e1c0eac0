/**
 * The command lines the plugin hands to the operating system: the Azure CLI
 * token request, optionally wrapped in `runuser` to run it as another user.
 */
module Commands {
  import opened Wrappers

  /** An argument vector, as passed to `subprocess.run`. */
  type Cmd = seq<string>

  /** `AZ_COMMAND`: ask the Azure CLI for an access token scoped to Azure Storage, as JSON. */
  const AzCommand: Cmd :=
    ["az", "account", "get-access-token", "--output", "json", "--resource", "https://storage.azure.com"]

  /** The user a command line switches to through `runuser -u <user> --`, if any. */
  function RunAsUser(c: Cmd): Option<string>
  {
    if |c| >= 4 && c[0] == "runuser" && c[1] == "-u" && c[3] == "--" then Some(c[2]) else None
  }

  /** The program a command line finally executes, once a `runuser` wrapper is removed. */
  function Payload(c: Cmd): Cmd
  {
    if RunAsUser(c).Some? then c[4..] else c
  }

  /**
   * The command `get_token` tries first: the CLI run as the invoking user when
   * `SUDO_USER` is present in the environment (even when empty), the bare CLI
   * otherwise. Either way the program executed is `AzCommand`.
   */
  function FirstCommand(sudoUser: Option<string>): (c: Cmd)
    ensures RunAsUser(c) == sudoUser
    ensures Payload(c) == AzCommand
  {
    match sudoUser
    case Some(user) => ["runuser", "-u", user, "--"] + AzCommand
    case None => AzCommand
  }
}
