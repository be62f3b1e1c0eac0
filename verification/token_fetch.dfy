/**
 * `get_token`: obtain an Azure AD access token from the Azure CLI, with at most
 * one retry. Running a process and decoding its JSON output are not modelled;
 * they are the parameters `run` (what a command line does when executed) and
 * `decode` (what `json.loads(stdout)["accessToken"]` yields).
 */
module TokenFetch {
  import opened Wrappers
  import opened Commands

  /** What `subprocess.run(cmd, check=True, ...)` does. */
  datatype Outcome =
    | Exited(stdout: string)   // exit status 0, with the captured standard output
    | NonZeroExit              // raises `CalledProcessError`
    | NotFound                 // the executable is missing: raises `FileNotFoundError`

  /** What `json.loads(stdout)["accessToken"]` does. */
  datatype Extract =
    | Token(value: string)     // the `accessToken` field
    | DecodeError              // raises `JSONDecodeError`
    | KeyMissing               // raises `KeyError` (no such field)

  /** The exceptions that can escape `get_token`. */
  datatype Escape = KeyError | JsonDecodeError | FileNotFoundError

  /** What a call to `get_token` ends with: a token, `None`, or an escaping exception. */
  datatype TokenResult = Got(token: string) | NoToken | Raised(error: Escape)

  /** The result of one call, with the command lines it ran, in order. */
  datatype Fetch = Fetch(result: TokenResult, tried: seq<Cmd>)

  /** The first attempt catches a decode error, not a missing key. */
  function FromFirstAttempt(e: Extract): TokenResult
  {
    match e
    case Token(t) => Got(t)
    case DecodeError => NoToken
    case KeyMissing => Raised(KeyError)
  }

  /**
   * The retry runs inside the `except CalledProcessError` handler, so nothing
   * it raises is caught except a further `CalledProcessError`.
   */
  function FromRetry(o: Outcome, decode: string -> Extract): TokenResult
  {
    match o
    case Exited(out) =>
      (match decode(out)
       case Token(t) => Got(t)
       case DecodeError => Raised(JsonDecodeError)
       case KeyMissing => Raised(KeyError))
    case NonZeroExit => NoToken
    case NotFound => Raised(FileNotFoundError)
  }

  /** True when the output of `o` decodes to a token. */
  predicate Yields(o: Outcome, decode: string -> Extract)
  {
    o.Exited? && decode(o.stdout).Token?
  }

  function GetToken(sudoUser: Option<string>, run: Cmd -> Outcome, decode: string -> Extract): (f: Fetch)
    ensures 1 <= |f.tried| <= 2
    ensures f.tried[0] == FirstCommand(sudoUser)
  {
    var first := FirstCommand(sudoUser);
    match run(first)
    case Exited(out) => Fetch(FromFirstAttempt(decode(out)), [first])
    case NotFound => Fetch(NoToken, [first])
    case NonZeroExit =>
      if sudoUser.Some? then Fetch(FromRetry(run(AzCommand), decode), [first, AzCommand])
      else Fetch(NoToken, [first])
  }

  /** What a call to `get_token` runs and returns, in terms of what its commands did. */
  lemma GetTokenOutcomes(sudoUser: Option<string>, run: Cmd -> Outcome, decode: string -> Extract)
    ensures var f := GetToken(sudoUser, run, decode);
      var last := run(f.tried[|f.tried| - 1]);
      // the retry happens exactly when the first command exited non-zero under sudo,
      // and it runs the bare CLI as the current identity
      && (|f.tried| == 2 <==> sudoUser.Some? && run(FirstCommand(sudoUser)).NonZeroExit?)
      && (|f.tried| == 2 ==> f.tried[1] == AzCommand && RunAsUser(f.tried[1]).None?)
      // a token is returned exactly when the last command ran yields one, and it is that token
      && (f.result.Got? <==> Yields(last, decode))
      && (f.result.Got? ==> decode(last.stdout) == Token(f.result.token))
      // a missing access-token field is never caught
      && ((exists i :: 0 <= i < |f.tried| && run(f.tried[i]).Exited? &&
             decode(run(f.tried[i]).stdout).KeyMissing?)
            ==> f.result == Raised(KeyError))
      // the retry lets a decode error or a missing executable escape, and only the retry does
      && (|f.tried| == 2 && last.NotFound? ==> f.result == Raised(FileNotFoundError))
      && (|f.tried| == 2 && last.Exited? && decode(last.stdout).DecodeError? ==>
            f.result == Raised(JsonDecodeError))
      && (f.result.Raised? && f.result.error != KeyError ==> |f.tried| == 2)
  {
  }

  /**
   * Whenever a call runs two commands, both run the same CLI command line, the
   * first as the invoking user and the second as the current identity. This is
   * a corollary of the retry clause of `GetTokenOutcomes` and of the contract
   * of `FirstCommand`, stated here as one fact.
   */
  lemma RetrySwitchesIdentity(sudoUser: Option<string>, run: Cmd -> Outcome, decode: string -> Extract)
    requires |GetToken(sudoUser, run, decode).tried| == 2
    ensures var f := GetToken(sudoUser, run, decode);
      && sudoUser.Some?
      && RunAsUser(f.tried[0]) == sudoUser && RunAsUser(f.tried[1]).None?
      && Payload(f.tried[0]) == Payload(f.tried[1]) == AzCommand
      && f.tried[0] != f.tried[1]
  {
  }

  /** Without a retry, every failure of the single attempt other than a missing field ends in `None`. */
  lemma NoRetryFailuresEndInNone(sudoUser: Option<string>, run: Cmd -> Outcome, decode: string -> Extract)
    requires var o := run(FirstCommand(sudoUser));
      o.NotFound? || (o.Exited? && decode(o.stdout).DecodeError?) || (o.NonZeroExit? && sudoUser.None?)
    ensures GetToken(sudoUser, run, decode) == Fetch(NoToken, [FirstCommand(sudoUser)])
  {
  }

  /**
   * The attempt order the docstring and the retry comment describe: as the
   * invoking user first when there is one, then as the current identity.
   */
  function AttemptOrder(sudoUser: Option<string>): (cmds: seq<Cmd>)
  {
    if sudoUser.Some? then [FirstCommand(sudoUser), AzCommand] else [AzCommand]
  }

  /** Reference fallback: try each command in turn, stop at the first that yields a token. */
  function FirstSuccess(cmds: seq<Cmd>, run: Cmd -> Outcome, decode: string -> Extract): (f: Fetch)
    ensures |f.tried| <= |cmds|
    ensures f.tried == cmds[..|f.tried|]
    ensures f.result.Got? <==> exists i :: 0 <= i < |cmds| && Yields(run(cmds[i]), decode)
    ensures f.result.Got? ==>
              |f.tried| > 0 && Yields(run(f.tried[|f.tried| - 1]), decode) &&
              decode(run(f.tried[|f.tried| - 1]).stdout) == Token(f.result.token)
    ensures !f.result.Raised?
    decreases |cmds|
  {
    if cmds == [] then Fetch(NoToken, [])
    else if Yields(run(cmds[0]), decode) then Fetch(Got(decode(run(cmds[0]).stdout).value), [cmds[0]])
    else
      var rest := FirstSuccess(cmds[1..], run, decode);
      assert forall i :: 1 <= i < |cmds| ==> cmds[i] == cmds[1..][i - 1];
      Fetch(rest.result, [cmds[0]] + rest.tried)
  }

  /**
   * When every command the attempt order reaches either yields a token or
   * exits non-zero, `get_token`'s fallback is first success in attempt order.
   */
  lemma AgreesWithAttemptOrder(sudoUser: Option<string>, run: Cmd -> Outcome, decode: string -> Extract)
    requires forall c :: c in FirstSuccess(AttemptOrder(sudoUser), run, decode).tried ==>
               Yields(run(c), decode) || run(c).NonZeroExit?
    ensures GetToken(sudoUser, run, decode) == FirstSuccess(AttemptOrder(sudoUser), run, decode)
  {
  }

  /**
   * Under sudo, a first attempt that cannot be decoded or whose executable is
   * missing is not retried. The retry comment, read as covering any error,
   * would have the attempt order fall back to the current identity.
   */
  lemma NoFallbackAfterDecodeErrorOrMissingBinary(user: string, run: Cmd -> Outcome, decode: string -> Extract)
    requires var o := run(FirstCommand(Some(user)));
      o.NotFound? || (o.Exited? && decode(o.stdout).DecodeError?)
    ensures GetToken(Some(user), run, decode).tried == [FirstCommand(Some(user))]
    ensures FirstSuccess(AttemptOrder(Some(user)), run, decode).tried == AttemptOrder(Some(user))
  {
  }
}
