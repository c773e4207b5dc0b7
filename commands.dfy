/**
 * `get_apt_list`: the shell command the bot runs on the remote host. With an
 * argument it asks apt about that package, otherwise it lists the first ten
 * installed packages. The argument is pasted in as it is, without quoting.
 */
module Commands {

  const AptShowPrefix: string := "apt show "
  const AptListInstalled: string := "apt list --installed | head -n 10"

  /** Whatever the arguments, the command runs apt. */
  function AptCommand(args: seq<string>): (cmd: string)
    ensures |cmd| > 4 && cmd[..4] == "apt "
  {
    if |args| > 0 then AptShowPrefix + args[0] else AptListInstalled
  }

  /** The installed-package listing runs exactly when no argument is given. */
  lemma AptListIffNoArgs(args: seq<string>)
    ensures AptCommand(args) == AptListInstalled <==> args == []
  {
    if args != [] {
      assert AptCommand(args)[4] != AptListInstalled[4];
    }
  }

  /** The first argument appears verbatim after the prefix, whatever it holds. */
  lemma AptShowCarriesArgument(args: seq<string>)
    requires args != []
    ensures |AptCommand(args)| == |AptShowPrefix| + |args[0]|
    ensures AptCommand(args)[..|AptShowPrefix|] == AptShowPrefix
    ensures AptCommand(args)[|AptShowPrefix|..] == args[0]
  {
  }

  /** Arguments after the first are ignored. */
  lemma LaterArgsIgnored(args: seq<string>, more: seq<string>)
    requires args != []
    ensures AptCommand(args + more) == AptCommand(args[..1])
  {
    assert (args + more)[0] == args[0];
  }

  /** Nothing stops the argument from carrying a second shell command. */
  lemma UnquotedArgument()
    ensures AptCommand(["curl;reboot"]) == "apt show curl;reboot"
  {
  }
}
