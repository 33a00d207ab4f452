/**
 * The wireless evaluation driver: it chooses the executables for the
 * protocol under test, builds each host's command line and log directory,
 * and runs a fixed number of rounds, interrupting the clients once so that
 * they stop publishing for the last three rounds.
 */
module EvalWifi {
  import opened Wrappers
  import opened Text
  import opened Ndn
  import Scenario
  import Program
  import SvsClient

  const Platoons := 4
  /** Rounds while the clients publish; three more rounds follow the interrupt. */
  const NumRounds := 2
  const Iterations := (NumRounds + 3) * Platoons + 1
  /** The iteration at which the clients are interrupted. */
  const SigintIteration := NumRounds * Platoons

  const SvsBuildDirectory := "/home/vagrant/svs-pubsub-eval/svs-client"
  const DtnDirectory := "/home/vagrant/dtn7-go"

  /**
   * The client and relay executables for a protocol, as directory and file
   * name; any other protocol leaves both unset.
   */
  function Executables(proto: string): (r: (Option<string>, Option<string>))
    ensures r.0.Some? <==> proto in {"svs", "syncps", "ip"}
    ensures r.0.Some? <==> r.1.Some?
  {
    if proto == "svs" then
      (Some(SvsBuildDirectory + "/" + "SVSClient"), Some(SvsBuildDirectory + "/" + "SVSUAV"))
    else if proto == "syncps" then
      (Some(SvsBuildDirectory + "/" + "SyncpsClient"), Some(SvsBuildDirectory + "/" + "SyncpsUAV"))
    else if proto == "ip" then
      (Some(DtnDirectory + "/" + "dtnd"), Some(DtnDirectory + "/" + "uav"))
    else (None, None)
  }

  /** How `str.format` renders an executable that may be unset. */
  function Show(exe: Option<string>): string
  {
    if exe.Some? then exe.value else "None"
  }

  /** The last '/'-separated field of a path: the process name `pkill` matches. */
  function Basename(path: string): string
  {
    var fields := Split(path, '/');
    fields[|fields| - 1]
  }

  /** `{LOG_MAIN_DIRECTORY}/{PROTO}/{RUN_NUMBER}`. */
  function GetLogPath(logMainDirectory: string, proto: string, runNumber: int): (r: string)
    ensures '/' !in proto ==> Split(r, '/') == Split(logMainDirectory, '/') + [proto, IntToString(runNumber)]
  {
    var run := IntToString(runNumber);
    assert '/' !in run;
    assert logMainDirectory + "/" + proto + "/" + run == logMainDirectory + ['/'] + proto + ['/'] + run;
    SplitTwoLast(logMainDirectory, proto, run, '/');
    logMainDirectory + "/" + proto + "/" + run
  }

  /**
   * A client's shell command, token by token as the format string spaces
   * them. The prefix is computed for every host, so a malformed host name
   * fails for every protocol; "ip" passes the node name and two extra
   * arguments, the others pass the prefix.
   */
  function ClientCommand(proto: string, app: Option<string>, logPath: string, node: string): (r: Result<string, Scenario.IndexError>)
    ensures r.Failure? <==> Count(node, '_') < 2
    ensures r.Success? ==> |Show(app)| < |r.value| && r.value[..|Show(app)|] == Show(app) && r.value[|r.value| - 1] == '&'
  {
    match Scenario.UnitnameToNamePrefix(node)
    case Failure(e) => Failure(e)
    case Success(prefix) =>
      var tokens :=
        if proto == "ip" then
          [Show(app), node, logPath + "/" + node + ".log", ":8333", "store_" + node,
           ">", logPath + "/stdout/" + node + ".log", "2>", logPath + "/stderr/" + node + ".log", "&"]
        else
          [Show(app), prefix, logPath + "/" + node + ".log",
           ">", logPath + "/stdout/" + node + ".log", "2>", logPath + "/stderr/" + node + ".log", "&"];
      JoinEnds(tokens, ' ');
      Success(Join(tokens, ' '))
  }

  /** The relay's shell command; for "ip" the "/uav" argument is not used by the format string. */
  function UavCommand(proto: string, uav: Option<string>, logPath: string, node: string): (r: string)
    ensures |Show(uav)| < |r| && r[..|Show(uav)|] == Show(uav) && r[|r| - 1] == '&'
  {
    var tokens :=
      if proto == "ip" then
        [Show(uav), node, logPath + "/" + node + ".log", ":8333", "store_" + node,
         ">", logPath + "/stdout/" + node + ".log", "2>", logPath + "/stderr/" + node + ".log", "&"]
      else
        [Show(uav), ">", logPath + "/stdout/" + node + ".log", "2>", logPath + "/stderr/" + node + ".log", "&"];
    JoinEnds(tokens, ' ');
    Join(tokens, ' ')
  }

  /** The words of a command before its first output redirection: the program's argv. */
  function Argv(tokens: seq<string>): (r: seq<string>)
    ensures |r| <= |tokens| && r == tokens[..|r|]
    ensures forall k :: 0 <= k < |r| ==> r[k] != ">"
    ensures |r| < |tokens| ==> tokens[|r|] == ">"
  {
    if tokens == [] || tokens[0] == ">" then [] else [tokens[0]] + Argv(tokens[1..])
  }

  /** The base name of `dir/file` is `file` when `file` holds no '/'. */
  lemma BasenameOf(dir: string, file: string)
    requires '/' !in file
    ensures Basename(dir + "/" + file) == file
  {
    assert dir + "/" + file == dir + ['/'] + file;
    SplitConcat(dir, file, '/');
    SplitNoSep(file, '/');
  }

  /** The process names `pkill` and `killall` are given for the three known protocols. */
  lemma ProcessNames()
    ensures Basename(Executables("svs").0.value) == "SVSClient"
    ensures Basename(Executables("syncps").0.value) == "SyncpsClient"
    ensures Basename(Executables("ip").0.value) == "dtnd"
    ensures Basename(Executables("svs").1.value) == "SVSUAV"
    ensures Basename(Executables("syncps").1.value) == "SyncpsUAV"
    ensures Basename(Executables("ip").1.value) == "uav"
  {
    BasenameOf(SvsBuildDirectory, "SVSClient");
    BasenameOf(SvsBuildDirectory, "SyncpsClient");
    BasenameOf(DtnDirectory, "dtnd");
    BasenameOf(SvsBuildDirectory, "SVSUAV");
    BasenameOf(SvsBuildDirectory, "SyncpsUAV");
    BasenameOf(DtnDirectory, "uav");
  }

  /** Different runs of the same protocol log to different directories. */
  lemma LogPathsDistinct(logMainDirectory: string, proto: string, run1: int, run2: int)
    requires '/' !in proto && run1 != run2
    ensures GetLogPath(logMainDirectory, proto, run1) != GetLogPath(logMainDirectory, proto, run2)
  {
    var n := |Split(logMainDirectory, '/')|;
    if IntToString(run1) == IntToString(run2) {
      IntToStringInjective(run1, run2);
    }
    assert Split(GetLogPath(logMainDirectory, proto, run1), '/')[n + 1] == IntToString(run1);
  }

  /** The argv of words whose first redirection is word n is words 0..n-1. */
  lemma {:induction false} ArgvUpTo(tokens: seq<string>, n: nat)
    requires n < |tokens| && tokens[n] == ">"
    requires forall k :: 0 <= k < n ==> tokens[k] != ">"
    ensures Argv(tokens) == tokens[..n]
  {
    if n > 0 {
      ArgvUpTo(tokens[1..], n - 1);
      assert tokens[..n] == [tokens[0]] + tokens[1..][..n - 1];
    }
  }

  /**
   * A command whose words hold no space and whose first redirection is word
   * n starts its program with words 0..n-1 as argv.
   */
  lemma ArgvOfCommand(tokens: seq<string>, n: nat)
    requires n < |tokens| && tokens[n] == ">"
    requires forall k :: 0 <= k < n ==> tokens[k] != ">"
    requires forall k :: 0 <= k < |tokens| ==> ' ' !in tokens[k]
    ensures Argv(Split(Join(tokens, ' '), ' ')) == tokens[..n]
  {
    SplitJoin(tokens, ' ');
    ArgvUpTo(tokens, n);
  }

  lemma UnitNamePlain(i: nat, j: nat)
    ensures ' ' !in Scenario.UnitName(i, j) && |Scenario.UnitName(i, j)| >= 5
  {
    assert ' ' !in NatToString(i) && ' ' !in NatToString(j);
  }

  /**
   * For "svs" and "syncps", the command started on host `unit_i_j` gives
   * the client exactly the arguments its command line accepts: the
   * participant `/ndn/platoon<i>/unit<j>`, of platoon `platoon<i>`, and its
   * log file. The executable path is any word without a space.
   */
  lemma ClientStartsAsParticipant(proto: string, app: string, logPath: string, i: nat, j: nat)
    requires proto != "ip"
    requires ' ' !in app && app != ">" && ' ' !in logPath
    ensures var cmd := ClientCommand(proto, Some(app), logPath, Scenario.UnitName(i, j));
      && cmd.Success?
      && var args := Program.ParseClientArgs(Argv(Split(cmd.value, ' ')));
      && args.Success?
      && args.value.0 == [Generic("ndn"), Generic(SvsClient.PlatoonName(i)), Generic("unit" + NatToString(j))]
      && SvsClient.PlatoonId(args.value.0) == Some(SvsClient.PlatoonName(i))
      && args.value.1 == logPath + "/" + Scenario.UnitName(i, j) + ".log"
  {
    var node := Scenario.UnitName(i, j);
    Scenario.UnitnameOfHost(i, j);
    Scenario.HostJoinsPlatoon(i, j);
    UnitNamePlain(i, j);
    var prefix := Scenario.UnitnameToNamePrefix(node).value;
    assert ' ' !in NatToString(i) && ' ' !in NatToString(j);
    assert ' ' !in prefix;
    var tokens := [app, prefix, logPath + "/" + node + ".log",
                   ">", logPath + "/stdout/" + node + ".log", "2>", logPath + "/stderr/" + node + ".log", "&"];
    ArgvOfCommand(tokens, 3);
  }

  /** For "ip", the daemon gets the node name, its log file, the port and its store directory. */
  lemma IpClientArguments(app: string, logPath: string, i: nat, j: nat)
    requires ' ' !in app && app != ">" && ' ' !in logPath
    ensures var node := Scenario.UnitName(i, j);
      var cmd := ClientCommand("ip", Some(app), logPath, node);
      && cmd.Success?
      && Argv(Split(cmd.value, ' ')) == [app, node, logPath + "/" + node + ".log", ":8333", "store_" + node]
  {
    var node := Scenario.UnitName(i, j);
    Scenario.UnitnameOfHost(i, j);
    UnitNamePlain(i, j);
    var tokens := [app, node, logPath + "/" + node + ".log", ":8333", "store_" + node,
                   ">", logPath + "/stdout/" + node + ".log", "2>", logPath + "/stderr/" + node + ".log", "&"];
    ArgvOfCommand(tokens, 5);
  }

  /**
   * The relay's command: outside "ip" it is started with no argument at
   * all; under "ip" it gets the same arguments as a client daemon.
   */
  lemma UavArguments(proto: string, uav: string, logPath: string, node: string)
    requires ' ' !in uav && uav != ">" && ' ' !in logPath && ' ' !in node && node != ">"
    ensures proto != "ip" ==> Argv(Split(UavCommand(proto, Some(uav), logPath, node), ' ')) == [uav]
    ensures proto == "ip" ==>
      Argv(Split(UavCommand(proto, Some(uav), logPath, node), ' '))
        == [uav, node, logPath + "/" + node + ".log", ":8333", "store_" + node]
  {
    if proto == "ip" {
      var tokens := [uav, node, logPath + "/" + node + ".log", ":8333", "store_" + node,
                     ">", logPath + "/stdout/" + node + ".log", "2>", logPath + "/stderr/" + node + ".log", "&"];
      ArgvOfCommand(tokens, 5);
    } else {
      var tokens := [uav, ">", logPath + "/stdout/" + node + ".log", "2>", logPath + "/stderr/" + node + ".log", "&"];
      ArgvOfCommand(tokens, 1);
    }
  }

  /**
   * The round loop of one run and the kill commands after it, each paired
   * with the number of link switches made before it. `current_link` starts
   * at 1 and advances by one modulo the number of platoons at every
   * iteration; at iteration `SigintIteration` the clients get SIGINT, and
   * after the last iteration clients and relay are killed. An unset
   * executable makes building the command that names it fail, which ends
   * the run there.
   */
  method RoundLoop(app: Option<string>, uav: Option<string>) returns (commands: seq<(nat, string)>, links: seq<int>, completed: bool)
    ensures completed <==> app.Some? && uav.Some?
    ensures app.None? ==> |links| == SigintIteration && commands == []
    ensures app.Some? ==> |links| == Iterations
    ensures app.Some? && uav.Some? ==> commands == [(SigintIteration, "pkill -SIGINT " + Basename(app.value)),
      (Iterations, "killall " + Basename(app.value)), (Iterations, "killall " + Basename(uav.value))]
    ensures app.Some? && uav.None? ==> commands == [(SigintIteration, "pkill -SIGINT " + Basename(app.value)),
      (Iterations, "killall " + Basename(app.value))]
    ensures forall k :: 0 <= k < |links| ==> links[k] == (k + 2) % Platoons && 0 <= links[k] < Platoons
  {
    var currentLink := 1;
    commands, links := [], [];
    for i := 0 to Iterations
      invariant |links| == i && currentLink == (i + 1) % Platoons
      invariant i <= SigintIteration ==> commands == []
      invariant i > SigintIteration ==> app.Some? && commands == [(SigintIteration, "pkill -SIGINT " + Basename(app.value))]
      invariant forall k :: 0 <= k < i ==> links[k] == (k + 2) % Platoons && 0 <= links[k] < Platoons
    {
      if i == SigintIteration {
        if app.None? {
          return commands, links, false;
        }
        commands := commands + [(i, "pkill -SIGINT " + Basename(app.value))];
      }
      currentLink := (currentLink + 1) % Platoons;
      links := links + [currentLink];
    }
    commands := commands + [(|links|, "killall " + Basename(app.value))];
    if uav.None? {
      return commands, links, false;
    }
    commands := commands + [(|links|, "killall " + Basename(uav.value))];
    completed := true;
  }
}
