/** The STUN binding-discovery client as a whole: `main` scans the command
    line, then `run` resolves the server and asks the STUN engine for the
    mapped address through every resolved server address. */
module Stunbdc {
  import opened StunTypes
  import opened Cli
  import opened Discovery

  /** What one execution of the program produces: its exit status, the
      lines it writes, and the server addresses it hands to the STUN engine,
      in call order. */
  datatype Exec = Exec(exit: int, log: seq<Event>, probes: seq<SockAddr>)

  /** The resolver call `run` makes for a launch verdict. */
  function Resolution(v: Verdict, flags: bv32, resolve: Resolver): GaiResult
    requires v.Launch?
  {
    resolve(v.server, EffectiveService(v.port), Hints(v.family, Dgram, flags))
  }

  /** One execution of the program on `argv`, the global resolver flags
      holding `flags0` on entry. */
  function MainSpec(argv: seq<string>, flags0: bv32, resolve: Resolver, bind: Binder): (r: Exec)
    ensures r.exit == 0 || r.exit == 1 || r.exit == 2
    ensures r.exit != 0 ==> r.probes == [] && |r.log| == 1
  {
    var p := Classify(argv, flags0);
    match p.verdict
    case ShowHelp => Exec(0, [UsageText(argv[0])], [])
    case ShowVersion => Exec(0, [VersionText], [])
    case BadOption(arg) => Exec(2, [UnexpectedArgument(arg)], [])
    case TooManyOperands(arg) => Exec(2, [ExtraParameter(argv[0], arg)], [])
    case Launch(family, server, port) =>
      var service := EffectiveService(port);
      var gai := resolve(server, service, Hints(family, Dgram, p.flags));
      if gai.ret != 0 then Exec(1, [ResolveError(server, service, gai.ret)], [])
      else Exec(0, Trace(gai.res, bind), gai.res)
  }

  /** One process of the client; `aiFlags` is the program's static
      resolver-flags variable. */
  class Process {
    var aiFlags: bv32

    constructor ()
      ensures aiFlags == 0
    {
      aiFlags := 0;
    }

    /** `run`: resolve `hostname` and `service` (the default STUN port when
        absent), then try every resolved address in order. The result is 0
        as soon as resolution succeeds, whatever the engine answers. */
    method Run(family: Family, hostname: Option<string>, service: Option<string>,
               resolve: Resolver, bind: Binder)
      returns (ret: int, log: seq<Event>, probes: seq<SockAddr>)
      ensures var svc := EffectiveService(service);
        var gai := resolve(hostname, svc, Hints(family, Dgram, aiFlags));
        && (ret == 0 <==> gai.ret == 0)
        && (ret != 0 ==> ret == -1)
        && (gai.ret != 0 ==> log == [ResolveError(hostname, svc, gai.ret)] && probes == [])
        && (gai.ret == 0 ==> log == Trace(gai.res, bind) && probes == gai.res)
    {
      ret := -1;
      var svc := if service.None? then DEFAULT_SERVICE else service.value;
      var gai := resolve(hostname, svc, Hints(family, Dgram, aiFlags));
      ret := gai.ret;
      if ret != 0 {
        log := [ResolveError(hostname, svc, ret)];
        probes := [];
        return -1, log, probes;
      }
      var res := gai.res;
      log, probes := [], [];
      var k := 0;
      while k < |res|
        invariant k <= |res|
        invariant ret == 0
        invariant log == Trace(res[..k], bind)
        invariant probes == res[..k]
      {
        var server := res[k];
        log := log + [ServerAddr(server)];
        var reply := bind(k, server);
        probes := probes + [server];
        if reply.status != 0 {
          log := log + [Diag(reply.status)];
        } else {
          log := log + [Mapped(reply.mapped)];
          ret := 0;
        }
        assert res[..k + 1][..k] == res[..k];
        k := k + 1;
      }
      assert res[..k] == res;
    }

    /** The option loop of `main`: from argv[1], each option updates the
        family or the global flags in place, until a word that is not an
        option, the end of argv, or an option that ends `main`. */
    method ScanOptions(argv: seq<string>) returns (end: ScanEnd)
      modifies this
      ensures end == Scan(argv, 1, Unspec, old(aiFlags))
      ensures aiFlags == end.flags
    {
      var family := Unspec;
      var i := 1;
      while i < |argv|
        invariant 1 <= i
        invariant Scan(argv, i, family, aiFlags) == Scan(argv, 1, Unspec, old(aiFlags))
        decreases |argv| - i
      {
        var arg := argv[i];
        if |arg| == 0 || arg[0] != '-' {
          break;
        }
        // the chain of string comparisons, in the order `main` makes them
        match Recognise(arg) {
        case Ipv4 =>
          ScanStep(argv, i, family, aiFlags);
          family := Inet;
        case Ipv6 =>
          ScanStep(argv, i, family, aiFlags);
          family := Inet6;
        case Help =>
          return Halted(ShowHelp, aiFlags, i);
        case Numeric =>
          ScanStep(argv, i, family, aiFlags);
          aiFlags := aiFlags | AI_NUMERICHOST;
        case Version =>
          return Halted(ShowVersion, aiFlags, i);
        case Unknown =>
          return Halted(BadOption(arg), aiFlags, i);
        }
        i := i + 1;
      }
      return Operands(family, aiFlags, i);
    }

    /** `main`: the option loop, then the server and port words, then
        `run`; the exit status is 1 exactly when `run` returns non-zero. */
    method Invoke(argv: seq<string>, resolve: Resolver, bind: Binder)
      returns (exit: int, log: seq<Event>, probes: seq<SockAddr>)
      modifies this
      ensures aiFlags == Classify(argv, old(aiFlags)).flags
      ensures Exec(exit, log, probes) == MainSpec(argv, old(aiFlags), resolve, bind)
    {
      var server: Option<string> := None;
      var port: Option<string> := None;
      var end := ScanOptions(argv);
      if end.Halted? {
        HaltedMain(argv, old(aiFlags), resolve, bind);
        match end.verdict
        case ShowHelp => return 0, [UsageText(argv[0])], [];
        case ShowVersion => return 0, [VersionText], [];
        case _ => return 2, [UnexpectedArgument(argv[end.at])], [];
      }
      var family, i := end.family, end.at;
      OperandsMain(argv, i, family, aiFlags, old(aiFlags), resolve, bind);
      ghost var at := i;
      if i < |argv| {
        server := Some(argv[i]);
        i := i + 1;
      }
      if i < |argv| {
        port := Some(argv[i]);
        i := i + 1;
      }
      if i < |argv| {
        return 2, [ExtraParameter(argv[0], argv[i])], [];
      }
      var ret;
      ret, log, probes := Run(family, server, port, resolve, bind);
      exit := if ret != 0 then 1 else 0;
    }
  }

  /** The execution once the option scan reaches a halting option. */
  lemma HaltedMain(argv: seq<string>, flags0: bv32, resolve: Resolver, bind: Binder)
    requires Scan(argv, 1, Unspec, flags0).Halted?
    ensures var e := Scan(argv, 1, Unspec, flags0);
      && Classify(argv, flags0).flags == e.flags
      && MainSpec(argv, flags0, resolve, bind) == match Recognise(argv[e.at])
        case Help => Exec(0, [UsageText(argv[0])], [])
        case Version => Exec(0, [VersionText], [])
        case _ => Exec(2, [UnexpectedArgument(argv[e.at])], [])
  {
  }

  /** The execution once the option scan reaches the positional words at
      index `at`. */
  lemma OperandsMain(argv: seq<string>, at: nat, family: Family, flags: bv32, flags0: bv32,
                     resolve: Resolver, bind: Binder)
    requires at >= |argv| || !IsOption(argv[at])
    requires Scan(argv, at, family, flags) == Scan(argv, 1, Unspec, flags0)
    ensures Classify(argv, flags0).flags == flags
    ensures at + 2 < |argv| ==>
      MainSpec(argv, flags0, resolve, bind) == Exec(2, [ExtraParameter(argv[0], argv[at + 2])], [])
    ensures at + 2 >= |argv| ==>
      var server := if at < |argv| then Some(argv[at]) else None;
      var port := if at + 1 < |argv| then Some(argv[at + 1]) else None;
      var service := EffectiveService(port);
      var gai := resolve(server, service, Hints(family, Dgram, flags));
      MainSpec(argv, flags0, resolve, bind)
        == if gai.ret != 0 then Exec(1, [ResolveError(server, service, gai.ret)], [])
           else Exec(0, Trace(gai.res, bind), gai.res)
  {
  }

  /** The exit status is 0, 1 or 2: 2 exactly for a usage error, 1 exactly
      when resolution fails. The engine is called, on the resolved list,
      only after a successful resolution; help, version and usage errors
      write one line. */
  lemma ExitStatuses(argv: seq<string>, flags0: bv32, resolve: Resolver, bind: Binder)
    ensures var r := MainSpec(argv, flags0, resolve, bind);
      r.exit == 0 || r.exit == 1 || r.exit == 2
    ensures var r := MainSpec(argv, flags0, resolve, bind);
      var p := Classify(argv, flags0);
      r.exit == 2 <==> p.verdict.BadOption? || p.verdict.TooManyOperands?
    ensures var r := MainSpec(argv, flags0, resolve, bind);
      var p := Classify(argv, flags0);
      r.exit == 1 <==> p.verdict.Launch? && Resolution(p.verdict, p.flags, resolve).ret != 0
    ensures var r := MainSpec(argv, flags0, resolve, bind);
      var p := Classify(argv, flags0);
      r.probes != [] ==> p.verdict.Launch? && Resolution(p.verdict, p.flags, resolve).ret == 0
                         && r.probes == Resolution(p.verdict, p.flags, resolve).res
    ensures var r := MainSpec(argv, flags0, resolve, bind);
      !Classify(argv, flags0).verdict.Launch? ==> r.probes == [] && |r.log| == 1
  {
  }

  /** The exit status does not depend on the STUN engine's answers: it is
      0 whenever resolution succeeds, even when every attempt fails. */
  lemma ExitIgnoresEngine(argv: seq<string>, flags0: bv32, resolve: Resolver, b1: Binder, b2: Binder)
    ensures MainSpec(argv, flags0, resolve, b1).exit == MainSpec(argv, flags0, resolve, b2).exit
  {
  }

  /** Every resolved address is tried and fails, yet the program exits 0
      and reports no mapped address. */
  lemma ExitZeroWhenEveryAttemptFails(argv: seq<string>, flags0: bv32, resolve: Resolver, bind: Binder)
    requires Classify(argv, flags0).verdict.Launch?
    requires var p := Classify(argv, flags0);
      var gai := Resolution(p.verdict, p.flags, resolve);
      gai.ret == 0 && forall k :: 0 <= k < |gai.res| ==> bind(k, gai.res[k]).status != 0
    ensures var r := MainSpec(argv, flags0, resolve, bind);
      var p := Classify(argv, flags0);
      && r.exit == 0
      && ServerReports(r.log) == Resolution(p.verdict, p.flags, resolve).res
      && MappedReports(r.log) == []
  {
    var p := Classify(argv, flags0);
    var gai := Resolution(p.verdict, p.flags, resolve);
    TraceServers(gai.res, bind);
    AllFailedNoMapped(gai.res, bind);
  }

  /** A resolution failure gives exactly one diagnostic, no engine call and
      exit status 1. */
  lemma ResolutionFailure(argv: seq<string>, flags0: bv32, resolve: Resolver, bind: Binder)
    requires Classify(argv, flags0).verdict.Launch?
    requires var p := Classify(argv, flags0); Resolution(p.verdict, p.flags, resolve).ret != 0
    ensures var r := MainSpec(argv, flags0, resolve, bind);
      var p := Classify(argv, flags0);
      && r.exit == 1 && r.probes == []
      && r.log == [ResolveError(p.verdict.server, EffectiveService(p.verdict.port),
                                Resolution(p.verdict, p.flags, resolve).ret)]
      && ServerReports(r.log) == [] && MappedReports(r.log) == []
  {
  }

  /** Options are handled in order: help before an unknown option exits 0
      without looking at the unknown option. */
  lemma HelpBeforeUnknownOption(flags0: bv32, resolve: Resolver, bind: Binder)
    ensures MainSpec(["stunbdc", "--help", "--bogus"], flags0, resolve, bind)
         == Exec(0, [UsageText("stunbdc")], [])
  {
    assert Recognise("--help") == Help;
  }

  /** An unknown option before help exits 2; help is never reached. */
  lemma UnknownOptionBeforeHelp(flags0: bv32, resolve: Resolver, bind: Binder)
    ensures MainSpec(["stunbdc", "--bogus", "--help"], flags0, resolve, bind)
         == Exec(2, [UnexpectedArgument("--bogus")], [])
  {
    assert Recognise("--bogus") == Unknown;
  }

  /** `-n` before `-V` has already set the global flags when the version is
      shown; `-4` after it is never examined. */
  lemma VersionAfterNumeric(resolve: Resolver, bind: Binder)
    ensures Classify(["stunbdc", "-n", "-V", "-4"], 0) == Parsed(ShowVersion, AI_NUMERICHOST)
    ensures MainSpec(["stunbdc", "-n", "-V", "-4"], 0, resolve, bind) == Exec(0, [VersionText], [])
  {
    assert Recognise("-n") == Numeric;
    assert Recognise("-V") == Version;
  }

  /** A host and no port: the resolver is asked for the default
      STUN port, and one successful attempt gives one server line and one
      mapped line. */
  lemma DefaultPortScenario(resolve: Resolver, bind: Binder, server: SockAddr, mapped: SockAddr)
    requires resolve(Some("203.0.113.7"), "3478", Hints(Unspec, Dgram, 0)) == GaiResult(0, [server])
    requires bind(0, server) == BindReply(0, mapped)
    ensures MainSpec(["stunbdc", "203.0.113.7"], 0, resolve, bind)
         == Exec(0, [ServerAddr(server), Mapped(mapped)], [server])
  {
    assert [server][..0] == [];
  }

  /** Without a server word the resolver is called with no host at all;
      nothing checks it first. */
  lemma MissingServerPassedThrough(resolve: Resolver, bind: Binder)
    ensures MainSpec(["stunbdc"], 0, resolve, bind).exit
         == if resolve(None, "3478", Hints(Unspec, Dgram, 0)).ret != 0 then 1 else 0
    ensures MainSpec(["stunbdc", "-n"], 0, resolve, bind).exit
         == if resolve(None, "3478", Hints(Unspec, Dgram, AI_NUMERICHOST)).ret != 0 then 1 else 0
  {
  }
}
