/** The command-line scan of `main`: options are read left to right from
    argv[1] until the first word that does not start with '-', then at most
    two positional words (server, port) follow. */
module Cli {
  import opened StunTypes

  /** AI_NUMERICHOST, the bit `-n` ORs into the resolver flags. */
  const AI_NUMERICHOST: bv32 := 0x0004

  /** The recognised spellings, in the order `main` tests them. */
  datatype Opt = Ipv4 | Ipv6 | Help | Numeric | Version | Unknown

  /** Whether the scan treats `arg` as an option; the empty word's first
      character is the terminating NUL, which is not '-'. */
  predicate IsOption(arg: string)
  {
    |arg| > 0 && arg[0] == '-'
  }

  /** The option `arg` spells; every recognised spelling is a dash word of
      at least two characters. */
  function Recognise(arg: string): (o: Opt)
    ensures o != Unknown ==> IsOption(arg) && 2 <= |arg|
  {
    if arg == "--ipv4" || arg == "-4" then Ipv4
    else if arg == "--ipv6" || arg == "-6" then Ipv6
    else if arg == "--help" || arg == "-h" then Help
    else if arg == "--numeric" || arg == "-n" then Numeric
    else if arg == "--version" || arg == "-V" then Version
    else Unknown
  }

  /** Each option has exactly two spellings, a long and a short one; as no
      word has two meanings, the order of the tests does not matter. */
  lemma RecogniseSpellings(arg: string)
    ensures Recognise(arg) == Ipv4 <==> arg == "--ipv4" || arg == "-4"
    ensures Recognise(arg) == Ipv6 <==> arg == "--ipv6" || arg == "-6"
    ensures Recognise(arg) == Help <==> arg == "--help" || arg == "-h"
    ensures Recognise(arg) == Numeric <==> arg == "--numeric" || arg == "-n"
    ensures Recognise(arg) == Version <==> arg == "--version" || arg == "-V"
  {
  }

  /** Options that end `main` at once: help, version and anything unknown. */
  predicate Halts(o: Opt)
  {
    o == Help || o == Version || o == Unknown
  }

  /** How `main` ends. */
  datatype Verdict =
    | ShowHelp
    | ShowVersion
    | BadOption(arg: string)
    | TooManyOperands(arg: string)
    | Launch(family: Family, server: Option<string>, port: Option<string>)

  /** The verdict of an option that halts the scan. */
  function HaltVerdict(arg: string): (v: Verdict)
    ensures v.ShowHelp? || v.ShowVersion? || v.BadOption?
    ensures v.ShowHelp? <==> Recognise(arg) == Help
    ensures v.ShowVersion? <==> Recognise(arg) == Version
    ensures v.BadOption? ==> v.arg == arg
  {
    match Recognise(arg)
    case Help => ShowHelp
    case Version => ShowVersion
    case _ => BadOption(arg)
  }

  /** Where the option scan stops: at a halting option, or at index `at`
      where the positional words begin. `flags` is the value of the global
      resolver flags at that point. */
  datatype ScanEnd =
    | Halted(verdict: Verdict, flags: bv32, at: nat)
    | Operands(family: Family, flags: bv32, at: nat)

  /** The option loop of `main` from index `i`, with the current family and
      flags. */
  function Scan(argv: seq<string>, i: nat, family: Family, flags: bv32): (r: ScanEnd)
    ensures i <= r.at
    ensures r.Halted? ==> r.at < |argv| && IsOption(argv[r.at]) && Halts(Recognise(argv[r.at]))
    ensures r.Halted? ==> r.verdict == HaltVerdict(argv[r.at])
    ensures r.Operands? ==> r.at >= |argv| || !IsOption(argv[r.at])
    decreases |argv| - i
  {
    if i >= |argv| || !IsOption(argv[i]) then Operands(family, flags, i)
    else
      match Recognise(argv[i])
      case Ipv4 => Scan(argv, i + 1, Inet, flags)
      case Ipv6 => Scan(argv, i + 1, Inet6, flags)
      case Numeric => Scan(argv, i + 1, family, flags | AI_NUMERICHOST)
      case _ => Halted(HaltVerdict(argv[i]), flags, i)
  }

  /** The positional part of `main`: server, then port, then an error on a
      third word. */
  function Positionals(argv: seq<string>, i: nat, family: Family): (v: Verdict)
    ensures v.TooManyOperands? || v.Launch?
    ensures v.TooManyOperands? <==> i + 2 < |argv|
    ensures v.TooManyOperands? ==> v.arg == argv[i + 2]
    ensures v.Launch? ==> v.family == family
    ensures v.Launch? ==> v.server == (if i < |argv| then Some(argv[i]) else None)
    ensures v.Launch? ==> v.port == (if i + 1 < |argv| then Some(argv[i + 1]) else None)
  {
    var server := if i < |argv| then Some(argv[i]) else None;
    var j := if i < |argv| then i + 1 else i;
    var port := if j < |argv| then Some(argv[j]) else None;
    var k := if j < |argv| then j + 1 else j;
    if k < |argv| then TooManyOperands(argv[k]) else Launch(family, server, port)
  }

  datatype Parsed = Parsed(verdict: Verdict, flags: bv32)

  /** The verdict of `main` on `argv` and the final value of the global
      resolver flags, which held `flags0` on entry: a halting option's
      verdict, or the positional part with the family of the last family
      option; the flags gain AI_NUMERICHOST exactly when a numeric option
      was scanned. */
  function Classify(argv: seq<string>, flags0: bv32): (p: Parsed)
    ensures p.verdict.ShowHelp? || p.verdict.ShowVersion? ==> 2 <= |argv|
    ensures p.verdict.TooManyOperands? ==> 4 <= |argv|
    ensures var s := Scan(argv, 1, Unspec, flags0);
      p.flags == WithNumeric(flags0, NumericIn(argv, 1, s.at))
    ensures var s := Scan(argv, 1, Unspec, flags0);
      s.Halted? ==> p.verdict == HaltVerdict(argv[s.at])
    ensures var s := Scan(argv, 1, Unspec, flags0);
      s.Operands? && 1 <= |argv| ==>
        s.at <= |argv| && p.verdict == Positionals(argv, s.at, LastFamily(argv[1..s.at], Unspec))
  {
    ScanFlags(argv, 1, Unspec, flags0);
    ScanFamilyIsLast(argv, 1, Unspec, flags0);
    match Scan(argv, 1, Unspec, flags0)
    case Halted(v, f, _) => Parsed(v, f)
    case Operands(fam, f, at) => Parsed(Positionals(argv, at, fam), f)
  }

  /** Reference definition of the family in force after a run of options:
      the family of the last `-4`/`-6` spelling in `opts`, else `dflt`. */
  function LastFamily(opts: seq<string>, dflt: Family): Family
    decreases |opts|
  {
    if |opts| == 0 then dflt
    else
      match Recognise(opts[|opts| - 1])
      case Ipv4 => Inet
      case Ipv6 => Inet6
      case _ => LastFamily(opts[..|opts| - 1], dflt)
  }

  /** The family after a single option. */
  function FamilyAfter(arg: string, family: Family): Family
  {
    match Recognise(arg)
    case Ipv4 => Inet
    case Ipv6 => Inet6
    case _ => family
  }

  /** Whether some word of argv[lo..hi] is a `-n`/`--numeric` spelling. */
  predicate NumericIn(argv: seq<string>, lo: nat, hi: nat)
  {
    exists j :: lo <= j < hi && j < |argv| && Recognise(argv[j]) == Numeric
  }

  /** Reading the first option first is the same as reading the last one
      last. */
  lemma {:induction false} LastFamilyCons(x: string, rest: seq<string>, dflt: Family)
    ensures LastFamily([x] + rest, dflt) == LastFamily(rest, FamilyAfter(x, dflt))
    decreases |rest|
  {
    if |rest| > 0 {
      var init := rest[..|rest| - 1];
      assert ([x] + rest)[..|rest|] == [x] + init;
      assert ([x] + rest)[|rest|] == rest[|rest| - 1];
      LastFamilyCons(x, init, dflt);
    } else {
      assert ([x] + rest)[..0] == [];
    }
  }

  /** The flags after a single option. */
  function FlagsAfter(arg: string, flags: bv32): bv32
  {
    if Recognise(arg) == Numeric then flags | AI_NUMERICHOST else flags
  }

  /** One step of the scan over an option that does not halt it. */
  lemma ScanStep(argv: seq<string>, i: nat, family: Family, flags: bv32)
    requires i < |argv| && IsOption(argv[i]) && !Halts(Recognise(argv[i]))
    ensures Scan(argv, i, family, flags)
         == Scan(argv, i + 1, FamilyAfter(argv[i], family), FlagsAfter(argv[i], flags))
  {
  }

  /** The scan stops exactly at the first word that is not a non-halting
      option: every word it passes over is `-4`, `-6` or `-n` in some
      spelling (with `Scan`'s own contract: it halts on the first help,
      version or unknown dash word). */
  lemma {:induction false} ScanStopsAtFirst(argv: seq<string>, i: nat, family: Family, flags: bv32, j: nat)
    requires i <= j < Scan(argv, i, family, flags).at
    ensures j < |argv| && IsOption(argv[j]) && !Halts(Recognise(argv[j]))
    decreases j - i
  {
    if i < |argv| && IsOption(argv[i]) && !Halts(Recognise(argv[i])) {
      if j > i {
        var f', fl' := FamilyAfter(argv[i], family), FlagsAfter(argv[i], flags);
        ScanStep(argv, i, family, flags);
        ScanStopsAtFirst(argv, i + 1, f', fl', j);
      }
    }
  }

  /** When the scan reaches the positional words, the family is that of the
      last family option scanned (the last one wins), or the starting family
      when there was none. */
  lemma {:induction false} ScanFamilyIsLast(argv: seq<string>, i: nat, family: Family, flags: bv32)
    ensures var r := Scan(argv, i, family, flags);
      r.Operands? && i <= |argv| ==> r.at <= |argv| && r.family == LastFamily(argv[i..r.at], family)
    decreases |argv| - i
  {
    var r := Scan(argv, i, family, flags);
    if i < |argv| && IsOption(argv[i]) && !Halts(Recognise(argv[i])) {
      ScanStep(argv, i, family, flags);
      ScanFamilyIsLast(argv, i + 1, FamilyAfter(argv[i], family), FlagsAfter(argv[i], flags));
      if r.Operands? {
        var rest := argv[i + 1..r.at];
        assert argv[i..r.at] == [argv[i]] + rest;
        LastFamilyCons(argv[i], rest, family);
      }
    } else if r.Operands? && i <= |argv| {
      assert argv[i..r.at] == [];
    }
  }

  /** `flags` with AI_NUMERICHOST ORed in when `numeric` holds. */
  function WithNumeric(flags: bv32, numeric: bool): bv32
  {
    if numeric then flags | AI_NUMERICHOST else flags
  }

  /** The resolver flags change only by `-n`/`--numeric`, which ORs in
      AI_NUMERICHOST: once or many times gives the same flags, and no other
      option touches them. */
  lemma {:induction false} ScanFlags(argv: seq<string>, i: nat, family: Family, flags: bv32)
    ensures var r := Scan(argv, i, family, flags);
      r.flags == WithNumeric(flags, NumericIn(argv, i, r.at))
    decreases |argv| - i
  {
    var r := Scan(argv, i, family, flags);
    if i < |argv| && IsOption(argv[i]) && !Halts(Recognise(argv[i])) {
      var fl' := FlagsAfter(argv[i], flags);
      ScanStep(argv, i, family, flags);
      ScanFlags(argv, i + 1, FamilyAfter(argv[i], family), fl');
      assert r.flags == WithNumeric(fl', NumericIn(argv, i + 1, r.at));
      if Recognise(argv[i]) == Numeric {
        NumericAt(argv, i, r.at);
        OrTwice(flags, NumericIn(argv, i + 1, r.at));
      } else {
        NumericSkip(argv, i, r.at);
      }
    } else {
      NumericNone(argv, i, r.at);
    }
  }

  lemma NumericAt(argv: seq<string>, i: nat, hi: nat)
    requires i < hi && i < |argv| && Recognise(argv[i]) == Numeric
    ensures NumericIn(argv, i, hi)
  {
  }

  lemma NumericSkip(argv: seq<string>, i: nat, hi: nat)
    requires i < |argv| && Recognise(argv[i]) != Numeric
    ensures NumericIn(argv, i, hi) == NumericIn(argv, i + 1, hi)
  {
    if NumericIn(argv, i, hi) {
      var j :| i <= j < hi && j < |argv| && Recognise(argv[j]) == Numeric;
      assert j != i;
    }
  }

  lemma NumericNone(argv: seq<string>, i: nat, hi: nat)
    requires hi <= i
    ensures !NumericIn(argv, i, hi)
  {
  }

  lemma OrTwice(flags: bv32, numeric: bool)
    ensures WithNumeric(flags | AI_NUMERICHOST, numeric) == flags | AI_NUMERICHOST
  {
  }

  /** Once the scan reaches a word that is not an option, that word and the
      following one are the server and the port whatever they look like, and
      a third positional word is an error. */
  lemma ClassifyOperands(argv: seq<string>, flags0: bv32)
    requires Scan(argv, 1, Unspec, flags0).Operands?
    ensures var at := Scan(argv, 1, Unspec, flags0).at;
      var v := Classify(argv, flags0).verdict;
      && (at + 2 < |argv| ==> v == TooManyOperands(argv[at + 2]))
      && (at + 2 >= |argv| ==> v.Launch? && v.server == (if at < |argv| then Some(argv[at]) else None)
                                         && v.port == (if at + 1 < |argv| then Some(argv[at + 1]) else None))
  {
  }

  /** The last family option wins. */
  lemma LastFamilyWins()
    ensures Classify(["stunbdc", "-4", "--ipv6", "stun.example"], 0).verdict
         == Launch(Inet6, Some("stun.example"), None)
    ensures Classify(["stunbdc", "-6", "-n", "--ipv4", "192.0.2.1", "3478"], 0)
         == Parsed(Launch(Inet, Some("192.0.2.1"), Some("3478")), AI_NUMERICHOST)
  {
    assert Recognise("-4") == Ipv4 && Recognise("--ipv4") == Ipv4;
    assert Recognise("-6") == Ipv6 && Recognise("--ipv6") == Ipv6;
    assert Recognise("-n") == Numeric;
  }

  /** After the first positional word nothing is an option any more. */
  lemma DashWordAfterServer()
    ensures Classify(["stunbdc", "stun.example", "-4"], 0).verdict
         == Launch(Unspec, Some("stun.example"), Some("-4"))
    ensures Classify(["stunbdc", "stun.example", "3478", "-n"], 0)
         == Parsed(TooManyOperands("-n"), 0)
  {
  }
}
