/** The specification of `run`'s candidate loop: for each resolved server
    address, in list order, one "Server address" report and one call to the
    STUN engine, followed by the mapped address or the engine's status. */
module Discovery {
  import opened StunTypes

  /** The STUN service used when no port is given (the default STUN port of
      section 9 of RFC 5389). */
  const DEFAULT_SERVICE: string := "3478"

  /** The service `run` resolves: the given port, else the default. */
  function EffectiveService(port: Option<string>): (s: string)
    ensures port.Some? ==> s == port.value
    ensures port.None? ==> s == DEFAULT_SERVICE
  {
    if port.None? then DEFAULT_SERVICE else port.value
  }

  /** The line that follows an engine call: the mapped address when the
      status is zero, else the status. */
  function Report(reply: BindReply): (e: Event)
    ensures e.Mapped? <==> reply.status == 0
    ensures e.Diag? <==> reply.status != 0
    ensures e.Mapped? ==> e.mapped == reply.mapped
    ensures e.Diag? ==> e.status == reply.status
  {
    if reply.status != 0 then Diag(reply.status) else Mapped(reply.mapped)
  }

  /** The output of the loop over `cands`. */
  function Trace(cands: seq<SockAddr>, bind: Binder): (log: seq<Event>)
    ensures |log| == 2 * |cands|
    decreases |cands|
  {
    if |cands| == 0 then []
    else
      var k := |cands| - 1;
      Trace(cands[..k], bind) + [ServerAddr(cands[k]), Report(bind(k, cands[k]))]
  }

  /** The addresses of the "Server address" lines of a log, in order. */
  function ServerReports(log: seq<Event>): seq<SockAddr>
    decreases |log|
  {
    if |log| == 0 then []
    else (if log[0].ServerAddr? then [log[0].server] else []) + ServerReports(log[1..])
  }

  /** The addresses of the "Mapped address" lines of a log, in order. */
  function MappedReports(log: seq<Event>): seq<SockAddr>
    decreases |log|
  {
    if |log| == 0 then []
    else (if log[0].Mapped? then [log[0].mapped] else []) + MappedReports(log[1..])
  }

  /** The statuses of the engine-status lines of a log, in order. */
  function DiagReports(log: seq<Event>): seq<int>
    decreases |log|
  {
    if |log| == 0 then []
    else (if log[0].Diag? then [log[0].status] else []) + DiagReports(log[1..])
  }

  /** Reference definition: the mapped addresses of the attempts whose
      status was zero, in list order. */
  function Successes(cands: seq<SockAddr>, bind: Binder): seq<SockAddr>
    decreases |cands|
  {
    if |cands| == 0 then []
    else
      var k := |cands| - 1;
      var reply := bind(k, cands[k]);
      Successes(cands[..k], bind) + (if reply.status == 0 then [reply.mapped] else [])
  }

  /** Reference definition: the non-zero statuses of the attempts that
      failed, in list order. */
  function Failures(cands: seq<SockAddr>, bind: Binder): seq<int>
    decreases |cands|
  {
    if |cands| == 0 then []
    else
      var k := |cands| - 1;
      var reply := bind(k, cands[k]);
      Failures(cands[..k], bind) + (if reply.status != 0 then [reply.status] else [])
  }

  lemma {:induction false} ServerReportsAppend(a: seq<Event>, b: seq<Event>)
    ensures ServerReports(a + b) == ServerReports(a) + ServerReports(b)
    decreases |a|
  {
    if |a| == 0 {
      assert a + b == b;
    } else {
      assert (a + b)[0] == a[0];
      assert (a + b)[1..] == a[1..] + b;
      ServerReportsAppend(a[1..], b);
    }
  }

  lemma {:induction false} MappedReportsAppend(a: seq<Event>, b: seq<Event>)
    ensures MappedReports(a + b) == MappedReports(a) + MappedReports(b)
    decreases |a|
  {
    if |a| == 0 {
      assert a + b == b;
    } else {
      assert (a + b)[0] == a[0];
      assert (a + b)[1..] == a[1..] + b;
      MappedReportsAppend(a[1..], b);
    }
  }

  lemma {:induction false} DiagReportsAppend(a: seq<Event>, b: seq<Event>)
    ensures DiagReports(a + b) == DiagReports(a) + DiagReports(b)
    decreases |a|
  {
    if |a| == 0 {
      assert a + b == b;
    } else {
      assert (a + b)[0] == a[0];
      assert (a + b)[1..] == a[1..] + b;
      DiagReportsAppend(a[1..], b);
    }
  }

  /** The two lines of one attempt. */
  lemma AttemptReports(c: SockAddr, reply: BindReply)
    ensures ServerReports([ServerAddr(c), Report(reply)]) == [c]
    ensures MappedReports([ServerAddr(c), Report(reply)])
         == if reply.status == 0 then [reply.mapped] else []
    ensures DiagReports([ServerAddr(c), Report(reply)])
         == if reply.status != 0 then [reply.status] else []
  {
    var last := [ServerAddr(c), Report(reply)];
    var tail := [Report(reply)];
    assert last[1..] == tail && tail[1..] == [];
    assert ServerReports(tail) == [];
    assert MappedReports(tail) == if reply.status == 0 then [reply.mapped] else [];
    assert DiagReports(tail) == if reply.status != 0 then [reply.status] else [];
  }

  /** Attempt k occupies lines 2k and 2k+1: the server address, then the
      engine's answer for that address. */
  lemma {:induction false} TraceAt(cands: seq<SockAddr>, bind: Binder, k: nat)
    requires k < |cands|
    ensures Trace(cands, bind)[2 * k] == ServerAddr(cands[k])
    ensures Trace(cands, bind)[2 * k + 1] == Report(bind(k, cands[k]))
    decreases |cands|
  {
    var n := |cands| - 1;
    if k < n {
      TraceAt(cands[..n], bind, k);
    }
  }

  /** The "Server address" lines are the candidates, each once, in the
      resolver's order. */
  lemma {:induction false} TraceServers(cands: seq<SockAddr>, bind: Binder)
    ensures ServerReports(Trace(cands, bind)) == cands
    decreases |cands|
  {
    if |cands| > 0 {
      var k := |cands| - 1;
      var init, reply := cands[..k], bind(k, cands[k]);
      var last := [ServerAddr(cands[k]), Report(reply)];
      assert init + [cands[k]] == cands;
      var t := Trace(init, bind);
      assert Trace(cands, bind) == t + last;
      TraceServers(init, bind);
      ServerReportsAppend(t, last);
      AttemptReports(cands[k], reply);
    }
  }

  /** The "Mapped address" lines are the mapped addresses of exactly the
      attempts whose status was zero, in order. */
  lemma {:induction false} TraceMapped(cands: seq<SockAddr>, bind: Binder)
    ensures MappedReports(Trace(cands, bind)) == Successes(cands, bind)
    decreases |cands|
  {
    if |cands| > 0 {
      var k := |cands| - 1;
      var last := [ServerAddr(cands[k]), Report(bind(k, cands[k]))];
      TraceMapped(cands[..k], bind);
      MappedReportsAppend(Trace(cands[..k], bind), last);
      AttemptReports(cands[k], bind(k, cands[k]));
    }
  }

  /** The engine-status lines are the statuses of exactly the attempts that
      failed, in order. */
  lemma {:induction false} TraceDiags(cands: seq<SockAddr>, bind: Binder)
    ensures DiagReports(Trace(cands, bind)) == Failures(cands, bind)
    decreases |cands|
  {
    if |cands| > 0 {
      var k := |cands| - 1;
      var last := [ServerAddr(cands[k]), Report(bind(k, cands[k]))];
      TraceDiags(cands[..k], bind);
      DiagReportsAppend(Trace(cands[..k], bind), last);
      AttemptReports(cands[k], bind(k, cands[k]));
    }
  }

  /** When every engine call fails, no mapped address is reported. */
  lemma {:induction false} AllFailedNoMapped(cands: seq<SockAddr>, bind: Binder)
    requires forall k :: 0 <= k < |cands| ==> bind(k, cands[k]).status != 0
    ensures MappedReports(Trace(cands, bind)) == []
    decreases |cands|
  {
    TraceMapped(cands, bind);
    NoSuccesses(cands, bind);
  }

  lemma {:induction false} NoSuccesses(cands: seq<SockAddr>, bind: Binder)
    requires forall k :: 0 <= k < |cands| ==> bind(k, cands[k]).status != 0
    ensures Successes(cands, bind) == []
    decreases |cands|
  {
    if |cands| > 0 {
      var k := |cands| - 1;
      assert forall j :: 0 <= j < k ==> cands[..k][j] == cands[j];
      NoSuccesses(cands[..k], bind);
    }
  }
}
