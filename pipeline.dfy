/**
 * `get_port_program_mapping` and the sort-key selection of the command
 * line: one pass of the report. The connection table, the process-name
 * and service lookups and the clock are inputs (see `Env` and `Clock`);
 * the renderer is the `OutputManager` object the caller passes in.
 */
module Pipeline {
  import opened Wrappers
  import opened Text
  import opened Connections
  import opened Classifier
  import opened Sorter
  import opened Layout
  import opened Timezone
  import opened Report

  /** What the `re.error` handler prints: `Error: <message>` for a pattern that failed to compile. */
  function ErrorPrints(f: Filter): (r: seq<string>)
    ensures |r| == if f.Malformed? then 1 else 0
  {
    if f.Malformed? then [Printed("Error: " + f.message)] else []
  }

  /** The `-s/--sort` default. */
  const DefaultSort := "Program"

  /** `-i` wins over `-p`, which wins over `-s/--sort`. */
  function SortChoice(pidFlag: bool, portFlag: bool, sort: string): string {
    if pidFlag then "PID" else if portFlag then "Port" else sort
  }

  /** The order the report is sorted in, from the three options. */
  lemma SortChoiceOrder(pidFlag: bool, portFlag: bool, sort: string)
    ensures SortByName(SortChoice(pidFlag, portFlag, sort)) ==
      if pidFlag then ByPid
      else if portFlag || (sort != "PID" && sort != "Program") then ByPort
      else SortByName(sort)
    ensures !pidFlag && !portFlag && sort == DefaultSort ==> SortByName(SortChoice(pidFlag, portFlag, sort)) == ByProgram
  {
  }

  /**
   * One pass of the loop body of `get_port_program_mapping`: the
   * listening-only test, the pattern test (which hits the unbound name when
   * the pattern failed to compile, and a type error when the program name is
   * missing), `process_connection` and `set_max_program_len`. It does what
   * one `ScanStep` does from the current dicts and program width.
   */
  method Visit(om: OutputManager, c: Connection, listeningOnly: bool, f: Filter, env: Env, listening: Dict, nonListening: Dict)
    returns (crash: Option<Crash>, listening': Dict, nonListening': Dict)
    requires om.Valid()
    modifies om
    ensures om.Valid() && om.out == old(om.out)
    ensures var s := ScanStep(Scan((listening, nonListening), old(om.maxProgramLen), None), c, listeningOnly, f, env);
      && crash == s.crash
      && om.State() == old(om.State()).(programWidth := s.width)
      && (crash.None? ==> (listening', nonListening') == s.buckets)
  {
    crash, listening', nonListening' := None, listening, nonListening;
    if listeningOnly && c.status != "LISTEN" {
      return;
    }
    if f.Malformed? {
      crash := Some(UnboundPattern);
      return;
    }
    var name := env.processName(c.pid);
    if f.Pattern? && !f.search(c.text) {
      if name.None? {
        crash := Some(NoProgramName);
        return;
      }
      if !f.search(name.value) {
        return;
      }
    }
    listening', nonListening' := ProcessConnection(c, (listening, nonListening), env).0, ProcessConnection(c, (listening, nonListening), env).1;
    if name.None? {
      crash := Some(NoProgramName);
      return;
    }
    om.SetMaxProgramLen(StrArg(name.value));
  }

  /**
   * The loop of `get_port_program_mapping`: it runs `ScanOf` over the
   * connections, keeping the dicts in locals and the program width in the
   * renderer; it prints nothing.
   */
  method CollectMappings(om: OutputManager, conns: seq<Connection>, listeningOnly: bool, f: Filter, env: Env)
    returns (r: Result<(Dict, Dict), Crash>)
    requires om.Valid()
    modifies om
    ensures om.Valid() && om.out == old(om.out)
    ensures var s := ScanOf(conns, listeningOnly, f, env, old(om.maxProgramLen));
      && om.State() == old(om.State()).(programWidth := s.width)
      && (r.Err? <==> s.crash.Some?)
      && (r.Err? ==> r.error == s.crash.value)
      && (r.Ok? ==> r.value == s.buckets)
  {
    var listening: Dict := [];
    var nonListening: Dict := [];
    var i := 0;
    while i < |conns|
      invariant 0 <= i <= |conns|
      invariant om.Valid() && om.out == old(om.out)
      invariant om.State() == old(om.State()).(programWidth := om.maxProgramLen)
      invariant ScanOf(conns[..i], listeningOnly, f, env, old(om.maxProgramLen)) == Scan((listening, nonListening), om.maxProgramLen, None)
    {
      ScanOfStep(conns, i, listeningOnly, f, env, old(om.maxProgramLen));
      var crash;
      crash, listening, nonListening := Visit(om, conns[i], listeningOnly, f, env, listening, nonListening);
      if crash.Some? {
        ScanStopped(conns, i + 1, listeningOnly, f, env, old(om.maxProgramLen));
        return Err(crash.value);
      }
      i := i + 1;
    }
    TakeAll(conns);
    r := Ok((listening, nonListening));
  }

  /** The tail of `get_port_program_mapping`: sort both dicts by the chosen key and print the two sections. */
  method PrintReport(om: OutputManager, listening: Dict, nonListening: Dict, sortBy: string,
                     listeningOnly: bool, dns: bool, env: Env, clock: Clock)
    requires om.Valid()
    modifies om
    ensures om.Valid()
    ensures var order := SortByName(sortBy);
      var report := ReportPrints(old(om.State()), Sort(order, listening), Sort(order, nonListening), listeningOnly, dns, env, clock);
      om.State() == report.0 && om.out == old(om.out) + report.1
  {
    var order := SortByName(sortBy);
    var sortedListening := Sort(order, listening);
    var sortedNonListening := Sort(order, nonListening);
    ghost var s1 := SectionPrints(om.State(), "LISTENING", sortedListening, 1, 0, true, false, false, dns, env, clock);
    om.PrintSection("LISTENING", sortedListening, 1, 0, true, false, false, dns, env, clock);
    if !listeningOnly {
      ghost var s2 := SectionPrints(s1.0, "NON-LISTENING", sortedNonListening, 1, 0, true, false, false, dns, env, clock);
      om.PrintSection("NON-LISTENING", sortedNonListening, 1, 0, true, false, false, dns, env, clock);
      AppendAssoc(old(om.out), s1.1, s2.1);
    }
  }

  /**
   * `get_port_program_mapping(sort_by, bare, listening_only, dns, regex)`.
   * It sets the bare flag and prints the compile error of a malformed
   * pattern, then runs the loop. It stops with an error exactly when the
   * pattern failed to compile and some connection gets past the
   * listening-only test, or a connection that gets past it has no program
   * name; the program column keeps what it grew to before the error.
   * Otherwise it returns the two dicts built from the kept connections and
   * prints the two sections of the sorted dicts with the grown column.
   */
  method GetPortProgramMapping(om: OutputManager, conns: seq<Connection>, sortBy: string, bare: bool,
                               listeningOnly: bool, dns: bool, f: Filter, env: Env, clock: Clock)
    returns (r: Result<(Dict, Dict), Crash>)
    requires om.Valid()
    modifies om
    ensures om.Valid()
    ensures r.Err? <==> HitsUnboundPattern(conns, listeningOnly, f) || !NamesResolved(conns, listeningOnly, f, env)
    ensures r.Err? ==> (r.error == UnboundPattern <==> HitsUnboundPattern(conns, listeningOnly, f))
    ensures r.Ok? ==> r.value == Buckets(Kept(conns, listeningOnly, f, env), env)
    ensures var s := ScanOf(conns, listeningOnly, f, env, old(om.maxProgramLen));
      var st := old(om.State()).(bare := bare, programWidth := s.width);
      && (r.Err? ==> om.State() == st && om.out == old(om.out) + ErrorPrints(f))
      && (r.Ok? ==>
            var order := SortByName(sortBy);
            var report := ReportPrints(st, Sort(order, r.value.0), Sort(order, r.value.1), listeningOnly, dns, env, clock);
            om.State() == report.0 && om.out == old(om.out) + ErrorPrints(f) + report.1)
  {
    ScanCrashes(conns, listeningOnly, f, env, old(om.maxProgramLen));
    om.SetBare(bare);
    if f.Malformed? {
      om.Print("Error: " + f.message);
    }
    ghost var early := om.out;
    assert early == old(om.out) + ErrorPrints(f);
    r := CollectMappings(om, conns, listeningOnly, f, env);
    if r.Err? {
      return;
    }
    ScanMatches(conns, listeningOnly, f, env, old(om.maxProgramLen));
    PrintReport(om, r.value.0, r.value.1, sortBy, listeningOnly, dns, env, clock);
  }
}
