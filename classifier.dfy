/**
 * The classifier of `get_port_program_mapping`: which connections the loop
 * keeps (listening-only test, then the regex filter), where
 * `process_connection` stores each kept one, and how far the program-name
 * width grows.
 */
module Classifier {
  import opened Wrappers
  import opened Text
  import opened Connections

  /** The listening-only test: with the flag set, only LISTEN connections go on. */
  predicate Reaches(c: Connection, listeningOnly: bool) {
    !(listeningOnly && !IsListen(c))
  }

  /**
   * The regex test: no pattern admits everything; a pattern admits a
   * connection whose text or whose program name it matches. A pattern that
   * failed to compile admits nothing (the loop stops on it, see
   * HitsUnboundPattern).
   */
  predicate Admits(f: Filter, c: Connection, env: Env) {
    match f
    case NoFilter => true
    case Pattern(search) =>
      search(c.text) || (env.processName(c.pid).Some? && search(env.processName(c.pid).value))
    case Malformed(_) => false
  }

  predicate Keeps(f: Filter, listeningOnly: bool, c: Connection, env: Env) {
    Reaches(c, listeningOnly) && Admits(f, c, env)
  }

  /**
   * The loop raises no type error: every connection that passes the
   * listening-only test has a program name, since the second `search` and
   * `set_max_program_len` use the looked-up name unchecked.
   */
  predicate NamesResolved(conns: seq<Connection>, listeningOnly: bool, f: Filter, env: Env) {
    f.Malformed? ||
    forall i :: 0 <= i < |conns| && Reaches(conns[i], listeningOnly) ==> env.processName(conns[i].pid).Some?
  }

  /**
   * A pattern that failed to compile leaves `pattern` unbound, so the first
   * connection that reaches the regex test raises UnboundLocalError.
   */
  predicate HitsUnboundPattern(conns: seq<Connection>, listeningOnly: bool, f: Filter) {
    f.Malformed? && exists i :: 0 <= i < |conns| && Reaches(conns[i], listeningOnly)
  }

  /** The connections that reach `process_connection`, in order. */
  function Kept(conns: seq<Connection>, listeningOnly: bool, f: Filter, env: Env): seq<Connection> {
    if conns == [] then []
    else
      var c := conns[|conns| - 1];
      Kept(conns[..|conns| - 1], listeningOnly, f, env) + (if Keeps(f, listeningOnly, c, env) then [c] else [])
  }

  /**
   * Membership in Kept is passing both tests: with
   * no pattern, exactly the connections the listening-only flag lets
   * through; with a pattern, those whose text or program name it matches.
   */
  lemma {:induction false} KeptSpec(conns: seq<Connection>, listeningOnly: bool, f: Filter, env: Env)
    ensures |Kept(conns, listeningOnly, f, env)| <= |conns|
    ensures forall c :: c in Kept(conns, listeningOnly, f, env) <==>
      c in conns && Reaches(c, listeningOnly) &&
      match f
      case NoFilter => true
      case Pattern(search) =>
        search(c.text) || (env.processName(c.pid).Some? && search(env.processName(c.pid).value))
      case Malformed(_) => false
  {
    if conns != [] {
      var t := conns[..|conns| - 1];
      KeptSpec(t, listeningOnly, f, env);
      assert conns == t + [conns[|conns| - 1]];
    }
  }

  /** Without a pattern and without the listening-only flag every connection is kept. */
  lemma {:induction false} KeptEverything(conns: seq<Connection>, env: Env)
    ensures Kept(conns, false, NoFilter, env) == conns
  {
    if conns != [] {
      KeptEverything(conns[..|conns| - 1], env);
      assert conns == conns[..|conns| - 1] + [conns[|conns| - 1]];
    }
  }

  /** The `(pid, program, foreign_address)` value process_connection stores. */
  function EntryOf(c: Connection, env: Env): Entry {
    Entry(c.pid, env.processName(c.pid), c.remote)
  }

  /** `process_connection`: LISTEN goes to the first dict, everything else to the second. */
  function ProcessConnection(c: Connection, buckets: (Dict, Dict), env: Env): (Dict, Dict) {
    if IsListen(c) then (Put(buckets.0, c.localPort, EntryOf(c, env)), buckets.1)
    else (buckets.0, Put(buckets.1, c.localPort, EntryOf(c, env)))
  }

  /** `(listening_mapping, non_listening_mapping)` after the kept connections, in order. */
  function Buckets(kept: seq<Connection>, env: Env): (Dict, Dict) {
    if kept == [] then ([], [])
    else ProcessConnection(kept[|kept| - 1], Buckets(kept[..|kept| - 1], env), env)
  }

  function Bucket(buckets: (Dict, Dict), listening: bool): Dict {
    if listening then buckets.0 else buckets.1
  }

  /** Connection c writes port p of the given dict. */
  predicate Writes(c: Connection, p: Port, listening: bool) {
    c.localPort == p && IsListen(c) == listening
  }

  /** Connection i is the last one in s that writes port p of the given dict. */
  predicate LastWrite(s: seq<Connection>, i: nat, p: Port, listening: bool)
    requires i < |s|
  {
    Writes(s[i], p, listening) && forall j :: i < j < |s| ==> !Writes(s[j], p, listening)
  }

  /** How one more kept connection changes one of the dicts. */
  lemma BucketStep(s: seq<Connection>, env: Env, p: Port, listening: bool)
    requires s != []
    ensures var c := s[|s| - 1];
      Get(Bucket(Buckets(s, env), listening), p) ==
        if Writes(c, p, listening) then Some(EntryOf(c, env))
        else Get(Bucket(Buckets(s[..|s| - 1], env), listening), p)
  {
    var c := s[|s| - 1];
    var before := Bucket(Buckets(s[..|s| - 1], env), listening);
    if IsListen(c) == listening {
      PutGet(before, c.localPort, EntryOf(c, env), p);
    }
  }

  /**
   * Routing: port p is in the LISTEN dict iff some kept LISTEN connection
   * has local port p, and in the other dict iff some kept connection in
   * another state has.
   */
  lemma {:induction false} BucketsRouting(s: seq<Connection>, env: Env, p: Port, listening: bool)
    ensures Get(Bucket(Buckets(s, env), listening), p).None? <==>
      forall i :: 0 <= i < |s| ==> !Writes(s[i], p, listening)
  {
    if s != [] {
      var t := s[..|s| - 1];
      BucketsRouting(t, env, p, listening);
      BucketStep(s, env, p, listening);
      if Writes(s[|s| - 1], p, listening) {
        assert Get(Bucket(Buckets(s, env), listening), p).Some?;
      } else {
        assert forall i :: 0 <= i < |t| ==> s[i] == t[i];
        assert (forall i :: 0 <= i < |s| ==> !Writes(s[i], p, listening)) ==
               (forall i :: 0 <= i < |t| ==> !Writes(t[i], p, listening));
      }
    }
  }

  /** Last-write-wins: the value stored under p is the entry of the last connection writing p. */
  lemma {:induction false} BucketsLastWriteWins(s: seq<Connection>, env: Env, p: Port, listening: bool, i: nat)
    requires i < |s| && LastWrite(s, i, p, listening)
    ensures Get(Bucket(Buckets(s, env), listening), p) == Some(EntryOf(s[i], env))
  {
    var t := s[..|s| - 1];
    BucketStep(s, env, p, listening);
    if i < |t| {
      assert LastWrite(t, i, p, listening);
      BucketsLastWriteWins(t, env, p, listening, i);
    }
  }

  /** Both dicts keep distinct ports. */
  lemma {:induction false} BucketsAreDicts(s: seq<Connection>, env: Env)
    ensures DistinctPorts(Buckets(s, env).0) && DistinctPorts(Buckets(s, env).1)
  {
    if s != [] {
      var t, c := s[..|s| - 1], s[|s| - 1];
      BucketsAreDicts(t, env);
      var b := Buckets(t, env);
      if IsListen(c) {
        PutDistinct(b.0, c.localPort, EntryOf(c, env));
      } else {
        PutDistinct(b.1, c.localPort, EntryOf(c, env));
      }
    }
  }

  /** With only LISTEN connections kept, the non-listening dict stays empty. */
  lemma {:induction false} OnlyListeningKept(s: seq<Connection>, env: Env)
    requires forall i :: 0 <= i < |s| ==> IsListen(s[i])
    ensures Buckets(s, env).1 == []
  {
    if s != [] {
      OnlyListeningKept(s[..|s| - 1], env);
    }
  }

  /** With the listening-only flag the non-listening dict stays empty. */
  lemma ListeningOnlyLeavesOthersEmpty(conns: seq<Connection>, f: Filter, env: Env)
    ensures Buckets(Kept(conns, true, f, env), env).1 == []
  {
    KeptSpec(conns, true, f, env);
    var k := Kept(conns, true, f, env);
    assert forall i :: 0 <= i < |k| ==> k[i] in k;
    OnlyListeningKept(k, env);
  }

  /** The name length `set_max_program_len` receives for a kept connection. */
  function NameLength(c: Connection, env: Env): nat
    requires env.processName(c.pid).Some?
  {
    |env.processName(c.pid).value|
  }

  /** The program width after `set_max_program_len` has seen each kept connection in turn. */
  function GrowWidth(w: nat, kept: seq<Connection>, env: Env): nat
    requires forall i :: 0 <= i < |kept| ==> env.processName(kept[i].pid).Some?
  {
    if kept == [] then w
    else
      var before := GrowWidth(w, kept[..|kept| - 1], env);
      var n := NameLength(kept[|kept| - 1], env);
      if n > before then n else before
  }

  /**
   * The grown width is the largest of the starting width and the kept
   * connections' name lengths: never below either, and equal to one of them.
   */
  lemma {:induction false} GrowWidthIsMax(w: nat, kept: seq<Connection>, env: Env)
    requires forall i :: 0 <= i < |kept| ==> env.processName(kept[i].pid).Some?
    ensures GrowWidth(w, kept, env) >= w
    ensures forall i :: 0 <= i < |kept| ==> GrowWidth(w, kept, env) >= NameLength(kept[i], env)
    ensures GrowWidth(w, kept, env) == w ||
      exists i :: 0 <= i < |kept| && GrowWidth(w, kept, env) == NameLength(kept[i], env)
  {
    if kept != [] {
      var t := kept[..|kept| - 1];
      GrowWidthIsMax(w, t, env);
      assert forall i :: 0 <= i < |t| ==> kept[i] == t[i];
    }
  }

  lemma BucketsSnoc(kept: seq<Connection>, c: Connection, env: Env)
    ensures Buckets(kept + [c], env) == ProcessConnection(c, Buckets(kept, env), env)
  {
    assert (kept + [c])[..|kept|] == kept;
  }

  lemma GrowWidthSnoc(w: nat, kept: seq<Connection>, c: Connection, env: Env)
    requires forall i :: 0 <= i < |kept| ==> env.processName(kept[i].pid).Some?
    requires env.processName(c.pid).Some?
    ensures forall i :: 0 <= i < |kept + [c]| ==> env.processName((kept + [c])[i].pid).Some?
    ensures GrowWidth(w, kept + [c], env) == Max(GrowWidth(w, kept, env), NameLength(c, env))
  {
    assert (kept + [c])[..|kept|] == kept;
  }

  /**
   * How the loop can stop: the name `pattern` was never bound (the
   * pattern failed to compile), or a connection that got past the
   * listening-only test has no program name, so `search` or
   * `set_max_program_len` receives None and raises a type error.
   */
  datatype Crash = UnboundPattern | NoProgramName

  /** The loop's state: the two dicts, the program width, and the error that stopped it, if any. */
  datatype Scan = Scan(buckets: (Dict, Dict), width: nat, crash: Option<Crash>)

  /**
   * One iteration of the loop: the listening-only test, the unbound
   * pattern, the missing name, the pattern test, then `process_connection`
   * and `set_max_program_len`. A stopped loop stays stopped.
   */
  function ScanStep(s: Scan, c: Connection, listeningOnly: bool, f: Filter, env: Env): Scan {
    if s.crash.Some? || !Reaches(c, listeningOnly) then s
    else if f.Malformed? then s.(crash := Some(UnboundPattern))
    else if env.processName(c.pid).None? then s.(crash := Some(NoProgramName))
    else if !Admits(f, c, env) then s
    else
      var n := NameLength(c, env);
      Scan(ProcessConnection(c, s.buckets, env), if n > s.width then n else s.width, None)
  }

  /** The loop run over the connections, in order, from program width w. */
  function ScanOf(conns: seq<Connection>, listeningOnly: bool, f: Filter, env: Env, w: nat): Scan {
    if conns == [] then Scan(([], []), w, None)
    else ScanStep(ScanOf(conns[..|conns| - 1], listeningOnly, f, env, w), conns[|conns| - 1], listeningOnly, f, env)
  }

  lemma ScanOfStep(conns: seq<Connection>, i: nat, listeningOnly: bool, f: Filter, env: Env, w: nat)
    requires i < |conns|
    ensures ScanOf(conns[..i + 1], listeningOnly, f, env, w) ==
      ScanStep(ScanOf(conns[..i], listeningOnly, f, env, w), conns[i], listeningOnly, f, env)
  {
    assert conns[..i + 1][..i] == conns[..i];
  }

  /** Once the loop has stopped on a prefix, the rest of the connections change nothing. */
  lemma {:induction false} ScanStopped(conns: seq<Connection>, j: nat, listeningOnly: bool, f: Filter, env: Env, w: nat)
    requires j <= |conns| && ScanOf(conns[..j], listeningOnly, f, env, w).crash.Some?
    ensures ScanOf(conns, listeningOnly, f, env, w) == ScanOf(conns[..j], listeningOnly, f, env, w)
  {
    if j < |conns| {
      var t := conns[..|conns| - 1];
      assert t[..j] == conns[..j];
      ScanStopped(t, j, listeningOnly, f, env, w);
    } else {
      assert conns[..j] == conns;
    }
  }

  lemma HitsSnoc(conns: seq<Connection>, listeningOnly: bool, f: Filter)
    requires conns != []
    ensures HitsUnboundPattern(conns, listeningOnly, f) <==>
      HitsUnboundPattern(conns[..|conns| - 1], listeningOnly, f) || (f.Malformed? && Reaches(conns[|conns| - 1], listeningOnly))
  {
    var t := conns[..|conns| - 1];
    if HitsUnboundPattern(conns, listeningOnly, f) {
      var i :| 0 <= i < |conns| && Reaches(conns[i], listeningOnly);
      if i < |t| {
        assert t[i] == conns[i];
      }
    }
    if HitsUnboundPattern(t, listeningOnly, f) {
      var i :| 0 <= i < |t| && Reaches(t[i], listeningOnly);
      assert conns[i] == t[i];
    }
  }

  lemma NamesSnoc(conns: seq<Connection>, listeningOnly: bool, f: Filter, env: Env)
    requires conns != []
    ensures var c := conns[|conns| - 1];
      NamesResolved(conns, listeningOnly, f, env) <==>
        NamesResolved(conns[..|conns| - 1], listeningOnly, f, env) &&
        (f.Malformed? || !Reaches(c, listeningOnly) || env.processName(c.pid).Some?)
  {
    var t := conns[..|conns| - 1];
    assert forall i :: 0 <= i < |t| ==> t[i] == conns[i];
  }

  /**
   * When the loop stops: on the unbound pattern exactly when the pattern
   * failed to compile and some connection passes the listening-only test;
   * not at all exactly when that does not happen and every connection that
   * passes the listening-only test has a program name.
   */
  lemma {:induction false} ScanCrashes(conns: seq<Connection>, listeningOnly: bool, f: Filter, env: Env, w: nat)
    ensures ScanOf(conns, listeningOnly, f, env, w).crash == Some(UnboundPattern) <==> HitsUnboundPattern(conns, listeningOnly, f)
    ensures ScanOf(conns, listeningOnly, f, env, w).crash.None? <==>
      !HitsUnboundPattern(conns, listeningOnly, f) && NamesResolved(conns, listeningOnly, f, env)
  {
    if conns != [] {
      var t := conns[..|conns| - 1];
      ScanCrashes(t, listeningOnly, f, env, w);
      HitsSnoc(conns, listeningOnly, f);
      NamesSnoc(conns, listeningOnly, f, env);
    }
  }

  /**
   * A loop that does not stop agrees with the reference definitions: the
   * dicts are those of the kept connections, every kept connection has a
   * program name, and the width is grown over their names in order.
   */
  lemma {:induction false} ScanMatches(conns: seq<Connection>, listeningOnly: bool, f: Filter, env: Env, w: nat)
    requires ScanOf(conns, listeningOnly, f, env, w).crash.None?
    ensures forall i :: 0 <= i < |Kept(conns, listeningOnly, f, env)| ==>
      env.processName(Kept(conns, listeningOnly, f, env)[i].pid).Some?
    ensures ScanOf(conns, listeningOnly, f, env, w).buckets == Buckets(Kept(conns, listeningOnly, f, env), env)
    ensures ScanOf(conns, listeningOnly, f, env, w).width == GrowWidth(w, Kept(conns, listeningOnly, f, env), env)
  {
    if conns != [] {
      var t, c := conns[..|conns| - 1], conns[|conns| - 1];
      var s0 := ScanOf(t, listeningOnly, f, env, w);
      assert ScanOf(conns, listeningOnly, f, env, w) == ScanStep(s0, c, listeningOnly, f, env);
      assert s0.crash.None?;
      ScanMatches(t, listeningOnly, f, env, w);
      var k := Kept(t, listeningOnly, f, env);
      if Keeps(f, listeningOnly, c, env) {
        assert Kept(conns, listeningOnly, f, env) == k + [c];
        assert env.processName(c.pid).Some?;
        BucketsSnoc(k, c, env);
        GrowWidthSnoc(w, k, c, env);
      } else {
        assert Kept(conns, listeningOnly, f, env) == k;
        assert ScanOf(conns, listeningOnly, f, env, w) == s0;
      }
    }
  }
}
