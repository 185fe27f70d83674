/**
 * The `OutputManager` renderer. Its state (bare flag, program-column width,
 * separator width, header-shown flag) is abstracted as `ReportState`; what one
 * `print_header` / `print_section` call prints and how it changes the state
 * are pure functions of the old state, and the class's methods are proved
 * against them. Printing appends the written text to `out`, one element
 * per `print` call.
 */
module Report {
  import opened Wrappers
  import opened Text
  import opened Connections
  import opened Layout
  import opened Timezone

  /** The floor of the program column (the class attribute `_max_program_len = 30`). */
  const MinProgramWidth: nat := 30

  datatype ReportState = ReportState(bare: bool, programWidth: nat, lineWidth: nat, headerShown: bool)

  /** The class attributes before anything runs. */
  const Initial := ReportState(false, MinProgramWidth, 0, false)

  /** The text `print(s)` writes. */
  function Printed(s: string): string {
    s + "\n"
  }

  /** The text `print('\n' * k, end='')` writes. */
  function Blank(k: nat): string {
    Repeat('\n', k)
  }

  /** `_separator`: as many dashes as the widest measured line. */
  function Separator(st: ReportState): string {
    Repeat('-', st.lineWidth)
  }

  /** The section title centred in dashes over the measured width. */
  function Title(st: ReportState, section: string, clock: Clock): string {
    Center(section + " (" + FormattedNow(clock) + ")", st.lineWidth, '-')
  }

  /** The title, header row and separator lines that are switched on, in that order. */
  function Chosen(bState: bool, bHeader: bool, bSeparator: bool, title: string, header: string, separator: string): seq<string> {
    (if bState then [Printed(title)] else []) +
    (if bHeader then [Printed(header)] else []) +
    (if bSeparator then [Printed(separator)] else [])
  }

  /** What `print_header` prints: nothing in bare mode, else the title, header row and separator asked for. */
  function HeaderPrints(st: ReportState, section: string, bState: bool, bHeader: bool, bSeparator: bool, clock: Clock): seq<string> {
    if st.bare then []
    else Chosen(bState, bHeader, bSeparator, Title(st, section, clock), HeaderRow(st.programWidth), Separator(st))
  }

  /** The section's item lines as `print(line)` writes them. */
  function LinePrints(st: ReportState, items: seq<Item>, dns: bool, env: Env): (r: seq<string>)
    ensures |r| == |items|
  {
    Each(it => Printed(ItemLine(st.programWidth, st.bare, it, dns, env)), items)
  }

  lemma LinePrintsAt(st: ReportState, items: seq<Item>, dns: bool, env: Env, i: nat)
    requires i < |items|
    ensures LinePrints(st, items, dns, env)[i] == Printed(ItemLine(st.programWidth, st.bare, items[i], dns, env))
  {
    EachAt(it => Printed(ItemLine(st.programWidth, st.bare, it, dns, env)), items, i);
  }

  /**
   * `print_section`: the state after the call and what it prints. The
   * separator width is measured first, without DNS; an empty section prints
   * nothing; the first non-empty one turns the header and separator on,
   * drops the blank lines before it and sets the header-shown flag.
   */
  function SectionPrints(st: ReportState, section: string, items: seq<Item>, linesBefore: nat, linesAfter: nat,
                         bState: bool, bHeader: bool, bSeparator: bool, dns: bool, env: Env, clock: Clock): (ReportState, seq<string>)
  {
    var measured := st.(lineWidth := LongestLine(st.programWidth, st.bare, items, env));
    if items == [] then (measured, [])
    else
      var first := !st.headerShown;
      var after := measured.(headerShown := true);
      var before := if first then 0 else linesBefore;
      var withHeader := first || bHeader;
      var withSeparator := first || bSeparator;
      (after,
       [Blank(before)] + HeaderPrints(after, section, bState, withHeader, withSeparator, clock) +
       LinePrints(after, items, dns, env) + [Blank(linesAfter)])
  }

  /** The two `print_section` calls of `get_port_program_mapping`. */
  function ReportPrints(st: ReportState, listening: seq<Item>, nonListening: seq<Item>, listeningOnly: bool,
                        dns: bool, env: Env, clock: Clock): (ReportState, seq<string>)
  {
    var (st1, out1) := SectionPrints(st, "LISTENING", listening, 1, 0, true, false, false, dns, env, clock);
    if listeningOnly then (st1, out1)
    else
      var (st2, out2) := SectionPrints(st1, "NON-LISTENING", nonListening, 1, 0, true, false, false, dns, env, clock);
      (st2, out1 + out2)
  }

  /** A non-empty section: the state after it and its prints, piece by piece. */
  lemma SectionShown(st: ReportState, section: string, items: seq<Item>, linesBefore: nat, linesAfter: nat,
                     bState: bool, bHeader: bool, bSeparator: bool, dns: bool, env: Env, clock: Clock)
    requires items != []
    ensures var first := !st.headerShown;
      var after := st.(lineWidth := LongestLine(st.programWidth, st.bare, items, env), headerShown := true);
      SectionPrints(st, section, items, linesBefore, linesAfter, bState, bHeader, bSeparator, dns, env, clock) ==
        (after,
         [Blank(if first then 0 else linesBefore)] +
         HeaderPrints(after, section, bState, first || bHeader, first || bSeparator, clock) +
         LinePrints(after, items, dns, env) + [Blank(linesAfter)])
  {
  }

  /**
   * What a section does to the state: bare flag and program width stay,
   * the header flag is set once a non-empty section is shown and never
   * cleared, and an empty section prints nothing and measures 0.
   */
  lemma SectionState(st: ReportState, section: string, items: seq<Item>, linesBefore: nat, linesAfter: nat,
                     bState: bool, bHeader: bool, bSeparator: bool, dns: bool, env: Env, clock: Clock)
    ensures var (st', printed) := SectionPrints(st, section, items, linesBefore, linesAfter, bState, bHeader, bSeparator, dns, env, clock);
      && st'.bare == st.bare && st'.programWidth == st.programWidth
      && st'.headerShown == (st.headerShown || items != [])
      && (items == [] ==> printed == [] && st'.lineWidth == 0)
  {
  }

  /**
   * The measured width is that of the longest line the section's items
   * render to without DNS: no item line is wider, some item line (if any)
   * is exactly that wide, and the separator is that wide too.
   */
  lemma SectionWidth(st: ReportState, section: string, items: seq<Item>, linesBefore: nat, linesAfter: nat,
                     bState: bool, bHeader: bool, bSeparator: bool, dns: bool, env: Env, clock: Clock)
    ensures var (st', printed) := SectionPrints(st, section, items, linesBefore, linesAfter, bState, bHeader, bSeparator, dns, env, clock);
      && (forall i :: 0 <= i < |items| ==> |ItemLine(st.programWidth, st.bare, items[i], false, env)| <= st'.lineWidth)
      && (items != [] ==> exists i :: 0 <= i < |items| && |ItemLine(st.programWidth, st.bare, items[i], false, env)| == st'.lineWidth)
      && |Separator(st')| == st'.lineWidth
  {
    var lines := Rendered(st.programWidth, st.bare, items, false, env);
    var width := MaxLength(lines);
    MaxLengthIsMax(lines);
    forall i | 0 <= i < |items|
      ensures |ItemLine(st.programWidth, st.bare, items[i], false, env)| <= width
    {
      RenderedAt(st.programWidth, st.bare, items, false, env, i);
    }
    if items != [] {
      var k :| 0 <= k < |lines| && |lines[k]| == width;
      RenderedAt(st.programWidth, st.bare, items, false, env, k);
    }
  }

  /**
   * The first non-empty section of a run in text mode prints no blank line
   * first, then the title, the header row and the separator, then one line
   * per item and the trailing blank lines.
   */
  lemma FirstSectionShowsHeader(st: ReportState, section: string, items: seq<Item>, linesBefore: nat, linesAfter: nat,
                                bHeader: bool, bSeparator: bool, dns: bool, env: Env, clock: Clock)
    requires !st.headerShown && !st.bare && items != []
    ensures var (st', printed) := SectionPrints(st, section, items, linesBefore, linesAfter, true, bHeader, bSeparator, dns, env, clock);
      && |printed| == |items| + 5
      && printed[0] == ""
      && printed[1] == Printed(Title(st', section, clock))
      && printed[2] == Printed(HeaderRow(st.programWidth))
      && printed[3] == Printed(Separator(st'))
      && printed[4..4 + |items|] == LinePrints(st', items, dns, env)
      && printed[4 + |items|] == Blank(linesAfter)
  {
    var (st', printed) := SectionPrints(st, section, items, linesBefore, linesAfter, true, bHeader, bSeparator, dns, env, clock);
    var h := HeaderPrints(st', section, true, true, true, clock);
    assert |h| == 3;
    var l := LinePrints(st', items, dns, env);
    assert printed == [Blank(0)] + h + l + [Blank(linesAfter)];
    assert printed[4..4 + |items|] == l;
  }

  /** The text starts with 'P' (the header row does; see HeaderRowOnce). */
  predicate StartsWithP(s: string) {
    s != [] && s[0] == 'P'
  }

  lemma HeaderRowStartsWithP(width: nat)
    ensures StartsWithP(Printed(HeaderRow(width)))
  {
    assert PadRight("Port:", 6)[..5] == "Port:";
  }

  lemma ItemLineStartsWithDigit(width: nat, bare: bool, it: Item, dns: bool, env: Env)
    ensures !StartsWithP(Printed(ItemLine(width, bare, it, dns, env)))
  {
    var s := NatToString(it.port);
    var l := ItemLine(width, bare, it, dns, env);
    NatToStringDigits(it.port);
    PadRightSpec(s, 6);
    assert PadRight(s, 6)[0] == s[0];
    assert l[0] == PadRight(s, 6)[0];
  }

  /** Counts how often the header row (for width w) occurs in the printed text. */
  function HeaderCount(printed: seq<string>, w: nat): nat {
    multiset(printed)[Printed(HeaderRow(w))]
  }

  lemma HeaderCountConcat(a: seq<string>, b: seq<string>, w: nat)
    ensures HeaderCount(a + b, w) == HeaderCount(a, w) + HeaderCount(b, w)
  {
    assert multiset(a + b) == multiset(a) + multiset(b);
  }

  /** No printed text in xs starts with 'P', so none of it is the header row. */
  predicate NoneStartsWithP(xs: seq<string>) {
    forall i :: 0 <= i < |xs| ==> !StartsWithP(xs[i])
  }

  lemma NoHeaderIn(printed: seq<string>, w: nat)
    requires NoneStartsWithP(printed)
    ensures HeaderCount(printed, w) == 0
  {
    HeaderRowStartsWithP(w);
    assert Printed(HeaderRow(w)) !in printed;
  }

  lemma BlankNotP(k: nat)
    ensures NoneStartsWithP([Blank(k)])
  {
    if k > 0 {
      assert Blank(k)[0] == '\n';
    }
  }

  lemma DashesNotP(k: nat)
    ensures NoneStartsWithP([Printed(Repeat('-', k))])
  {
    if k > 0 {
      assert Printed(Repeat('-', k))[0] == Repeat('-', k)[0];
    }
  }

  lemma TitleNotP(st: ReportState, section: string, clock: Clock)
    requires section != [] && section[0] != 'P'
    ensures NoneStartsWithP([Printed(Title(st, section, clock))])
  {
    var s := section + " (" + FormattedNow(clock) + ")";
    assert s[0] == section[0];
    CenterFirst(s, st.lineWidth, '-');
  }

  lemma LinesNotP(st: ReportState, items: seq<Item>, dns: bool, env: Env)
    ensures NoneStartsWithP(LinePrints(st, items, dns, env))
  {
    var l := LinePrints(st, items, dns, env);
    forall i | 0 <= i < |l| ensures !StartsWithP(l[i]) {
      LinePrintsAt(st, items, dns, env, i);
      ItemLineStartsWithDigit(st.programWidth, st.bare, items[i], dns, env);
    }
  }

  lemma NoneStartsWithPConcat(a: seq<string>, b: seq<string>)
    requires NoneStartsWithP(a) && NoneStartsWithP(b)
    ensures NoneStartsWithP(a + b)
  {
    assert forall i :: 0 <= i < |a + b| ==> (a + b)[i] == if i < |a| then a[i] else b[i - |a|];
  }

  lemma Regroup<T>(a: seq<T>, b: seq<T>, c: seq<T>, d: seq<T>, e: seq<T>, f: seq<T>)
    ensures a + (b + c + d) + e + f == a + b + c + d + e + f
  {
  }

  lemma AppendAssoc<T>(a: seq<T>, b: seq<T>, c: seq<T>)
    ensures a + b + c == a + (b + c)
  {
  }

  lemma Regroup4<T>(a: seq<T>, b: seq<T>, c: seq<T>, d: seq<T>, e: seq<T>)
    ensures a + b + c + d + e == a + (b + c + d + e)
  {
  }

  /** One more element of lines appended after the prefix already written. */
  lemma AppendStep<T>(o: seq<T>, lines: seq<T>, i: nat, x: T)
    requires i < |lines| && x == lines[i]
    ensures o + lines[..i] + [x] == o + lines[..i + 1]
  {
    assert lines[..i + 1] == lines[..i] + [x];
  }

  lemma TakeAll<T>(s: seq<T>)
    ensures s[..|s|] == s
  {
  }

  /** The shape of a printed section: the header row, if at all, once among texts that cannot be it. */
  lemma ShapeCount(bl: seq<string>, t: seq<string>, hr: seq<string>, sp: seq<string>, l: seq<string>, ba: seq<string>, w: nat)
    requires hr == [] || hr == [Printed(HeaderRow(w))]
    requires NoneStartsWithP(bl) && NoneStartsWithP(t) && NoneStartsWithP(sp) && NoneStartsWithP(l) && NoneStartsWithP(ba)
    ensures HeaderCount(bl + t + hr + sp + l + ba, w) == |hr|
  {
    NoneStartsWithPConcat(bl, t);
    NoneStartsWithPConcat(bl + t, sp);
    NoneStartsWithPConcat(bl + t + sp, l);
    NoneStartsWithPConcat(bl + t + sp + l, ba);
    NoHeaderIn(bl + t + sp + l + ba, w);
    assert multiset(bl + t + hr + sp + l + ba) == multiset(hr) + multiset(bl + t + sp + l + ba);
  }

  /**
   * The column header row is printed by a section (called, as the script
   * does, with bHeader false) exactly once if it is the first non-empty
   * section of a run in text mode, and otherwise not at all.
   */
  lemma HeaderRowOnce(st: ReportState, section: string, items: seq<Item>, linesBefore: nat, linesAfter: nat,
                      bState: bool, bSeparator: bool, dns: bool, env: Env, clock: Clock)
    requires section != [] && section[0] != 'P'
    ensures var (st', printed) := SectionPrints(st, section, items, linesBefore, linesAfter, bState, false, bSeparator, dns, env, clock);
      HeaderCount(printed, st.programWidth) == if !st.bare && !st.headerShown && items != [] then 1 else 0
  {
    var w := st.programWidth;
    var (st', printed) := SectionPrints(st, section, items, linesBefore, linesAfter, bState, false, bSeparator, dns, env, clock);
    if items != [] {
      var first := !st.headerShown;
      var bl := [Blank(if first then 0 else linesBefore)];
      var t := if bState && !st.bare then [Printed(Title(st', section, clock))] else [];
      var hr := if first && !st.bare then [Printed(HeaderRow(w))] else [];
      var sp := if (first || bSeparator) && !st.bare then [Printed(Separator(st'))] else [];
      var l := LinePrints(st', items, dns, env);
      var ba := [Blank(linesAfter)];
      var h := HeaderPrints(st', section, bState, first, first || bSeparator, clock);
      assert h == t + hr + sp;
      assert printed == bl + h + l + ba;
      Regroup(bl, t, hr, sp, l, ba);
      BlankNotP(if first then 0 else linesBefore);
      BlankNotP(linesAfter);
      if bState && !st.bare {
        TitleNotP(st', section, clock);
      }
      if (first || bSeparator) && !st.bare {
        DashesNotP(st'.lineWidth);
      }
      LinesNotP(st', items, dns, env);
      ShapeCount(bl, t, hr, sp, l, ba, w);
    }
  }

  /**
   * Over a whole report: the header row appears once if the state had not
   * shown it yet, the mode is not bare and some printed section is
   * non-empty, and otherwise never; afterwards the flag records whether it
   * has been shown, and the program width is left alone.
   */
  lemma ReportHeaderOnce(st: ReportState, listening: seq<Item>, nonListening: seq<Item>, listeningOnly: bool,
                         dns: bool, env: Env, clock: Clock)
    ensures var r := ReportPrints(st, listening, nonListening, listeningOnly, dns, env, clock);
      var shown := listening != [] || (!listeningOnly && nonListening != []);
      && HeaderCount(r.1, st.programWidth) == (if !st.bare && !st.headerShown && shown then 1 else 0)
      && r.0.headerShown == (st.headerShown || shown)
      && r.0.programWidth == st.programWidth && r.0.bare == st.bare
  {
    var s1 := SectionPrints(st, "LISTENING", listening, 1, 0, true, false, false, dns, env, clock);
    HeaderRowOnce(st, "LISTENING", listening, 1, 0, true, false, dns, env, clock);
    SectionState(st, "LISTENING", listening, 1, 0, true, false, false, dns, env, clock);
    TwoSections(st, s1, listening, nonListening, listeningOnly, dns, env, clock);
  }

  lemma TwoSections(st: ReportState, s1: (ReportState, seq<string>), listening: seq<Item>, nonListening: seq<Item>,
                    listeningOnly: bool, dns: bool, env: Env, clock: Clock)
    requires s1 == SectionPrints(st, "LISTENING", listening, 1, 0, true, false, false, dns, env, clock)
    requires s1.0.bare == st.bare && s1.0.programWidth == st.programWidth
    requires s1.0.headerShown == (st.headerShown || listening != [])
    requires HeaderCount(s1.1, st.programWidth) == if !st.bare && !st.headerShown && listening != [] then 1 else 0
    ensures var r := ReportPrints(st, listening, nonListening, listeningOnly, dns, env, clock);
      var shown := listening != [] || (!listeningOnly && nonListening != []);
      && HeaderCount(r.1, st.programWidth) == (if !st.bare && !st.headerShown && shown then 1 else 0)
      && r.0.headerShown == (st.headerShown || shown)
      && r.0.programWidth == st.programWidth && r.0.bare == st.bare
  {
    if !listeningOnly {
      var s2 := SectionPrints(s1.0, "NON-LISTENING", nonListening, 1, 0, true, false, false, dns, env, clock);
      HeaderRowOnce(s1.0, "NON-LISTENING", nonListening, 1, 0, true, false, dns, env, clock);
      SectionState(s1.0, "NON-LISTENING", nonListening, 1, 0, true, false, false, dns, env, clock);
      HeaderCountConcat(s1.1, s2.1, st.programWidth);
    }
  }

  /** `set_max_program_len`'s argument: an int, or a string that stands for its length. */
  datatype WidthArg = IntArg(n: int) | StrArg(s: string)

  function ArgWidth(a: WidthArg): int {
    match a
    case IntArg(n) => n
    case StrArg(s) => |s|
  }

  /** The running maximum of `calculate_max_line_len`'s loop. */
  method Longest(lines: seq<string>) returns (m: nat)
    ensures m == MaxLength(lines)
  {
    m := 0;
    var i := 0;
    while i < |lines|
      invariant 0 <= i <= |lines|
      invariant m == MaxLength(lines[..i])
    {
      MaxLengthStep(lines, i);
      m := Max(m, |lines[i]|);
      i := i + 1;
    }
    assert lines[..|lines|] == lines;
  }

  /** The single renderer object (the singleton of the script, passed explicitly). */
  class OutputManager {
    var bare: bool
    var maxProgramLen: nat
    var maxLineLen: nat
    var headerDisplayed: bool
    var out: seq<string>

    ghost predicate Valid()
      reads this
    {
      maxProgramLen >= MinProgramWidth
    }

    function State(): ReportState
      reads this
    {
      ReportState(bare, maxProgramLen, maxLineLen, headerDisplayed)
    }

    constructor ()
      ensures Valid() && State() == Initial && out == []
    {
      bare, maxProgramLen, maxLineLen, headerDisplayed := false, MinProgramWidth, 0, false;
      out := [];
    }

    /** `output(port, program, pid, foreign_address, dns)`. */
    function Output(port: Port, program: Option<string>, pid: nat, remote: Option<Address>, dns: bool, env: Env): string
      reads this
    {
      ItemLine(maxProgramLen, bare, Item(port, Entry(pid, program, remote)), dns, env)
    }

    /** `print(s)`. */
    method Print(s: string)
      modifies this
      ensures State() == old(State()) && out == old(out) + [Printed(s)]
    {
      out := out + [Printed(s)];
    }

    /** `print(s, end='')`. */
    method Write(s: string)
      modifies this
      ensures State() == old(State()) && out == old(out) + [s]
    {
      out := out + [s];
    }

    /** `set_bare`. */
    method SetBare(b: bool)
      requires Valid()
      modifies this
      ensures Valid() && State() == old(State()).(bare := b) && out == old(out)
    {
      bare := b;
    }

    /** `set_max_program_len`: the width only grows, and never drops below the floor. */
    method SetMaxProgramLen(a: WidthArg)
      requires Valid()
      modifies this
      ensures Valid() && State() == old(State()).(programWidth := Max(old(maxProgramLen), ArgWidth(a)))
      ensures maxProgramLen >= old(maxProgramLen) && maxProgramLen >= ArgWidth(a)
      ensures out == old(out)
    {
      var n := ArgWidth(a);
      if n > maxProgramLen {
        maxProgramLen := n;
      }
    }

    /** `calculate_max_line_len` (no DNS): a running maximum over the rendered lines. */
    method CalculateMaxLineLen(items: seq<Item>, env: Env)
      modifies this
      ensures State() == old(State()).(lineWidth := LongestLine(maxProgramLen, bare, items, env))
      ensures out == old(out)
    {
      var lines := Rendered(maxProgramLen, bare, items, false, env);
      var m := Longest(lines);
      maxLineLen := m;
    }

    /** The three optional prints of `print_header`. */
    method PrintChosen(bState: bool, bHeader: bool, bSeparator: bool, title: string, header: string, separator: string)
      modifies this
      ensures State() == old(State())
      ensures out == old(out) + Chosen(bState, bHeader, bSeparator, title, header, separator)
    {
      if bState {
        Print(title);
      }
      if bHeader {
        Print(header);
      }
      if bSeparator {
        Print(separator);
      }
    }

    /** `print_header` (the clock is an input). */
    method PrintHeader(section: string, bState: bool, bHeader: bool, bSeparator: bool, clock: Clock)
      modifies this
      ensures State() == old(State())
      ensures out == old(out) + HeaderPrints(State(), section, bState, bHeader, bSeparator, clock)
    {
      if bare {
        return;
      }
      PrintChosen(bState, bHeader, bSeparator, Title(State(), section, clock), HeaderRow(maxProgramLen), Separator(State()));
    }

    /** The line output() renders for the i-th item is the i-th printed line. */
    lemma OutputLine(items: seq<Item>, dns: bool, env: Env, i: nat)
      requires i < |items|
      ensures var it := items[i];
        Printed(Output(it.port, it.entry.program, it.entry.pid, it.entry.remote, dns, env)) == LinePrints(State(), items, dns, env)[i]
    {
      var it := items[i];
      LinePrintsAt(State(), items, dns, env, i);
      assert Item(it.port, Entry(it.entry.pid, it.entry.program, it.entry.remote)) == it;
    }

    /** The loop of `print_section`: one `print(self.output(...))` per item. */
    method PrintLines(items: seq<Item>, dns: bool, env: Env)
      modifies this
      ensures State() == old(State())
      ensures out == old(out) + LinePrints(State(), items, dns, env)
    {
      ghost var lines := LinePrints(State(), items, dns, env);
      var i := 0;
      while i < |items|
        invariant 0 <= i <= |items|
        invariant State() == old(State()) && out == old(out) + lines[..i]
      {
        var it := items[i];
        var line := Output(it.port, it.entry.program, it.entry.pid, it.entry.remote, dns, env);
        OutputLine(items, dns, env, i);
        assert Printed(line) == lines[i];
        Print(line);
        AppendStep(old(out), lines, i, Printed(line));
        i := i + 1;
      }
      TakeAll(lines);
    }

    /** `print_section`. */
    method PrintSection(section: string, items: seq<Item>, linesBefore: nat, linesAfter: nat,
                        bState: bool, bHeader: bool, bSeparator: bool, dns: bool, env: Env, clock: Clock)
      requires Valid()
      modifies this
      ensures Valid()
      ensures var r := SectionPrints(old(State()), section, items, linesBefore, linesAfter, bState, bHeader, bSeparator, dns, env, clock);
        State() == r.0 && out == old(out) + r.1
    {
      CalculateMaxLineLen(items, env);
      if items == [] {
        return;
      }
      var before, withHeader, withSeparator := linesBefore, bHeader, bSeparator;
      if !headerDisplayed {
        headerDisplayed := true;
        before, withHeader, withSeparator := 0, true, true;
      }
      ghost var now := State();
      ghost var head := HeaderPrints(now, section, bState, withHeader, withSeparator, clock);
      ghost var lines := LinePrints(now, items, dns, env);
      SectionShown(old(State()), section, items, linesBefore, linesAfter, bState, bHeader, bSeparator, dns, env, clock);
      Write(Blank(before));
      if !bare {
        PrintHeader(section, bState, withHeader, withSeparator, clock);
      } else {
        assert head == [];
      }
      assert out == old(out) + [Blank(before)] + head;
      PrintLines(items, dns, env);
      Write(Blank(linesAfter));
      Regroup4(old(out), [Blank(before)], head, lines, [Blank(linesAfter)]);
    }
  }
}
