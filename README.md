# open-ports-and-programs, modelled in Dafny

`open-ports-and-programs.py` lists the open network ports of a machine
together with the program that owns each one. One pass of the script does
several things:

- It looks at every connection the OS reports.
- It skips non-LISTEN connections when `-l` is given.
- It skips connections that neither the connection text nor the program
  name match, when `-r` is given.
- It stores each remaining connection under its local port, in one of two
  dicts (LISTEN or everything else). A later connection on the same port
  overwrites an earlier one.
- It widens the program column to the longest program name among the kept
  connections, including ones a later connection on the same port
  overwrote.
- It sorts both dicts by PID, port or program name.
- It prints two sections ("LISTENING", "NON-LISTENING") through the
  `OutputManager` renderer:
  - each section measures its own widest line;
  - the first non-empty section adds the column header row and a
    separator;
  - a centred title carries the time and the local `±HH:MM` zone offset;
  - bare mode (`-b`) drops the title, header row and separator, but still
    prints the blank lines around a section and the `Error: ...` line of a
    pattern that failed to compile.

Module by module:

- `Wrappers`: `Option` and `Result`.
- `Text`: Python's `'{:<n}'`, `'{:>n}'`, `'{:02}'`, `str(n)` and
  `str.center`, all as pure string functions, with their shape lemmas. A
  decimal reader is the inverse of `str(n)`.
- `Timezone`: the `±HH:MM` offset text and a reader for it. The clock, the
  DST flag and the two zone offsets are inputs.
- `Connections`: the connection record and the stored entry. Also the lookups
  the script calls out to (`Env`) and the `-r` option after compilation
  (`Filter`). Python dicts keep insertion order, so a dict is an ordered list
  of items with distinct ports; `Put` and `Get` are item assignment and
  lookup.
- `Classifier`:
  - the loop of `get_port_program_mapping` and `process_connection`, as
    reference definitions (`Kept`, `Buckets`, `GrowWidth`);
  - the loop itself as a fold, `ScanOf`, which also records how the loop can
    stop with an exception;
  - lemmas that tie `ScanOf` to the reference definitions.
- `Sorter`: the three `key=` functions and a stable sort. The sort is proved
  sorted, a permutation and stable.
- `Layout`: `OutputManager.output()` and the `_header` row, with their column
  layout.
- `Report`:
  - the renderer state, and the text `print_header` / `print_section` print,
    as pure functions of that state;
  - the `OutputManager` class, with fields `bare`, `maxProgramLen`,
    `maxLineLen`, `headerDisplayed` and the printed text `out`. Its methods
    are proved against those functions.
- `Pipeline`: `get_port_program_mapping` as a method on the renderer, and
  the choice of sort key from `-i`, `-p` and `-s`.

Inputs to the model, since they cannot be computed:

- the connection table;
- the process-name, service-name and reverse-DNS lookups;
- `str(connection)`, the text the pattern is matched against, held as a field
  of the connection record;
- the compiled pattern's `search`;
- the clock.

Where a description of the program and its code differ, the model follows
the code:

- The program column (`set_max_program_len`) grows only for connections that
  pass the pattern test: line 207 runs after the `continue` at line 204.
- The separator and the title are as wide as the widest line of their own
  section. `calculate_max_line_len` (lines 83-88) runs at the start of each
  `print_section`.
- That measurement renders without DNS (line 116). So with `-d`, lines can
  be wider than the separator (`Layout.AddressDnsSuffix`).
- Bare mode prints port, program and pid only. The template at line 63 has
  three fields, so line 158 drops the foreign address.
- Items with equal sort keys keep dict insertion order: `sorted` is stable.
  They are not ordered by port.
- A pattern that fails to compile prints `Error: ...` and leaves `pattern`
  unbound. The first connection that reaches line 204 then raises
  UnboundLocalError. This is `Crash.UnboundPattern`.
- A connection that reaches line 204 may have no program name (an exited
  process). The name then goes to `pattern.search` or `set_max_program_len`
  as None, which raises a type error. This is `Crash.NoProgramName`.
- The zone sign is '+' exactly when `time.timezone` (or `time.altzone` under
  DST) is non-negative. Those count seconds west of UTC, so the text carries
  the opposite sign from the usual UTC offset (lines 94-99).

## Model

| member | source | states |
|---|---|---|
| Text.PadRightSpec | open-ports-and-programs.py:63 | `'{:<n}'` keeps the text as a prefix and fills with spaces up to width n; it never truncates |
| Text.PadLeftSpec | open-ports-and-programs.py:169 | `'{:>n}'` keeps the text as a suffix behind fill characters; it never truncates |
| Text.CenterSpec | open-ports-and-programs.py:105 | `str.center` gives max(width, len) characters with the text in the middle; the left and right margins differ by at most one |
| Text.CenterFirst | open-ports-and-programs.py:105 | a centred title starts with the fill '-' or with its own first character |
| Text.NatToStringDigits | open-ports-and-programs.py:147 | `str(n)` is all decimal digits, with no leading zero unless it is "0" |
| Text.DecimalRoundTrip | open-ports-and-programs.py:147 | reading `str(n)` back as a decimal number gives n |
| Text.DecimalWidth | open-ports-and-programs.py:63 | a number below 10^k prints in at most max(k, 1) digits |
| Text.ZeroPad2Spec | open-ports-and-programs.py:99 | `'{:02}'` gives digits that read back as n, exactly two of them when n < 100 |
| Timezone.NowShowsLocalOffset | open-ports-and-programs.py:94-102 | the title's time text is the stamp, then the offset in parentheses; reading it back gives `time.timezone` without daylight saving and `time.altzone` with it, cut to whole minutes (for zone offsets under 100 hours) |
| Timezone.OffsetShape | open-ports-and-programs.py:96-99 | the offset text starts with '+' iff the offset is >= 0, has ':' before the two minute digits, and is 6 characters long when the offset is under 100 hours |
| Timezone.OffsetRoundTrip | open-ports-and-programs.py:96-99 | reading the text back gives the sign and the offset truncated to whole minutes |
| Connections.Get | open-ports-and-programs.py:185 | a lookup finds nothing exactly when the port is not a key |
| Connections.PutPorts | open-ports-and-programs.py:184-187 | after `d[port] = v` the keys are the old keys plus port |
| Connections.PutGet | open-ports-and-programs.py:184-187 | after `d[port] = v`, port maps to v and every other port maps to what it mapped to before |
| Connections.PutPlaces | open-ports-and-programs.py:184-187 | overwriting a key keeps every key in its place; a new key is appended at the end (insertion order) |
| Connections.PutDistinct | open-ports-and-programs.py:184-187 | assignment keeps the ports of a dict distinct |
| Classifier.KeptSpec | open-ports-and-programs.py:201-206 | a connection reaches `process_connection` iff it passes the listening-only test and the pattern matches its text or its program name; an unset pattern admits all, an uncompiled one none |
| Classifier.KeptEverything | open-ports-and-programs.py:201-206 | with neither `-l` nor `-r`, every connection is stored |
| Classifier.BucketsRouting | open-ports-and-programs.py:179-187 | a port is a key of the LISTEN dict iff some stored LISTEN connection has it as local port; the same holds for the other dict and non-LISTEN connections |
| Classifier.BucketsLastWriteWins | open-ports-and-programs.py:184-187 | the entry stored under a port is the `(pid, program, raddr)` of the last stored connection on that port in that dict |
| Classifier.BucketsAreDicts | open-ports-and-programs.py:184-187 | both mappings have distinct ports |
| Classifier.ListeningOnlyLeavesOthersEmpty | open-ports-and-programs.py:202-203 | with `-l` the non-listening dict stays empty |
| Classifier.GrowWidthIsMax | open-ports-and-programs.py:142-143 | the program width after the loop is the largest of its starting value and the kept connections' name lengths (overwritten ones included): at least each of them and equal to one of them |
| Classifier.ScanStopped | open-ports-and-programs.py:201-207 | once an exception stops the loop, the connections after it change nothing |
| Classifier.ScanCrashes | open-ports-and-programs.py:196-207 | the loop stops on the unbound pattern iff the pattern failed to compile and some connection passes the listening-only test; it runs to the end iff that does not happen and every connection passing that test has a program name |
| Classifier.ScanMatches | open-ports-and-programs.py:201-207 | a loop that runs to the end leaves the two dicts of the stored connections and the width grown over their names in order |
| Sorter.SortByName | open-ports-and-programs.py:209-220 | "PID" sorts by pid, "Program" by name, and "Port" or any other string by port |
| Sorter.KeyLeTotal | open-ports-and-programs.py:210-219 | the key order is total and antisymmetric |
| Sorter.SortSorted | open-ports-and-programs.py:209-220 | the sorted items are non-decreasing in the key; a missing program name sorts as '' |
| Sorter.SortPermutes | open-ports-and-programs.py:209-220 | the sorted items are exactly the dict's items |
| Sorter.SortStable | open-ports-and-programs.py:209-220 | items with equal keys keep their dict order |
| Layout.ProgramText | open-ports-and-programs.py:146 | the program column text is never empty (None and '' print as `<unknown>`, by definition) |
| Layout.AddressDnsSuffix | open-ports-and-programs.py:147-149 | with DNS the address text only gains a suffix; it is empty exactly when there is no remote address |
| Layout.TrailerCases | open-ports-and-programs.py:161-169 | the three trailing-field cases: service and address (10 + 1 + 40 columns), service alone (20, left), address alone (40, right); each case gives its width and where each text sits |
| Layout.LineColumns | open-ports-and-programs.py:156-170 | when the program name fits the column width w and the pid has at most six digits: port in columns 0-5, program in 7..6+w, pid in the six after the next space, the trailer from column w+14 on; a bare line ends there (a longer name or a 7-digit pid shifts every later column) |
| Layout.HeaderColumns | open-ports-and-programs.py:66-67 | the first three titles (`Port:`, `Program`, `PID`) start where a line's port, program and pid fields start; the fourth is right-aligned and starts at column w+15, one after the trailer's start; the row is w+38 wide |
| Layout.MaxLengthIsMax | open-ports-and-programs.py:84-88 | the measured width is the length of the longest line, 0 for none |
| Report.Longest | open-ports-and-programs.py:84-88 | the running-maximum loop computes that longest length |
| Report.SectionState | open-ports-and-programs.py:115-124 | a section keeps the bare flag and program width and sets the header flag once it is non-empty; an empty section prints nothing and measures 0 |
| Report.SectionWidth | open-ports-and-programs.py:83-88 | the separator is as wide as the widest item line rendered without DNS: none is wider, one is as wide |
| Report.FirstSectionShowsHeader | open-ports-and-programs.py:119-131 | the first non-empty section in text mode prints no blank lines first, then title, header row, separator, one line per item, and last the `lines_after` blank lines |
| Report.HeaderRowOnce | open-ports-and-programs.py:119-127 | a section prints the header row exactly once if it is the first non-empty one in text mode, else never |
| Report.ReportHeaderOnce | open-ports-and-programs.py:222-224 | over the two sections the header row appears once if it has not been shown before, the mode is not bare and a printed section is non-empty, and else never; the flag records that it was shown |
| Report.OutputManager.constructor | open-ports-and-programs.py:54-58 | starts with bare off, program width 30, line width 0, no header shown |
| Report.OutputManager.SetBare | open-ports-and-programs.py:133-134 | sets the bare flag and nothing else |
| Report.OutputManager.SetMaxProgramLen | open-ports-and-programs.py:136-143 | the width becomes the larger of its old value and the argument (a string stands for its length); it never shrinks |
| Report.OutputManager.CalculateMaxLineLen | open-ports-and-programs.py:83-88 | sets the line width to the longest line the items render to without DNS; prints nothing |
| Report.OutputManager.PrintHeader | open-ports-and-programs.py:105-113 | prints nothing in bare mode, else the title, header row and separator that are switched on, in that order |
| Report.OutputManager.PrintLines | open-ports-and-programs.py:128-130 | prints one `output()` line per item, in order |
| Report.OutputManager.PrintSection | open-ports-and-programs.py:115-131 | the new state and printed text are exactly those of the section function: measure, skip if empty, force header and separator on the first section, blank lines around |
| Pipeline.ErrorPrints | open-ports-and-programs.py:196-199 | one error line is printed exactly when the pattern failed to compile |
| Pipeline.SortChoiceOrder | open-ports-and-programs.py:243-246 | `-i` wins over `-p`, which wins over `-s`; the default sorts by program |
| Pipeline.Visit | open-ports-and-programs.py:201-207 | one loop iteration on the renderer does exactly one step of the fold |
| Pipeline.CollectMappings | open-ports-and-programs.py:201-207 | the loop returns the fold's dicts or its exception, and leaves the program width where the fold puts it; it prints nothing |
| Pipeline.PrintReport | open-ports-and-programs.py:209-224 | sorts both dicts by the chosen key and prints the LISTENING section, then the NON-LISTENING one unless `-l` |
| Pipeline.GetPortProgramMapping | open-ports-and-programs.py:189-226 | sets bare and prints the compile error; fails iff the pattern is unbound and reached, or a reached connection has no name; otherwise returns the dicts of the stored connections and prints the two sorted sections |

## Left out

- The refresh loop of the main block (`-c`, `time.sleep`, the KeyboardInterrupt handler, lines 248-256) is not modelled. It repeats one pass, and time and signals are outside the model.
- Argument parsing and the help text (`CustomArgumentParser`, `CustomHelpFormatter`) are left out. Only the sort-key choice from `-i`/`-p`/`-s` is modelled.
- The `OutputManager.__new__` singleton is left out. The one renderer object is passed in explicitly, and its fields start at the class attributes' values.
- `time.strftime` is not modelled. The formatted date and time are part of the `Clock` input; the `±HH:MM` offset inside them is modelled.
- `psutil.net_connections`, `psutil.Process(pid).name()`, `socket.getservbyport`, `socket.getfqdn`, `str(connection)` and `re.compile` are inputs (`Env`, `Filter`). The model treats them as fixed functions, whereas the real lookups can change between the two rendering passes.
- The process-name lookup runs up to three times per connection (lines 183, 204 and 207). The model asks a fixed function once, so it does not capture a process that exits between the calls, which would let line 204 see a name and line 207 see None.
- `psutil.AccessDenied` is not modelled. `net_connections()` or `Process(pid).name()` can raise it, `get_program_by_pid` catches only `NoSuchProcess` (line 176), so it would escape and end the run.
- Real output is not modelled. Printing appends the written text to `out`, one element per `print` call.
- Pipeline.GetPortProgramMapping: a connection without a pid (psutil may report None) is not modelled, because pid is a `nat`. With such a connection the PID sort key `int(None)` and the pid column would raise a type error.
- Layout.Trailer: braces in a service name are not modelled. The script splices the service name into a format template, so a name containing `{` or `}` would change the template.
- Report.OutputManager.CalculateMaxLineLen: the per-item loop is stated as a rendering followed by a maximum loop (`Longest`); lines are not measured one by one as they render.
- Report.OutputManager.PrintSection: its print loop is the helper method `PrintLines`.
