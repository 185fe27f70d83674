/**
 * `OutputManager.output()` and the `_formatter` / `_header` properties as
 * pure functions of the program-column width and the bare flag: the '{:<6}
 * {:<w} {:<6}' template, the three trailing-field cases, and the header row.
 */
module Layout {
  import opened Wrappers
  import opened Text
  import opened Connections

  /** `program if program else '<unknown>'`: None and '' both print as <unknown>. */
  function ProgramText(program: Option<string>): (r: string)
    ensures r != ""
  {
    if program.Some? && program.value != "" then program.value else "<unknown>"
  }

  /** `f'{ip}:{port}'`, with `' (' + getfqdn(ip) + ')'` appended when dns is on; '' with no address. */
  function AddressText(remote: Option<Address>, dns: bool, fqdn: string -> string): string {
    match remote
    case None => ""
    case Some(a) =>
      a.ip + ":" + NatToString(a.port) + (if dns then " (" + fqdn(a.ip) + ")" else "")
  }

  /** The measuring pass renders without DNS; turning DNS on only adds a suffix. */
  lemma AddressDnsSuffix(remote: Option<Address>, fqdn: string -> string)
    ensures AddressText(remote, false, fqdn) <= AddressText(remote, true, fqdn)
    ensures remote.None? ==> AddressText(remote, true, fqdn) == ""
    ensures remote.Some? ==> AddressText(remote, false, fqdn) != ""
  {
  }

  /** `socket.getservbyport(port)`, or '' when it raises. */
  function ServiceText(port: nat, serviceName: nat -> Option<string>): string {
    serviceName(port).GetOr("")
  }

  /** `'{:<6} {:<w} {:<6}'.format(port, program, pid)`. */
  function Prefix(width: nat, port: nat, program: string, pid: nat): string {
    PadRight(NatToString(port), 6) + " " + PadRight(program, width) + " " + PadRight(NatToString(pid), 6)
  }

  /**
   * The trailing field when not bare: a service and an address give
   * `'SVC: name'` padded to 10, a space and the address right-aligned to 40;
   * a service alone gives `'SVC: name'` padded to 20; otherwise the
   * address (possibly '') right-aligned to 40.
   */
  function Trailer(service: string, address: string): string {
    if service != "" && address != "" then PadRight("SVC: " + service, 10) + " " + PadLeft(address, 40, ' ')
    else if service != "" then PadRight("SVC: " + service, 20)
    else PadLeft(address, 40, ' ')
  }

  /** The three cases of the trailing field, by their width and where the service and address text sit. */
  lemma TrailerCases(service: string, address: string)
    ensures var r := Trailer(service, address);
      && (service != "" && address != "" ==>
            |r| == Max(|service| + 5, 10) + 1 + Max(|address|, 40) &&
            r[..|service| + 5] == "SVC: " + service && r[|r| - |address|..] == address &&
            r[Max(|service| + 5, 10)] == ' ')
      && (service != "" && address == "" ==>
            |r| == Max(|service| + 5, 20) && r[..|service| + 5] == "SVC: " + service)
      && (service == "" ==>
            |r| == Max(|address|, 40) && r[|r| - |address|..] == address &&
            forall i :: 0 <= i < |r| - |address| ==> r[i] == ' ')
  {
    if service != "" && address != "" {
      TrailerBoth(service, address);
    } else if service != "" {
      PadRightSpec("SVC: " + service, 20);
    } else {
      PadLeftSpec(address, 40, ' ');
    }
  }

  lemma TrailerBoth(service: string, address: string)
    requires service != "" && address != ""
    ensures var r := Trailer(service, address);
      |r| == Max(|service| + 5, 10) + 1 + Max(|address|, 40) &&
      r[..|service| + 5] == "SVC: " + service && r[|r| - |address|..] == address &&
      r[Max(|service| + 5, 10)] == ' '
  {
    var a := PadRight("SVC: " + service, 10);
    var b := PadLeft(address, 40, ' ');
    PadRightSpec("SVC: " + service, 10);
    PadLeftSpec(address, 40, ' ');
    SpaceJoin(a, b, |service| + 5, |address|);
  }

  /** Slicing the two halves of `a + " " + b` back out. */
  lemma SpaceJoin(a: string, b: string, m: nat, n: nat)
    requires m <= |a| && n <= |b|
    ensures var r := a + " " + b;
      r[..m] == a[..m] && r[|r| - n..] == b[|b| - n..] && r[|a|] == ' '
  {
  }

  /** `output(port, program, pid, foreign_address, dns)` once the lookups are done. */
  function Line(width: nat, bare: bool, port: nat, program: Option<string>, pid: nat, address: string, service: string): string {
    Prefix(width, port, ProgramText(program), pid) + (if bare then "" else Trailer(service, address))
  }

  /** The line `output()` renders for one dict item. */
  function ItemLine(width: nat, bare: bool, it: Item, dns: bool, env: Env): string {
    Line(width, bare, it.port, it.entry.program, it.entry.pid,
         AddressText(it.entry.remote, dns, env.fqdn), ServiceText(it.port, env.serviceName))
  }

  /** Slicing the space-separated fields of a line back out. */
  lemma FieldSlices(a: string, b: string, c: string, t: string)
    requires |a| == 6 && |c| == 6
    ensures var r := a + " " + b + " " + c + t;
      && |r| == |b| + 14 + |t|
      && r[..6] == a && r[6] == ' ' && r[7..7 + |b|] == b && r[7 + |b|] == ' '
      && r[8 + |b|..14 + |b|] == c && r[14 + |b|..] == t
  {
  }

  /** A number below 10^6 (every port among them) prints in at most six digits. */
  lemma SixDigits(n: nat)
    requires n < 1000000
    ensures |NatToString(n)| <= 6
  {
    assert Pow10(6) == 1000000 by {
      assert Pow10(2) == 100;
      assert Pow10(4) == 10000;
    }
    DecimalWidth(n, 6);
  }

  /**
   * Column layout: while the program name fits its column and the pid has
   * at most six digits, the port occupies columns 0-5, the program columns
   * 7 to 6 + width, the pid the six columns after the next space, and the
   * trailing field (absent in bare mode) starts at column width + 14.
   * Every field starts with its own text: padding never truncates.
   */
  lemma LineColumns(width: nat, bare: bool, port: Port, program: Option<string>, pid: nat, address: string, service: string)
    requires |ProgramText(program)| <= width && pid < 1000000
    ensures var r := Line(width, bare, port, program, pid, address, service);
      && |r| >= width + 14
      && r[..6] == PadRight(NatToString(port), 6)
      && r[6] == ' '
      && r[7..7 + width] == PadRight(ProgramText(program), width)
      && r[7 + width] == ' '
      && r[8 + width..14 + width] == PadRight(NatToString(pid), 6)
      && (bare ==> |r| == width + 14)
      && (!bare ==> r[width + 14..] == Trailer(service, address))
  {
    SixDigits(port);
    SixDigits(pid);
    var t := if bare then "" else Trailer(service, address);
    FieldSlices(PadRight(NatToString(port), 6), PadRight(ProgramText(program), width), PadRight(NatToString(pid), 6), t);
  }

  /** `_header`: the column titles through the same template, then `' {:>20}'`. */
  function HeaderRow(width: nat): string {
    PadRight("Port:", 6) + " " + PadRight("Program", width) + " " + PadRight("PID", 6) + " " +
    PadLeft("Svc Name / Foreign Addr", 20, ' ')
  }

  /** The first three column titles start where LineColumns puts the port, program and pid fields; the fourth starts one column after the trailer does. */
  lemma HeaderColumns(width: nat)
    requires width >= 7
    ensures var h := HeaderRow(width);
      && |h| == width + 38
      && h[..5] == "Port:" && h[5..7] == "  "
      && h[7..14] == "Program"
      && h[8 + width..11 + width] == "PID"
      && h[width + 15..] == "Svc Name / Foreign Addr"
  {
    var a, b, c := PadRight("Port:", 6), PadRight("Program", width), PadRight("PID", 6);
    var d := PadLeft("Svc Name / Foreign Addr", 20, ' ');
    var h := HeaderRow(width);
    assert h == a + " " + b + " " + c + " " + d;
    assert |a| == 6 && |b| == width && |c| == 6 && d == "Svc Name / Foreign Addr";
    assert h[..5] == a[..5];
    assert h[7..14] == b[..7];
    assert h[8 + width..11 + width] == c[..3];
  }

  /** f applied to every item, in order. */
  function Each<T>(f: Item -> T, items: seq<Item>): (r: seq<T>)
    ensures |r| == |items|
  {
    if items == [] then [] else Each(f, items[..|items| - 1]) + [f(items[|items| - 1])]
  }

  lemma {:induction false} EachAt<T>(f: Item -> T, items: seq<Item>, i: nat)
    requires i < |items|
    ensures Each(f, items)[i] == f(items[i])
  {
    if i < |items| - 1 {
      EachAt(f, items[..|items| - 1], i);
    }
  }

  /** The lines `output()` renders for a section's items, in order. */
  function Rendered(width: nat, bare: bool, items: seq<Item>, dns: bool, env: Env): (r: seq<string>)
    ensures |r| == |items|
  {
    Each(it => ItemLine(width, bare, it, dns, env), items)
  }

  lemma RenderedAt(width: nat, bare: bool, items: seq<Item>, dns: bool, env: Env, i: nat)
    requires i < |items|
    ensures Rendered(width, bare, items, dns, env)[i] == ItemLine(width, bare, items[i], dns, env)
  {
    EachAt(it => ItemLine(width, bare, it, dns, env), items, i);
  }

  /** The length of the longest of the lines, 0 for none. */
  function MaxLength(lines: seq<string>): nat {
    if lines == [] then 0 else Max(MaxLength(lines[..|lines| - 1]), |lines[|lines| - 1]|)
  }

  /** One more line: the running maximum in `calculate_max_line_len`'s loop. */
  lemma MaxLengthStep(lines: seq<string>, i: nat)
    requires i < |lines|
    ensures MaxLength(lines[..i + 1]) == Max(MaxLength(lines[..i]), |lines[i]|)
  {
    assert lines[..i + 1][..i] == lines[..i];
  }

  /** MaxLength is the maximum: no line is longer, and some line (if any) is exactly as long. */
  lemma {:induction false} MaxLengthIsMax(lines: seq<string>)
    ensures forall i :: 0 <= i < |lines| ==> |lines[i]| <= MaxLength(lines)
    ensures lines == [] ==> MaxLength(lines) == 0
    ensures lines != [] ==> exists i :: 0 <= i < |lines| && |lines[i]| == MaxLength(lines)
  {
    if lines != [] {
      var t := lines[..|lines| - 1];
      MaxLengthIsMax(t);
      assert forall i :: 0 <= i < |t| ==> lines[i] == t[i];
      if MaxLength(lines) != |lines[|lines| - 1]| {
        var k :| 0 <= k < |t| && |t[k]| == MaxLength(t);
        assert |lines[k]| == MaxLength(lines);
      }
    }
  }

  /** The widest line the measuring pass of `calculate_max_line_len` sees (no DNS). */
  function LongestLine(width: nat, bare: bool, items: seq<Item>, env: Env): nat {
    MaxLength(Rendered(width, bare, items, false, env))
  }
}
