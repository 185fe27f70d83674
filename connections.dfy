/**
 * The records the pipeline works on: a connection as the OS reports it, the
 * entry stored per local port, the external lookups the script calls, and the
 * port-keyed dictionaries (Python dicts keep insertion order, so they are
 * ordered lists of items with distinct ports).
 */
module Connections {
  import opened Wrappers

  type Port = p: nat | p < 65536

  /** `raddr` of a connection: the remote peer. */
  datatype Address = Address(ip: string, port: Port)

  /**
   * One `psutil` connection record: `laddr.port`, `pid`, `status`, `raddr`
   * (absent when empty), and `text`, the record's `str()` as the pattern
   * sees it. That text also shows the fields the rest of the script does
   * not read (file descriptor, address family, socket type, `laddr.ip`),
   * so two records on one port can differ in it alone.
   */
  datatype Connection = Connection(localPort: Port, pid: nat, status: string, remote: Option<Address>, text: string)

  /** The value stored under a port: `(pid, program, foreign_address)`. */
  datatype Entry = Entry(pid: nat, program: Option<string>, remote: Option<Address>)

  /** One `(port, (pid, program, foreign_address))` pair of `dict.items()`. */
  datatype Item = Item(port: Port, entry: Entry)

  /**
   * The foreign calls: `psutil.Process(pid).name()` (None for an exited
   * process), `socket.getservbyport` (None when it raises) and
   * `socket.getfqdn`.
   */
  datatype Env = Env(
    processName: nat -> Option<string>,
    serviceName: nat -> Option<string>,
    fqdn: string -> string)

  /**
   * The `-r` option after `re.compile`: no pattern (absent or empty option),
   * a compiled pattern's `search` as a predicate, or a pattern that failed
   * to compile, with the error text.
   */
  datatype Filter = NoFilter | Pattern(search: string -> bool) | Malformed(message: string)

  predicate IsListen(c: Connection) {
    c.status == "LISTEN"
  }

  type Dict = seq<Item>

  predicate DistinctPorts(d: Dict) {
    forall i, j :: 0 <= i < j < |d| ==> d[i].port != d[j].port
  }

  /** The keys of the dict. */
  function Ports(d: Dict): set<Port> {
    if d == [] then {} else {d[0].port} + Ports(d[1..])
  }

  /** A port is a key exactly when some item carries it. */
  lemma {:induction false} PortsIndex(d: Dict, p: Port)
    ensures p in Ports(d) <==> exists i :: 0 <= i < |d| && d[i].port == p
  {
    if d != [] {
      PortsIndex(d[1..], p);
      if p in Ports(d[1..]) {
        var i :| 0 <= i < |d[1..]| && d[1..][i].port == p;
        assert d[i + 1].port == p;
      }
      if p != d[0].port && exists i :: 0 <= i < |d| && d[i].port == p {
        var i :| 0 <= i < |d| && d[i].port == p;
        assert d[1..][i - 1].port == p;
      }
    }
  }

  /** The value the dict holds at `port`, if it has that key. */
  function Get(d: Dict, port: Port): (r: Option<Entry>)
    ensures r.None? <==> port !in Ports(d)
  {
    if d == [] then None
    else if d[0].port == port then Some(d[0].entry)
    else Get(d[1..], port)
  }

  /** A value found is the entry of an item with that key. */
  lemma {:induction false} GetFound(d: Dict, port: Port)
    requires Get(d, port).Some?
    ensures exists i :: 0 <= i < |d| && d[i] == Item(port, Get(d, port).value)
  {
    if d[0].port != port {
      GetFound(d[1..], port);
      var i :| 0 <= i < |d[1..]| && d[1..][i] == Item(port, Get(d[1..], port).value);
      assert d[i + 1] == d[1..][i];
    }
  }

  /**
   * `d[port] = entry`: an existing key keeps its position and takes the new
   * value, a new key goes at the end.
   */
  function Put(d: Dict, port: Port, entry: Entry): (r: Dict)
    ensures |r| == if port in Ports(d) then |d| else |d| + 1
  {
    if d == [] then [Item(port, entry)]
    else if d[0].port == port then [Item(port, entry)] + d[1..]
    else [d[0]] + Put(d[1..], port, entry)
  }

  /** Put adds its key to the keys and no other. */
  lemma {:induction false} PutPorts(d: Dict, port: Port, entry: Entry)
    ensures Ports(Put(d, port, entry)) == Ports(d) + {port}
  {
    if d != [] {
      if d[0].port != port {
        PutPorts(d[1..], port, entry);
      }
    }
  }

  /** An existing key keeps every item in place; a new key is appended. */
  lemma {:induction false} PutPlaces(d: Dict, port: Port, entry: Entry)
    ensures var r := Put(d, port, entry);
      && (port in Ports(d) ==> |r| == |d| && forall i :: 0 <= i < |d| ==> r[i].port == d[i].port)
      && (port !in Ports(d) ==> r == d + [Item(port, entry)])
  {
    if d != [] && d[0].port != port {
      PutPlaces(d[1..], port, entry);
      var r, t := Put(d, port, entry), Put(d[1..], port, entry);
      if port in Ports(d) {
        forall i | 0 <= i < |d| ensures r[i].port == d[i].port {
          if i > 0 {
            assert r[i] == t[i - 1];
          }
        }
      } else {
        assert r == [d[0]] + (d[1..] + [Item(port, entry)]);
      }
    }
  }

  /** Put is last-write-wins on the key it writes and leaves every other key alone. */
  lemma {:induction false} PutGet(d: Dict, port: Port, entry: Entry, q: Port)
    ensures Get(Put(d, port, entry), q) == if q == port then Some(entry) else Get(d, q)
  {
    if d != [] && d[0].port != port {
      PutGet(d[1..], port, entry, q);
    }
  }

  /** A dict stays a dict under Put: its ports remain distinct. */
  lemma {:induction false} PutDistinct(d: Dict, port: Port, entry: Entry)
    requires DistinctPorts(d)
    ensures DistinctPorts(Put(d, port, entry))
  {
    if d != [] {
      var r := Put(d, port, entry);
      if d[0].port == port {
        assert forall i :: 0 <= i < |d| ==> r[i].port == d[i].port;
      } else {
        var t := Put(d[1..], port, entry);
        PutDistinct(d[1..], port, entry);
        PutPorts(d[1..], port, entry);
        PortsIndex(d[1..], d[0].port);
        assert d[0].port !in Ports(t);
        forall i, j | 0 <= i < j < |r| ensures r[i].port != r[j].port {
          if i == 0 {
            assert r[j] == t[j - 1];
            PortsIndex(t, t[j - 1].port);
          } else {
            assert r[i] == t[i - 1] && r[j] == t[j - 1];
          }
        }
      }
    }
  }
}
