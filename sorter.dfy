/**
 * The sort branch of `get_port_program_mapping` and the choice of its key:
 * `sorted(mapping.items(), key=...)` is a stable sort, modelled here as a
 * stable insertion sort whose results are proved sorted, stable and a
 * permutation of the dict's items.
 */
module Sorter {
  import opened Wrappers
  import opened Connections

  datatype SortBy = ByPid | ByPort | ByProgram

  /** The `sort_by` strings: "PID", "Port", "Program"; anything else sorts by port. */
  function SortByName(name: string): (r: SortBy)
    ensures r == ByPid <==> name == "PID"
    ensures r == ByProgram <==> name == "Program"
    ensures r == ByPort <==> name != "PID" && name != "Program"
  {
    if name == "PID" then ByPid
    else if name == "Port" then ByPort
    else if name == "Program" then ByProgram
    else ByPort
  }

  /** A sort key: an integer (pid, port) or a string (program name). */
  datatype Key = Num(n: int) | Str(s: string)

  /** Python's string `<=`: lexicographic by code point. */
  predicate StrLe(a: string, b: string) {
    a == [] || (b != [] && (a[0] < b[0] || (a[0] == b[0] && StrLe(a[1..], b[1..]))))
  }

  lemma {:induction false} StrLeReflexive(a: string)
    ensures StrLe(a, a)
  {
    if a != [] { StrLeReflexive(a[1..]); }
  }

  lemma {:induction false} StrLeTotal(a: string, b: string)
    ensures StrLe(a, b) || StrLe(b, a)
  {
    if a != [] && b != [] && a[0] == b[0] { StrLeTotal(a[1..], b[1..]); }
  }

  lemma {:induction false} StrLeAntisymmetric(a: string, b: string)
    requires StrLe(a, b) && StrLe(b, a)
    ensures a == b
  {
    if a != [] && b != [] {
      StrLeAntisymmetric(a[1..], b[1..]);
      assert a == [a[0]] + a[1..] && b == [b[0]] + b[1..];
    }
  }

  lemma {:induction false} StrLeTransitive(a: string, b: string, c: string)
    requires StrLe(a, b) && StrLe(b, c)
    ensures StrLe(a, c)
  {
    if a != [] && b != [] && c != [] && a[0] == b[0] && b[0] == c[0] {
      StrLeTransitive(a[1..], b[1..], c[1..]);
    }
  }

  /** Keys of one sort are all of one kind; numbers are put first only to make the order total. */
  predicate KeyLe(x: Key, y: Key) {
    match (x, y)
    case (Num(m), Num(n)) => m <= n
    case (Str(a), Str(b)) => StrLe(a, b)
    case (Num(_), Str(_)) => true
    case (Str(_), Num(_)) => false
  }

  lemma KeyLeTotal(x: Key, y: Key)
    ensures KeyLe(x, y) || KeyLe(y, x)
    ensures KeyLe(x, y) && KeyLe(y, x) ==> x == y
  {
    if x.Str? && y.Str? {
      StrLeTotal(x.s, y.s);
      if StrLe(x.s, y.s) && StrLe(y.s, x.s) { StrLeAntisymmetric(x.s, y.s); }
    }
  }

  lemma KeyLeReflexive(x: Key)
    ensures KeyLe(x, x)
  {
    if x.Str? { StrLeReflexive(x.s); }
  }

  lemma KeyLeTransitive(x: Key, y: Key, z: Key)
    requires KeyLe(x, y) && KeyLe(y, z)
    ensures KeyLe(x, z)
  {
    if x.Str? && y.Str? && z.Str? { StrLeTransitive(x.s, y.s, z.s); }
  }

  /** The three `key=` lambdas: the pid, the port, the program name with None as ''. */
  function KeyOf(order: SortBy, it: Item): Key {
    match order
    case ByPid => Num(it.entry.pid)
    case ByPort => Num(it.port)
    case ByProgram => Str(it.entry.program.GetOr(""))
  }

  predicate SortedBy(order: SortBy, s: seq<Item>) {
    forall i, j :: 0 <= i < j < |s| ==> KeyLe(KeyOf(order, s[i]), KeyOf(order, s[j]))
  }

  /** The items of s whose key is k, in their order in s. */
  function WithKey(order: SortBy, s: seq<Item>, k: Key): seq<Item> {
    if s == [] then []
    else (if KeyOf(order, s[0]) == k then [s[0]] else []) + WithKey(order, s[1..], k)
  }

  /** Inserts x in front of the first item whose key is not below x's. */
  function Insert(order: SortBy, x: Item, s: seq<Item>): seq<Item> {
    if s == [] || KeyLe(KeyOf(order, x), KeyOf(order, s[0])) then [x] + s
    else [s[0]] + Insert(order, x, s[1..])
  }

  /** `sorted(items, key=...)`. */
  function Sort(order: SortBy, s: seq<Item>): seq<Item> {
    if s == [] then [] else Insert(order, s[0], Sort(order, s[1..]))
  }

  lemma {:induction false} InsertPermutes(order: SortBy, x: Item, s: seq<Item>)
    ensures multiset(Insert(order, x, s)) == multiset([x] + s)
  {
    if !(s == [] || KeyLe(KeyOf(order, x), KeyOf(order, s[0]))) {
      InsertPermutes(order, x, s[1..]);
      assert s == [s[0]] + s[1..];
    }
  }

  /** Putting an item in front of a sorted sequence whose keys are all at least its own keeps it sorted. */
  lemma ConsSorted(order: SortBy, y: Item, t: seq<Item>)
    requires SortedBy(order, t)
    requires forall e :: e in t ==> KeyLe(KeyOf(order, y), KeyOf(order, e))
    ensures SortedBy(order, [y] + t)
  {
    var r := [y] + t;
    forall i, j | 0 <= i < j < |r| ensures KeyLe(KeyOf(order, r[i]), KeyOf(order, r[j])) {
      assert r[j] == t[j - 1];
      if i > 0 {
        assert r[i] == t[i - 1];
      }
    }
  }

  lemma {:induction false} InsertSorted(order: SortBy, x: Item, s: seq<Item>)
    requires SortedBy(order, s)
    ensures SortedBy(order, Insert(order, x, s))
  {
    var kx := KeyOf(order, x);
    if s == [] || KeyLe(kx, KeyOf(order, s[0])) {
      forall e | e in s ensures KeyLe(kx, KeyOf(order, e)) {
        var m :| 0 <= m < |s| && s[m] == e;
        if m > 0 {
          KeyLeTransitive(kx, KeyOf(order, s[0]), KeyOf(order, e));
        }
      }
      ConsSorted(order, x, s);
    } else {
      var t := Insert(order, x, s[1..]);
      InsertSorted(order, x, s[1..]);
      InsertPermutes(order, x, s[1..]);
      KeyLeTotal(kx, KeyOf(order, s[0]));
      forall e | e in t ensures KeyLe(KeyOf(order, s[0]), KeyOf(order, e)) {
        assert e in multiset([x] + s[1..]);
        if e != x {
          var m :| 0 <= m < |s[1..]| && s[1..][m] == e;
          assert s[m + 1] == e;
        }
      }
      ConsSorted(order, s[0], t);
    }
  }

  lemma {:induction false} WithKeyInsert(order: SortBy, x: Item, s: seq<Item>, k: Key)
    ensures WithKey(order, Insert(order, x, s), k) == WithKey(order, [x] + s, k)
  {
    var kx := KeyOf(order, x);
    if !(s == [] || KeyLe(kx, KeyOf(order, s[0]))) {
      WithKeyInsert(order, x, s[1..], k);
      KeyLeReflexive(kx);
      var r := Insert(order, x, s);
      assert r[0] == s[0] && r[1..] == Insert(order, x, s[1..]);
      assert ([x] + s[1..])[0] == x && ([x] + s[1..])[1..] == s[1..];
      assert ([x] + s)[1..] == s;
    }
  }

  /** The result is non-decreasing in the chosen key. */
  lemma {:induction false} SortSorted(order: SortBy, s: seq<Item>)
    ensures SortedBy(order, Sort(order, s))
  {
    if s != [] {
      SortSorted(order, s[1..]);
      InsertSorted(order, s[0], Sort(order, s[1..]));
    }
  }

  /** The result holds exactly the dict's items. */
  lemma {:induction false} SortPermutes(order: SortBy, s: seq<Item>)
    ensures multiset(Sort(order, s)) == multiset(s)
  {
    if s != [] {
      SortPermutes(order, s[1..]);
      InsertPermutes(order, s[0], Sort(order, s[1..]));
      assert s == [s[0]] + s[1..];
    }
  }

  /** Stability: items with equal keys keep their order in the dict. */
  lemma {:induction false} SortStable(order: SortBy, s: seq<Item>, k: Key)
    ensures WithKey(order, Sort(order, s), k) == WithKey(order, s, k)
  {
    if s != [] {
      SortStable(order, s[1..], k);
      WithKeyInsert(order, s[0], Sort(order, s[1..]), k);
      assert ([s[0]] + Sort(order, s[1..]))[1..] == Sort(order, s[1..]);
    }
  }
}
