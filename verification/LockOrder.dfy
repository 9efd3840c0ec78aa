/**
  The order in which a stage takes its resource locks: the locks are sorted by
  their debug text.  The text also spells out a declared capacity, and two
  stages may declare different capacities for one resource, so it has to be
  shown that the text still orders resources the same way for everybody.
 */
module LockOrder {
  import opened Stages

  /** What a lock resolves to in the registry of semaphores. */
  datatype Resource = TheGpu | TheCpu | TheDisk | TheApi(name: string) | TheFile(path: string)

  function ResourceOf(l: ResourceLock): Resource {
    match l
    case Gpu => TheGpu
    case Cpu(_) => TheCpu
    case Disk(_) => TheDisk
    case Api(name, _) => TheApi(name)
    case File(path) => TheFile(path)
  }

  predicate SameResource(a: ResourceLock, b: ResourceLock) {
    match (a, b)
    case (Gpu, Gpu) => true
    case (Cpu(_), Cpu(_)) => true
    case (Disk(_), Disk(_)) => true
    case (Api(x, _), Api(y, _)) => x == y
    case (File(x), File(y)) => x == y
    case _ => false
  }

  lemma SameResourceMeansSameSemaphore(a: ResourceLock, b: ResourceLock)
    ensures SameResource(a, b) <==> ResourceOf(a) == ResourceOf(b)
  {
  }

  /** Strings compare character by character; a proper prefix comes first. */
  predicate LexLess(a: string, b: string) {
    b != [] && (a == [] || a[0] < b[0] || (a[0] == b[0] && LexLess(a[1..], b[1..])))
  }

  lemma {:induction false} LexLessTransitive(a: string, b: string, c: string)
    requires LexLess(a, b) && LexLess(b, c)
    ensures LexLess(a, c)
  {
    if a != [] && a[0] == b[0] == c[0] {
      LexLessTransitive(a[1..], b[1..], c[1..]);
    }
  }

  /** The two strings differ at a position inside both: neither is a prefix of the other. */
  predicate Diverge(a: string, b: string) {
    a != [] && b != [] && (a[0] != b[0] || Diverge(a[1..], b[1..]))
  }

  lemma {:induction false} DivergenceDecides(a: string, b: string, s: string, t: string)
    requires Diverge(a, b)
    ensures Diverge(a + s, b + t)
    ensures LexLess(a + s, b + t) <==> LexLess(a, b)
    ensures LexLess(a, b) <==> !LexLess(b, a)
  {
    assert (a + s)[0] == a[0] && (b + t)[0] == b[0];
    assert (a + s)[1..] == a[1..] + s && (b + t)[1..] == b[1..] + t;
    if a[0] == b[0] {
      DivergenceDecides(a[1..], b[1..], s, t);
    }
  }

  lemma {:induction false} DivergeBehind(p: string, a: string, b: string)
    requires Diverge(a, b)
    ensures Diverge(p + a, p + b)
  {
    if p == [] {
      assert p + a == a && p + b == b;
    } else {
      DivergeBehind(p[1..], a, b);
      assert (p + a)[1..] == p[1..] + a && (p + b)[1..] == p[1..] + b;
    }
  }

  /** Different strings, closed by a mark that occurs in neither, diverge. */
  lemma {:induction false} ClosedStringsDiverge(a: string, b: string, mark: char)
    requires a != b && mark !in a && mark !in b
    ensures Diverge(a + [mark], b + [mark])
  {
    if a == [] {
      assert (b + [mark])[0] == b[0];
    } else if b == [] {
      assert (a + [mark])[0] == a[0];
    } else if a[0] == b[0] {
      assert a == [a[0]] + a[1..] && b == [b[0]] + b[1..];
      ClosedStringsDiverge(a[1..], b[1..], mark);
      assert (a + [mark])[1..] == a[1..] + [mark] && (b + [mark])[1..] == b[1..] + [mark];
    }
  }

  function Digit(n: nat): (c: char)
    requires n < 16
    ensures c != '}'
  {
    if n < 10 then '0' + n as char else 'a' + (n - 10) as char
  }

  function DigitValue(c: char): int {
    if c <= '9' then c as int - '0' as int else c as int - 'a' as int + 10
  }

  function Hex(n: nat): (s: string)
    ensures s != [] && '}' !in s
  {
    if n < 16 then [Digit(n)] else Hex(n / 16) + [Digit(n % 16)]
  }

  lemma {:induction false} HexInjective(m: nat, n: nat)
    requires Hex(m) == Hex(n)
    ensures m == n
  {
    var s := Hex(m);
    assert s[|s| - 1] == Digit(m % 16) == Digit(n % 16);
    assert DigitValue(Digit(m % 16)) == m % 16 && DigitValue(Digit(n % 16)) == n % 16;
    hide Digit, DigitValue;
    if m >= 16 && n >= 16 {
      assert Hex(m / 16) == s[..|s| - 1] == Hex(n / 16);
      HexInjective(m / 16, n / 16);
    }
  }

  function Decimal(n: nat): string {
    if n < 10 then [Digit(n)] else Decimal(n / 10) + [Digit(n % 10)]
  }

  /** How a character is written between quotes; which others count as printable is Unicode's business. */
  function Escape(c: char, printable: char -> bool): (s: string)
    ensures s != [] && s[0] != '\"'
  {
    if c == '\0' then "\\0"
    else if c == '\t' then "\\t"
    else if c == '\r' then "\\r"
    else if c == '\n' then "\\n"
    else if c == '\"' then "\\\""
    else if c == '\\' then "\\\\"
    else if printable(c) then [c]
    else "\\u{" + Hex(c as int) + "}"
  }

  lemma EscapesDiverge(c: char, d: char, printable: char -> bool)
    requires c != d
    ensures Diverge(Escape(c, printable), Escape(d, printable))
  {
    var e, f := Escape(c, printable), Escape(d, printable);
    if e[0] == f[0] {
      assert e[0] == '\\' && |e| >= 2 && |f| >= 2;
      assert e[1..][0] == e[1] && f[1..][0] == f[1];
      if e[1] == f[1] {
        assert e[1] == 'u';
        if Hex(c as int) == Hex(d as int) {
          HexInjective(c as int, d as int);
        }
        ClosedStringsDiverge(Hex(c as int), Hex(d as int), '}');
        DivergeBehind("\\u{", Hex(c as int) + "}", Hex(d as int) + "}");
        assert e == "\\u{" + (Hex(c as int) + "}");
        assert f == "\\u{" + (Hex(d as int) + "}");
      }
    }
  }

  /** The text of a string up to and including its closing quote. */
  function Quoted(s: string, printable: char -> bool): (q: string)
    ensures q != []
  {
    if s == [] then "\"" else Escape(s[0], printable) + Quoted(s[1..], printable)
  }

  lemma {:induction false} QuotedDiverge(s: string, t: string, printable: char -> bool)
    requires s != t
    ensures Diverge(Quoted(s, printable), Quoted(t, printable))
  {
    if s == [] || t == [] {
    } else if s[0] == t[0] {
      assert s == [s[0]] + s[1..] && t == [t[0]] + t[1..];
      QuotedDiverge(s[1..], t[1..], printable);
      DivergeBehind(Escape(s[0], printable), Quoted(s[1..], printable), Quoted(t[1..], printable));
    } else {
      EscapesDiverge(s[0], t[0], printable);
      DivergenceDecides(Escape(s[0], printable), Escape(t[0], printable),
                        Quoted(s[1..], printable), Quoted(t[1..], printable));
    }
  }

  /** The debug text of a lock. */
  function Key(l: ResourceLock, printable: char -> bool): string {
    match l
    case Gpu => "Gpu"
    case Cpu(cap) => "Cpu { cap: " + Decimal(cap) + " }"
    case Disk(cap) => "Disk { cap: " + Decimal(cap) + " }"
    case Api(name, cap) => "Api { name: \"" + Quoted(name, printable) + ", cap: " + Decimal(cap) + " }"
    case File(path) => "File { path: \"" + Quoted(path, printable) + " }"
  }

  /** The part of the key that every lock on the resource shares. */
  function Stem(r: Resource, printable: char -> bool): string {
    match r
    case TheGpu => "Gpu"
    case TheCpu => "Cpu { cap: "
    case TheDisk => "Disk { cap: "
    case TheApi(name) => "Api { name: \"" + Quoted(name, printable)
    case TheFile(path) => "File { path: \"" + Quoted(path, printable)
  }

  function Rest(l: ResourceLock): string {
    match l
    case Gpu => ""
    case Cpu(cap) => Decimal(cap) + " }"
    case Disk(cap) => Decimal(cap) + " }"
    case Api(_, cap) => ", cap: " + Decimal(cap) + " }"
    case File(_) => " }"
  }

  lemma KeySplits(l: ResourceLock, printable: char -> bool)
    ensures Key(l, printable) == Stem(ResourceOf(l), printable) + Rest(l)
  {
    match l {
      case Gpu =>
      case Cpu(_) =>
      case Disk(_) =>
      case Api(_, _) =>
      case File(_) =>
    }
  }

  lemma StemsDiverge(r: Resource, q: Resource, printable: char -> bool)
    requires r != q
    ensures Diverge(Stem(r, printable), Stem(q, printable))
  {
    if r.TheApi? && q.TheApi? {
      QuotedDiverge(r.name, q.name, printable);
      DivergeBehind("Api { name: \"", Quoted(r.name, printable), Quoted(q.name, printable));
    } else if r.TheFile? && q.TheFile? {
      QuotedDiverge(r.path, q.path, printable);
      DivergeBehind("File { path: \"", Quoted(r.path, printable), Quoted(q.path, printable));
    }
  }

  predicate Precedes(r: Resource, q: Resource, printable: char -> bool) {
    LexLess(Stem(r, printable), Stem(q, printable))
  }

  /** Whatever capacities two locks declare, their keys compare as their resources do. */
  lemma KeysOrderResources(a: ResourceLock, b: ResourceLock, printable: char -> bool)
    requires !SameResource(a, b)
    ensures LexLess(Key(a, printable), Key(b, printable)) <==> Precedes(ResourceOf(a), ResourceOf(b), printable)
  {
    SameResourceMeansSameSemaphore(a, b);
    KeySplits(a, printable);
    KeySplits(b, printable);
    StemsDiverge(ResourceOf(a), ResourceOf(b), printable);
    DivergenceDecides(Stem(ResourceOf(a), printable), Stem(ResourceOf(b), printable), Rest(a), Rest(b));
  }

  /** The order of resources is strict and total. */
  lemma ResourceOrderIsTotal(r: Resource, q: Resource, printable: char -> bool)
    requires r != q
    ensures Precedes(r, q, printable) <==> !Precedes(q, r, printable)
  {
    StemsDiverge(r, q, printable);
    DivergenceDecides(Stem(r, printable), Stem(q, printable), "", "");
  }

  lemma ResourceOrderIsTransitive(r: Resource, q: Resource, p: Resource, printable: char -> bool)
    requires Precedes(r, q, printable) && Precedes(q, p, printable)
    ensures Precedes(r, p, printable)
  {
    LexLessTransitive(Stem(r, printable), Stem(q, printable), Stem(p, printable));
  }

  /** `l` goes before the first lock whose key is larger, behind those with an equal key. */
  function InsertByKey(locks: seq<ResourceLock>, l: ResourceLock, printable: char -> bool): (r: seq<ResourceLock>)
    ensures multiset(r) == multiset(locks) + multiset{l}
  {
    if locks == [] || !LexLess(Key(l, printable), Key(locks[|locks| - 1], printable)) then locks + [l]
    else
      assert locks == locks[..|locks| - 1] + [locks[|locks| - 1]];
      InsertByKey(locks[..|locks| - 1], l, printable) + [locks[|locks| - 1]]
  }

  /** The stable sort by key. */
  function SortByKey(locks: seq<ResourceLock>, printable: char -> bool): (r: seq<ResourceLock>)
    ensures multiset(r) == multiset(locks)
  {
    if locks == [] then []
    else
      assert locks == locks[..|locks| - 1] + [locks[|locks| - 1]];
      InsertByKey(SortByKey(locks[..|locks| - 1], printable), locks[|locks| - 1], printable)
  }

  /** No two locks of the list are on the same resource. */
  predicate DifferentResources(locks: seq<ResourceLock>) {
    forall i, j :: 0 <= i < j < |locks| ==> ResourceOf(locks[i]) != ResourceOf(locks[j])
  }

  predicate Ascending(locks: seq<ResourceLock>, printable: char -> bool) {
    forall i, j :: 0 <= i < j < |locks| ==> Precedes(ResourceOf(locks[i]), ResourceOf(locks[j]), printable)
  }

  lemma {:induction false} InsertKeepsAscending(locks: seq<ResourceLock>, l: ResourceLock, printable: char -> bool)
    requires Ascending(locks, printable)
    requires forall i :: 0 <= i < |locks| ==> ResourceOf(locks[i]) != ResourceOf(l)
    ensures Ascending(InsertByKey(locks, l, printable), printable)
  {
    hide LexLess, Key, Precedes, ResourceOf;
    if locks != [] {
      var init, last := locks[..|locks| - 1], locks[|locks| - 1];
      SameResourceMeansSameSemaphore(l, last);
      KeysOrderResources(l, last, printable);
      ResourceOrderIsTotal(ResourceOf(l), ResourceOf(last), printable);
      if LexLess(Key(l, printable), Key(last, printable)) {
        InsertKeepsAscending(init, l, printable);
        var r := InsertByKey(init, l, printable);
        forall i | 0 <= i < |r| ensures Precedes(ResourceOf(r[i]), ResourceOf(last), printable) {
          assert r[i] in multiset(init) + multiset{l};
        }
      } else {
        forall i | 0 <= i < |locks| ensures Precedes(ResourceOf(locks[i]), ResourceOf(l), printable) {
          if i < |locks| - 1 {
            ResourceOrderIsTransitive(ResourceOf(locks[i]), ResourceOf(last), ResourceOf(l), printable);
          }
        }
      }
    }
  }

  /** Sorting a list of locks on different resources climbs strictly through the resource order. */
  lemma {:induction false} SortAscends(locks: seq<ResourceLock>, printable: char -> bool)
    requires DifferentResources(locks)
    ensures Ascending(SortByKey(locks, printable), printable)
  {
    hide LexLess, Key, Precedes, ResourceOf;
    if locks != [] {
      var init, last := locks[..|locks| - 1], locks[|locks| - 1];
      SortAscends(init, printable);
      var sorted := SortByKey(init, printable);
      forall i | 0 <= i < |sorted| ensures ResourceOf(sorted[i]) != ResourceOf(last) {
        assert sorted[i] in multiset(init);
      }
      InsertKeepsAscending(sorted, last, printable);
    }
  }

  // ------------------------------------------------------------- any list at all

  lemma {:induction false} LexLessIsTotal(a: string, b: string)
    ensures LexLess(a, b) || LexLess(b, a) || a == b
    ensures !(LexLess(a, b) && LexLess(b, a)) && !LexLess(a, a)
  {
    if a != [] && b != [] {
      LexLessIsTotal(a[1..], b[1..]);
      assert a == [a[0]] + a[1..] && b == [b[0]] + b[1..];
    }
    if a != [] { LexLessIsTotal(a[1..], a[1..]); }
  }

  /** No key of the list comes before the key of an earlier lock. */
  predicate InKeyOrder(locks: seq<ResourceLock>, printable: char -> bool) {
    forall i, j :: 0 <= i < j < |locks| ==> !LexLess(Key(locks[j], printable), Key(locks[i], printable))
  }

  lemma NotLessIsTransitive(a: string, b: string, c: string)
    requires !LexLess(b, a) && !LexLess(c, b)
    ensures !LexLess(c, a)
  {
    LexLessIsTotal(a, b);
    LexLessIsTotal(b, c);
    if LexLess(c, a) {
      if a != b { LexLessTransitive(c, a, b); }
    }
  }

  lemma {:induction false} InsertKeepsKeyOrder(locks: seq<ResourceLock>, l: ResourceLock, printable: char -> bool)
    requires InKeyOrder(locks, printable)
    ensures InKeyOrder(InsertByKey(locks, l, printable), printable)
  {
    hide LexLess, Key;
    if locks != [] {
      var init, last := locks[..|locks| - 1], locks[|locks| - 1];
      LexLessIsTotal(Key(l, printable), Key(last, printable));
      if LexLess(Key(l, printable), Key(last, printable)) {
        InsertKeepsKeyOrder(init, l, printable);
        var r := InsertByKey(init, l, printable);
        forall i | 0 <= i < |r| ensures !LexLess(Key(last, printable), Key(r[i], printable)) {
          assert r[i] in multiset(init) + multiset{l};
        }
      } else {
        forall i | 0 <= i < |locks| ensures !LexLess(Key(l, printable), Key(locks[i], printable)) {
          if i < |locks| - 1 {
            NotLessIsTransitive(Key(locks[i], printable), Key(last, printable), Key(l, printable));
          }
        }
      }
    }
  }

  /** Whatever the list, repeated resources included, the sort puts it in the order of its keys. */
  lemma {:induction false} SortOrdersKeys(locks: seq<ResourceLock>, printable: char -> bool)
    ensures InKeyOrder(SortByKey(locks, printable), printable)
    ensures multiset(SortByKey(locks, printable)) == multiset(locks)
  {
    if locks != [] {
      SortOrdersKeys(locks[..|locks| - 1], printable);
      InsertKeepsKeyOrder(SortByKey(locks[..|locks| - 1], printable), locks[|locks| - 1], printable);
      hide InKeyOrder, InsertByKey;
    }
  }

  /** By kind: services, processor, disk, files, and the graphics card last. */
  function Kind(r: Resource): nat {
    match r
    case TheApi(_) => 0
    case TheCpu => 1
    case TheDisk => 2
    case TheFile(_) => 3
    case TheGpu => 4
  }

  lemma KindsAreOrdered(r: Resource, q: Resource, printable: char -> bool)
    requires Kind(r) < Kind(q)
    ensures Precedes(r, q, printable)
  {
    var (a, b) := (Stem(r, printable), Stem(q, printable));
    assert a[0] == "ACDFG"[Kind(r)] && b[0] == "ACDFG"[Kind(q)];
    hide Stem, Kind;
  }
}
