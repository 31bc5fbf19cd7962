/** From the kernel version a node reports to the platform it is served by. */
module Platform {
  import opened Api

  // ----- reading a version -----

  const MAX_SEGMENT := 0x7FFF_FFFF_FFFF_FFFF

  predicate IsDigit(c: char) {
    '0' <= c <= '9'
  }

  predicate AllDigits(s: string) {
    forall c :: c in s ==> IsDigit(c)
  }

  /** The length of the longest prefix of digits. */
  function Run(s: string): (n: nat)
    ensures n <= |s| && AllDigits(s[..n])
    ensures n < |s| ==> !IsDigit(s[n])
  {
    if s == [] || !IsDigit(s[0]) then 0
    else
      assert forall n :: 0 < n <= |s| ==> s[..n] == [s[0]] + s[1..][..n - 1];
      1 + Run(s[1..])
  }

  function Digit(c: char): nat
    requires IsDigit(c)
  {
    (c - '0') as nat
  }

  /** The number a digit string stands for; leading zeros are harmless. */
  function Number(s: string): nat
    requires AllDigits(s)
  {
    if s == [] then 0 else 10 * Number(s[..|s| - 1]) + Digit(s[|s| - 1])
  }

  /** The two leading numbers of the text; what follows them is ignored. Numbers beyond
      64 bits are an error. */
  function KernelVersion(text: string): Option<Version> {
    var a := Run(text);
    if a == 0 || a == |text| || text[a] != '.' then None
    else
      var rest := text[a + 1..];
      var b := Run(rest);
      if b == 0 || Number(text[..a]) > MAX_SEGMENT || Number(rest[..b]) > MAX_SEGMENT then None
      else Some(Version(Number(text[..a]), Number(rest[..b])))
  }

  predicate StartsWithDigit(s: string) {
    s != [] && IsDigit(s[0])
  }

  /** `text` is a number, a dot, a number and something that does not prolong it. */
  predicate Reads(text: string, major: string, minor: string, tail: string) {
    && text == major + "." + minor + tail
    && major != [] && AllDigits(major)
    && minor != [] && AllDigits(minor)
    && !StartsWithDigit(tail)
  }

  lemma {:induction false} RunIs(s: string, digits: string, tail: string)
    requires s == digits + tail && AllDigits(digits) && !StartsWithDigit(tail)
    ensures Run(s) == |digits| && s[..Run(s)] == digits && s[Run(s)..] == tail
  {
    if digits != [] {
      assert s[0] == digits[0] && digits[0] in digits;
      assert s[1..] == digits[1..] + tail;
      forall c | c in digits[1..] ensures IsDigit(c) { assert c in digits; }
      RunIs(s[1..], digits[1..], tail);
    }
  }

  /** A text is accepted exactly when it reads as two numbers that fit, and then it is
      read in only one way. */
  lemma {:induction false} AcceptedIffReads(text: string, major: string, minor: string, tail: string)
    requires Reads(text, major, minor, tail)
    ensures KernelVersion(text)
         == if Number(major) > MAX_SEGMENT || Number(minor) > MAX_SEGMENT then None
            else Some(Version(Number(major), Number(minor)))
  {
    assert text == major + ("." + minor + tail);
    RunIs(text, major, "." + minor + tail);
    assert text[|major|] == '.' && text[|major| + 1..] == minor + tail;
    RunIs(minor + tail, minor, tail);
  }

  lemma {:induction false} AcceptedReads(text: string) returns (major: string, minor: string, tail: string)
    requires KernelVersion(text).Some?
    ensures Reads(text, major, minor, tail)
  {
    var a := Run(text);
    var rest := text[a + 1..];
    major, minor, tail := text[..a], rest[..Run(rest)], rest[Run(rest)..];
    assert text == text[..a] + text[a..] && text[a..] == [text[a]] + rest;
    assert rest == minor + tail;
  }

  function Decimal(n: nat): (s: string)
    ensures s != [] && AllDigits(s) && Number(s) == n
    decreases n
  {
    if n < 10 then
      var s := [('0' as int + n) as char];
      assert s[..0] == [] && Number(s[..0]) == 0;
      s
    else
      var s := Decimal(n / 10) + [('0' as int + n % 10) as char];
      assert s[..|s| - 1] == Decimal(n / 10);
      s
  }

  /** Printing a version and reading it back gives the version, whatever is appended. */
  lemma {:induction false} KernelRoundTrip(v: Version, tail: string)
    requires 0 <= v.major <= MAX_SEGMENT && 0 <= v.minor <= MAX_SEGMENT && !StartsWithDigit(tail)
    ensures KernelVersion(Decimal(v.major) + "." + Decimal(v.minor) + tail) == Some(v)
  {
    var text := Decimal(v.major) + "." + Decimal(v.minor) + tail;
    AcceptedIffReads(text, Decimal(v.major), Decimal(v.minor), tail);
  }

  // ----- comparing versions -----

  function CompareSegment(a: int, b: int): int {
    if a < b then -1 else if a > b then 1 else 0
  }

  function Compare(a: Version, b: Version): int {
    var d := CompareSegment(a.major, b.major);
    if d != 0 then d else CompareSegment(a.minor, b.minor)
  }

  predicate GreaterOrEqual(version: Version, supported: Version) {
    !(Compare(version, supported) < 0)
  }

  /** The comparison is a total order: of two versions one is at least the other, both
      only when they are equal, and it is transitive. */
  lemma {:induction false} VersionsAreOrdered(a: Version, b: Version, c: Version)
    ensures GreaterOrEqual(a, b) || GreaterOrEqual(b, a)
    ensures GreaterOrEqual(a, b) && GreaterOrEqual(b, a) <==> a == b
    ensures GreaterOrEqual(a, b) && GreaterOrEqual(b, c) ==> GreaterOrEqual(a, c)
  {
  }

  // ----- choosing a platform -----

  datatype Description = Description(tag: string, labeltag: string, check: Version -> bool)

  type Table = map<string, Description>

  const DEFAULT := "default"
  const KERNEL_5_4 := "kernel-5.4"
  const SUPPORTED := Version(5, 4)

  const PLATFORMS: Table := map[
    DEFAULT := Description("", DEFAULT, v => false),
    KERNEL_5_4 := Description(KERNEL_5_4, KERNEL_5_4, v => GreaterOrEqual(v, SUPPORTED))]

  predicate Fits(table: Table, name: string, v: Version) {
    name in table && table[name].check(v)
  }

  /** The search in one iteration order of the table. */
  function FindIn(table: Table, v: Version, order: seq<string>): string {
    if order == [] then DEFAULT
    else if Fits(table, order[0], v) then order[0]
    else FindIn(table, v, order[1..])
  }

  /** The keys come in an order nobody controls. */
  method FindPlatform(table: Table, v: Version) returns (name: string)
    ensures exists order :: IsListing(order, table.Keys) && name == FindIn(table, v, order)
  {
    var rest := table.Keys;
    ghost var visited: seq<string> := [];
    while rest != {}
      invariant rest <= table.Keys && IsListing(visited, table.Keys - rest)
      invariant forall n :: n in visited ==> !Fits(table, n, v)
    {
      var key :| key in rest;
      if table[key].check(v) {
        Continues(table, v, visited, key, rest);
        return key;
      }
      rest := rest - {key};
      visited := visited + [key];
    }
    FindsNothing(table, v, visited);
    return DEFAULT;
  }

  lemma {:induction false} FindsNothing(table: Table, v: Version, order: seq<string>)
    requires forall n :: n in order ==> !Fits(table, n, v)
    ensures FindIn(table, v, order) == DEFAULT
  {
    if order != [] { FindsNothing(table, v, order[1..]); }
  }

  lemma {:induction false} FindsFirst(table: Table, v: Version, before: seq<string>, key: string, after: seq<string>)
    requires (forall n :: n in before ==> !Fits(table, n, v)) && Fits(table, key, v)
    ensures FindIn(table, v, before + [key] + after) == key
  {
    if before == [] {
      assert before + [key] + after == [key] + after;
    } else {
      assert (before + [key] + after)[1..] == before[1..] + [key] + after;
      FindsFirst(table, v, before[1..], key, after);
    }
  }

  /** A search that found nothing so far and then `key` is one of the whole table. */
  lemma {:induction false} Continues(table: Table, v: Version, visited: seq<string>, key: string, rest: set<string>)
    requires key in rest && rest <= table.Keys && IsListing(visited, table.Keys - rest)
    requires (forall n :: n in visited ==> !Fits(table, n, v)) && Fits(table, key, v)
    ensures exists order :: IsListing(order, table.Keys) && FindIn(table, v, order) == key
  {
    var after := Enumerate(rest - {key});
    var order := visited + [key] + after;
    FindsFirst(table, v, visited, key, after);
    forall n ensures n in order <==> n in table.Keys {
      assert n in visited <==> n in table.Keys - rest;
    }
    forall i, j | 0 <= i < j < |order| ensures order[i] != order[j] {
      assert i < |visited| ==> order[i] == visited[i] && order[i] in visited;
      assert j < |visited| ==> order[j] == visited[j];
      assert j > |visited| ==> order[j] == after[j - |visited| - 1] && order[j] in after;
      assert i > |visited| ==> order[i] == after[i - |visited| - 1];
    }
    assert IsListing(order, table.Keys);
  }

  /** A platform that fits, or the default when none does. */
  predicate Possible(table: Table, v: Version, name: string) {
    if forall n | n in table :: !Fits(table, n, v) then name == DEFAULT else Fits(table, name, v)
  }

  lemma {:induction false} FoundFits(table: Table, v: Version, order: seq<string>)
    ensures if forall n :: n in order ==> !Fits(table, n, v) then FindIn(table, v, order) == DEFAULT
            else FindIn(table, v, order) in order && Fits(table, FindIn(table, v, order), v)
  {
    if order != [] && !Fits(table, order[0], v) {
      FoundFits(table, v, order[1..]);
      assert forall n :: n in order <==> n == order[0] || n in order[1..];
    }
  }

  /** Each order leads to a possible platform, and each possible one is what some order
      leads to. */
  lemma {:induction false} FoundIffPossible(table: Table, v: Version, name: string)
    ensures Possible(table, v, name)
       <==> exists order :: IsListing(order, table.Keys) && FindIn(table, v, order) == name
  {
    if Possible(table, v, name) {
      if Fits(table, name, v) {
        assert table.Keys - table.Keys == {};
        Continues(table, v, [], name, table.Keys);
      } else {
        var order := Enumerate(table.Keys);
        FindsNothing(table, v, order);
        assert IsListing(order, table.Keys);
      }
    }
    if order :| IsListing(order, table.Keys) && FindIn(table, v, order) == name {
      FoundFits(table, v, order);
    }
  }

  ghost predicate Exclusive(table: Table, v: Version) {
    forall a, b :: Fits(table, a, v) && Fits(table, b, v) ==> a == b
  }

  ghost predicate SameInEveryOrder(table: Table, v: Version) {
    forall p, q :: IsListing(p, table.Keys) && IsListing(q, table.Keys) ==> FindIn(table, v, p) == FindIn(table, v, q)
  }

  /** The search gives the same result in every order exactly when no two platforms fit. */
  lemma {:induction false} OrderIrrelevantIffExclusive(table: Table, v: Version)
    ensures SameInEveryOrder(table, v) <==> Exclusive(table, v)
  {
    hide FindIn;
    if Exclusive(table, v) {
      forall p, q | IsListing(p, table.Keys) && IsListing(q, table.Keys)
        ensures FindIn(table, v, p) == FindIn(table, v, q)
      {
        FoundIffPossible(table, v, FindIn(table, v, p));
        FoundIffPossible(table, v, FindIn(table, v, q));
      }
    } else {
      var a, b :| Fits(table, a, v) && Fits(table, b, v) && a != b;
      FoundIffPossible(table, v, a);
      FoundIffPossible(table, v, b);
    }
  }

  function PlatformOf(v: Version): string {
    if v.major > 5 || (v.major == 5 && v.minor >= 4) then KERNEL_5_4 else DEFAULT
  }

  /** On the operator's table every order gives the same answer: the numeric comparison
      of major and minor, which is the comparison with the supported version. */
  lemma {:induction false} TableDecides(v: Version, name: string)
    ensures PlatformOf(v) == KERNEL_5_4 <==> GreaterOrEqual(v, SUPPORTED)
    ensures Possible(PLATFORMS, v, name) <==> name == PlatformOf(v)
    ensures PlatformOf(v) in PLATFORMS
  {
    assert !Fits(PLATFORMS, DEFAULT, v) && (Fits(PLATFORMS, KERNEL_5_4, v) <==> GreaterOrEqual(v, SUPPORTED));
    assert forall n :: n in PLATFORMS ==> n == DEFAULT || n == KERNEL_5_4;
  }

  /** A newer kernel never falls back to the default platform. */
  lemma {:induction false} NewerKeepsPlatform(older: Version, newer: Version, a: string, b: string)
    requires GreaterOrEqual(newer, older)
    requires Possible(PLATFORMS, older, a) && Possible(PLATFORMS, newer, b)
    ensures a == KERNEL_5_4 ==> b == KERNEL_5_4
  {
    hide GreaterOrEqual, Possible, PlatformOf;
    TableDecides(older, a);
    TableDecides(newer, b);
    VersionsAreOrdered(newer, older, SUPPORTED);
  }

  // ----- names -----

  function NameWithTag(name: string, tag: string): string {
    if tag != "" then name + "-" + tag else name
  }

  /** Different tags give different names. */
  lemma {:induction false} NamesTellTags(name: string, a: string, b: string)
    requires NameWithTag(name, a) == NameWithTag(name, b)
    ensures a == b
  {
    var s, t := NameWithTag(name, a), NameWithTag(name, b);
    if a != "" && b != "" {
      assert a == s[|name| + 1..] && b == t[|name| + 1..];
    }
  }
}
