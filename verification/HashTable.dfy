/**
 The string hash of lab3/src/common/common.c and the chained table of lab3/src/common/hashmap.c.
 */
module HashTable {

  // A C string without its end: a char is signed, and not zero.
  type Char = x: int | -128 <= x < 128 && x != 0 witness 1
  type CString = seq<Char>

  const MAX_KEY_LENGTH := 512
  const TABLE_SIZE := 128
  const ULONG_RANGE := 0x1_0000_0000_0000_0000   // unsigned long
  const UINT_RANGE := 0x1_0000_0000           // unsigned int

  function Prefix(str: CString, n: nat): (p: CString)
    ensures p <= str && |p| == if |str| <= n then |str| else n
  {
    if |str| <= n then str else str[..n]
  }

  // The hash without any bound on its size.
  function Exact(str: CString): int
  {
    if str == [] then 5381 else Exact(str[..|str| - 1]) * 33 + str[|str| - 1]
  }

  function Power(b: int, n: nat): int { if n == 0 then 1 else b * Power(b, n - 1) }

  // The first j characters, each times 33 to the number of characters behind it.
  function Weighted(str: CString, j: nat): int
    requires j <= |str|
  {
    if j == 0 then 0 else Weighted(str, j - 1) + str[j - 1] * Power(33, |str| - j)
  }

  /** The hash is 5381 * 33^n + str[0] * 33^(n-1) + ... + str[n-1] for a string of n characters. */
  lemma {:induction false} ExactSum(str: CString)
    ensures Exact(str) == 5381 * Power(33, |str|) + Weighted(str, |str|)
  {
    if str != [] {
      var n := |str| - 1;
      ExactSum(str[..n]);
      WeightedNext(str, n);
      assert Power(33, n + 1) == 33 * Power(33, n);
      assert Power(33, 0) == 1;
    }
  }

  lemma {:induction false} WeightedNext(str: CString, j: nat)
    requires str != [] && j <= |str| - 1
    ensures Weighted(str, j) == 33 * Weighted(str[..|str| - 1], j)
  {
    if j > 0 {
      WeightedNext(str, j - 1);
      assert Power(33, |str| - j) == 33 * Power(33, |str| - 1 - j);
      var c: int := str[j - 1];
      Associates(c, Power(33, |str| - 1 - j));
    }
  }

  lemma Associates(c: int, p: int)
    ensures c * (33 * p) == 33 * (c * p)
  {
  }

  lemma Multiple(m: int, d: int)
    requires m > 0
    ensures (d >= 1 ==> m * d >= m) && (d <= -1 ==> m * d <= -m)
  {
  }

  lemma Remainder(x: int, m: int, k: int, y: int)
    requires x == m * k + y && 0 <= y < m
    ensures x % m == y
  {
    var d := x / m - k;
    assert x == m * (x / m) + x % m;
    assert m * d == y - x % m by {
      assert m * d == m * (x / m) - m * k;
    }
    Multiple(m, d);
  }

  lemma RemainderOfRemainder(x: int, a: int, b: int)
    requires a > 0 && b > 0
    ensures a * b > 0 && x % (a * b) % b == x % b
  {
    var q, r := x / (a * b), x % (a * b);
    var q', r' := r / b, r % b;
    assert x == b * (a * q + q') + r' by {
      assert x == (a * b) * q + r;
      assert r == b * q' + r';
      assert b * (a * q + q') == (a * b) * q + b * q';
    }
    Remainder(x, b, a * q + q', r');
  }

  // One round of the hash in 64 bits.
  function Round(hash: int, c: int): int { ((hash * 32 % ULONG_RANGE + hash) % ULONG_RANGE + c) % ULONG_RANGE }

  lemma RoundExact(x: int, c: int)
    ensures Round(x % ULONG_RANGE, c) == (x * 33 + c) % ULONG_RANGE
  {
    var h := x % ULONG_RANGE;
    var a, b := h * 32 / ULONG_RANGE, (h * 32 % ULONG_RANGE + h) / ULONG_RANGE;
    var d := ((h * 32 % ULONG_RANGE + h) % ULONG_RANGE + c) / ULONG_RANGE;
    Remainder(x * 33 + c, ULONG_RANGE, 33 * (x / ULONG_RANGE) + a + b + d, Round(h, c));
  }

  /** hashn: wraps to 64 bits in every round and to 32 bits in the end, which comes to the exact value modulo
      2^32, of no more than the first maxSize characters. */
  method HashN(str: CString, maxSize: nat) returns (result: nat)
    ensures result < UINT_RANGE && result == Exact(Prefix(str, maxSize)) % UINT_RANGE
  {
    var hash := 5381;
    var i := 0;
    while i < |str| && i < maxSize
      invariant 0 <= i <= |Prefix(str, maxSize)|
      invariant 0 <= hash < ULONG_RANGE && hash == Exact(str[..i]) % ULONG_RANGE
    {
      var c := str[i];
      assert str[..i + 1][..i] == str[..i];
      RoundExact(Exact(str[..i]), c);
      hash := Round(hash, c);
      i := i + 1;
    }
    assert str[..i] == Prefix(str, maxSize);
    RemainderOfRemainder(Exact(str[..i]), UINT_RANGE, UINT_RANGE);
    return hash % UINT_RANGE;
  }

  function Index(key: CString): (index: nat)
    ensures index < TABLE_SIZE
  {
    Exact(Prefix(key, MAX_KEY_LENGTH)) % TABLE_SIZE
  }

  // hashn(key, MAX_KEY_LENGTH) % TABLE_SIZE
  method Bucket(key: CString) returns (index: nat)
    ensures index == Index(key)
  {
    var hash := HashN(key, MAX_KEY_LENGTH);
    RemainderOfRemainder(Exact(Prefix(key, MAX_KEY_LENGTH)), UINT_RANGE / TABLE_SIZE, TABLE_SIZE);
    return hash % TABLE_SIZE;
  }

  // Keys are the same to the table when their first 512 characters agree (strncmp).
  predicate Same(a: CString, b: CString) { Prefix(a, MAX_KEY_LENGTH) == Prefix(b, MAX_KEY_LENGTH) }

  // What C finds at place i of a string: the end is a zero.
  function CharAt(str: CString, i: nat): int { if i < |str| then str[i] else 0 }

  // A shorter prefix ends where the longer one goes on.
  lemma EndTells(a: CString, b: CString)
    ensures
      var n := |Prefix(a, MAX_KEY_LENGTH)|;
      n < |Prefix(b, MAX_KEY_LENGTH)| ==> n < MAX_KEY_LENGTH && CharAt(a, n) != CharAt(b, n)
  {
  }

  /** Keys are the same to the table exactly if they agree at the first 512 places, the end included. */
  lemma SameChars(a: CString, b: CString)
    ensures Same(a, b) <==> forall i: nat :: i < MAX_KEY_LENGTH ==> CharAt(a, i) == CharAt(b, i)
  {
    var p, q := Prefix(a, MAX_KEY_LENGTH), Prefix(b, MAX_KEY_LENGTH);
    if forall i: nat :: i < MAX_KEY_LENGTH ==> CharAt(a, i) == CharAt(b, i) {
      EndTells(a, b);
      EndTells(b, a);
      forall i | 0 <= i < |p|
        ensures p[i] == q[i]
      {
        assert CharAt(a, i) == CharAt(b, i);
      }
    } else {
      var i: nat :| i < MAX_KEY_LENGTH && CharAt(a, i) != CharAt(b, i);
      assert i < |a| ==> p[i] == a[i];
      assert i < |b| ==> q[i] == b[i];
    }
  }

  // What is stored of a key stands for it.
  lemma SamePrefix(a: CString, b: CString)
    ensures Same(Prefix(a, MAX_KEY_LENGTH), b) == Same(a, b)
  {
  }

  lemma SameIndex(a: CString, b: CString)
    requires Same(a, b)
    ensures Index(a) == Index(b)
  {
  }

  // ---------------------------------------------------------------- chains

  // A void pointer; NULL is what get answers for a missing key.
  type Pointer = nat
  const NULL: Pointer := 0

  datatype Entry = Entry(key: CString, value: Pointer)

  function Lookup(chain: seq<Entry>, key: CString): Pointer
  {
    if chain == [] then NULL
    else if Same(chain[0].key, key) then chain[0].value
    else Lookup(chain[1..], key)
  }

  // Without the first entry for the key.
  function Remove(chain: seq<Entry>, key: CString): seq<Entry>
  {
    if chain == [] then []
    else if Same(chain[0].key, key) then chain[1..]
    else [chain[0]] + Remove(chain[1..], key)
  }

  // The values that a chain holds for a key, the newest first.
  function Stack(chain: seq<Entry>, key: CString): seq<Pointer>
  {
    if chain == [] then []
    else (if Same(chain[0].key, key) then [chain[0].value] else []) + Stack(chain[1..], key)
  }

  function Top(stack: seq<Pointer>): Pointer { if stack == [] then NULL else stack[0] }

  lemma {:induction false} LookupTop(chain: seq<Entry>, key: CString)
    ensures Lookup(chain, key) == Top(Stack(chain, key))
  {
    if chain != [] {
      LookupTop(chain[1..], key);
    }
  }

  // Removing pops the key's stack, if it has any, and leaves the others' alone.
  lemma {:induction false} RemovePops(chain: seq<Entry>, key: CString, other: CString)
    ensures Stack(Remove(chain, key), other) ==
      if Same(key, other) && Stack(chain, key) != [] then Stack(chain, key)[1..] else Stack(chain, other)
  {
    if chain != [] {
      RemovePops(chain[1..], key, other);
      if Same(key, other) {
        StackSame(chain[1..], key, other);
        StackSame(chain, key, other);
      }
    }
  }

  lemma {:induction false} StackSame(chain: seq<Entry>, a: CString, b: CString)
    requires Same(a, b)
    ensures Stack(chain, a) == Stack(chain, b)
  {
    if chain != [] {
      StackSame(chain[1..], a, b);
    }
  }

  // ---------------------------------------------------------------- tables

  type Table = t: seq<seq<Entry>> | |t| == TABLE_SIZE witness seq(TABLE_SIZE, i => [])

  function Insert(t: Table, key: CString, value: Pointer): Table
  {
    t[Index(key) := [Entry(Prefix(key, MAX_KEY_LENGTH), value)] + t[Index(key)]]
  }

  function Get(t: Table, key: CString): Pointer { Lookup(t[Index(key)], key) }

  function Delete(t: Table, key: CString): Table { t[Index(key) := Remove(t[Index(key)], key)] }

  datatype Op = Put(key: CString, value: Pointer) | Drop(key: CString)

  function After(ops: seq<Op>): Table
  {
    if ops == [] then seq(TABLE_SIZE, i => [])
    else
      var t := After(ops[..|ops| - 1]);
      match ops[|ops| - 1]
      case Put(key, value) => Insert(t, key, value)
      case Drop(key) => Delete(t, key)
  }

  /** A map from keys to stacks, without buckets or hashes: what the operations leave for a key. */
  function Left(ops: seq<Op>, key: CString): seq<Pointer>
  {
    if ops == [] then []
    else
      var stack := Left(ops[..|ops| - 1], key);
      var op := ops[|ops| - 1];
      if !Same(op.key, key) then stack
      else if op.Put? then [op.value] + stack
      else if stack == [] then []
      else stack[1..]
  }

  /** After any operations the table holds for every key the stack of the plain map, and get finds its top. */
  lemma {:induction false} Refines(ops: seq<Op>, key: CString)
    ensures Stack(After(ops)[Index(key)], key) == Left(ops, key)
    ensures Get(After(ops), key) == Top(Left(ops, key))
  {
    hide Index, Remove, Prefix, Exact;
    if ops != [] {
      var before, op := ops[..|ops| - 1], ops[|ops| - 1];
      Refines(before, key);
      var t := After(before);
      assert Same(Prefix(op.key, MAX_KEY_LENGTH), key) == Same(op.key, key) by {
        SamePrefix(op.key, key);
      }
      if Same(op.key, key) {
        SameIndex(op.key, key);
      }
      if op.Drop? && Index(op.key) == Index(key) {
        RemovePops(t[Index(key)], op.key, key);
        if Same(op.key, key) {
          StackSame(t[Index(key)], op.key, key);
        }
      }
    }
    LookupTop(After(ops)[Index(key)], key);
  }

  lemma Nested(ops: seq<Op>, key: CString, values: seq<Pointer>)
    requires values != []
    ensures ops + Puts(key, values) + Drops(key, |values|) ==
      ops + [Put(key, values[0])] + Puts(key, values[1..]) + Drops(key, |values| - 1) + [Drop(key)]
  {
  }

  lemma LeftNext(ops: seq<Op>, op: Op, key: CString)
    ensures Left(ops + [op], key) ==
      if !Same(op.key, key) then Left(ops, key)
      else if op.Put? then [op.value] + Left(ops, key)
      else if Left(ops, key) == [] then []
      else Left(ops, key)[1..]
  {
    assert (ops + [op])[..|ops|] == ops;
  }

  /** Deleting what was inserted in between, key by key and in any number, brings the earlier values back. */
  lemma {:induction false} Undo(ops: seq<Op>, key: CString, values: seq<Pointer>, other: CString)
    ensures Left(ops + Puts(key, values) + Drops(key, |values|), other) == Left(ops, other)
    decreases |values|
  {
    hide Same, Left;
    if values == [] {
      assert ops + Puts(key, values) + Drops(key, 0) == ops;
    } else {
      var put, drop := Put(key, values[0]), Drop(key);
      Nested(ops, key, values);
      Undo(ops + [put], key, values[1..], other);
      hide Puts, Drops;
      LeftNext(ops, put, other);
      LeftNext(ops + [put] + Puts(key, values[1..]) + Drops(key, |values| - 1), drop, other);
    }
  }

  /** The same of the table: every key's stack, and what get finds, are as they were. */
  lemma UndoTable(ops: seq<Op>, key: CString, values: seq<Pointer>, other: CString)
    ensures
      var t, t' := After(ops), After(ops + Puts(key, values) + Drops(key, |values|));
      Stack(t'[Index(other)], other) == Stack(t[Index(other)], other) && Get(t', other) == Get(t, other)
  {
    Undo(ops, key, values, other);
    Refines(ops, other);
    Refines(ops + Puts(key, values) + Drops(key, |values|), other);
  }

  function Puts(key: CString, values: seq<Pointer>): seq<Op>
  {
    if values == [] then [] else [Put(key, values[0])] + Puts(key, values[1..])
  }

  function Drops(key: CString, n: nat): seq<Op> { if n == 0 then [] else Drops(key, n - 1) + [Drop(key)] }
}
