/**
 The chained table of lab3/src/common/hashmap.c in memory.
 */
module HashTableMemory {
  import opened HashTable

  class HNode {
    const key: CString
    const value: Pointer
    ghost const bucket: nat
    var next: HNode?

    constructor (key: CString, value: Pointer, next: HNode?, ghost bucket: nat)
      ensures this.key == key && this.value == value && this.next == next && this.bucket == bucket
    {
      this.key, this.value, this.next, this.bucket := key, value, next, bucket;
    }
  }

  function Entries(chain: seq<HNode>): (es: seq<Entry>)
    ensures |es| == |chain| && forall i :: 0 <= i < |es| ==> es[i] == Entry(chain[i].key, chain[i].value)
  {
    seq(|chain|, i requires 0 <= i < |chain| => Entry(chain[i].key, chain[i].value))
  }

  ghost predicate Linked(head: HNode?, chain: seq<HNode>, bucket: nat)
    reads chain
  {
    && (forall i, j :: 0 <= i < j < |chain| ==> chain[i] != chain[j])
    && (forall i :: 0 <= i < |chain| ==> chain[i].bucket == bucket)
    && (forall i {:trigger chain[i].next} :: 0 <= i < |chain| ==>
        chain[i].next == if i + 1 < |chain| then chain[i + 1] else null)
    && head == (if chain == [] then null else chain[0])
  }

  // How far Remove has come when the first i entries are not the key's.
  lemma RemoveFrom(es: seq<Entry>, i: nat, key: CString)
    requires i < |es| && Remove(es, key) == es[..i] + Remove(es[i..], key)
    ensures Same(es[i].key, key) ==> Remove(es, key) == es[..i] + es[i + 1..]
    ensures !Same(es[i].key, key) ==> Remove(es, key) == es[..i + 1] + Remove(es[i + 1..], key)
  {
    assert es[i..][1..] == es[i + 1..];
  }

  class HashMap {
    const table: array<HNode?>
    ghost var chains: seq<seq<HNode>>
    ghost var repr: set<HNode>

    ghost predicate Valid()
      reads this, table, repr
    {
      && table.Length == TABLE_SIZE == |chains|
      && (forall b, i :: 0 <= b < TABLE_SIZE && 0 <= i < |chains[b]| ==> chains[b][i] in repr)
      && (forall b :: 0 <= b < TABLE_SIZE ==> Linked(table[b], chains[b], b))
    }

    ghost function View(): (t: Table)
      requires |chains| == TABLE_SIZE
      reads this
    {
      var cs := chains;
      seq(TABLE_SIZE, b requires 0 <= b < TABLE_SIZE => Entries(cs[b]))
    }

    constructor ()
      ensures Valid() && fresh(table) && repr == {} && View() == After([])
    {
      table := new HNode?[TABLE_SIZE](_ => null);
      chains := seq(TABLE_SIZE, b => []);
      repr := {};
    }

    method Insert(key: CString, value: Pointer)
      requires Valid()
      modifies this, table
      ensures Valid() && View() == HashTable.Insert(old(View()), key, value)
      ensures fresh(repr - old(repr))
    {
      var index := Bucket(key);
      var node := new HNode(Prefix(key, MAX_KEY_LENGTH), value, table[index], index);
      assert Entries([node] + chains[index]) == [Entry(node.key, value)] + Entries(chains[index]);
      table[index] := node;
      chains := chains[index := [node] + chains[index]];
      repr := repr + {node};
      assert Linked(table[index], chains[index], index);
      forall b | 0 <= b < TABLE_SIZE && b != index
        ensures Linked(table[b], chains[b], b)
      {
        assert old(Linked(table[b], chains[b], b));
      }
      hide Linked;
    }

    method Get(key: CString) returns (value: Pointer)
      requires Valid()
      ensures value == HashTable.Get(View(), key)
    {
      var index := Bucket(key);
      var current := table[index];
      ghost var chain := chains[index];
      ghost var i := 0;
      while current != null
        invariant 0 <= i <= |chain| && current == if i < |chain| then chain[i] else null
        invariant Lookup(Entries(chain), key) == Lookup(Entries(chain)[i..], key)
        decreases |chain| - i
      {
        if Same(current.key, key) {
          return current.value;
        }
        current := current.next;
        i := i + 1;
      }
      return NULL;
    }

    // Takes the node at place i out of its chain.
    method Unlink(index: nat, previous: HNode?, current: HNode, ghost i: nat)
      requires Valid() && index < TABLE_SIZE && i < |chains[index]| && current == chains[index][i]
      requires previous == if i > 0 then chains[index][i - 1] else null
      modifies this`chains, table, repr
      ensures Valid() && chains == old(chains)[index := old(chains)[index][..i] + old(chains)[index][i + 1..]]
    {
      ghost var chain := chains[index];
      assert Linked(table[index], chain, index);
      if previous == null {
        table[index] := current.next;
      } else {
        previous.next := current.next;
      }
      chains := chains[index := chain[..i] + chain[i + 1..]];
      assert Linked(table[index], chains[index], index);
      forall b | 0 <= b < TABLE_SIZE && b != index
        ensures Linked(table[b], chains[b], b)
      {
        assert old(Linked(table[b], chains[b], b));
      }
      hide Linked;
    }

    // The loop of delete: the key's first node, if there is one, and the node before it.
    method Seek(index: nat, key: CString) returns (current: HNode?, previous: HNode?, ghost i: nat)
      requires Valid() && index < TABLE_SIZE
      ensures i <= |chains[index]|
      ensures current == if i < |chains[index]| then chains[index][i] else null
      ensures previous == if i > 0 then chains[index][i - 1] else null
      ensures var es := Entries(chains[index]); Remove(es, key) == if i < |es| then es[..i] + es[i + 1..] else es
    {
      ghost var chain := chains[index];
      ghost var es := Entries(chain);
      assert Remove([], key) == [];
      assert es[..0] == [] && es[0..] == es;
      hide Remove, Same;
      current, previous, i := table[index], null, 0;
      assert Linked(current, chain, index);
      while current != null
        invariant 0 <= i <= |chain| && current == if i < |chain| then chain[i] else null
        invariant previous == if i > 0 then chain[i - 1] else null
        invariant Remove(es, key) == es[..i] + Remove(es[i..], key)
        decreases |chain| - i
      {
        RemoveFrom(es, i, key);
        if Same(current.key, key) {
          return;
        }
        previous := current;
        current := current.next;
        i := i + 1;
      }
      assert es[..i] == es && es[i..] == [];
    }

    method Delete(key: CString)
      requires Valid()
      modifies this`chains, table, repr
      ensures Valid() && View() == HashTable.Delete(old(View()), key) && repr == old(repr)
    {
      hide Linked, Remove, Index;
      var index := Bucket(key);
      var current, previous, i := Seek(index, key);
      ghost var chain := chains[index];
      if current != null {
        Unlink(index, previous, current, i);
        assert Entries(chains[index]) == Entries(chain)[..i] + Entries(chain)[i + 1..];
      }
      assert Entries(chains[index]) == Remove(Entries(chain), key);
      assert chains == old(chains)[index := chains[index]];
      hide Entries;
      assert View() == HashTable.Delete(old(View()), key);
    }
  }
}
