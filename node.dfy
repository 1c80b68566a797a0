/**
  ReverseRegex's generator scope (class Node): a labelled vertex with an
  attribute store (PHP's ArrayObject) and a set of neighbour nodes (PHP's
  SplObjectStorage). The storage keeps its nodes in attachment order, at most
  once each, and carries its own iterator cursor; Node's iterator methods
  delegate to that cursor, and so does every `foreach` over the storage inside
  Node, which is why `contains`, `detach` and `map` move it too.

  PHP compares the neighbours with `==`; this model compares them by identity.
*/
module Generator {
  import opened Wrappers

  /** A PHP value as a label or an attribute holds it. */
  datatype Value =
    | Null
    | Bool(b: bool)
    | Int(i: int)
    | Float(f: real)
    | Str(s: string)
      /** An array, object or resource, told apart by a handle. */
    | Compound(handle: nat)

  /** `is_scalar($v) || $v === null`: what `setLabel` accepts. */
  predicate IsScalarOrNull(v: Value)
  {
    !v.Compound?
  }

  /** An ArrayObject key: PHP array keys are integers or strings. */
  datatype Key = IntKey(i: int) | StrKey(s: string)

  predicate Distinct<T(==)>(s: seq<T>)
  {
    forall i, j :: 0 <= i < j < |s| ==> s[i] != s[j]
  }

  /** `s` with every occurrence of `x` removed. */
  function Without<T(==)>(s: seq<T>, x: T): (r: seq<T>)
    ensures x !in r && |r| <= |s|
  {
    if |s| == 0 then []
    else (if s[0] == x then [] else [s[0]]) + Without(s[1..], x)
  }

  /** Removing x keeps every other element. */
  lemma {:induction false} WithoutKeeps<T>(s: seq<T>, x: T, y: T)
    requires y != x
    ensures y in Without(s, x) <==> y in s
  {
    if |s| > 0 {
      assert s == [s[0]] + s[1..];
      WithoutKeeps(s[1..], x, y);
    }
  }

  /** Removing an element that is not there changes nothing. */
  lemma {:induction false} WithoutAbsent<T>(s: seq<T>, x: T)
    requires x !in s
    ensures Without(s, x) == s
  {
    if |s| > 0 {
      assert s == [s[0]] + s[1..];
      WithoutAbsent(s[1..], x);
    }
  }

  /** In a sequence without repetitions, removing s[at] cuts out exactly that slot. */
  lemma {:induction false} WithoutAt<T>(s: seq<T>, at: nat)
    requires Distinct(s) && at < |s|
    ensures Without(s, s[at]) == s[..at] + s[at + 1..]
  {
    if at == 0 {
      assert s[1..] == s[at + 1..];
      assert s[at] !in s[1..];
      WithoutAbsent(s[1..], s[at]);
    } else {
      WithoutAt(s[1..], at - 1);
      assert s[1..][at - 1] == s[at];
      assert s[1..][..at - 1] == s[1..at];
      assert s[1..][at..] == s[at + 1..];
      assert s[..at] == [s[0]] + s[1..at];
    }
  }

  /** Removing from a sequence without repetitions keeps it without repetitions. */
  lemma {:induction false} WithoutDistinct<T>(s: seq<T>, x: T)
    requires Distinct(s)
    ensures Distinct(Without(s, x))
    ensures |Without(s, x)| == if x in s then |s| - 1 else |s|
  {
    if x in s {
      var at :| 0 <= at < |s| && s[at] == x;
      WithoutAt(s, at);
      var r := s[..at] + s[at + 1..];
      forall i, j | 0 <= i < j < |r|
        ensures r[i] != r[j]
      {
        var i' := if i < at then i else i + 1;
        var j' := if j < at then j else j + 1;
        assert r[i] == s[i'] && r[j] == s[j'];
      }
    } else {
      WithoutAbsent(s, x);
    }
  }

  /** Detaching a node just attached restores the neighbours. */
  lemma {:induction false} WithoutAppended<T>(s: seq<T>, x: T)
    requires x !in s
    ensures Without(s + [x], x) == s
  {
    if |s| == 0 {
      assert s + [x] == [x];
    } else {
      assert (s + [x])[1..] == s[1..] + [x];
      WithoutAppended(s[1..], x);
      assert s == [s[0]] + s[1..];
    }
  }

  /** A sequence without repetitions has as many elements as its set. */
  lemma {:induction false} DistinctCardinality<T>(s: seq<T>)
    requires Distinct(s)
    ensures |set x | x in s| == |s|
  {
    if |s| > 0 {
      var rest := s[1..];
      DistinctCardinality(rest);
      assert s[0] !in rest;
      assert (set x | x in s) == {s[0]} + (set x | x in rest);
    }
  }

  class Node {
    /** The node's label (`label` is a keyword in Dafny). */
    var name: Value
    var attrs: map<Key, Value>
    /** The SplObjectStorage: the neighbours in attachment order. */
    var links: seq<Node>
    /**
      The storage's cursor: the position of the current neighbour, |links|
      once the iteration has run past the end.
    */
    var pos: nat
    /** The storage's iteration counter, which `key()` reports. */
    var index: nat

    /**
      Each neighbour is stored once, the cursor never runs past the end, and
      the label is a scalar or null.
    */
    ghost predicate Inv()
      reads this
    {
      Distinct(links) && pos <= |links| && IsScalarOrNull(name)
    }

    /** The neighbours as a set. */
    ghost function LinkSet(): set<Node>
      reads this
    {
      set x | x in links
    }

    /**
      A new node: no attributes, no neighbours, the cursor of an empty
      storage, and the label `'node'`, or the given one if `setLabel` takes
      it (a compound label leaves the label null).
    */
    constructor (initial: Value := Str("node"))
      ensures Inv()
      ensures IsScalarOrNull(initial) ==> name == initial
      ensures !IsScalarOrNull(initial) ==> name == Null
      ensures attrs == map[] && links == [] && pos == 0 && index == 0
    {
      name := if IsScalarOrNull(initial) then initial else Null;
      attrs := map[];
      links := [];
      pos := 0;
      index := 0;
    }

    method GetLabel() returns (r: Value)
      ensures r == name
    {
      r := name;
    }

    /**
      `setLabel`: a scalar or null becomes the label and the call returns
      null; anything else is refused with `false` and the label is kept.
    */
    method SetLabel(value: Value) returns (r: Value)
      modifies this`name
      ensures IsScalarOrNull(value) ==> name == value && r == Null
      ensures !IsScalarOrNull(value) ==> name == old(name) && r == Bool(false)
    {
      if !IsScalarOrNull(value) {
        return Bool(false);
      }
      name := value;
      r := Null;
    }

    /**
      `attach`: a node not yet linked goes to the end; a linked one stays
      where it is. The cursor is not moved; returns the receiver.
    */
    method Attach(node: Node) returns (r: Node)
      requires Inv()
      modifies this`links
      ensures Inv()
      ensures r == this
      ensures node in old(links) ==> links == old(links)
      ensures node !in old(links) ==> links == old(links) + [node]
      ensures node in links
      ensures |links| == |old(links)| + (if node in old(links) then 0 else 1)
    {
      if node !in links {
        links := links + [node];
      }
      r := this;
    }

    /**
      `detach`: a `foreach` over the storage that detaches `node` when it
      meets it. Detaching the current element leaves the cursor on the next
      one, which the loop's `next()` then steps over, so `key()` ends one
      higher when `node` was the last neighbour. Returns the receiver.
    */
    method Detach(node: Node) returns (r: Node)
      requires Inv()
      modifies this`links, this`pos, this`index
      ensures Inv()
      ensures r == this
      ensures links == Without(old(links), node)
      ensures |links| == |old(links)| - (if node in old(links) then 1 else 0)
      ensures pos == |links|
      ensures index == |links| + (if |old(links)| > 0 && old(links)[|old(links)| - 1] == node then 1 else 0)
    {
      ghost var start := links;
      ghost var found := false;
      ghost var at: nat := 0;
      pos, index := 0, 0;
      while pos < |links|
        invariant Distinct(links) && pos <= |links|
        invariant !found ==> links == start && index == pos
        invariant !found ==> forall j :: 0 <= j < pos ==> start[j] != node
        invariant found ==> at < |start| && start[at] == node && node !in links
        invariant found ==> links == start[..at] + start[at + 1..]
        invariant found && at == |start| - 1 ==> index == pos + 1 && pos == |links|
        invariant found && at < |start| - 1 ==> index == pos && at < pos
        decreases |links| - pos, if found then 0 else 1
      {
        var linked := links[pos];
        if linked == node {
          WithoutAt(links, pos);
          WithoutDistinct(links, node);
          found, at := true, pos;
          links := Without(links, node);
        }
        if pos < |links| {
          pos := pos + 1;
        }
        index := index + 1;
      }
      if found {
        WithoutAt(start, at);
      } else {
        WithoutAbsent(start, node);
      }
      r := this;
    }

    /**
      `contains` as written: a `foreach` over the storage, so it rewinds the
      node's own iterator and leaves it on the match, or past the end.
    */
    method Contains(node: Node) returns (found: bool)
      requires Inv()
      modifies this`pos, this`index
      ensures Inv()
      ensures found <==> node in links
      ensures found ==> pos < |links| && links[pos] == node && index == pos
      ensures !found ==> pos == |links| && index == |links|
    {
      pos, index := 0, 0;
      while pos < |links|
        invariant pos <= |links| && index == pos
        invariant forall j :: 0 <= j < pos ==> links[j] != node
      {
        if links[pos] == node {
          return true;
        }
        pos, index := pos + 1, index + 1;
      }
      return false;
    }

    /** `contains` with its own cursor, leaving the node's iterator alone. */
    method Has(node: Node) returns (found: bool)
      ensures found <==> node in links
    {
      var i := 0;
      while i < |links|
        invariant i <= |links|
        invariant forall j :: 0 <= j < i ==> links[j] != node
      {
        if links[i] == node {
          return true;
        }
        i := i + 1;
      }
      return false;
    }

    /**
      `map`: a `foreach` over the storage that hands each neighbour to the
      closure; the closure is left out, and the visit is returned instead.
    */
    method Map() returns (visited: seq<Node>)
      requires Inv()
      modifies this`pos, this`index
      ensures Inv()
      ensures visited == links
      ensures pos == |links| && index == |links|
    {
      visited := [];
      pos, index := 0, 0;
      while pos < |links|
        invariant pos <= |links| && index == pos
        invariant visited == links[..pos]
      {
        visited := visited + [links[pos]];
        pos, index := pos + 1, index + 1;
      }
    }

    /** `count`: the number of distinct neighbours. */
    function Count(): (n: nat)
      requires Inv()
      reads this
      ensures n == |LinkSet()|
    {
      DistinctCardinality(links);
      |links|
    }

    // The Iterator interface, delegated to the storage's cursor.

    method Rewind()
      modifies this`pos, this`index
      ensures pos == 0 && index == 0
    {
      pos, index := 0, 0;
    }

    method Valid() returns (b: bool)
      ensures b <==> pos < |links|
    {
      b := pos < |links|;
    }

    /** `current`: None where the storage throws its RuntimeException. */
    method Current() returns (r: Option<Node>)
      ensures pos < |links| ==> r == Some(links[pos])
      ensures pos >= |links| ==> r == None
    {
      r := if pos < |links| then Some(links[pos]) else None;
    }

    method Key() returns (k: nat)
      ensures k == index
    {
      k := index;
    }

    /** `next`: the cursor moves only while it is on an element; the counter always. */
    method Next()
      requires Inv()
      modifies this`pos, this`index
      ensures Inv()
      ensures pos == if old(pos) < |links| then old(pos) + 1 else old(pos)
      ensures index == old(index) + 1
    {
      if pos < |links| {
        pos := pos + 1;
      }
      index := index + 1;
    }

    // ArrayAccess, delegated to the ArrayObject.

    /** `offsetGet`: the stored value, or null for a missing key. */
    method OffsetGet(key: Key) returns (r: Value)
      ensures key in attrs ==> r == attrs[key]
      ensures key !in attrs ==> r == Null
    {
      r := if key in attrs then attrs[key] else Null;
    }

    method OffsetSet(key: Key, value: Value)
      modifies this`attrs
      ensures attrs == old(attrs)[key := value]
    {
      attrs := attrs[key := value];
    }

    /** `offsetExists`: whether the key is stored, even with a null value. */
    method OffsetExists(key: Key) returns (b: bool)
      ensures b <==> key in attrs
    {
      b := key in attrs;
    }

    method OffsetUnset(key: Key)
      modifies this`attrs
      ensures attrs == old(attrs) - {key}
    {
      attrs := attrs - {key};
    }
  }

  /**
    Iterating a node after `rewind()` with `valid`, `current`, `key` and
    `next` visits every neighbour once, in attachment order, with keys
    0, 1, 2, ...; `valid()` is false after `count()` steps.
  */
  method Walk(n: Node) returns (visited: seq<Node>, keys: seq<nat>)
    requires n.Inv()
    modifies n`pos, n`index
    ensures n.Inv()
    ensures visited == n.links
    ensures |keys| == |n.links| && forall k :: 0 <= k < |keys| ==> keys[k] == k
    ensures n.pos == |n.links| && n.index == |n.links|
  {
    n.Rewind();
    visited, keys := [], [];
    var more := n.Valid();
    while more
      invariant n.Inv() && n.pos == n.index == |visited| == |keys|
      invariant visited == n.links[..n.pos]
      invariant forall k :: 0 <= k < |keys| ==> keys[k] == k
      invariant more <==> n.pos < |n.links|
      decreases |n.links| - n.pos
    {
      var c := n.Current();
      var k := n.Key();
      visited, keys := visited + [c.value], keys + [k];
      n.Next();
      more := n.Valid();
    }
  }

  /** A second `rewind()` replays the same visit. */
  method WalkTwice(n: Node) returns (first: seq<Node>, second: seq<Node>)
    requires n.Inv()
    modifies n`pos, n`index
    ensures first == second == n.links
  {
    var keys;
    first, keys := Walk(n);
    second, keys := Walk(n);
  }

  /** A new node has no neighbours and no attributes, and counts 0. */
  method NewNodeIsEmpty(initial: Value, key: Key) returns (count: nat, hasKey: bool)
    ensures count == 0 && !hasKey
  {
    var n := new Node(initial);
    count := n.Count();
    hasKey := n.OffsetExists(key);
  }

  /** Attaching the same node twice links it once. */
  method AttachTwice(a: Node) returns (count: nat, found: bool)
    ensures count == 1 && found
  {
    var n := new Node();
    var r := n.Attach(a);
    r := n.Attach(a);
    count := n.Count();
    found := n.Has(a);
  }

  /** Detaching a linked node unlinks it and nothing else. */
  method AttachThenDetach(a: Node, b: Node) returns (count: nat, hasA: bool, hasB: bool)
    requires a != b
    ensures count == 1 && !hasA && hasB
  {
    var n := new Node();
    var r := n.Attach(a);
    r := n.Attach(b);
    r := n.Detach(a);
    count := n.Count();
    hasA := n.Has(a);
    hasB := n.Has(b);
  }

  /** `offsetSet` then `offsetGet` returns the value; `offsetUnset` removes the key. */
  method AttributeRoundTrip(key: Key, value: Value) returns (got: Value, before: bool, after: bool)
    ensures got == value && before && !after
  {
    var n := new Node();
    n.OffsetSet(key, value);
    got := n.OffsetGet(key);
    before := n.OffsetExists(key);
    n.OffsetUnset(key);
    after := n.OffsetExists(key);
  }

  /**
    As written, `contains` moves the node's own iterator: in the middle of a
    walk over [a, b] that is on `a`, `contains(b)` leaves the walk on `b`
    with key 1. The read-only search `Has` leaves it on `a` with key 0.
  */
  method ContainsMovesCursor(a: Node, b: Node) returns (keyAfterContains: nat, keyAfterHas: nat)
    requires a != b
    ensures keyAfterContains == 1 && keyAfterHas == 0
  {
    var n := new Node();
    var r := n.Attach(a);
    r := n.Attach(b);
    n.Rewind();
    var found := n.Has(b);
    keyAfterHas := n.Key();
    found := n.Contains(b);
    keyAfterContains := n.Key();
  }
}
