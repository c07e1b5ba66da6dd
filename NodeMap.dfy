/** The terminal map of the simulator: every terminal key is mapped to the
    set of terminal keys it is wired to, directly or through other wires.
    The connectivity it must compute is defined here independently, as
    reachability over the wires whose two ends both name a terminal. */
module NodeMap {
  import opened Base
  import opened Circuit
  import opened Sequences

  /** The keys of one component's terminals, in terminal order. */
  function ComponentKeys(c: Component): (r: seq<Key>)
    ensures |r| == |c.terminals|
    ensures forall i :: 0 <= i < |r| ==> r[i] == TerminalKey(c, i)
  {
    seq(|c.terminals|, i requires 0 <= i < |c.terminals| => TerminalKey(c, i))
  }

  /** Every terminal key, component by component, in visiting order
      (repetitions included). */
  function FlatKeys(cs: seq<Component>): seq<Key> {
    if cs == [] then [] else FlatKeys(cs[..|cs| - 1]) + ComponentKeys(cs[|cs| - 1])
  }

  /** The set of all terminal keys of the circuit. */
  function AllKeys(cs: seq<Component>): set<Key> {
    set k | k in FlatKeys(cs)
  }

  lemma AllKeysMember(cs: seq<Component>, c: Component, i: nat)
    requires c in cs && i < |c.terminals|
    ensures TerminalKey(c, i) in AllKeys(cs)
  {
    var j :| 0 <= j < |cs| && cs[j] == c;
    FlatKeysContain(cs, j, i);
  }

  lemma {:induction false} FlatKeysContain(cs: seq<Component>, j: nat, i: nat)
    requires j < |cs| && i < |cs[j].terminals|
    ensures TerminalKey(cs[j], i) in FlatKeys(cs)
    decreases |cs|
  {
    var init := cs[..|cs| - 1];
    if j == |cs| - 1 {
      assert ComponentKeys(cs[j])[i] == TerminalKey(cs[j], i);
    } else {
      assert init[j] == cs[j];
      FlatKeysContain(init, j, i);
    }
  }

  /** Wire `w` counts only when both its ends name an existing terminal. */
  predicate Joins(keys: set<Key>, w: Wire) {
    EndpointKey(w.from) in keys && EndpointKey(w.to) in keys
  }

  /** Some counted wire links `a` and `b`, in either direction. */
  ghost predicate Edge(keys: set<Key>, ws: seq<Wire>, a: Key, b: Key) {
    exists w :: w in ws && Joins(keys, w) &&
      ((EndpointKey(w.from) == a && EndpointKey(w.to) == b) ||
       (EndpointKey(w.from) == b && EndpointKey(w.to) == a))
  }

  /** A walk from terminal to terminal along counted wires. */
  ghost predicate IsPath(keys: set<Key>, ws: seq<Wire>, p: seq<Key>) {
    |p| > 0 && p[0] in keys &&
    forall i :: 0 <= i < |p| - 1 ==> Edge(keys, ws, p[i], p[i + 1])
  }

  ghost predicate Connected(keys: set<Key>, ws: seq<Wire>, a: Key, b: Key) {
    exists p :: IsPath(keys, ws, p) && p[0] == a && p[|p| - 1] == b
  }

  /** The electrical node of terminal `k`: every terminal reachable from it. */
  ghost function Class(keys: set<Key>, ws: seq<Wire>, k: Key): set<Key> {
    set j | j in keys && Connected(keys, ws, k, j)
  }

  lemma {:induction false} PathInKeys(keys: set<Key>, ws: seq<Wire>, p: seq<Key>, i: nat)
    requires IsPath(keys, ws, p) && i < |p|
    ensures p[i] in keys
  {
    if i > 0 {
      assert Edge(keys, ws, p[i - 1], p[i]);
    }
  }

  lemma ConnectedRefl(keys: set<Key>, ws: seq<Wire>, a: Key)
    requires a in keys
    ensures Connected(keys, ws, a, a)
  {
    assert IsPath(keys, ws, [a]);
  }

  lemma ConnectedInKeys(keys: set<Key>, ws: seq<Wire>, a: Key, b: Key)
    requires Connected(keys, ws, a, b)
    ensures a in keys && b in keys
  {
    var p :| IsPath(keys, ws, p) && p[0] == a && p[|p| - 1] == b;
    PathInKeys(keys, ws, p, |p| - 1);
  }

  lemma ConnectedSym(keys: set<Key>, ws: seq<Wire>, a: Key, b: Key)
    requires Connected(keys, ws, a, b)
    ensures Connected(keys, ws, b, a)
  {
    var p :| IsPath(keys, ws, p) && p[0] == a && p[|p| - 1] == b;
    var q := seq(|p|, i requires 0 <= i < |p| => p[|p| - 1 - i]);
    PathInKeys(keys, ws, p, |p| - 1);
    forall i | 0 <= i < |q| - 1
      ensures Edge(keys, ws, q[i], q[i + 1])
    {
      var j := |p| - 2 - i;
      assert Edge(keys, ws, p[j], p[j + 1]);
    }
    assert IsPath(keys, ws, q);
  }

  lemma ConnectedTrans(keys: set<Key>, ws: seq<Wire>, a: Key, b: Key, c: Key)
    requires Connected(keys, ws, a, b) && Connected(keys, ws, b, c)
    ensures Connected(keys, ws, a, c)
  {
    var p :| IsPath(keys, ws, p) && p[0] == a && p[|p| - 1] == b;
    var q :| IsPath(keys, ws, q) && q[0] == b && q[|q| - 1] == c;
    var r := p + q[1..];
    forall i | 0 <= i < |r| - 1
      ensures Edge(keys, ws, r[i], r[i + 1])
    {
      if i < |p| - 1 {
        assert r[i] == p[i] && r[i + 1] == p[i + 1];
      } else {
        var j := i - |p| + 1;
        assert r[i] == q[j] && r[i + 1] == q[j + 1];
      }
    }
    assert IsPath(keys, ws, r);
  }

  /** A wire whose ends both exist joins them. */
  lemma WireConnects(keys: set<Key>, ws: seq<Wire>, w: Wire)
    requires w in ws && Joins(keys, w)
    ensures Connected(keys, ws, EndpointKey(w.from), EndpointKey(w.to))
  {
    var p := [EndpointKey(w.from), EndpointKey(w.to)];
    assert Edge(keys, ws, p[0], p[1]);
    assert IsPath(keys, ws, p);
  }

  lemma EdgeConnects(keys: set<Key>, ws: seq<Wire>, a: Key, b: Key)
    requires Edge(keys, ws, a, b)
    ensures Connected(keys, ws, a, b)
  {
    var p := [a, b];
    assert IsPath(keys, ws, p);
  }

  /** Adding a wire never disconnects anything. */
  lemma ConnectedMono(keys: set<Key>, ws: seq<Wire>, w: Wire, a: Key, b: Key)
    requires Connected(keys, ws, a, b)
    ensures Connected(keys, ws + [w], a, b)
  {
    var p :| IsPath(keys, ws, p) && p[0] == a && p[|p| - 1] == b;
    forall i | 0 <= i < |p| - 1
      ensures Edge(keys, ws + [w], p[i], p[i + 1])
    {
      var v :| v in ws && Joins(keys, v) &&
        ((EndpointKey(v.from) == p[i] && EndpointKey(v.to) == p[i + 1]) ||
         (EndpointKey(v.from) == p[i + 1] && EndpointKey(v.to) == p[i]));
      assert v in ws + [w];
    }
    assert IsPath(keys, ws + [w], p);
  }

  /** `x` is connected, without the new wire, to one of its ends. */
  ghost predicate Near(keys: set<Key>, ws: seq<Wire>, w: Wire, x: Key) {
    Connected(keys, ws, x, EndpointKey(w.from)) || Connected(keys, ws, x, EndpointKey(w.to))
  }

  /** A walk that may use the new wire either avoids it or has both of
      its ends near the wire. */
  lemma {:induction false} PathThroughNewWire(keys: set<Key>, ws: seq<Wire>, w: Wire, p: seq<Key>)
    requires Joins(keys, w) && IsPath(keys, ws + [w], p)
    ensures Connected(keys, ws, p[0], p[|p| - 1]) ||
            (Near(keys, ws, w, p[0]) && Near(keys, ws, w, p[|p| - 1]))
    decreases |p|
  {
    var a, b := EndpointKey(w.from), EndpointKey(w.to);
    if |p| == 1 {
      ConnectedRefl(keys, ws, p[0]);
    } else {
      var q := p[..|p| - 1];
      forall i | 0 <= i < |q| - 1
        ensures Edge(keys, ws + [w], q[i], q[i + 1])
      {
        assert q[i] == p[i] && q[i + 1] == p[i + 1];
      }
      assert IsPath(keys, ws + [w], q);
      PathThroughNewWire(keys, ws, w, q);
      var x, z, y := p[0], q[|q| - 1], p[|p| - 1];
      assert z == p[|p| - 2];
      assert Edge(keys, ws + [w], z, y);
      var v :| v in ws + [w] && Joins(keys, v) &&
        ((EndpointKey(v.from) == z && EndpointKey(v.to) == y) ||
         (EndpointKey(v.from) == y && EndpointKey(v.to) == z));
      if v in ws {
        assert Edge(keys, ws, z, y);
        EdgeConnects(keys, ws, z, y);
        if Connected(keys, ws, x, z) {
          ConnectedTrans(keys, ws, x, z, y);
        } else {
          ConnectedSym(keys, ws, z, y);
          if Connected(keys, ws, z, a) {
            ConnectedTrans(keys, ws, y, z, a);
          } else {
            ConnectedTrans(keys, ws, y, z, b);
          }
        }
      } else {
        assert v == w;
        ConnectedRefl(keys, ws, y);
        ConnectedRefl(keys, ws, z);
        assert Near(keys, ws, w, y);
      }
    }
  }

  /** The terminal map step for one wire: when both ends exist, the two
      nodes become one and every other node is unchanged. */
  lemma MergeStep(keys: set<Key>, ws: seq<Wire>, w: Wire, k: Key)
    requires Joins(keys, w) && k in keys
    ensures
      var A, B := Class(keys, ws, EndpointKey(w.from)), Class(keys, ws, EndpointKey(w.to));
      Class(keys, ws + [w], k) == if k in A + B then A + B else Class(keys, ws, k)
  {
    var a, b := EndpointKey(w.from), EndpointKey(w.to);
    var A, B := Class(keys, ws, a), Class(keys, ws, b);
    var ws' := ws + [w];
    if k in A + B {
      WireConnects(keys, ws', w);
      ConnectedSym(keys, ws', a, b);
      if k in A {
        ConnectedSym(keys, ws, a, k);
        ConnectedMono(keys, ws, w, k, a);
        ConnectedTrans(keys, ws', k, a, b);
      } else {
        ConnectedSym(keys, ws, b, k);
        ConnectedMono(keys, ws, w, k, b);
        ConnectedTrans(keys, ws', k, b, a);
      }
      forall j | j in A + B
        ensures j in Class(keys, ws', k)
      {
        if j in A {
          ConnectedMono(keys, ws, w, a, j);
          ConnectedTrans(keys, ws', k, a, j);
        } else {
          ConnectedMono(keys, ws, w, b, j);
          ConnectedTrans(keys, ws', k, b, j);
        }
      }
      forall j | j in Class(keys, ws', k)
        ensures j in A + B
      {
        var p :| IsPath(keys, ws', p) && p[0] == k && p[|p| - 1] == j;
        PathThroughNewWire(keys, ws, w, p);
        if Connected(keys, ws, k, j) {
          if k in A {
            ConnectedTrans(keys, ws, a, k, j);
          } else {
            ConnectedTrans(keys, ws, b, k, j);
          }
        } else if Connected(keys, ws, j, a) {
          ConnectedSym(keys, ws, j, a);
        } else {
          ConnectedSym(keys, ws, j, b);
        }
      }
    } else {
      forall j | j in Class(keys, ws, k)
        ensures j in Class(keys, ws', k)
      {
        ConnectedMono(keys, ws, w, k, j);
      }
      forall j | j in Class(keys, ws', k)
        ensures j in Class(keys, ws, k)
      {
        var p :| IsPath(keys, ws', p) && p[0] == k && p[|p| - 1] == j;
        PathThroughNewWire(keys, ws, w, p);
        if !Connected(keys, ws, k, j) {
          if Connected(keys, ws, k, a) {
            ConnectedSym(keys, ws, k, a);
          } else {
            ConnectedSym(keys, ws, k, b);
          }
        }
      }
    }
  }

  /** A wire with an end that names no terminal is skipped. */
  lemma IgnoredWire(keys: set<Key>, ws: seq<Wire>, w: Wire, k: Key)
    requires !Joins(keys, w)
    ensures Class(keys, ws + [w], k) == Class(keys, ws, k)
  {
    forall j | j in Class(keys, ws, k)
      ensures j in Class(keys, ws + [w], k)
    {
      ConnectedMono(keys, ws, w, k, j);
    }
    forall j | j in Class(keys, ws + [w], k)
      ensures j in Class(keys, ws, k)
    {
      var p :| IsPath(keys, ws + [w], p) && p[0] == k && p[|p| - 1] == j;
      forall i | 0 <= i < |p| - 1
        ensures Edge(keys, ws, p[i], p[i + 1])
      {
        assert Edge(keys, ws + [w], p[i], p[i + 1]);
      }
      assert IsPath(keys, ws, p);
    }
  }

  /** Without wires every terminal is a node of its own. */
  lemma NoWires(keys: set<Key>, k: Key)
    requires k in keys
    ensures Class(keys, [], k) == {k}
  {
    ConnectedRefl(keys, [], k);
    forall j | j in Class(keys, [], k)
      ensures j == k
    {
      var p :| IsPath(keys, [], p) && p[0] == k && p[|p| - 1] == j;
      assert |p| > 1 ==> Edge(keys, [], p[0], p[1]);
    }
  }

  /** Connectivity depends on which wires exist, not on their order. */
  lemma {:induction false} ClassIgnoresWireOrder(keys: set<Key>, ws1: seq<Wire>, ws2: seq<Wire>, k: Key)
    requires forall w :: w in ws1 <==> w in ws2
    ensures Class(keys, ws1, k) == Class(keys, ws2, k)
  {
    forall a, b | Edge(keys, ws1, a, b)
      ensures Edge(keys, ws2, a, b)
    {
    }
    forall a, b | Edge(keys, ws2, a, b)
      ensures Edge(keys, ws1, a, b)
    {
    }
    forall p | IsPath(keys, ws1, p)
      ensures IsPath(keys, ws2, p)
    {
    }
    forall p | IsPath(keys, ws2, p)
      ensures IsPath(keys, ws1, p)
    {
    }
  }

  /** Nodes partition the terminals: a terminal lies in its own node, and
      two nodes that share a terminal are the same node. */
  lemma ClassPartition(keys: set<Key>, ws: seq<Wire>, k: Key, j: Key)
    requires k in keys && j in keys
    ensures k in Class(keys, ws, k)
    ensures Class(keys, ws, k) <= keys
    ensures j in Class(keys, ws, k) <==> Class(keys, ws, k) == Class(keys, ws, j)
  {
    ConnectedRefl(keys, ws, k);
    ConnectedRefl(keys, ws, j);
    if j in Class(keys, ws, k) {
      forall x | x in Class(keys, ws, j)
        ensures x in Class(keys, ws, k)
      {
        ConnectedTrans(keys, ws, k, j, x);
      }
      forall x | x in Class(keys, ws, k)
        ensures x in Class(keys, ws, j)
      {
        ConnectedSym(keys, ws, k, j);
        ConnectedTrans(keys, ws, j, k, x);
      }
    }
  }

  /** A set of terminals that no counted wire leaves holds every terminal
      reachable from inside it. */
  lemma {:induction false} ClosedSetHoldsClass(keys: set<Key>, ws: seq<Wire>, s: set<Key>, k: Key)
    requires k in s
    requires forall w :: w in ws && Joins(keys, w) ==>
      (EndpointKey(w.from) in s <==> EndpointKey(w.to) in s)
    ensures Class(keys, ws, k) <= s
  {
    forall j | j in Class(keys, ws, k)
      ensures j in s
    {
      var p :| IsPath(keys, ws, p) && p[0] == k && p[|p| - 1] == j;
      var i := 0;
      while i < |p| - 1
        invariant 0 <= i <= |p| - 1 && p[i] in s
      {
        assert Edge(keys, ws, p[i], p[i + 1]);
        i := i + 1;
      }
    }
  }

  /** The terminal map, built as the simulator builds it: one singleton
      node per terminal in visiting order, then for every wire whose two
      ends exist, the union of both nodes registered under each of its
      members. `order` is the map's insertion order. */
  method BuildNodeMap(cs: seq<Component>, ws: seq<Wire>) returns (m: map<Key, set<Key>>, order: seq<Key>)
    ensures m.Keys == AllKeys(cs)
    ensures order == Dedup(FlatKeys(cs))
    ensures forall k :: k in m ==> m[k] == Class(AllKeys(cs), ws, k)
  {
    m, order := SingletonNodes(cs);
    ghost var keys := AllKeys(cs);
    forall k | k in m
      ensures m[k] == Class(keys, ws[..0], k)
    {
      NoWires(keys, k);
    }
    for wi := 0 to |ws|
      invariant m.Keys == keys
      invariant forall k :: k in m ==> m[k] == Class(keys, ws[..wi], k)
    {
      assert ws[..wi + 1] == ws[..wi] + [ws[wi]];
      m := MergeWire(keys, ws[..wi], m, ws[wi]);
    }
    assert ws[..|ws|] == ws;
  }

  /** The first phase: every terminal key mapped to itself alone. */
  method SingletonNodes(cs: seq<Component>) returns (m: map<Key, set<Key>>, order: seq<Key>)
    ensures m.Keys == AllKeys(cs)
    ensures order == Dedup(FlatKeys(cs))
    ensures forall k :: k in m ==> m[k] == {k}
  {
    m, order := map[], [];
    for ci := 0 to |cs|
      invariant order == Dedup(FlatKeys(cs[..ci]))
      invariant forall k :: k in m <==> k in order
      invariant forall k :: k in m ==> m[k] == {k}
    {
      assert cs[..ci + 1][..ci] == cs[..ci];
      m, order := AddTerminals(m, order, FlatKeys(cs[..ci]), cs[ci]);
    }
    assert cs[..|cs|] == cs;
  }

  /** The first phase for one component. */
  method AddTerminals(m0: map<Key, set<Key>>, order0: seq<Key>, ghost before: seq<Key>, c: Component)
    returns (m: map<Key, set<Key>>, order: seq<Key>)
    requires order0 == Dedup(before)
    requires forall k :: k in m0 <==> k in order0
    requires forall k :: k in m0 ==> m0[k] == {k}
    ensures order == Dedup(before + ComponentKeys(c))
    ensures forall k :: k in m <==> k in order
    ensures forall k :: k in m ==> m[k] == {k}
  {
    m, order := m0, order0;
    assert before + ComponentKeys(c)[..0] == before;
    for ti := 0 to |c.terminals|
      invariant order == Dedup(before + ComponentKeys(c)[..ti])
      invariant forall k :: k in m <==> k in order
      invariant forall k :: k in m ==> m[k] == {k}
    {
      var key := TerminalKey(c, ti);
      ghost var s := before + ComponentKeys(c)[..ti];
      KeysStep(before, c, ti);
      DedupSnoc(s, key);
      if key !in m {
        order := order + [key];
      }
      SingletonsStay(m, key);
      m := m[key := {key}];
    }
    assert ComponentKeys(c)[..|c.terminals|] == ComponentKeys(c);
  }

  lemma SingletonsStay(m: map<Key, set<Key>>, key: Key)
    requires forall k :: k in m ==> m[k] == {k}
    ensures forall k :: k in m[key := {key}] ==> m[key := {key}][k] == {k}
  {
  }

  lemma KeysStep(before: seq<Key>, c: Component, i: nat)
    requires i < |c.terminals|
    ensures before + ComponentKeys(c)[..i + 1] == before + ComponentKeys(c)[..i] + [TerminalKey(c, i)]
  {
    assert ComponentKeys(c)[..i + 1] == ComponentKeys(c)[..i] + [TerminalKey(c, i)];
  }

  /** The second phase for one wire. */
  method MergeWire(ghost keys: set<Key>, ghost ws: seq<Wire>, m: map<Key, set<Key>>, w: Wire)
    returns (m': map<Key, set<Key>>)
    requires m.Keys == keys
    requires forall k :: k in m ==> m[k] == Class(keys, ws, k)
    ensures m'.Keys == keys
    ensures forall k :: k in m' ==> m'[k] == Class(keys, ws + [w], k)
  {
    m' := m;
    var fromKey, toKey := EndpointKey(w.from), EndpointKey(w.to);
    if fromKey in m && toKey in m {
      var merged := m[fromKey] + m[toKey];
      ClassPartition(keys, ws, fromKey, fromKey);
      ClassPartition(keys, ws, toKey, toKey);
      var rest := merged;
      while rest != {}
        invariant rest <= merged <= keys
        invariant m'.Keys == keys
        invariant forall k :: k in m' ==> m'[k] == if k in merged - rest then merged else m[k]
        decreases rest
      {
        var key :| key in rest;
        m' := m'[key := merged];
        rest := rest - {key};
      }
      forall k | k in m'
        ensures m'[k] == Class(keys, ws + [w], k)
      {
        MergeStep(keys, ws, w, k);
      }
    } else {
      forall k | k in m'
        ensures m'[k] == Class(keys, ws + [w], k)
      {
        IgnoredWire(keys, ws, w, k);
      }
    }
  }
}
