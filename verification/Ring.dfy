/** Circular doubly linked lists (src/common/list.c) as rings of nodes. */
module Ring {
  import opened Basics

  type Links = map<Ptr, Ptr>

  // The nodes s, each once, linked in a circle.
  ghost predicate IsRing(next: Links, prev: Links, s: seq<Ptr>) {
    && s != [] && Distinct(s)
    && (forall i :: 0 <= i < |s| ==> s[i] in next && s[i] in prev)
    && (forall i, j :: 0 <= i < |s| && j == i + 1 && j < |s| ==> next[s[i]] == s[j] && prev[s[j]] == s[i])
    && next[s[|s| - 1]] == s[0] && prev[s[0]] == s[|s| - 1]
  }

  ghost predicate Apart(s: seq<Ptr>, t: seq<Ptr>) {
    forall x :: x in s ==> x !in t
  }

  // A ring is the same from any of its nodes.
  lemma Turned(next: Links, prev: Links, a: seq<Ptr>, b: seq<Ptr>)
    requires IsRing(next, prev, a + b) && a != [] && b != []
    ensures IsRing(next, prev, b + a)
  {
    var s, t := a + b, b + a;
    forall i, j | 0 <= i < j < |t| ensures t[i] != t[j] {
      assert t[i] == if i < |b| then s[|a| + i] else s[i - |b|];
      assert t[j] == if j < |b| then s[|a| + j] else s[j - |b|];
    }
    forall i | 0 <= i < |t| ensures t[i] in next && t[i] in prev {
      assert t[i] == if i < |b| then s[|a| + i] else s[i - |b|];
    }
    forall i, j | 0 <= i < |t| && j == i + 1 && j < |t| ensures next[t[i]] == t[j] && prev[t[j]] == t[i] {
      assert t[i] == if i < |b| then s[|a| + i] else s[i - |b|];
      assert t[j] == if j < |b| then s[|a| + j] else s[j - |b|];
    }
    assert t[|t| - 1] == s[|a| - 1] && t[0] == s[|a|] && s[|s| - 1] == b[|b| - 1] && t[|b| - 1] == b[|b| - 1];
  }

  class Lists {
    var next: Links
    var prev: Links

    // init_list_node.
    method InitNode(n: Ptr)
      modifies this
      ensures next == old(next)[n := n] && prev == old(prev)[n := n] && IsRing(next, prev, [n])
    {
      prev := prev[n := n];
      next := next[n := n];
    }

    // _merge_list of the rings that start at node1 and node2: the second ring comes right after node1.
    method Merge(node1: Ptr, node2: Ptr, ghost a: seq<Ptr>, ghost b: seq<Ptr>)
      requires IsRing(next, prev, [node1] + a) && IsRing(next, prev, [node2] + b) && Apart([node1] + a, [node2] + b)
      modifies this
      ensures IsRing(next, prev, [node1] + ([node2] + b) + a)
      ensures forall s :: IsRing(old(next), old(prev), s) && Apart(s, [node1] + a) && Apart(s, [node2] + b) ==>
                IsRing(next, prev, s)
    {
      ghost var next0, prev0 := next, prev;
      MergeEnds(next, prev, node1, a);
      MergeEnds(next, prev, node2, b);
      var node3 := next[node1];
      var node4 := prev[node2];
      next := next[node1 := node2];
      prev := prev[node2 := node1];
      next := next[node4 := node3];
      prev := prev[node3 := node4];
      Spliced(next0, prev0, node1, a, node2, b, next, prev);
      forall s | IsRing(next0, prev0, s) && Apart(s, [node1] + a) && Apart(s, [node2] + b)
        ensures IsRing(next, prev, s)
      {
        Elsewhere(next0, prev0, next, prev, s, [node1] + a, [node2] + b);
      }
    }

    // _detach_from_list: the node becomes a ring of its own, and the others stay one.
    method Detach(node: Ptr, ghost a: seq<Ptr>) returns (r: Ptr)
      requires IsRing(next, prev, [node] + a) && NULL !in [node] + a
      modifies this
      ensures IsRing(next, prev, [node]) && (a != [] ==> IsRing(next, prev, a))
      ensures r == if a == [] then NULL else a[|a| - 1]
      ensures forall s :: IsRing(old(next), old(prev), s) && Apart(s, [node] + a) ==> IsRing(next, prev, s)
    {
      ghost var next0, prev0 := next, prev;
      MergeEnds(next, prev, node, a);
      var p := prev[node];
      next := next[prev[node] := next[node]];
      prev := prev[next[node] := prev[node]];
      prev := prev[node := node];
      next := next[node := node];
      if a != [] {
        Cut(next0, prev0, node, a, next, prev);
      }
      forall s | IsRing(next0, prev0, s) && Apart(s, [node] + a) ensures IsRing(next, prev, s) {
        Elsewhere(next0, prev0, next, prev, s, [node] + a, [node] + a);
      }
      r := if p == node then NULL else p;
    }

    // The end of exit in src/kernel/proc.c: the nodes of the list with the head h go to the end of the list with
    // the head r, the first of them last.
    method MoveAll(h: Ptr, r: Ptr, ghost cs: seq<Ptr>, ghost rs: seq<Ptr>)
      requires IsRing(next, prev, [h] + cs) && IsRing(next, prev, [r] + rs) && Apart([h] + cs, [r] + rs) && cs != []
      requires NULL !in [h] + cs
      modifies this
      ensures IsRing(next, prev, [h]) && IsRing(next, prev, [r] + (rs + cs[1..] + [cs[0]]))
    {
      MergeEnds(next, prev, h, cs);
      HeadApart(next, prev, h, cs);
      hide IsRing;
      var merged_list := next[h];
      var _ := Detach(h, cs);
      assert cs == [cs[0]] + cs[1..];
      Merge(merged_list, r, cs[1..], rs);
      MovedOrder(cs[0], cs[1..], r, rs);
      Turned(next, prev, [cs[0]], [r] + rs + cs[1..]);
    }
  }

  lemma MovedOrder(c: Ptr, cs: seq<Ptr>, r: Ptr, rs: seq<Ptr>)
    ensures [c] + ([r] + rs) + cs == [c] + ([r] + rs + cs)
    ensures [r] + rs + cs + [c] == [r] + (rs + cs + [c])
  {
  }

  lemma HeadApart(next: Links, prev: Links, h: Ptr, cs: seq<Ptr>)
    requires IsRing(next, prev, [h] + cs)
    ensures Apart([h], cs) && forall x :: x in cs ==> x in [h] + cs
  {
    var s := [h] + cs;
    forall i | 0 <= i < |cs| ensures cs[i] != h {
      assert s[0] == h && s[i + 1] == cs[i];
    }
  }

  lemma MergeEnds(next: Links, prev: Links, n: Ptr, a: seq<Ptr>)
    requires IsRing(next, prev, [n] + a)
    ensures n in next && n in prev && next[n] == (if a == [] then n else a[0])
    ensures prev[n] == (if a == [] then n else a[|a| - 1])
    ensures next[n] in next && next[n] in prev && prev[n] in next && prev[n] in prev
    ensures a != [] ==> a[0] != n && a[|a| - 1] != n
  {
    var s := [n] + a;
    assert s[0] == n && s[|s| - 1] == if a == [] then n else a[|a| - 1];
    if a != [] {
      assert s[1] == a[0] && next[s[0]] == s[1];
    }
  }

  // Only links inside the two rings changed.
  lemma Elsewhere(next: Links, prev: Links, next': Links, prev': Links, s: seq<Ptr>, a: seq<Ptr>, b: seq<Ptr>)
    requires IsRing(next, prev, s) && Apart(s, a) && Apart(s, b)
    requires forall x :: x in next && x !in a && x !in b ==> x in next' && next'[x] == next[x]
    requires forall x :: x in prev && x !in a && x !in b ==> x in prev' && prev'[x] == prev[x]
    ensures IsRing(next', prev', s)
  {
    forall i | 0 <= i < |s|
      ensures s[i] in next' && next'[s[i]] == next[s[i]] && s[i] in prev' && prev'[s[i]] == prev[s[i]]
    {
      assert s[i] in s;
    }
  }

  // Where the links of the merged ring lead: inside the second ring, or inside the rest of the first, as before.
  lemma SplicedLinks(next: Links, prev: Links, n1: Ptr, a: seq<Ptr>, n2: Ptr, b: seq<Ptr>, next': Links, prev': Links)
    requires IsRing(next, prev, [n1] + a) && IsRing(next, prev, [n2] + b) && Apart([n1] + a, [n2] + b)
    requires n1 in next && n2 in prev && next' == next[n1 := n2][prev[n2] := next[n1]]
    requires prev' == prev[n2 := n1][next[n1] := prev[n2]]
    ensures var s, t := [n1] + a, [n2] + b;
            && (forall x :: x in s || x in t ==> x in next' && x in prev')
            && next'[n1] == n2 && prev'[n2] == n1 && next'[t[|t| - 1]] == (if a == [] then n1 else a[0])
            && prev'[if a == [] then n1 else a[0]] == t[|t| - 1]
            && (forall x :: x in t && x != t[|t| - 1] ==> next'[x] == next[x])
            && (forall x :: x in t && x != n2 ==> prev'[x] == prev[x])
            && (forall x :: x in s && x != n1 ==> next'[x] == next[x])
            && (forall x :: x in s && x != next[n1] ==> prev'[x] == prev[x])
  {
    var s, t := [n1] + a, [n2] + b;
    MergeEnds(next, prev, n1, a);
    MergeEnds(next, prev, n2, b);
    assert s[0] in s && t[0] in t && t[|t| - 1] in t && t[|t| - 1] == prev[n2];
    assert (if a == [] then s[0] else s[1]) in s;
    assert n1 !in t && n2 !in s && prev[n2] !in s && next[n1] !in t;
  }

  lemma Spliced(next: Links, prev: Links, n1: Ptr, a: seq<Ptr>, n2: Ptr, b: seq<Ptr>, next': Links, prev': Links)
    requires IsRing(next, prev, [n1] + a) && IsRing(next, prev, [n2] + b) && Apart([n1] + a, [n2] + b)
    requires n1 in next && n2 in prev && next' == next[n1 := n2][prev[n2] := next[n1]]
    requires prev' == prev[n2 := n1][next[n1] := prev[n2]]
    ensures IsRing(next', prev', [n1] + ([n2] + b) + a)
  {
    var s, t := [n1] + a, [n2] + b;
    var r := [n1] + t + a;
    SplicedLinks(next, prev, n1, a, n2, b, next', prev');
    MergeEnds(next, prev, n1, a);
    Indexed(n1, a, t, r);
    forall i | 0 <= i < |r| ensures r[i] in next' && r[i] in prev' {
      assert r[i] in s || r[i] in t;
    }
    forall i, j | 0 <= i < |r| && j == i + 1 && j < |r| ensures next'[r[i]] == r[j] && prev'[r[j]] == r[i] {
      if i == 0 {
        assert r[1] == t[0];
      } else if i < |t| {
        assert r[i] == t[i - 1] && r[j] == t[i] && t[i - 1] in t && t[i] in t;
      } else if i == |t| {
        assert r[i] == t[i - 1] && r[j] == a[0];
      } else {
        assert r[i] == s[i - |t|] && r[j] == s[j - |t|] && s[i - |t|] in s && s[j - |t|] in s && s[1] == next[n1];
      }
    }
    assert r[|r| - 1] == if a == [] then t[|t| - 1] else s[|s| - 1];
    assert s[|s| - 1] in s;
  }

  lemma Indexed(n1: Ptr, a: seq<Ptr>, t: seq<Ptr>, r: seq<Ptr>)
    requires r == [n1] + t + a && Apart([n1] + a, t)
    requires Distinct(t) && Distinct([n1] + a)
    ensures Distinct(r)
    ensures forall i :: 0 <= i < |r| ==> r[i] in [n1] + a || r[i] in t
  {
    var s := [n1] + a;
    forall i | 0 <= i < |r|
      ensures if i == 0 then r[i] == s[0] else if i <= |t| then r[i] == t[i - 1] else r[i] == s[i - |t|]
    {
    }
    forall i | 0 <= i < |r| ensures if 0 < i <= |t| then r[i] in t else r[i] in s {
    }
  }

  lemma Cut(next: Links, prev: Links, n: Ptr, a: seq<Ptr>, next': Links, prev': Links)
    requires IsRing(next, prev, [n] + a) && a != [] && n in next && n in prev
    requires next' == next[prev[n] := next[n]][n := n] && prev' == prev[next[n] := prev[n]][n := n]
    ensures IsRing(next', prev', a)
  {
    var s := [n] + a;
    MergeEnds(next, prev, n, a);
    forall i | 0 <= i < |a| ensures a[i] == s[i + 1] && a[i] != n && a[i] in next' && a[i] in prev' {
      assert s[0] == n;
    }
    forall i, j | 0 <= i < |a| && j == i + 1 && j < |a| ensures next'[a[i]] == a[j] && prev'[a[j]] == a[i] {
      assert next[s[i + 1]] == s[j + 1];
    }
  }
}
