/** Picking the entries with the lowest values, as ORDER BY … LIMIT and ZPOPMIN do. */
module Selection {

  predicate Distinct(s: seq<nat>) {
    forall i, j | 0 <= i < j < |s| :: s[i] != s[j]
  }

  function Elements(s: seq<nat>): set<nat> {
    set x | x in s
  }

  lemma {:induction false} SizeOfElements(s: seq<nat>)
    requires Distinct(s)
    ensures |Elements(s)| == |s|
    decreases |s|
  {
    if s != [] {
      var n := |s| - 1;
      SizeOfElements(s[..n]);
      assert s == s[..n] + [s[n]];
      assert Elements(s) == Elements(s[..n]) + {s[n]};
      assert s[n] !in s[..n];
    }
  }

  lemma SubsetSize(a: set<nat>, b: set<nat>)
    requires a <= b
    ensures |a| <= |b|
  {
    assert b == a + (b - a);
  }

  /** A number above all of a set. */
  ghost function Above(ids: set<nat>): (bound: nat)
    ensures forall id | id in ids :: id < bound
  {
    if ids == {} then 0
    else
      var id :| id in ids;
      var rest := Above(ids - {id});
      assert forall x | x in ids :: x == id || x in ids - {id};
      if id < rest then rest else id + 1
  }

  /** `popped` are the `count` members with the lowest scores, or all if there are fewer, lowest first;
      members with equal scores may come in any order. */
  ghost predicate PopsMin(before: map<nat, int>, count: nat, popped: seq<nat>, after: map<nat, int>) {
    && Distinct(popped)
    && Elements(popped) <= before.Keys
    && after == before - Elements(popped)
    && |popped| == (if count <= |before| then count else |before|)
    && (forall i, j | 0 <= i < j < |popped| :: before[popped[i]] <= before[popped[j]])
    && (forall p, w | p in popped && w in after :: before[p] <= after[w])
  }

  predicate IsMinimum(m: map<nat, int>, k: nat) {
    k in m && forall w | w in m :: m[k] <= m[w]
  }

  lemma {:induction false} HasMinimum(m: map<nat, int>)
    requires m != map[]
    ensures exists k :: IsMinimum(m, k)
    decreases |m.Keys|
  {
    assert m.Keys != {};
    var k :| k in m.Keys;
    var rest := m - {k};
    assert rest.Keys == m.Keys - {k};
    if rest == map[] {
      assert m.Keys == rest.Keys + {k} == {k};
      forall w | w in m ensures m[k] <= m[w] {
        assert w in m.Keys;
      }
      assert IsMinimum(m, k);
    } else {
      HasMinimum(rest);
      var l :| IsMinimum(rest, l);
      var least := if m[k] <= m[l] then k else l;
      forall w | w in m ensures m[least] <= m[w] {
        assert w == k || w in rest;
      }
      assert IsMinimum(m, least);
    }
  }

  lemma PopsOneMore(before: map<nat, int>, popped: seq<nat>, left: map<nat, int>, member: nat)
    requires PopsMin(before, |popped|, popped, left) && |left| + |popped| == |before|
    requires IsMinimum(left, member)
    ensures PopsMin(before, |popped| + 1, popped + [member], left - {member})
    ensures |left - {member}| + |popped| + 1 == |before|
  {
    assert forall w | w in left :: w in before && w !in Elements(popped) && left[w] == before[w];
    assert (left - {member}).Keys == left.Keys - {member};
    assert Elements(popped + [member]) == Elements(popped) + {member};
    assert left - {member} == before - Elements(popped + [member]);
    assert member !in Elements(popped);
    OrderedOneMore(before, popped, member);
  }

  lemma OrderedOneMore(scores: map<nat, int>, popped: seq<nat>, member: nat)
    requires Distinct(popped) && Elements(popped) <= scores.Keys && member in scores && member !in popped
    requires forall i, j | 0 <= i < j < |popped| :: scores[popped[i]] <= scores[popped[j]]
    requires forall p | p in popped :: scores[p] <= scores[member]
    ensures Distinct(popped + [member])
    ensures forall i, j | 0 <= i < j < |popped| + 1 :: scores[(popped + [member])[i]] <= scores[(popped + [member])[j]]
  {
    assert forall i | 0 <= i < |popped| :: popped[i] in popped && popped[i] in Elements(popped);
  }

  lemma PopsEnough(before: map<nat, int>, n: nat, popped: seq<nat>, left: map<nat, int>, count: nat)
    requires PopsMin(before, n, popped, left) && |left| + n == |before| && n <= count
    requires n == count || left == map[]
    ensures PopsMin(before, count, popped, left)
  {
  }

  lemma PopsNone(before: map<nat, int>)
    ensures PopsMin(before, 0, [], before)
  {
    assert before == before - Elements([]);
  }

  /** The lowest value again and again. */
  method TakeMinima(before: map<nat, int>, count: nat) returns (popped: seq<nat>, left: map<nat, int>)
    ensures PopsMin(before, count, popped, left)
  {
    PopsNone(before);
    left, popped := before, [];
    while |popped| < count && left != map[]
      invariant |popped| <= count
      invariant PopsMin(before, |popped|, popped, left)
      invariant |left| + |popped| == |before|
    {
      HasMinimum(left);
      var member :| member in left && IsMinimum(left, member);
      PopsOneMore(before, popped, left, member);
      popped := popped + [member];
      left := left - {member};
    }
    PopsEnough(before, |popped|, popped, left, count);
  }
}
