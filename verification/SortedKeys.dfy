/**
 * The order in which several keys are locked: sorted in place, then without duplicates.
 */
module SortedKeys {

  /** Strings compare position by position; a proper prefix comes first. */
  predicate Less(a: string, b: string) {
    if b == "" then false
    else if a == "" then true
    else if a[0] != b[0] then a[0] < b[0]
    else Less(a[1..], b[1..])
  }

  predicate Leq(a: string, b: string) {
    !Less(b, a)
  }

  lemma {:induction false} LessIsTotal(a: string, b: string)
    ensures !(Less(a, b) && Less(b, a))
    ensures Less(a, b) || Less(b, a) || a == b
    ensures Less(a, b) ==> a != b
  {
    if a != "" && b != "" && a[0] == b[0] {
      LessIsTotal(a[1..], b[1..]);
      assert a == [a[0]] + a[1..] && b == [b[0]] + b[1..];
    }
  }

  lemma {:induction false} LessIsTransitive(a: string, b: string, c: string)
    requires Less(a, b) && Less(b, c)
    ensures Less(a, c)
  {
    if a != "" && a[0] == b[0] && b[0] == c[0] {
      LessIsTransitive(a[1..], b[1..], c[1..]);
    }
  }

  lemma LeqIsTransitive(a: string, b: string, c: string)
    requires Leq(a, b) && Leq(b, c)
    ensures Leq(a, c)
  {
    LessIsTotal(a, b);
    LessIsTotal(b, c);
    if Less(a, b) && Less(b, c) {
      LessIsTransitive(a, b, c);
    }
    LessIsTotal(a, c);
  }

  lemma LessThenLeq(a: string, b: string, c: string)
    requires (Less(a, b) && Leq(b, c)) || (Leq(a, b) && Less(b, c))
    ensures Less(a, c)
  {
    LessIsTotal(a, b);
    LessIsTotal(b, c);
    if a != b && b != c {
      LessIsTransitive(a, b, c);
    }
  }

  predicate IsSorted(s: seq<string>) {
    forall i, j :: 0 <= i < j < |s| ==> Leq(s[i], s[j])
  }

  predicate IsAscending(s: seq<string>) {
    forall i, j :: 0 <= i < j < |s| ==> Less(s[i], s[j])
  }

  // ----- sorting -----

  /** The first i elements are sorted and none of the others comes before any of them. */
  predicate SortedUpTo(s: seq<string>, i: nat) {
    && (forall k, l :: 0 <= k < l < |s| && k < i ==> Leq(s[k], s[l]))
  }

  /** Element i is a least one among those from i up to j. */
  predicate LeastUpTo(s: seq<string>, i: nat, j: nat)
    requires i < |s|
  {
    forall l :: i < l < j && l < |s| ==> Leq(s[i], s[l])
  }

  function Swap(s: seq<string>, i: nat, j: nat): seq<string>
    requires i < |s| && j < |s|
  {
    s[i := s[j]][j := s[i]]
  }

  lemma SwapKeepsElements(s: seq<string>, i: nat, j: nat)
    requires i < |s| && j < |s|
    ensures multiset(Swap(s, i, j)) == multiset(s)
  {
  }

  lemma SwapKeepsSorted(s: seq<string>, i: nat, j: nat)
    requires i < j < |s| && SortedUpTo(s, i) && LeastUpTo(s, i, j) && Less(s[j], s[i])
    ensures SortedUpTo(Swap(s, i, j), i) && LeastUpTo(Swap(s, i, j), i, j + 1)
  {
    var t := Swap(s, i, j);
    LessIsTotal(s[j], s[i]);
    forall l | i < l < j + 1 ensures Leq(t[i], t[l]) {
      if l < j {
        LeqIsTransitive(s[j], s[i], s[l]);
      }
    }
    forall k, l | 0 <= k < l < |t| && k < i ensures Leq(t[k], t[l]) {
      assert Leq(s[k], s[i]) && Leq(s[k], s[j]) && Leq(s[k], s[l]);
    }
  }

  /** Exchange sort. */
  method SortStrings(s: array<string>)
    modifies s
    ensures IsSorted(s[..]) && multiset(s[..]) == multiset(old(s[..]))
  {
    hide Less;
    var i := 0;
    while i < s.Length - 1
      invariant 0 <= i <= s.Length
      invariant SortedUpTo(s[..], i) && multiset(s[..]) == multiset(old(s[..]))
    {
      var j := i + 1;
      while j < s.Length
        invariant i < j <= s.Length
        invariant SortedUpTo(s[..], i) && LeastUpTo(s[..], i, j) && multiset(s[..]) == multiset(old(s[..]))
      {
        ghost var before := s[..];
        if Less(s[j], s[i]) {
          s[i], s[j] := s[j], s[i];
          assert s[..] == Swap(before, i, j);
          SwapKeepsElements(before, i, j);
          SwapKeepsSorted(before, i, j);
        }
        j := j + 1;
      }
      i := i + 1;
    }
  }

  // ----- removing duplicates -----

  method RemoveDuplicates(sortedKeys: seq<string>) returns (uniqueKeys: seq<string>)
    requires IsSorted(sortedKeys)
    ensures IsAscending(uniqueKeys)
    ensures forall k :: k in uniqueKeys <==> k in sortedKeys
  {
    hide Less;
    uniqueKeys := [];
    for i := 0 to |sortedKeys|
      invariant IsAscending(uniqueKeys)
      invariant forall k :: k in uniqueKeys <==> k in sortedKeys[..i]
      invariant i == 0 ==> uniqueKeys == []
      invariant i > 0 ==> uniqueKeys != [] && uniqueKeys[|uniqueKeys| - 1] == sortedKeys[i-1]
    {
      var k := sortedKeys[i];
      assert sortedKeys[..i+1] == sortedKeys[..i] + [k];
      if i == 0 || k != sortedKeys[i-1] {
        forall l | 0 <= l < |uniqueKeys| ensures Less(uniqueKeys[l], k) {
          var last := sortedKeys[i-1];
          LessIsTotal(last, k);
          if l < |uniqueKeys| - 1 {
            LessThenLeq(uniqueKeys[l], last, k);
          }
        }
        uniqueKeys := uniqueKeys + [k];
      }
    }
    assert sortedKeys[..|sortedKeys|] == sortedKeys;
  }

  /** The keys to lock, in the order in which every caller locks them. */
  method LockOrder(keys: seq<string>) returns (uniqueKeys: seq<string>)
    ensures IsAscending(uniqueKeys)
    ensures forall k :: k in uniqueKeys <==> k in keys
  {
    var sortedKeys := new string[|keys|](i requires 0 <= i < |keys| => keys[i]);
    assert sortedKeys[..] == keys;
    SortStrings(sortedKeys);
    SameElements(sortedKeys[..], keys);
    uniqueKeys := RemoveDuplicates(sortedKeys[..]);
  }

  lemma SameElements(a: seq<string>, b: seq<string>)
    requires multiset(a) == multiset(b)
    ensures forall k :: k in a <==> k in b
  {
    forall k ensures k in a <==> k in b {
      assert k in a <==> k in multiset(a);
      assert k in b <==> k in multiset(b);
    }
  }

  /** The set of keys alone decides the order: two callers with the same keys lock them alike. */
  lemma {:induction false} AscendingIsUnique(a: seq<string>, b: seq<string>)
    requires IsAscending(a) && IsAscending(b) && forall k :: k in a <==> k in b
    ensures a == b
  {
    hide Less;
    assert b != [] ==> b[0] in b;
    if a != [] {
      assert a[0] in b;
      assert b != [] && b[0] in a;
      FirstIsLeast(a, b[0]);
      FirstIsLeast(b, a[0]);
      LessIsTotal(a[0], b[0]);
      RestHasTheRest(a);
      RestHasTheRest(b);
      AscendingIsUnique(a[1..], b[1..]);
      assert a == [a[0]] + a[1..] && b == [b[0]] + b[1..];
    }
  }

  lemma FirstIsLeast(a: seq<string>, k: string)
    requires IsAscending(a) && a != [] && k in a
    ensures k == a[0] || Less(a[0], k)
  {
  }

  lemma RestHasTheRest(a: seq<string>)
    requires IsAscending(a) && a != []
    ensures IsAscending(a[1..]) && forall k :: k in a[1..] <==> k in a && k != a[0]
  {
    forall k | k in a && k != a[0] ensures k in a[1..] {
      var i :| 0 <= i < |a| && a[i] == k;
      assert a[1..][i-1] == k;
    }
    forall k | k in a[1..] ensures k != a[0] {
      var i :| 0 <= i < |a[1..]| && a[1..][i] == k;
      LessIsTotal(a[0], a[i+1]);
    }
  }
}
