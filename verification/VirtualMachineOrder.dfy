/** The identity of a replica VM resource, the order that `VirtualMachinesByCreationTimestamp`
    puts on them, and the choice of the replica to delete. */
module VirtualMachineOrder {
  import opened Basics

  /** The immutable part of an AzureStackHCIVirtualMachine resource: its name, its creation
      timestamp and the value of its os-version label. */
  datatype VM = VM(name: string, created: int, version: string)

  /** Go's `<` on strings. */
  predicate StringLess(a: string, b: string) {
    if b == [] then false
    else if a == [] then true
    else if a[0] != b[0] then a[0] < b[0]
    else StringLess(a[1..], b[1..])
  }

  /** `VirtualMachinesByCreationTimestamp.Less`: the creation timestamp, then the name. */
  predicate Less(a: VM, b: VM) {
    if a.created == b.created then StringLess(a.name, b.name) else a.created < b.created
  }

  ghost predicate DistinctNames(vms: set<VM>) {
    forall v, w :: v in vms && w in vms && v.name == w.name ==> v == w
  }

  lemma {:induction false} StringLessIrreflexive(a: string)
    ensures !StringLess(a, a)
  {
    if a != [] { StringLessIrreflexive(a[1..]); }
  }

  lemma {:induction false} StringLessTransitive(a: string, b: string, c: string)
    requires StringLess(a, b) && StringLess(b, c)
    ensures StringLess(a, c)
  {
    if a != [] && a[0] == b[0] && b[0] == c[0] { StringLessTransitive(a[1..], b[1..], c[1..]); }
  }

  lemma {:induction false} StringLessTotal(a: string, b: string)
    requires a != b
    ensures StringLess(a, b) || StringLess(b, a)
  {
    if a != [] && b != [] && a[0] == b[0] {
      assert a == [a[0]] + a[1..] && b == [b[0]] + b[1..];
      StringLessTotal(a[1..], b[1..]);
    }
  }

  /** `Less` is a strict order that decides between any two VMs with different names. */
  lemma LessIsStrictTotalOrder(a: VM, b: VM, c: VM)
    ensures !Less(a, a)
    ensures Less(a, b) && Less(b, c) ==> Less(a, c)
    ensures Less(a, b) ==> !Less(b, a)
    ensures a.name != b.name ==> Less(a, b) || Less(b, a)
  {
    StringLessIrreflexive(a.name);
    if Less(a, b) && Less(b, c) && a.created == c.created { StringLessTransitive(a.name, b.name, c.name); }
    if Less(a, b) && Less(b, a) { StringLessTransitive(a.name, b.name, a.name); }
    if a.name != b.name { StringLessTotal(a.name, b.name); }
  }

  /** The strings agree before `k`, where `a` ends or has the smaller character. */
  ghost predicate SmallerAt(a: string, b: string, k: nat) {
    k <= |a| && k < |b| && a[..k] == b[..k] && (k < |a| ==> a[k] < b[k])
  }

  /** `StringLess` is the lexicographic order, said by position. */
  lemma {:induction false} StringLessByPosition(a: string, b: string)
    ensures StringLess(a, b) <==> exists k: nat :: SmallerAt(a, b, k)
  {
    assert forall k: nat :: SmallerAt(a, b, k) && k > 0 ==> a[..k][0] == b[..k][0];
    if b != [] && a != [] && a[0] == b[0] {
      StringLessByPosition(a[1..], b[1..]);
      if StringLess(a, b) {
        var k: nat :| SmallerAt(a[1..], b[1..], k);
        assert a[..k + 1] == [a[0]] + a[1..][..k] && b[..k + 1] == [b[0]] + b[1..][..k];
        assert SmallerAt(a, b, k + 1);
      }
      if k: nat :| SmallerAt(a, b, k) {
        assert k > 0 && a[1..][..k - 1] == a[..k][1..] && b[1..][..k - 1] == b[..k][1..];
        assert SmallerAt(a[1..], b[1..], k - 1);
      }
    } else if StringLess(a, b) {
      assert SmallerAt(a, b, 0);
    }
  }

  /** The VMs whose os-version label is not the wanted one. */
  function Outdated(vms: set<VM>, target: string): set<VM> {
    set v | v in vms && v.version != target
  }

  /** The VMs the next scale down chooses from: the outdated ones while there are any. */
  function Candidates(vms: set<VM>, target: string): set<VM> {
    if Outdated(vms, target) != {} then Outdated(vms, target) else vms
  }

  /** `v` is a candidate and no candidate is older. */
  ghost predicate IsVictim(v: VM, vms: set<VM>, target: string) {
    v in Candidates(vms, target) && forall w :: w in Candidates(vms, target) ==> !Less(w, v)
  }

  /** What it takes to be the victim: an outdated VM unless none is, and then the earliest created,
      at equal timestamps the first name. */
  lemma VictimByAge(v: VM, vms: set<VM>, target: string)
    ensures IsVictim(v, vms, target) <==>
      && v in vms
      && (v.version == target ==> forall w :: w in vms ==> w.version == target)
      && (forall w :: w in vms && (w.version == target ==> v.version == target) ==>
            && v.created <= w.created
            && (v.created == w.created ==> !exists k: nat :: SmallerAt(w.name, v.name, k)))
  {
    forall w | w in vms
      ensures !Less(w, v) <==>
        && v.created <= w.created
        && (v.created == w.created ==> !exists k: nat :: SmallerAt(w.name, v.name, k))
    {
      StringLessByPosition(w.name, v.name);
    }
    assert Outdated(vms, target) == {} <==> forall w :: w in vms ==> w.version == target by {
      assert forall w :: w in vms && w.version != target ==> w in Outdated(vms, target);
    }
  }

  /** If neither `b` precedes `a` nor `c` precedes `b`, then `c` does not precede `a`. */
  lemma NotLessTransitive(a: VM, b: VM, c: VM)
    requires !Less(b, a) && !Less(c, b)
    ensures !Less(c, a)
  {
    if Less(c, a) && a.name != b.name {
      LessIsStrictTotalOrder(a, b, a);
      LessIsStrictTotalOrder(c, a, b);
    }
  }

  lemma {:induction false} OldestExists(vms: set<VM>) returns (v: VM)
    requires vms != {}
    ensures v in vms && forall w :: w in vms ==> !Less(w, v)
    decreases |vms|
  {
    v :| v in vms;
    LessIsStrictTotalOrder(v, v, v);
    if vms != {v} {
      var u := OldestExists(vms - {v});
      LessIsStrictTotalOrder(v, u, v);
      if Less(v, u) {
        forall w | w in vms - {v} ensures !Less(w, v) { NotLessTransitive(v, u, w); }
      } else {
        v := u;
      }
    }
  }

  /** The replica the scale down deletes. */
  ghost function Victim(vms: set<VM>, target: string): (v: VM)
    requires vms != {}
    ensures IsVictim(v, vms, target)
    ensures v in vms
  {
    VictimExists(vms, target);
    var v :| IsVictim(v, vms, target);
    v
  }

  lemma VictimExists(vms: set<VM>, target: string)
    requires vms != {}
    ensures exists v :: IsVictim(v, vms, target)
  {
    var v := OldestExists(Candidates(vms, target));
    assert IsVictim(v, vms, target);
  }

  /** Whatever way the list was ordered before, there is only one possible victim. */
  lemma VictimIsUnique(v: VM, w: VM, vms: set<VM>, target: string)
    requires DistinctNames(vms)
    requires IsVictim(v, vms, target) && IsVictim(w, vms, target)
    ensures v == w
  {
    if v.name != w.name { LessIsStrictTotalOrder(v, w, v); }
  }

  /** While an outdated VM remains, the scale down takes an outdated one, so no up-to-date VM
      is lost; otherwise nothing outdated appears. */
  lemma VictimSparesUpToDate(vms: set<VM>, target: string)
    requires vms != {}
    ensures var v := Victim(vms, target);
      && (Outdated(vms, target) != {} ==>
            && Outdated(vms - {v}, target) == Outdated(vms, target) - {v}
            && |Outdated(vms - {v}, target)| == |Outdated(vms, target)| - 1
            && vms - {v} - Outdated(vms - {v}, target) == vms - Outdated(vms, target))
      && (Outdated(vms, target) == {} ==> Outdated(vms - {v}, target) == {})
  {
    var v := Victim(vms, target);
    assert Outdated(vms - {v}, target) == Outdated(vms, target) - {v};
  }

  // ----- the in-place sort and scan -----

  ghost function Elements(s: seq<VM>): set<VM> {
    set v | v in s
  }

  ghost predicate Sorted(s: seq<VM>) {
    forall i, j :: 0 <= i < j < |s| ==> !Less(s[j], s[i])
  }

  ghost predicate SortedExcept(s: seq<VM>, k: int) {
    forall i, j :: 0 <= i < j < |s| && j != k ==> !Less(s[j], s[i])
  }

  /** The element at `j` is smaller than all behind it, and the others are in order. */
  ghost predicate Sinking(s: seq<VM>, j: int) {
    0 <= j < |s| && SortedExcept(s, j) && forall k :: j < k < |s| ==> Less(s[j], s[k])
  }

  lemma AppendedSinks(s: seq<VM>, x: VM)
    requires Sorted(s)
    ensures Sinking(s + [x], |s|)
  {
    var t := s + [x];
    forall i, k | 0 <= i < k < |t| && k != |s| ensures !Less(t[k], t[i]) {
      assert t[i] == s[i] && t[k] == s[k];
    }
  }

  /** Exchanging the element at `j` with a larger one before it. */
  lemma SinkOnce(s: seq<VM>, t: seq<VM>, j: nat)
    requires 0 < j && Sinking(s, j) && Less(s[j], s[j - 1])
    requires t == s[j - 1 := s[j]][j := s[j - 1]]
    ensures Sinking(t, j - 1) && multiset(t) == multiset(s)
  {
    LessIsStrictTotalOrder(s[j], s[j - 1], s[j]);
    forall i, k | 0 <= i < k < |t| && k != j - 1 ensures !Less(t[k], t[i]) {
      if i == j - 1 && k > j { LessIsStrictTotalOrder(s[j], s[k], s[j]); }
    }
  }

  /** The in-place sort of the listed VMs by creation timestamp, in exchanges of neighbours. */
  method SortByCreation(a: array<VM>)
    modifies a
    ensures Sorted(a[..])
    ensures multiset(a[..]) == multiset(old(a[..]))
  {
    var n := 0;
    while n < a.Length
      invariant 0 <= n <= a.Length
      invariant Sorted(a[..n])
      invariant multiset(a[..]) == multiset(old(a[..]))
    {
      ghost var before := a[..];
      InsertNext(a, n);
      assert a[..] == a[..n + 1] + a[n + 1..] && before == before[..n + 1] + before[n + 1..];
      n := n + 1;
    }
    assert a[..n] == a[..];
  }

  /** Moves the element at `n` down to its place among the sorted ones before it. */
  method InsertNext(a: array<VM>, n: nat)
    requires n < a.Length && Sorted(a[..n])
    modifies a
    ensures Sorted(a[..n + 1]) && a[n + 1..] == old(a[n + 1..])
    ensures multiset(a[..n + 1]) == multiset(old(a[..n + 1]))
  {
    var j := n;
    AppendedSinks(a[..n], a[n]);
    assert a[..n + 1] == a[..n] + [a[n]];
    while j > 0 && Less(a[j], a[j - 1])
      invariant 0 <= j <= n && Sinking(a[..n + 1], j)
      invariant a[n + 1..] == old(a[n + 1..])
      invariant multiset(a[..n + 1]) == multiset(old(a[..n + 1]))
    {
      ghost var before := a[..n + 1];
      a[j - 1], a[j] := a[j], a[j - 1];
      assert a[..n + 1] == before[j - 1 := before[j]][j := before[j - 1]];
      SinkOnce(before, a[..n + 1], j);
      j := j - 1;
    }
    InsertedIsSorted(a[..n + 1], j);
  }

  lemma InsertedIsSorted(s: seq<VM>, j: nat)
    requires j < |s| && SortedExcept(s, j)
    requires j > 0 ==> !Less(s[j], s[j - 1])
    ensures Sorted(s)
  {
    forall i | 0 <= i < j ensures !Less(s[j], s[i]) {
      if i < j - 1 {
        assert !Less(s[j - 1], s[i]);
        NotLessTransitive(s[i], s[j - 1], s[j]);
      }
    }
  }

  /** `selectVirtualMachineForScaleDown`: sort in place, then take the first outdated VM, or the
      first of all. The result is the victim of the set of listed VMs, whatever their order. */
  method SelectVirtualMachineForScaleDown(vmList: array<VM>, target: string) returns (r: Option<VM>)
    modifies vmList
    ensures multiset(vmList[..]) == multiset(old(vmList[..]))
    ensures r.None? <==> vmList.Length == 0
    ensures r.Some? ==> IsVictim(r.value, Elements(old(vmList[..])), target)
  {
    if vmList.Length < 1 {
      return None;
    }
    SortByCreation(vmList);
    SameElements(old(vmList[..]), vmList[..]);
    var i := 0;
    while i < vmList.Length
      invariant 0 <= i <= vmList.Length
      invariant forall k :: 0 <= k < i ==> vmList[k].version == target
    {
      if vmList[i].version != target {
        FirstOutdatedIsVictim(vmList[..], i, target);
        return Some(vmList[i]);
      }
      i := i + 1;
    }
    FirstIsVictim(vmList[..], target);
    return Some(vmList[0]);
  }

  lemma SameElements(s: seq<VM>, t: seq<VM>)
    requires multiset(s) == multiset(t)
    ensures Elements(s) == Elements(t)
  {
    forall v ensures v in s <==> v in t {
      assert v in s <==> v in multiset(s);
      assert v in t <==> v in multiset(t);
    }
  }

  lemma FirstOutdatedIsVictim(s: seq<VM>, i: nat, target: string)
    requires Sorted(s) && i < |s| && s[i].version != target
    requires forall k :: 0 <= k < i ==> s[k].version == target
    ensures IsVictim(s[i], Elements(s), target)
  {
    assert s[i] in Outdated(Elements(s), target);
    forall w | w in Outdated(Elements(s), target) ensures !Less(w, s[i]) {
      var j :| 0 <= j < |s| && s[j] == w;
      LessIsStrictTotalOrder(w, w, w);
    }
  }

  lemma FirstIsVictim(s: seq<VM>, target: string)
    requires Sorted(s) && s != []
    requires forall k :: 0 <= k < |s| ==> s[k].version == target
    ensures IsVictim(s[0], Elements(s), target)
  {
    assert Outdated(Elements(s), target) == {};
    forall w | w in Elements(s) ensures !Less(w, s[0]) {
      var j :| 0 <= j < |s| && s[j] == w;
      LessIsStrictTotalOrder(w, w, w);
    }
  }
}
