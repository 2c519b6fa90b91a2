/** A resource's list of conditions under `conditions.Set`, which updates the condition of the same
    type or adds a new one. */
module ConditionList {
  import opened Basics
  import opened ApiCommon
  import opened V1Beta2

  function Upsert(s: seq<Condition>, c: Condition): seq<Condition> {
    if s == [] then [c]
    else if s[0].kind == c.kind then [c] + s[1..]
    else [s[0]] + Upsert(s[1..], c)
  }

  /** `conditions.Set` on the status field. */
  function Set(cs: Slice<Condition>, c: Condition): Slice<Condition> {
    Elems(Upsert(List(cs), c))
  }

  function List(cs: Slice<Condition>): seq<Condition> {
    if cs.Elems? then cs.elems else []
  }

  function Kinds(s: seq<Condition>): (r: seq<string>)
    ensures |r| == |s|
    ensures forall i :: 0 <= i < |s| ==> r[i] == s[i].kind
  {
    seq(|s|, i requires 0 <= i < |s| => s[i].kind)
  }

  /** `conditions.Get` */
  function Find(s: seq<Condition>, kind: string): Option<Condition> {
    if s == [] then None else if s[0].kind == kind then Some(s[0]) else Find(s[1..], kind)
  }

  ghost predicate Unique(s: seq<Condition>) {
    forall i, j :: 0 <= i < j < |s| ==> s[i].kind != s[j].kind
  }

  lemma KindsCons(c: Condition, s: seq<Condition>)
    ensures Kinds([c] + s) == [c.kind] + Kinds(s)
  {
  }

  /** A new type goes to the end; otherwise the types stay as they are. */
  lemma {:induction false} UpsertKinds(s: seq<Condition>, c: Condition)
    ensures Kinds(Upsert(s, c)) == if c.kind in Kinds(s) then Kinds(s) else Kinds(s) + [c.kind]
  {
    if s == [] {
      KindsCons(c, []);
    } else {
      var head, tail := s[0], s[1..];
      assert s == [head] + tail;
      KindsCons(head, tail);
      if head.kind == c.kind {
        KindsCons(c, tail);
      } else {
        UpsertKinds(tail, c);
        KindsCons(head, Upsert(tail, c));
      }
    }
  }

  lemma UpsertUnique(s: seq<Condition>, c: Condition)
    requires Unique(s)
    ensures Unique(Upsert(s, c))
  {
    UpsertKinds(s, c);
    var u := Upsert(s, c);
    forall i, j | 0 <= i < j < |u| ensures u[i].kind != u[j].kind {
      assert Kinds(u)[i] == u[i].kind && Kinds(u)[j] == u[j].kind;
      if j < |s| {
        assert Kinds(s)[i] == s[i].kind && Kinds(s)[j] == s[j].kind;
      } else {
        assert Kinds(s)[i] in Kinds(s);
      }
    }
  }

  /** Setting a condition changes what is found for its type and for no other. */
  lemma {:induction false} UpsertFind(s: seq<Condition>, c: Condition, kind: string)
    ensures Find(Upsert(s, c), kind) == if kind == c.kind then Some(c) else Find(s, kind)
  {
    if s != [] && s[0].kind != c.kind {
      assert Upsert(s, c)[1..] == Upsert(s[1..], c);
      UpsertFind(s[1..], c, kind);
    } else if s != [] {
      assert Upsert(s, c)[1..] == s[1..];
    }
  }

  lemma {:induction false} FindAt(s: seq<Condition>, i: nat)
    requires Unique(s) && i < |s|
    ensures Find(s, s[i].kind) == Some(s[i])
  {
    if i > 0 {
      assert s[0].kind != s[i].kind;
      FindAt(s[1..], i - 1);
    }
  }

  lemma {:induction false} FoundIsListed(s: seq<Condition>, kind: string)
    requires Find(s, kind).Some?
    ensures Find(s, kind).value.kind == kind && Find(s, kind).value in s
  {
    if s[0].kind != kind { FoundIsListed(s[1..], kind); }
  }

  /** Conditions that differ at most in their transition time. */
  predicate Alike(a: Condition, b: Condition) {
    a == b.(lastTransitionTime := a.lastTransitionTime)
  }

  predicate AlikeOption(a: Option<Condition>, b: Option<Condition>) {
    (a.None? <==> b.None?) && (a.Some? && b.Some? ==> Alike(a.value, b.value))
  }

  predicate AlikeLists(s: seq<Condition>, t: seq<Condition>) {
    |s| == |t| && forall i :: 0 <= i < |s| ==> Alike(s[i], t[i])
  }

  /** A list with unique types is determined by its types in order and what is found for each. */
  lemma ListsDetermined(s: seq<Condition>, t: seq<Condition>)
    requires Unique(s) && Unique(t) && Kinds(s) == Kinds(t)
    requires forall kind :: AlikeOption(Find(s, kind), Find(t, kind))
    ensures AlikeLists(s, t)
  {
    forall i | 0 <= i < |s| ensures Alike(s[i], t[i]) {
      assert Kinds(s)[i] == Kinds(t)[i];
      FindAt(s, i);
      FindAt(t, i);
      assert AlikeOption(Find(s, s[i].kind), Find(t, s[i].kind));
    }
  }
}
