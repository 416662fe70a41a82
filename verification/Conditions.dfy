/** api/v1alpha2/condition.go. */
module Conditions {
  import opened KodeTypes

  /** GetCondition: the first condition of the type. */
  function Get(cs: seq<Condition>, kind: ConditionType): (r: Option<Condition>)
    ensures r.Some? <==> exists i :: 0 <= i < |cs| && cs[i].kind == kind
    ensures r.Some? ==> r.value.kind == kind && r.value in cs
  {
    if cs == [] then None
    else if cs[0].kind == kind then Some(cs[0])
    else Get(cs[1..], kind)
  }

  predicate Has(cs: seq<Condition>, kind: ConditionType) { Get(cs, kind).Some? }

  /** Some condition of the type exists and its status is `status`. */
  predicate Is(cs: seq<Condition>, kind: ConditionType, status: ConditionStatus) {
    var c := Get(cs, kind);
    c.Some? && c.value.status == status
  }

  /** SetCondition: replaces the first condition of the type when its status differs, leaves
      everything (reason, message and time included) when it does not, appends when there is none. */
  function Set(cs: seq<Condition>, c: Condition): seq<Condition> {
    if cs == [] then [c]
    else if cs[0].kind == c.kind then
      if cs[0].status != c.status then [c] + cs[1..] else cs
    else [cs[0]] + Set(cs[1..], c)
  }

  /** What SetCondition achieves: the type now has the status; every other type is untouched; the
      whole list is untouched when the status was already there, and otherwise the new entry is found. */
  lemma {:induction false} SetMeaning(cs: seq<Condition>, c: Condition)
    ensures Is(Set(cs, c), c.kind, c.status)
    ensures forall k: ConditionType :: k != c.kind ==> Get(Set(cs, c), k) == Get(cs, k)
    ensures Is(cs, c.kind, c.status) ==> Set(cs, c) == cs
    ensures !Is(cs, c.kind, c.status) ==> Get(Set(cs, c), c.kind) == Some(c)
    ensures |Set(cs, c)| == if Has(cs, c.kind) then |cs| else |cs| + 1
  {
    if cs != [] && cs[0].kind != c.kind {
      SetMeaning(cs[1..], c);
    }
  }

  /** DeleteCondition. */
  function Delete(cs: seq<Condition>, kind: ConditionType): (r: seq<Condition>)
    ensures !Has(r, kind)
    ensures forall k: ConditionType :: k != kind ==> Get(r, k) == Get(cs, k)
  {
    if cs == [] then []
    else if cs[0].kind == kind then Delete(cs[1..], kind)
    else [cs[0]] + Delete(cs[1..], kind)
  }

  /** No two conditions of one type. */
  predicate Unique(cs: seq<Condition>) {
    forall i, j :: 0 <= i < j < |cs| ==> cs[i].kind != cs[j].kind
  }

  lemma {:induction false} SetKeepsUnique(cs: seq<Condition>, c: Condition)
    requires Unique(cs)
    ensures Unique(Set(cs, c))
  {
    if cs != [] && cs[0].kind != c.kind {
      SetKeepsUnique(cs[1..], c);
      SetMeaning(cs[1..], c);
      var t := Set(cs[1..], c);
      forall j | 0 <= j < |t| ensures t[j].kind != cs[0].kind {
        assert Get(t, cs[0].kind) == Get(cs[1..], cs[0].kind) == None;
      }
    }
  }

  /** Deleting what was just set gives back what deleting alone would. */
  lemma {:induction false} DeleteUndoesSet(cs: seq<Condition>, c: Condition)
    ensures Delete(Set(cs, c), c.kind) == Delete(cs, c.kind)
  {
    if cs != [] && cs[0].kind != c.kind {
      DeleteUndoesSet(cs[1..], c);
    }
  }

  /** Setting one type twice keeps the older entry exactly when the status did not change. */
  lemma SetTwice(cs: seq<Condition>, c: Condition, d: Condition)
    requires c.kind == d.kind
    ensures Get(Set(Set(cs, c), d), c.kind) == (if c.status == d.status then Get(Set(cs, c), c.kind) else Some(d))
  {
    SetMeaning(cs, c);
    SetMeaning(Set(cs, c), d);
  }

  lemma {:induction false} SetSkips(before: seq<Condition>, rest: seq<Condition>, c: Condition)
    requires forall i :: 0 <= i < |before| ==> before[i].kind != c.kind
    ensures Set(before + rest, c) == before + Set(rest, c)
  {
    hide Get, Has, Is;
    if before == [] {
      assert before + rest == rest;
    } else {
      SetSkips(before[1..], rest, c);
      assert (before + rest)[1..] == before[1..] + rest;
    }
  }

  lemma {:induction false} DeleteAppends(cs: seq<Condition>, c: Condition, kind: ConditionType)
    ensures Delete(cs + [c], kind) == Delete(cs, kind) + (if c.kind == kind then [] else [c])
  {
    if cs != [] {
      DeleteAppends(cs[1..], c, kind);
      assert (cs + [c])[1..] == cs[1..] + [c];
    }
  }

  /** ConditionedStatus with its slice updated in place. */
  class ConditionedStatus {
    var conditions: seq<Condition>

    constructor (conditions: seq<Condition>)
      ensures this.conditions == conditions
    {
      this.conditions := conditions;
    }

    method SetCondition(kind: ConditionType, status: ConditionStatus, reason: Reason, now: nat)
      modifies this
      ensures conditions == Set(old(conditions), Condition(kind, status, reason, now))
    {
      hide Get, Has, Is;
      var newCondition := Condition(kind, status, reason, now);
      for i := 0 to |conditions|
        invariant conditions == old(conditions)
        invariant forall j :: 0 <= j < i ==> conditions[j].kind != kind
      {
        if conditions[i].kind == kind {
          SetSkips(conditions[..i], conditions[i..], newCondition);
          assert conditions[..i] + conditions[i..] == conditions;
          if conditions[i].status != status {
            assert conditions[i := newCondition] == conditions[..i] + ([newCondition] + conditions[i..][1..]);
            conditions := conditions[i := newCondition];
          }
          return;
        }
      }
      SetSkips(conditions, [], newCondition);
      assert conditions + [] == conditions;
      conditions := conditions + [newCondition];
    }

    method GetCondition(kind: ConditionType) returns (r: Option<Condition>)
      ensures r == Get(conditions, kind)
    {
      for i := 0 to |conditions|
        invariant Get(conditions, kind) == Get(conditions[i..], kind)
      {
        if conditions[i].kind == kind {
          return Some(conditions[i]);
        }
        assert conditions[i..][1..] == conditions[i + 1..];
      }
      return None;
    }

    method DeleteCondition(kind: ConditionType)
      modifies this
      ensures conditions == Delete(old(conditions), kind)
    {
      var kept: seq<Condition> := [];
      for i := 0 to |conditions|
        invariant conditions == old(conditions)
        invariant kept == Delete(conditions[..i], kind)
      {
        DeleteAppends(conditions[..i], conditions[i], kind);
        assert conditions[..i] + [conditions[i]] == conditions[..i + 1];
        if conditions[i].kind != kind {
          kept := kept + [conditions[i]];
        }
      }
      assert conditions[..|conditions|] == conditions;
      conditions := kept;
    }
  }
}
