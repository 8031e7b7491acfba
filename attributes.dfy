/** The attribute diff of `updateEntityAttributes` (OpenAIController.js:262-288) as functions
    on an entity's attribute map: which keys are written and what the map becomes. */
module Attributes {
  import opened Values
  import opened Keys

  type Attributes = map<string, Value>

  /** One property of the attribute object, in the object's iteration order: the raw key
      (still carrying the `_ns_` placeholder) and the desired value. */
  type Update = (string, Value)

  /** True when the loop body calls `setAttribute` for `u` on `attrs`: the value is not the
      sentinel and differs from the stored one. */
  predicate Writes(attrs: Attributes, u: Update) {
    !Ignored(u.1) && !Unchanged(Get(attrs, ReplaceNs(u.0)), u.1)
  }

  /** One iteration of the loop at OpenAIController.js:267-284. */
  function Step(attrs: Attributes, u: Update): Attributes {
    if Writes(attrs, u) then attrs[ReplaceNs(u.0) := u.1] else attrs
  }

  /** The attributes after the whole loop over `us`. */
  function Apply(attrs: Attributes, us: seq<Update>): Attributes
    decreases |us|
  {
    if us == [] then attrs else Step(Apply(attrs, us[..|us| - 1]), us[|us| - 1])
  }

  /** The rewritten keys passed to `setAttribute`, in call order. */
  function Written(attrs: Attributes, us: seq<Update>): seq<string>
    decreases |us|
  {
    if us == [] then []
    else
      var p, u := us[..|us| - 1], us[|us| - 1];
      Written(attrs, p) + (if Writes(Apply(attrs, p), u) then [ReplaceNs(u.0)] else [])
  }

  /** The rewritten keys that `us` talks about. */
  function Targets(us: seq<Update>): set<string> {
    set i | 0 <= i < |us| :: ReplaceNs(us[i].0)
  }

  /** No two properties rewrite to the same key (true of every attribute object the
      controller builds). */
  predicate DistinctTargets(us: seq<Update>) {
    forall i, j :: 0 <= i < j < |us| ==> ReplaceNs(us[i].0) != ReplaceNs(us[j].0)
  }

  lemma TargetsOfPrefix(us: seq<Update>)
    requires us != []
    ensures Targets(us) == Targets(us[..|us| - 1]) + {ReplaceNs(us[|us| - 1].0)}
  {
    var p := us[..|us| - 1];
    forall k | k in Targets(us) ensures k in Targets(p) + {ReplaceNs(us[|us| - 1].0)} {
      var i :| 0 <= i < |us| && ReplaceNs(us[i].0) == k;
      if i < |p| {
        assert p[i] == us[i];
      }
    }
    forall k | k in Targets(p) ensures k in Targets(us) {
      var i :| 0 <= i < |p| && ReplaceNs(p[i].0) == k;
      assert us[i] == p[i];
    }
  }

  /** Keys the update list does not talk about keep their presence and their value. */
  lemma {:induction false} ApplyFrame(attrs: Attributes, us: seq<Update>, k: string)
    requires k !in Targets(us)
    ensures k in Apply(attrs, us) <==> k in attrs
    ensures Get(Apply(attrs, us), k) == Get(attrs, k)
    decreases |us|
  {
    if us != [] {
      TargetsOfPrefix(us);
      ApplyFrame(attrs, us[..|us| - 1], k);
    }
  }

  /** Only keys the update list talks about can be written. */
  lemma {:induction false} WrittenWithinTargets(attrs: Attributes, us: seq<Update>)
    ensures forall k :: k in Written(attrs, us) ==> k in Targets(us)
    decreases |us|
  {
    if us != [] {
      TargetsOfPrefix(us);
      WrittenWithinTargets(attrs, us[..|us| - 1]);
    }
  }

  /** With distinct targets, no earlier property talks about the i-th property's key. */
  lemma FreshTarget(us: seq<Update>, i: int)
    requires DistinctTargets(us) && 0 <= i < |us|
    ensures ReplaceNs(us[i].0) !in Targets(us[..i])
  {
    var p := us[..i];
    forall j | 0 <= j < |p| ensures ReplaceNs(p[j].0) != ReplaceNs(us[i].0) {
      assert p[j] == us[j];
    }
  }

  /** With distinct targets, the i-th property meets the stored value of its key. */
  lemma SeenAtStep(attrs: Attributes, us: seq<Update>, i: int)
    requires DistinctTargets(us) && 0 <= i < |us|
    ensures Get(Apply(attrs, us[..i]), ReplaceNs(us[i].0)) == Get(attrs, ReplaceNs(us[i].0))
  {
    FreshTarget(us, i);
    ApplyFrame(attrs, us[..i], ReplaceNs(us[i].0));
  }

  lemma DistinctPrefix(us: seq<Update>, n: int)
    requires DistinctTargets(us) && 0 <= n <= |us|
    ensures DistinctTargets(us[..n])
  {
    var p := us[..n];
    forall i, j | 0 <= i < j < |p| ensures ReplaceNs(p[i].0) != ReplaceNs(p[j].0) {
      assert p[i] == us[i] && p[j] == us[j];
    }
  }

  /** After the loop every non-ignored key holds its desired value, up to the loose
      equality of `null` and `undefined`; an ignored key keeps its stored value. */
  lemma {:induction false} ApplyEffect(attrs: Attributes, us: seq<Update>, i: int)
    requires DistinctTargets(us) && 0 <= i < |us|
    ensures !Ignored(us[i].1) ==> Unchanged(Get(Apply(attrs, us), ReplaceNs(us[i].0)), us[i].1)
    ensures Ignored(us[i].1) ==> Get(Apply(attrs, us), ReplaceNs(us[i].0)) == Get(attrs, ReplaceNs(us[i].0))
    decreases |us|
  {
    var n := |us| - 1;
    var p, u := us[..n], us[n];
    var key := ReplaceNs(us[i].0);
    DistinctPrefix(us, n);
    if i == n {
      assert p == us[..i];
      SeenAtStep(attrs, us, i);
    } else {
      assert p[i] == us[i];
      ApplyEffect(attrs, p, i);
      assert ReplaceNs(u.0) != key;
    }
  }

  /** `setAttribute` is called for a key exactly when its new value is not the sentinel and
      differs from the value stored before the loop. */
  lemma {:induction false} WrittenExactly(attrs: Attributes, us: seq<Update>)
    requires DistinctTargets(us)
    ensures forall i :: 0 <= i < |us| ==> (ReplaceNs(us[i].0) in Written(attrs, us) <==> Writes(attrs, us[i]))
    ensures forall k :: k in Written(attrs, us) ==> k in Targets(us)
    decreases |us|
  {
    WrittenWithinTargets(attrs, us);
    if us != [] {
      var n := |us| - 1;
      var p, u := us[..n], us[n];
      DistinctPrefix(us, n);
      WrittenExactly(attrs, p);
      WrittenWithinTargets(attrs, p);
      assert p == us[..n];
      SeenAtStep(attrs, us, n);
      forall i | 0 <= i < |us|
        ensures ReplaceNs(us[i].0) in Written(attrs, us) <==> Writes(attrs, us[i])
      {
        if i < n {
          assert p[i] == us[i];
          assert ReplaceNs(us[i].0) != ReplaceNs(u.0);
        } else {
          FreshTarget(us, n);
        }
      }
    }
  }

  /** A list none of whose properties would write leaves the attributes as they are. */
  lemma {:induction false} NothingToWrite(attrs: Attributes, us: seq<Update>)
    requires forall i :: 0 <= i < |us| ==> !Writes(attrs, us[i])
    ensures Apply(attrs, us) == attrs
    ensures Written(attrs, us) == []
    decreases |us|
  {
    if us != [] {
      var p := us[..|us| - 1];
      assert forall i :: 0 <= i < |p| ==> p[i] == us[i];
      NothingToWrite(attrs, p);
    }
  }

  /** Applying the same attribute object twice writes nothing the second time. */
  lemma ApplyIdempotent(attrs: Attributes, us: seq<Update>)
    requires DistinctTargets(us)
    ensures Apply(Apply(attrs, us), us) == Apply(attrs, us)
    ensures Written(Apply(attrs, us), us) == []
  {
    var b := Apply(attrs, us);
    forall i | 0 <= i < |us| ensures !Writes(b, us[i]) {
      ApplyEffect(attrs, us, i);
      UnchangedReflexiveSymmetric(Get(b, ReplaceNs(us[i].0)), us[i].1);
    }
    NothingToWrite(b, us);
  }
}
