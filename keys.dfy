/** The namespace rewrite `s.replace(/_ns_/g, ns)` applied to attribute keys and to the
    primary-attribute name (OpenAIController.js:251, 273). */
module Keys {

  /** The controller's attribute namespace. */
  const NS: string := "x_openai"

  /** The placeholder that the controller's attribute tables write for the namespace. */
  const PLACEHOLDER: string := "_ns_"

  /** The keys of a model entity's attribute table, `_ns_.model` and `_ns_.service`. */
  const MODEL_KEY: string := PLACEHOLDER + ".model"
  const SERVICE_KEY: string := PLACEHOLDER + ".service"

  /** The attributes `${ns}.model` and `${ns}.service` they are stored under. */
  const MODEL_ATTR: string := NS + ".model"
  const SERVICE_ATTR: string := NS + ".service"

  /** The attribute `${ns}model` that the request builder reads the model from. */
  const LEGACY_MODEL_ATTR: string := NS + "model"

  /** True when the placeholder occurs in `s` at position `i`. */
  predicate PlaceholderAt(s: string, i: int) {
    0 <= i && i + 4 <= |s| && s[i] == '_' && s[i + 1] == 'n' && s[i + 2] == 's' && s[i + 3] == '_'
  }

  predicate StartsWithPlaceholder(s: string) {
    PlaceholderAt(s, 0)
  }

  predicate ContainsPlaceholder(s: string) {
    exists i | 0 <= i <= |s| :: PlaceholderAt(s, i)
  }

  /** A global regular-expression replace: the leftmost occurrence is replaced and the scan
      resumes after it, so occurrences never overlap. */
  function ReplaceNs(s: string): string
    decreases |s|
  {
    if StartsWithPlaceholder(s) then NS + ReplaceNs(s[4..])
    else if s == [] then []
    else [s[0]] + ReplaceNs(s[1..])
  }

  /** The first character of the rewritten string. */
  lemma HeadOfReplaceNs(s: string)
    ensures |ReplaceNs(s)| == 0 <==> s == []
    ensures |ReplaceNs(s)| > 0 ==>
      ReplaceNs(s)[0] == if StartsWithPlaceholder(s) then 'x' else s[0]
  {
  }

  /** A string without the placeholder is left as it is. */
  lemma {:induction false} ReplaceNsIdentity(s: string)
    requires !ContainsPlaceholder(s)
    ensures ReplaceNs(s) == s
    decreases |s|
  {
    if s != [] {
      var t := s[1..];
      forall i | 0 <= i <= |t| ensures !PlaceholderAt(t, i) {
        assert !PlaceholderAt(s, i + 1);
      }
      ReplaceNsIdentity(t);
    }
  }

  /** Every placeholder is replaced: the rewritten string contains none, whatever the input. */
  lemma {:induction false} ReplaceNsComplete(s: string)
    ensures !ContainsPlaceholder(ReplaceNs(s))
    decreases |s|
  {
    var r := ReplaceNs(s);
    if StartsWithPlaceholder(s) {
      var t := ReplaceNs(s[4..]);
      ReplaceNsComplete(s[4..]);
      assert r == NS + t;
      forall i | 0 <= i <= |r| ensures !PlaceholderAt(r, i) {
        if i >= 8 {
          assert !PlaceholderAt(t, i - 8);
        }
      }
    } else if s != [] {
      var t := ReplaceNs(s[1..]);
      ReplaceNsComplete(s[1..]);
      assert r == [s[0]] + t;
      forall i | 0 <= i <= |r| ensures !PlaceholderAt(r, i) {
        if i >= 1 {
          assert !PlaceholderAt(t, i - 1);
        } else {
          NoPlaceholderAcrossHead(s);
        }
      }
    }
  }

  /** How the rewritten string starts when its first character was copied. */
  lemma CopiedHead(s: string)
    requires |ReplaceNs(s)| > 0 && ReplaceNs(s)[0] != 'x'
    ensures s != [] && !StartsWithPlaceholder(s)
    ensures ReplaceNs(s)[0] == s[0] && ReplaceNs(s)[1..] == ReplaceNs(s[1..])
  {
  }

  /** Helper for ReplaceNsComplete: a copied first character cannot start a new placeholder. */
  lemma NoPlaceholderAcrossHead(s: string)
    requires s != [] && !StartsWithPlaceholder(s)
    ensures !PlaceholderAt(ReplaceNs(s), 0)
  {
    var u := s[1..];
    assert ReplaceNs(s)[1..] == ReplaceNs(u);
    if |ReplaceNs(u)| >= 3 && ReplaceNs(u)[0] == 'n' {
      CopiedHead(u);
      var v := u[1..];
      if ReplaceNs(v)[0] == 's' {
        CopiedHead(v);
        var w := v[1..];
        if ReplaceNs(w)[0] == '_' {
          CopiedHead(w);
        }
      }
    }
  }

  /** A leading placeholder becomes the namespace and the rest is rewritten on its own. */
  lemma LeadingPlaceholder(rest: string)
    ensures ReplaceNs(PLACEHOLDER + rest) == NS + ReplaceNs(rest)
  {
    var key := PLACEHOLDER + rest;
    assert StartsWithPlaceholder(key);
    assert key[4..] == rest;
  }

  /** The keys the controller writes for a model entity. */
  lemma ModelKey()
    ensures ReplaceNs(MODEL_KEY) == MODEL_ATTR
  {
    NamespacedKey(".model");
  }

  lemma ServiceKey()
    ensures ReplaceNs(SERVICE_KEY) == SERVICE_ATTR
  {
    NamespacedKey(".service");
  }

  /** The attribute read for the model is neither of the two attributes written. */
  lemma LegacyModelAttrDiffers()
    ensures LEGACY_MODEL_ATTR != MODEL_ATTR && LEGACY_MODEL_ATTR != SERVICE_ATTR
    ensures MODEL_ATTR != SERVICE_ATTR
  {
    assert LEGACY_MODEL_ATTR[8] == 'm' && MODEL_ATTR[8] == '.' && SERVICE_ATTR[8] == '.';
    assert MODEL_ATTR[9] == 'm' && SERVICE_ATTR[9] == 's';
  }

  /** A key made of the placeholder and an underscore-free rest. */
  lemma NamespacedKey(rest: string)
    requires forall i :: 0 <= i < |rest| ==> rest[i] != '_'
    ensures ReplaceNs(PLACEHOLDER + rest) == NS + rest
  {
    LeadingPlaceholder(rest);
    NoUnderscore(rest);
  }

  lemma SystemStateKey()
    ensures ReplaceNs("sys_system.state") == "sys_system.state"
  {
    var st := "sys_system.state";
    forall i | 0 <= i <= |st| ensures !PlaceholderAt(st, i) {
      if i != 3 {
        assert i + 4 <= |st| ==> st[i] != '_';
      }
    }
    ReplaceNsIdentity(st);
  }

  lemma NoUnderscore(s: string)
    requires forall i :: 0 <= i < |s| ==> s[i] != '_'
    ensures ReplaceNs(s) == s
  {
    assert !ContainsPlaceholder(s);
    ReplaceNsIdentity(s);
  }
}
