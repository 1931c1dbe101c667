/** The scratchpad delta: documented as deep-merged, merged key by key. */
module ScratchpadMerge {
  import opened Values
  import opened GraphEngine

  /** A deep merge: where both sides hold an object the two are merged in turn, elsewhere the new value wins. */
  ghost function DeepMerge(old_: Value, new_: Value): Value
    decreases new_
  {
    if !old_.Dict? || !new_.Dict? then new_
    else
      var a, b := old_.entries, new_.entries;
      Dict(map k | k in a.Keys + b.Keys ::
        if k !in b then a[k] else if k !in a then b[k] else DeepMerge(a[k], b[k]))
  }

  /** The new value has every path of the old one: wherever both hold an object, each key of the old one is in the
      new one, and so on below it. */
  ghost predicate KeepsPaths(old_: Value, new_: Value)
    decreases new_
  {
    old_.Dict? && new_.Dict? ==>
      forall k :: k in old_.entries ==> k in new_.entries && KeepsPaths(old_.entries[k], new_.entries[k])
  }

  /** Merging deeply into a value gives back the new value exactly if it lost no path. */
  lemma {:induction false} DeepMergeIsNewExactlyWhen(old_: Value, new_: Value)
    ensures DeepMerge(old_, new_) == new_ <==> KeepsPaths(old_, new_)
    decreases new_
  {
    if old_.Dict? && new_.Dict? {
      var a, b, merged := old_.entries, new_.entries, DeepMerge(old_, new_).entries;
      forall k | k in a && k in b ensures merged[k] == b[k] <==> KeepsPaths(a[k], b[k]) {
        DeepMergeIsNewExactlyWhen(a[k], b[k]);
      }
      if KeepsPaths(old_, new_) {
        assert merged == b;
      }
      if merged == b {
        forall k | k in a ensures k in b && KeepsPaths(a[k], b[k]) {
          assert k in merged;
        }
      }
    }
  }

  /** What the documentation says a scratchpad delta does. */
  ghost function DocumentedScratchpad(s: GraphState, m: map<string, Value>): map<string, Value> {
    DeepMerge(Dict(s.scratchpad), Dict(m)).entries
  }

  /** Every key in which both sides hold an object keeps all its paths. */
  ghost predicate KeepsScratchpadPaths(s: GraphState, m: map<string, Value>) {
    forall k :: k in s.scratchpad && k in m ==> KeepsPaths(s.scratchpad[k], m[k])
  }

  /** The shallow merge is the deep one exactly if no object that is written over another loses a path of it. */
  lemma ShallowIsDeepExactlyWhen(s: GraphState, m: map<string, Value>)
    ensures s.scratchpad + m == DocumentedScratchpad(s, m) <==> KeepsScratchpadPaths(s, m)
  {
    var a, deep := s.scratchpad, DocumentedScratchpad(s, m);
    forall k | k in a && k in m ensures deep[k] == m[k] <==> KeepsPaths(a[k], m[k]) {
      DeepMergeIsNewExactlyWhen(a[k], m[k]);
    }
    if KeepsScratchpadPaths(s, m) {
      assert a + m == deep;
    }
    if a + m == deep {
      forall k | k in a && k in m ensures KeepsPaths(a[k], m[k]) {
        assert (a + m)[k] == m[k];
      }
    }
  }

  /** What the engine does with a delta that writes to the scratchpad, whatever else it writes. */
  lemma DeltaMergesDeeplyExactlyWhen(s: GraphState, d: Delta, m: map<string, Value>)
    requires ApplyDelta(s, d).Applied? && (Scratchpad, Dict(m)) in d
    ensures ApplyDelta(s, d).state.scratchpad == DocumentedScratchpad(s, m) <==> KeepsScratchpadPaths(s, m)
  {
    var i :| 0 <= i < |d| && d[i] == (Scratchpad, Dict(m));
    assert AsMap(d)[Scratchpad] == Dict(m);
    ShallowIsDeepExactlyWhen(s, m);
  }

  /** A delta that sets one key of a nested object drops the other. */
  lemma NestedKeyIsLost(s: GraphState, d: Delta)
    requires s.scratchpad == map["plan" := Dict(map["tool" := Str("policy_search"), "thought" := Str("look it up")])]
    requires d == [(Scratchpad, Dict(map["plan" := Dict(map["tool" := Str("call_agent")])]))]
    ensures ApplyDelta(s, d).Applied?
    ensures ApplyDelta(s, d).state.scratchpad == map["plan" := Dict(map["tool" := Str("call_agent")])]
    ensures ApplyDelta(s, d).state.scratchpad != DocumentedScratchpad(s, d[0].1.entries)
  {
    var m := map["plan" := Dict(map["tool" := Str("call_agent")])];
    var a, b := s.scratchpad["plan"], m["plan"];
    assert (Scratchpad, Dict(m)) in d && AsMap(d)[Scratchpad] == Dict(m);
    assert WellFormed(d);
    assert "thought" in a.entries && "thought" !in b.entries;
    assert !KeepsPaths(a, b);
    DeltaMergesDeeplyExactlyWhen(s, d, m);
  }
}
