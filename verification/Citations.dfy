/** Deduplication of citations, first occurrence first. */
module Citations {
  import opened Values

  datatype Citation = Citation(
    chunkId: Option<string>, documentId: Option<string>, snippet: Option<string>, extra: map<string, Value>)

  /** How Python formats an optional string. */
  function Shown(s: Option<string>): string {
    if s.Some? then s.value else "None"
  }

  function CitationKey(c: Citation): string {
    if c.chunkId.Some? && c.chunkId.value != "" then c.chunkId.value
    else Shown(c.documentId) + ":" + Shown(c.snippet)
  }

  ghost function Keys(s: seq<Citation>): set<string> {
    set c | c in s :: CitationKey(c)
  }

  /** The citations whose key is neither in `seen` nor the key of an earlier one. */
  ghost function DedupFrom(s: seq<Citation>, seen: set<string>): seq<Citation> {
    if s == [] then []
    else if CitationKey(s[0]) in seen then DedupFrom(s[1..], seen)
    else [s[0]] + DedupFrom(s[1..], seen + {CitationKey(s[0])})
  }

  ghost function Dedup(s: seq<Citation>): seq<Citation> {
    DedupFrom(s, {})
  }

  lemma KeysSplit(s: seq<Citation>)
    requires s != []
    ensures Keys(s) == {CitationKey(s[0])} + Keys(s[1..])
  {
    assert s == [s[0]] + s[1..];
    forall c | c in s[1..] ensures c in s {}
  }

  lemma {:induction false} DedupConcat(a: seq<Citation>, b: seq<Citation>, seen: set<string>)
    ensures DedupFrom(a + b, seen) == DedupFrom(a, seen) + DedupFrom(b, seen + Keys(a))
  {
    if a == [] {
      assert a + b == b && seen + Keys(a) == seen;
    } else {
      var key := CitationKey(a[0]);
      assert (a + b)[1..] == a[1..] + b;
      KeysSplit(a);
      SetsRegroup(seen, key, Keys(a[1..]));
      if key in seen {
        DedupConcat(a[1..], b, seen);
      } else {
        DedupConcat(a[1..], b, seen + {key});
      }
    }
  }

  lemma SetsRegroup(seen: set<string>, key: string, rest: set<string>)
    ensures seen + ({key} + rest) == seen + {key} + rest
    ensures key in seen ==> seen + ({key} + rest) == seen + rest
  {}

  /** Deduplicating first with fewer known keys changes nothing. */
  lemma {:induction false} DedupTwice(s: seq<Citation>, few: set<string>, many: set<string>)
    requires few <= many
    ensures DedupFrom(DedupFrom(s, few), many) == DedupFrom(s, many)
  {
    if s != [] {
      var key := CitationKey(s[0]);
      if key in few {
        DedupTwice(s[1..], few, many);
      } else {
        var rest := DedupFrom(s[1..], few + {key});
        assert ([s[0]] + rest)[1..] == rest;
        if key in many {
          DedupTwice(s[1..], few + {key}, many);
        } else {
          DedupTwice(s[1..], few + {key}, many + {key});
        }
      }
    }
  }

  lemma {:induction false} DedupKeepsKeys(s: seq<Citation>, seen: set<string>)
    ensures seen + Keys(DedupFrom(s, seen)) == seen + Keys(s)
  {
    if s != [] {
      var key := CitationKey(s[0]);
      KeysSplit(s);
      if key in seen {
        DedupKeepsKeys(s[1..], seen);
      } else {
        DedupKeepsKeys(s[1..], seen + {key});
        var rest := DedupFrom(s[1..], seen + {key});
        KeysSplit([s[0]] + rest);
        assert ([s[0]] + rest)[1..] == rest;
      }
    }
  }

  ghost predicate NoKeyTwice(s: seq<Citation>) {
    forall i, j :: 0 <= i < j < |s| ==> CitationKey(s[i]) != CitationKey(s[j])
  }

  lemma {:induction false} DedupNeverGrows(s: seq<Citation>, seen: set<string>)
    ensures |DedupFrom(s, seen)| <= |s|
  {
    if s != [] {
      DedupNeverGrows(s[1..], if CitationKey(s[0]) in seen then seen else seen + {CitationKey(s[0])});
    }
  }

  /** Nothing is dropped exactly if the keys are new and distinct. */
  lemma {:induction false} DedupFromIsSelfExactlyWhen(s: seq<Citation>, seen: set<string>)
    ensures DedupFrom(s, seen) == s <==> NoKeyTwice(s) && forall i :: 0 <= i < |s| ==> CitationKey(s[i]) !in seen
  {
    if s != [] {
      var key, rest := CitationKey(s[0]), s[1..];
      if key in seen {
        DedupNeverGrows(rest, seen);
      } else {
        DedupFromIsSelfExactlyWhen(rest, seen + {key});
        assert s == [s[0]] + rest;
        assert DedupFrom(s, seen) == s <==> DedupFrom(rest, seen + {key}) == rest by {
          if DedupFrom(s, seen) == s {
            assert DedupFrom(rest, seen + {key}) == DedupFrom(s, seen)[1..];
          }
        }
        assert NoKeyTwice(s) ==> NoKeyTwice(rest);
        TailKeys(s, key, seen);
      }
    }
  }

  /** The keys of a list are new and distinct exactly if the first one is new and the rest are, also to it. */
  lemma TailKeys(s: seq<Citation>, key: string, seen: set<string>)
    requires s != [] && key == CitationKey(s[0]) && key !in seen
    ensures NoKeyTwice(s) && (forall i :: 0 <= i < |s| ==> CitationKey(s[i]) !in seen) <==>
            NoKeyTwice(s[1..]) && (forall i :: 0 <= i < |s[1..]| ==> CitationKey(s[1..][i]) !in seen + {key})
  {
    var rest := s[1..];
    if NoKeyTwice(rest) && (forall i :: 0 <= i < |rest| ==> CitationKey(rest[i]) !in seen + {key}) {
      forall i, j | 0 <= i < j < |s| ensures CitationKey(s[i]) != CitationKey(s[j]) {
        assert s[j] == rest[j - 1];
        assert i > 0 ==> s[i] == rest[i - 1];
      }
      forall i | 0 <= i < |s| ensures CitationKey(s[i]) !in seen {
        assert i > 0 ==> s[i] == rest[i - 1];
      }
    }
  }

  /** Merging a list changes nothing exactly if no key occurs in it twice. */
  lemma DedupIsSelfExactlyWhen(s: seq<Citation>)
    ensures Dedup(s) == s <==> NoKeyTwice(s)
  {
    DedupFromIsSelfExactlyWhen(s, {});
  }

  /** Merging again changes nothing: no key is left twice. */
  lemma DedupIdempotent(s: seq<Citation>)
    ensures Dedup(Dedup(s)) == Dedup(s) && NoKeyTwice(Dedup(s))
  {
    DedupTwice(s, {}, {});
    DedupIsSelfExactlyWhen(Dedup(s));
  }

  lemma PairMerges(c: Citation)
    ensures Dedup([c, c]) == [c]
  {
    var none: set<string> := {};
    assert [c, c][1..] == [c] && [c][1..] == [];
    assert DedupFrom([c], none + {CitationKey(c)}) == DedupFrom([], none + {CitationKey(c)});
    assert DedupFrom([c, c], none) == [c] + DedupFrom([c], none + {CitationKey(c)});
  }

  lemma MergedKeys(s: seq<Citation>)
    ensures NoKeyTwice(Dedup(s)) && Keys(Dedup(s)) == Keys(s)
  {
    DedupIdempotent(s);
    DedupKeepsKeys(s, {});
    var none: set<string> := {};
    assert none + Keys(s) == Keys(s) && none + Keys(Dedup(s)) == Keys(Dedup(s));
  }

  lemma DedupParts(a: seq<Citation>, b: seq<Citation>)
    ensures Dedup(Dedup(a) + Dedup(b)) == Dedup(a + b)
    ensures Dedup(a + Dedup(b)) == Dedup(a + b)
  {
    var none: set<string> := {};
    assert none + Keys(a) == Keys(a) && none + Keys(Dedup(a)) == Keys(Dedup(a));
    DedupConcat(a, b, {});
    DedupConcat(Dedup(a), Dedup(b), {});
    DedupConcat(a, Dedup(b), {});
    DedupIdempotent(a);
    DedupKeepsKeys(a, {});
    DedupTwice(b, {}, Keys(a));
  }

  ghost function DedupEach(groups: seq<seq<Citation>>): seq<seq<Citation>> {
    seq(|groups|, i requires 0 <= i < |groups| => Dedup(groups[i]))
  }

  /** Merging what was merged group by group equals merging everything at once. */
  lemma {:induction false} MergingMergedGroups(groups: seq<seq<Citation>>)
    ensures Dedup(Flatten(DedupEach(groups))) == Dedup(Flatten(groups))
  {
    if groups == [] {
      assert DedupEach(groups) == [];
    } else {
      var n := |groups| - 1;
      var front, last := Flatten(groups[..n]), groups[n];
      var deduped := Flatten(DedupEach(groups)[..n]);
      assert DedupEach(groups)[..n] == DedupEach(groups[..n]);
      MergingMergedGroups(groups[..n]);
      DedupParts(front, last);
      DedupParts(deduped, last);
      DedupParts(deduped, Dedup(last));
      DedupIdempotent(last);
    }
  }

  /** Nothing before position `i` has the same key. */
  ghost predicate FirstAt(s: seq<Citation>, i: nat) {
    i < |s| && forall j :: 0 <= j < i ==> CitationKey(s[j]) != CitationKey(s[i])
  }

  /** The positions that survive, counted from `from`. */
  ghost predicate Positions(s: seq<Citation>, seen: set<string>, at: seq<nat>) {
    && (forall k :: 0 <= k < |at| ==> at[k] < |s|)
    && (forall k, l :: 0 <= k < l < |at| ==> at[k] < at[l])
    && (forall i :: 0 <= i < |s| ==> (i in at <==> CitationKey(s[i]) !in seen && FirstAt(s, i)))
  }

  /** `r` lists the citations of `s` at these positions. */
  ghost predicate Picks(r: seq<Citation>, s: seq<Citation>, at: seq<nat>) {
    |r| == |at| && forall k :: 0 <= k < |at| ==> at[k] < |s| && r[k] == s[at[k]]
  }

  /** What deduplication keeps: exactly the first citation of each key, in the order of the input. */
  lemma {:induction false} DedupKeepsFirsts(s: seq<Citation>, seen: set<string>) returns (at: seq<nat>)
    ensures Positions(s, seen, at)
    ensures Picks(DedupFrom(s, seen), s, at)
  {
    if s == [] {
      return [];
    }
    var key, rest := CitationKey(s[0]), s[1..];
    var later := DedupKeepsFirsts(rest, if key !in seen then seen + {key} else seen);
    var shifted: seq<nat> := seq(|later|, k requires 0 <= k < |later| => later[k] + 1);
    at := if key !in seen then [0] + shifted else shifted;
    PositionsStep(s, seen, later, shifted, at);
    PicksStep(DedupFrom(rest, if key !in seen then seen + {key} else seen), s, later, shifted);
  }

  lemma PicksStep(r: seq<Citation>, s: seq<Citation>, later: seq<nat>, shifted: seq<nat>)
    requires s != [] && Picks(r, s[1..], later)
    requires |shifted| == |later| && forall k :: 0 <= k < |later| ==> shifted[k] == later[k] + 1
    ensures Picks(r, s, shifted) && Picks([s[0]] + r, s, [0] + shifted)
  {}

  lemma PositionsStep(s: seq<Citation>, seen: set<string>, later: seq<nat>, shifted: seq<nat>, at: seq<nat>)
    requires s != []
    requires |shifted| == |later| && forall k :: 0 <= k < |later| ==> shifted[k] == later[k] + 1
    requires var key := CitationKey(s[0]);
             at == (if key !in seen then [0] + shifted else shifted) &&
             Positions(s[1..], if key !in seen then seen + {key} else seen, later)
    ensures Positions(s, seen, at)
  {
    forall i | 0 <= i < |s| ensures i in at <==> CitationKey(s[i]) !in seen && FirstAt(s, i) {
      PositionStep(s, seen, later, shifted, at, i);
    }
  }

  lemma PositionStep(s: seq<Citation>, seen: set<string>, later: seq<nat>, shifted: seq<nat>, at: seq<nat>, i: nat)
    requires i < |s|
    requires |shifted| == |later| && forall k :: 0 <= k < |later| ==> shifted[k] == later[k] + 1
    requires var key := CitationKey(s[0]);
             at == (if key !in seen then [0] + shifted else shifted) &&
             Positions(s[1..], if key !in seen then seen + {key} else seen, later)
    ensures i in at <==> CitationKey(s[i]) !in seen && FirstAt(s, i)
  {
    FirstInTail(s, i);
    ShiftedMember(later, shifted, i);
    if CitationKey(s[0]) !in seen {
      assert at[0] == 0;
      assert i in at <==> i == 0 || i in shifted;
    }
    if i > 0 {
      assert s[1..][i - 1] == s[i];
    }
  }

  lemma ShiftedMember(later: seq<nat>, shifted: seq<nat>, i: nat)
    requires |shifted| == |later| && forall k :: 0 <= k < |later| ==> shifted[k] == later[k] + 1
    ensures i in shifted <==> i > 0 && i - 1 in later
  {
    if i > 0 && i - 1 in later {
      var k :| 0 <= k < |later| && later[k] == i - 1;
      assert shifted[k] == i;
    }
  }

  lemma FirstInTail(s: seq<Citation>, i: nat)
    requires i < |s|
    ensures i > 0 ==> (FirstAt(s, i) <==> CitationKey(s[0]) != CitationKey(s[i]) && FirstAt(s[1..], i - 1))
    ensures i == 0 ==> FirstAt(s, i)
  {
    if i > 0 && CitationKey(s[0]) != CitationKey(s[i]) && FirstAt(s[1..], i - 1) {
      forall j | 0 <= j < i ensures CitationKey(s[j]) != CitationKey(s[i]) {
        assert j > 0 ==> s[j] == s[1..][j - 1];
      }
    }
    if i > 0 && FirstAt(s, i) {
      forall j | 0 <= j < i - 1 ensures CitationKey(s[1..][j]) != CitationKey(s[i]) {
        assert s[1..][j] == s[j + 1];
      }
    }
  }

  /** One more citation for the dictionary of those kept so far. */
  lemma DedupOneMore(front: seq<Citation>, c: Citation)
    ensures Dedup(front + [c]) == Dedup(front) + (if CitationKey(c) in Keys(front) then [] else [c])
    ensures Keys(front + [c]) == Keys(front) + {CitationKey(c)}
  {
    var none: set<string> := {};
    DedupConcat(front, [c], none);
    assert none + Keys(front) == Keys(front);
    assert [c][1..] == [];
  }

  /** `_merge_citations`: nested loops over an insertion-ordered dictionary. */
  method MergeCitations(groups: seq<seq<Citation>>) returns (merged: seq<Citation>)
    ensures merged == Dedup(Flatten(groups))
  {
    merged := [];
    var seen: set<string> := {};
    for i := 0 to |groups|
      invariant merged == Dedup(Flatten(groups[..i])) && seen == Keys(Flatten(groups[..i]))
    {
      ghost var before := Flatten(groups[..i]);
      assert before + groups[i][..0] == before;
      for j := 0 to |groups[i]|
        invariant merged == Dedup(before + groups[i][..j]) && seen == Keys(before + groups[i][..j])
      {
        var c := groups[i][j];
        DedupOneMore(before + groups[i][..j], c);
        assert before + groups[i][..j] + [c] == before + groups[i][..j + 1];
        if CitationKey(c) !in seen {
          merged := merged + [c];
          seen := seen + {CitationKey(c)};
        }
      }
      assert groups[i][..|groups[i]|] == groups[i];
      assert groups[..i + 1][..i] == groups[..i];
    }
    assert groups[..|groups|] == groups;
  }
}
