/** The chat history: completed turns paired out of message rows. */
module ChatHistory {
  import opened Values
  import opened Text

  datatype Row = Row(role: string, content: string)

  datatype Turn = Turn(user: string, assistant: string)

  const USER := "user"
  const ASSISTANT := "assistant"

  function RoleOf(r: Row): string {
    Lower(Strip(r.role))
  }

  predicate Speaks(r: Row, role: string) {
    RoleOf(r) == role && Strip(r.content) != ""
  }

  /** The turns completed so far and the user message that still waits for its answer. */
  datatype Pairing = Pairing(turns: seq<Turn>, pending: Option<string>)

  ghost function Pair(rows: seq<Row>): Pairing {
    if rows == [] then Pairing([], None)
    else
      var before, r := Pair(rows[..|rows| - 1]), rows[|rows| - 1];
      if Speaks(r, USER) then before.(pending := Some(Strip(r.content)))
      else if Speaks(r, ASSISTANT) && before.pending.Some? then
        Pairing(before.turns + [Turn(before.pending.value, Strip(r.content))], None)
      else before
  }

  ghost function Window(turns: seq<Turn>, maxTurns: int): seq<Turn> {
    if maxTurns <= 0 then [] else if |turns| > maxTurns then turns[|turns| - maxTurns..] else turns
  }

  /** `load_recent_turns` on the rows of the session, oldest first. */
  method LoadRecentTurns(rows: seq<Row>, hasSession: bool, maxTurns: int) returns (turns: seq<Turn>)
    ensures turns == if hasSession then Window(Pair(rows).turns, maxTurns) else []
  {
    if !hasSession || maxTurns <= 0 {
      return [];
    }
    turns := [];
    var pendingUser: Option<string> := None;
    for i := 0 to |rows|
      invariant Pairing(turns, pendingUser) == Pair(rows[..i])
    {
      assert rows[..i + 1][..i] == rows[..i];
      var role, content := RoleOf(rows[i]), Strip(rows[i].content);
      if content == "" {
        continue;
      }
      if role == USER {
        pendingUser := Some(content);
      } else if role == ASSISTANT && pendingUser.Some? {
        turns := turns + [Turn(pendingUser.value, content)];
        pendingUser := None;
      }
    }
    assert rows[..|rows|] == rows;
    if |turns| > maxTurns {
      turns := turns[|turns| - maxTurns..];
    }
  }

  ghost function Messages(turns: seq<Turn>): seq<Row> {
    if turns == [] then []
    else
      var t := turns[|turns| - 1];
      Messages(turns[..|turns| - 1]) + [Row(USER, t.user), Row(ASSISTANT, t.assistant)]
  }

  /** `turns_to_messages`. */
  method TurnsToMessages(turns: seq<Turn>) returns (messages: seq<Row>)
    ensures messages == Messages(turns)
  {
    messages := [];
    for i := 0 to |turns|
      invariant messages == Messages(turns[..i])
    {
      assert turns[..i + 1][..i] == turns[..i];
      messages := messages + [Row(USER, turns[i].user), Row(ASSISTANT, turns[i].assistant)];
    }
    assert turns[..|turns|] == turns;
  }

  // ----- which rows are paired

  predicate Voiced(r: Row) {
    Speaks(r, USER) || Speaks(r, ASSISTANT)
  }

  /** No non-blank row of the user or the assistant from `from` up to `to`. */
  ghost predicate Silent(rows: seq<Row>, from: nat, to: nat)
    requires to <= |rows|
  {
    forall k :: from <= k < to ==> !Voiced(rows[k])
  }

  /** Row `i` is the user's, row `j` the assistant's answer to it, and nobody speaks between. */
  ghost predicate Exchange(rows: seq<Row>, i: nat, j: nat) {
    i < j < |rows| && Speaks(rows[i], USER) && Speaks(rows[j], ASSISTANT) && Silent(rows, i + 1, j)
  }

  /** Row `i` is the user's and nobody has spoken since. */
  ghost predicate Waiting(rows: seq<Row>, i: nat) {
    i < |rows| && Speaks(rows[i], USER) && Silent(rows, i + 1, |rows|)
  }

  datatype Places = Places(pairs: seq<(nat, nat)>, waiting: Option<nat>)

  /** The turn made of rows `at.0` and `at.1`. */
  function TurnAt(rows: seq<Row>, at: (nat, nat)): Turn
    requires at.0 < |rows| && at.1 < |rows|
  {
    Turn(Strip(rows[at.0].content), Strip(rows[at.1].content))
  }

  /** `pairs` are the places of the turns: exactly the exchanges of `rows`, in order and without overlap. */
  ghost predicate PairsAt(rows: seq<Row>, turns: seq<Turn>, pairs: seq<(nat, nat)>) {
    && |pairs| == |turns|
    && (forall k :: 0 <= k < |pairs| ==> Exchange(rows, pairs[k].0, pairs[k].1) && turns[k] == TurnAt(rows, pairs[k]))
    && (forall k, l :: 0 <= k < l < |pairs| ==> pairs[k].1 < pairs[l].0)
    && (forall i: nat, j: nat :: Exchange(rows, i, j) ==> (i, j) in pairs)
  }

  /** The pending message is that of the one user row nobody has spoken after, if there is one. */
  ghost predicate WaitsAt(rows: seq<Row>, pending: Option<string>, waiting: Option<nat>) {
    match waiting
    case Some(i) => Waiting(rows, i) && pending == Some(Strip(rows[i].content))
    case None => pending.None? && forall i: nat :: !Waiting(rows, i)
  }

  ghost predicate Located(rows: seq<Row>, p: Places) {
    PairsAt(rows, Pair(rows).turns, p.pairs) && WaitsAt(rows, Pair(rows).pending, p.waiting)
  }

  lemma RolesDiffer(r: Row)
    ensures !(Speaks(r, USER) && Speaks(r, ASSISTANT))
  {
    assert |USER| != |ASSISTANT|;
  }

  /** The turns made are those of exactly the exchanges, in the order of the rows. */
  lemma {:induction false} PairsExactlyTheExchanges(rows: seq<Row>) returns (p: Places)
    ensures Located(rows, p)
  {
    if rows == [] {
      return Places([], None);
    }
    var n := |rows| - 1;
    var front, r := rows[..n], rows[n];
    p := PairsExactlyTheExchanges(front);
    RolesDiffer(r);
    assert rows == front + [r];
    var before := Pair(front);
    PairOneMore(front, r);
    if Speaks(r, USER) {
      PairsStay(front, r, before.turns, p.pairs);
      UserWaits(front, r);
      p := Places(p.pairs, Some(n));
    } else if Speaks(r, ASSISTANT) && p.waiting.Some? {
      PairsGrow(front, r, before, p);
      NobodyWaits(front, r);
      p := Places(p.pairs + [(p.waiting.value, n)], None);
    } else {
      PairsStay(front, r, before.turns, p.pairs);
      WaitingStays(front, r, before.pending, p.waiting);
    }
  }

  lemma PairOneMore(front: seq<Row>, r: Row)
    ensures var before, after := Pair(front), Pair(front + [r]);
            after == if Speaks(r, USER) then before.(pending := Some(Strip(r.content)))
                     else if Speaks(r, ASSISTANT) && before.pending.Some? then
                       Pairing(before.turns + [Turn(before.pending.value, Strip(r.content))], None)
                     else before
  {
    assert (front + [r])[..|front|] == front;
  }

  lemma SilenceOf(front: seq<Row>, r: Row, from: nat, to: nat)
    requires to <= |front|
    ensures Silent(front + [r], from, to) <==> Silent(front, from, to)
  {
    var rows := front + [r];
    assert forall k :: 0 <= k < |front| ==> rows[k] == front[k];
    if Silent(rows, from, to) {
      forall k | from <= k < to ensures !Voiced(front[k]) {
        assert !Voiced(rows[k]);
      }
    }
  }

  /** An exchange that ends before the new row was one already; one that ends with it answers a waiting row. */
  lemma ExchangesOf(front: seq<Row>, r: Row, i: nat, j: nat)
    ensures j < |front| ==> (Exchange(front + [r], i, j) <==> Exchange(front, i, j))
    ensures j == |front| ==> (Exchange(front + [r], i, j) <==> Speaks(r, ASSISTANT) && Waiting(front, i))
    ensures j > |front| ==> !Exchange(front + [r], i, j)
  {
    if j <= |front| {
      SilenceOf(front, r, i + 1, j);
    }
  }

  lemma WaitingOf(front: seq<Row>, r: Row, i: nat)
    ensures i < |front| ==> (Waiting(front + [r], i) <==> Waiting(front, i) && !Voiced(r))
    ensures i == |front| ==> (Waiting(front + [r], i) <==> Speaks(r, USER))
    ensures i > |front| ==> !Waiting(front + [r], i)
  {
    var rows := front + [r];
    SilenceOf(front, r, i + 1, |front|);
    assert rows[|front|] == r;
    if Silent(rows, i + 1, |rows|) {
      assert Silent(rows, i + 1, |front|);
    }
  }

  /** Without an answer the places of the turns stay. */
  lemma PairsStay(front: seq<Row>, r: Row, turns: seq<Turn>, pairs: seq<(nat, nat)>)
    requires PairsAt(front, turns, pairs)
    requires forall i: nat :: !(Speaks(r, ASSISTANT) && Waiting(front, i))
    ensures PairsAt(front + [r], turns, pairs)
  {
    forall i: nat, j: nat ensures Exchange(front + [r], i, j) <==> Exchange(front, i, j) {
      ExchangesOf(front, r, i, j);
    }
  }

  lemma UserWaits(front: seq<Row>, r: Row)
    requires Speaks(r, USER)
    ensures WaitsAt(front + [r], Some(Strip(r.content)), Some(|front|))
  {
    WaitingOf(front, r, |front|);
  }

  lemma NobodyWaits(front: seq<Row>, r: Row)
    requires Speaks(r, ASSISTANT) && !Speaks(r, USER)
    ensures WaitsAt(front + [r], None, None)
  {
    forall i: nat ensures !Waiting(front + [r], i) {
      WaitingOf(front, r, i);
    }
  }

  lemma WaitingStays(front: seq<Row>, r: Row, pending: Option<string>, waiting: Option<nat>)
    requires WaitsAt(front, pending, waiting) && !Speaks(r, USER) && (Speaks(r, ASSISTANT) ==> waiting.None?)
    ensures WaitsAt(front + [r], pending, waiting)
  {
    if waiting.Some? {
      WaitingOf(front, r, waiting.value);
    } else {
      forall i: nat ensures !Waiting(front + [r], i) {
        WaitingOf(front, r, i);
      }
    }
  }

  /** At most one user row can be waiting. */
  lemma OneWaits(rows: seq<Row>, i: nat, j: nat)
    requires Waiting(rows, i) && Waiting(rows, j)
    ensures i == j
  {
    assert i < j ==> Voiced(rows[j]);
    assert j < i ==> Voiced(rows[i]);
  }

  /** A waiting row comes after every exchange. */
  lemma WaitingIsLast(rows: seq<Row>, i: nat, j: nat, waiting: nat)
    requires Exchange(rows, i, j) && Waiting(rows, waiting)
    ensures j < waiting
  {
    RolesDiffer(rows[j]);
    assert Voiced(rows[j]);
  }

  /** An answer adds the pair of the waiting row and the new one. */
  lemma PairsGrow(front: seq<Row>, r: Row, before: Pairing, p: Places)
    requires PairsAt(front, before.turns, p.pairs) && WaitsAt(front, before.pending, p.waiting)
    requires Speaks(r, ASSISTANT) && p.waiting.Some?
    ensures PairsAt(front + [r], before.turns + [Turn(before.pending.value, Strip(r.content))],
                    p.pairs + [(p.waiting.value, |front|)])
  {
    var rows, w, last := front + [r], p.waiting.value, (p.waiting.value, |front|);
    var pairs := p.pairs + [last];
    forall i: nat, j: nat | Exchange(rows, i, j) ensures (i, j) in pairs {
      ExchangesOf(front, r, i, j);
      if j == |front| {
        OneWaits(front, i, w);
      }
    }
    ExchangesOf(front, r, w, |front|);
    forall k | 0 <= k < |p.pairs| ensures Exchange(rows, pairs[k].0, pairs[k].1) && pairs[k].1 < w {
      ExchangesOf(front, r, pairs[k].0, pairs[k].1);
      WaitingIsLast(front, pairs[k].0, pairs[k].1, w);
    }
  }

  // ----- reading back and windows

  predicate Clean(t: Turn) {
    Trimmed(t.user) && t.user != "" && Trimmed(t.assistant) && t.assistant != ""
  }

  /** Every turn that is loaded is trimmed and has two non-blank sides. */
  lemma {:induction false} TurnsAreClean(rows: seq<Row>)
    ensures forall k :: 0 <= k < |Pair(rows).turns| ==> Clean(Pair(rows).turns[k])
    ensures var pending := Pair(rows).pending; pending.Some? ==> Trimmed(pending.value) && pending.value != ""
  {
    if rows != [] {
      TurnsAreClean(rows[..|rows| - 1]);
      StripTrims(rows[|rows| - 1].content);
    }
  }

  lemma PlainRoles()
    ensures Lower(Strip(USER)) == USER && Lower(Strip(ASSISTANT)) == ASSISTANT
  {
    StripOfTrimmed(USER);
    StripOfTrimmed(ASSISTANT);
  }

  /** One more exchange adds exactly one turn, whatever was pending. */
  lemma ExchangeAddsOneTurn(rows: seq<Row>, user: Row, assistant: Row)
    requires Speaks(user, USER) && Speaks(assistant, ASSISTANT)
    ensures Pair(rows + [user, assistant]) ==
            Pairing(Pair(rows).turns + [Turn(Strip(user.content), Strip(assistant.content))], None)
  {
    RolesDiffer(assistant);
    var all := rows + [user, assistant];
    assert all[..|all| - 1] == rows + [user];
    assert (rows + [user])[..|rows|] == rows;
  }

  lemma SilentRowChangesNothing(rows: seq<Row>, r: Row)
    requires !Voiced(r)
    ensures Pair(rows + [r]) == Pair(rows)
  {
    PairOneMore(rows, r);
  }

  /** A question and an answer with a blank row and a row of the system in between make a turn, although the answer
      does not follow immediately. */
  lemma AnswerNeedNotFollowImmediately(user: Row, blank: Row, system: Row, assistant: Row)
    requires Speaks(user, USER) && Speaks(assistant, ASSISTANT)
    requires Strip(blank.content) == "" && RoleOf(system) == "system"
    ensures Pair([user, blank, system, assistant]) ==
            Pairing([Turn(Strip(user.content), Strip(assistant.content))], None)
  {
    assert |"system"| != |USER| && |"system"| != |ASSISTANT|;
    RolesDiffer(assistant);
    PairOneMore([], user);
    assert [] + [user] == [user];
    SilentRowChangesNothing([user], blank);
    assert [user] + [blank] == [user, blank];
    SilentRowChangesNothing([user, blank], system);
    assert [user, blank] + [system] == [user, blank, system];
    PairOneMore([user, blank, system], assistant);
    assert [user, blank, system] + [assistant] == [user, blank, system, assistant];
  }

  /** Clean turns written out as messages pair up to the same turns. */
  lemma {:induction false} MessagesPairBack(turns: seq<Turn>)
    requires forall k :: 0 <= k < |turns| ==> Clean(turns[k])
    ensures Pair(Messages(turns)) == Pairing(turns, None)
  {
    if turns != [] {
      var front, t := turns[..|turns| - 1], turns[|turns| - 1];
      MessagesPairBack(front);
      PlainRoles();
      StripOfTrimmed(t.user);
      StripOfTrimmed(t.assistant);
      ExchangeAddsOneTurn(Messages(front), Row(USER, t.user), Row(ASSISTANT, t.assistant));
      assert turns == front + [t];
    }
  }

  /** Writing loaded turns out and loading them again gives the last `maxTurns` of them. */
  lemma {:induction false} ReloadGivesTheLastTurns(rows: seq<Row>, maxTurns: int)
    ensures Window(Pair(Messages(Pair(rows).turns)).turns, maxTurns) == Window(Pair(rows).turns, maxTurns)
  {
    TurnsAreClean(rows);
    MessagesPairBack(Pair(rows).turns);
  }

  /** A smaller window is a suffix of a larger one and never longer than asked for. */
  lemma WindowsAreSuffixes(turns: seq<Turn>, small: nat, large: nat)
    requires small <= large
    ensures var s, l := Window(turns, small), Window(turns, large);
            |s| == (if |turns| < small then |turns| else small) && |s| <= |l| && l[|l| - |s|..] == s
  {}
}
