/** The session picker: the numbers printed beside the sessions, the number a user types, and
    the automatic choice (src/session.rs:454-465, 485-512; src/client.rs:695-750). */
module Picker {
  import opened Basics

  datatype SessionState = Free | Busy
  datatype SessionInfo = SessionInfo(id: string, state: SessionState)
  datatype PickerRow = PickerRow(selector: Option<nat>, sessionId: string, state: SessionState)
  datatype AutoSelection = NewSession | Attach(id: string) | Prompt
  datatype Selection = Chosen(sessionId: string) | Invalid

  predicate Selectable(session: SessionInfo) {
    session.state.Free?
  }

  /** The positions of the free sessions, in list order. */
  function FreePositions(sessions: seq<SessionInfo>): (positions: seq<nat>)
    ensures |positions| <= |sessions|
    ensures forall k :: 0 <= k < |positions| ==> positions[k] < |sessions| && sessions[positions[k]].state == Free
  {
    if sessions == [] then []
    else
      var n := |sessions| - 1;
      var before := FreePositions(sessions[..n]);
      if Selectable(sessions[n]) then before + [n] else before
  }

  lemma {:induction false} FreePositionsIncrease(sessions: seq<SessionInfo>, j: nat, k: nat)
    requires j < k < |FreePositions(sessions)|
    ensures FreePositions(sessions)[j] < FreePositions(sessions)[k]
    decreases |sessions|
  {
    var n := |sessions| - 1;
    if k < |FreePositions(sessions[..n])| {
      FreePositionsIncrease(sessions[..n], j, k);
    }
  }

  /** Every free session has a rank. */
  lemma {:induction false} FreePositionsComplete(sessions: seq<SessionInfo>, i: nat) returns (k: nat)
    requires i < |sessions| && sessions[i].state == Free
    ensures k < |FreePositions(sessions)| && FreePositions(sessions)[k] == i
    decreases |sessions|
  {
    var n := |sessions| - 1;
    if i < n {
      k := FreePositionsComplete(sessions[..n], i);
    } else {
      k := |FreePositions(sessions)| - 1;
    }
  }

  /** The number the picker prints on row `i`, if any. */
  function ShownOn(sessions: seq<SessionInfo>, i: nat): (selector: Option<nat>)
    requires i < |sessions|
  {
    if Selectable(sessions[i]) then Some(|FreePositions(sessions[..i])| + 1) else None
  }

  /** `picker_rows`: one row a session, in order, numbered by a running counter. */
  method PickerRows(sessions: seq<SessionInfo>) returns (rows: seq<PickerRow>)
    ensures |rows| == |sessions|
    ensures forall i :: 0 <= i < |rows| ==> (
      rows[i] == PickerRow(ShownOn(sessions, i), sessions[i].id, sessions[i].state))
  {
    rows := [];
    var nextSelector: nat := 1;
    for i := 0 to |sessions|
      invariant |rows| == i && nextSelector == |FreePositions(sessions[..i])| + 1
      invariant forall j :: 0 <= j < i ==> (
        rows[j] == PickerRow(ShownOn(sessions, j), sessions[j].id, sessions[j].state))
    {
      assert sessions[..i + 1][..i] == sessions[..i];
      var selector := None;
      if Selectable(sessions[i]) {
        selector := Some(nextSelector);
        nextSelector := nextSelector + 1;
      }
      rows := rows + [PickerRow(selector, sessions[i].id, sessions[i].state)];
    }
  }

  /** `filter(is_selectable).nth(n)`. */
  function NthFree(sessions: seq<SessionInfo>, n: nat): (session: Option<SessionInfo>)
    decreases |sessions|
  {
    if sessions == [] then None
    else if !Selectable(sessions[0]) then NthFree(sessions[1..], n)
    else if n == 0 then Some(sessions[0])
    else NthFree(sessions[1..], n - 1)
  }

  /** What typing the number `selector` at the prompt does. */
  function Select(sessions: seq<SessionInfo>, selector: nat): (choice: Selection) {
    if selector == 0 then Invalid
    else match NthFree(sessions, selector - 1)
      case Some(session) => Chosen(session.id)
      case None => Invalid
  }

  function CountFree(sessions: seq<SessionInfo>): nat {
    |FreePositions(sessions)|
  }

  lemma {:induction false} CountFreeHead(sessions: seq<SessionInfo>)
    requires sessions != []
    ensures CountFree(sessions) == CountFree(sessions[1..]) + if Selectable(sessions[0]) then 1 else 0
    decreases |sessions|
  {
    var n := |sessions| - 1;
    if n > 0 {
      CountFreeHead(sessions[..n]);
      assert sessions[1..][..n - 1] == sessions[..n][1..];
    } else {
      assert sessions[..0] == [] && sessions[1..] == [];
    }
  }

  /** The forward search finds the session whose row carries the number. */
  lemma {:induction false} NthFreeIs(sessions: seq<SessionInfo>, i: nat)
    requires i < |sessions| && Selectable(sessions[i])
    ensures NthFree(sessions, CountFree(sessions[..i])) == Some(sessions[i])
    decreases |sessions|
  {
    if i > 0 {
      CountFreeHead(sessions[..i]);
      assert sessions[..i][1..] == sessions[1..][..i - 1];
      NthFreeIs(sessions[1..], i - 1);
    } else {
      assert CountFree(sessions[..0]) == 0;
    }
  }

  lemma {:induction false} NthFreeExists(sessions: seq<SessionInfo>, n: nat)
    ensures NthFree(sessions, n).Some? <==> n < CountFree(sessions)
    decreases |sessions|
  {
    if sessions != [] {
      CountFreeHead(sessions);
      if !Selectable(sessions[0]) {
        NthFreeExists(sessions[1..], n);
      } else if n > 0 {
        NthFreeExists(sessions[1..], n - 1);
      }
    }
  }

  /** The rank of a free session among all free ones is what precedes it. */
  lemma {:induction false} RankIsCountBefore(sessions: seq<SessionInfo>, k: nat)
    requires k < |FreePositions(sessions)|
    ensures CountFree(sessions[..FreePositions(sessions)[k]]) == k
    decreases |sessions|
  {
    var n := |sessions| - 1;
    var before := FreePositions(sessions[..n]);
    if k < |before| {
      RankIsCountBefore(sessions[..n], k);
      assert sessions[..n][..before[k]] == sessions[..before[k]];
    }
  }

  /** What the picker prints is what typing it selects: row `i` shows `k` exactly when the
      `k`-th free session stands at `i`. Busy rows never show a number, and every number from
      one to the count of free sessions stands on exactly one row. */
  lemma ShownIffRank(sessions: seq<SessionInfo>, i: nat, k: nat)
    requires i < |sessions|
    ensures ShownOn(sessions, i).Some? <==> sessions[i].state == Free
    ensures ShownOn(sessions, i) == Some(k) <==> (
      1 <= k <= |FreePositions(sessions)| && FreePositions(sessions)[k - 1] == i)
  {
    if Selectable(sessions[i]) {
      var rank := FreePositionsComplete(sessions, i);
      RankIsCountBefore(sessions, rank);
      if 1 <= k <= |FreePositions(sessions)| && k - 1 != rank {
        if k - 1 < rank {
          FreePositionsIncrease(sessions, k - 1, rank);
        } else {
          FreePositionsIncrease(sessions, rank, k - 1);
        }
      }
    }
  }

  /** Typing a number selects the session on the row that shows it, and is refused exactly when
      no row shows it. */
  lemma SelectionFollowsNumbers(sessions: seq<SessionInfo>, i: nat, k: nat)
    requires i < |sessions| && ShownOn(sessions, i) == Some(k)
    ensures Select(sessions, k) == Chosen(sessions[i].id)
  {
    NthFreeIs(sessions, i);
  }

  lemma RefusedIffUnshown(sessions: seq<SessionInfo>, k: nat)
    ensures Select(sessions, k) == Invalid <==> forall i: nat :: i < |sessions| ==> ShownOn(sessions, i) != Some(k)
  {
    if k > 0 {
      NthFreeExists(sessions, k - 1);
    }
    if 1 <= k <= |FreePositions(sessions)| {
      var i := FreePositions(sessions)[k - 1];
      ShownIffRank(sessions, i, k);
    } else {
      forall i: nat | i < |sessions| ensures ShownOn(sessions, i) != Some(k) {
        ShownIffRank(sessions, i, k);
      }
    }
  }

  /** `auto_select`: two steps of an iterator over the free sessions. */
  function AutoSelect(sessions: seq<SessionInfo>): (choice: AutoSelection) {
    match NthFree(sessions, 0)
    case None => NewSession
    case Some(first) => if NthFree(sessions, 1).Some? then Prompt else Attach(first.id)
  }

  /** The automatic choice by the count of free sessions; a lone free session is the one that
      typing 1 would select. */
  lemma AutoSelectByCount(sessions: seq<SessionInfo>)
    ensures AutoSelect(sessions) == NewSession <==> CountFree(sessions) == 0
    ensures AutoSelect(sessions) == Prompt <==> CountFree(sessions) >= 2
    ensures AutoSelect(sessions).Attach? <==> CountFree(sessions) == 1
    ensures AutoSelect(sessions).Attach? ==> Select(sessions, 1) == Chosen(AutoSelect(sessions).id)
  {
    NthFreeExists(sessions, 0);
    NthFreeExists(sessions, 1);
  }
}
