/** The league table of the match detail screen (`displayRows`): a copy of the
    table in which the two teams of the match are promoted — the home team's row
    first, the away team's row at most fourth — and every row renumbered. */
module Standings {
  import opened Seqs
  import opened Domain

  /** A table has a row for team `id`. */
  ghost predicate HasTeam(rows: seq<StandingsRow>, id: int)
  {
    exists j :: 0 <= j < |rows| && rows[j].team.id == id
  }

  /** `rows.findIndex(r => r.team?.id === id)`: the first row of team `id`, or -1. */
  function FindIndex(rows: seq<StandingsRow>, id: int): (i: int)
    ensures -1 <= i < |rows|
    ensures i >= 0 ==> rows[i].team.id == id
    ensures forall j :: 0 <= j < |rows| && (i == -1 || j < i) ==> rows[j].team.id != id
    decreases |rows|
  {
    if rows == [] then -1
    else if rows[0].team.id == id then 0
    else
      var k := FindIndex(rows[1..], id);
      if k == -1 then -1 else k + 1
  }

  /** The row synthesised for a team missing from the table: no rank yet, no
      record, zero points. */
  function Placeholder(id: int, name: string): StandingsRow
  {
    StandingsRow(None, TableTeam(id, name, None), 0, None)
  }

  /** The row taken for a highlighted team and the rows left behind. */
  datatype Taken = Taken(row: StandingsRow, rest: seq<StandingsRow>)

  /** One promotion step: splice the first row of team `id` out of `rows`, or
      make a placeholder named `name` when the team has no row. */
  function TakeTeam(rows: seq<StandingsRow>, id: int, name: string): (t: Taken)
    ensures t.row.team.id == id
    ensures HasTeam(rows, id) ==>
      t.row == rows[FindIndex(rows, id)] && |t.rest| == |rows| - 1 &&
      multiset(rows) == multiset(t.rest) + multiset{t.row}
    ensures !HasTeam(rows, id) ==> t.row == Placeholder(id, name) && t.rest == rows
  {
    var i := FindIndex(rows, id);
    if i >= 0 then Taken(rows[i], RemoveAt(rows, i)) else Taken(Placeholder(id, name), rows)
  }

  function Min(a: int, b: int): int
  {
    if a <= b then a else b
  }

  /** The index the away row is inserted at once the home row leads a list of
      `n + 1` rows: `Math.min(3, rows.length)`. */
  function AwayIndex(n: nat): (at: nat)
    ensures 1 <= at <= 3 && at <= n + 1
  {
    Min(3, n + 1)
  }

  /** The output index of the `j`-th remaining row when the home row is put first
      and the away row is inserted at `at`. */
  function Shifted(j: nat, at: nat): nat
  {
    if j + 1 < at then j + 1 else j + 2
  }

  /** `rows.map((r, i) => ({ ...r, rank: i + 1 }))`. */
  function Renumber(rows: seq<StandingsRow>): (r: seq<StandingsRow>)
    ensures |r| == |rows|
    ensures forall i :: 0 <= i < |rows| ==> r[i] == rows[i].(rank := Some(i + 1))
  {
    seq(|rows|, i requires 0 <= i < |rows| => rows[i].(rank := Some(i + 1)))
  }

  /** One promotion step as the screen performs it: find the team's first row,
      splice it out of the working copy, or make a placeholder. This is the
      imperative counterpart of `TakeTeam`, which the lemmas reason about; its
      contract ties the two together. */
  method Take(rows: seq<StandingsRow>, id: int, name: string) returns (row: StandingsRow, rest: seq<StandingsRow>)
    ensures Taken(row, rest) == TakeTeam(rows, id, name)
  {
    var idx := FindIndex(rows, id);
    if idx >= 0 {
      row := rows[idx];
      rest := RemoveAt(rows, idx);
    } else {
      row := Placeholder(id, name);
      rest := rows;
    }
  }

  /** The rows in display order: `home` first, `away` inserted at
      `min(3, rows.length)` of the list that `home` leads, the rest in order. */
  function Arrange(home: StandingsRow, rest: seq<StandingsRow>, away: StandingsRow): (out: seq<StandingsRow>)
    ensures |out| == |rest| + 2
    ensures out[0] == home && out[AwayIndex(|rest|)] == away
    ensures forall j :: 0 <= j < |rest| ==> out[Shifted(j, AwayIndex(|rest|))] == rest[j]
  {
    var rows := [home] + rest;
    var at := Min(3, |rows|);
    rows[..at] + [away] + rows[at..]
  }

  /** The ranks given to the two rows on insertion are overwritten by the
      final renumbering. */
  lemma RenumberForgetsInsertRanks(home: StandingsRow, rest: seq<StandingsRow>, away: StandingsRow, homeRank: Option<int>, awayRank: Option<int>)
    ensures Renumber(Arrange(home.(rank := homeRank), rest, away.(rank := awayRank))) == Renumber(Arrange(home, rest, away))
  {
    var a := Arrange(home.(rank := homeRank), rest, away.(rank := awayRank));
    var b := Arrange(home, rest, away);
    assert forall i :: 0 <= i < |a| ==> a[i].(rank := Some(i + 1)) == b[i].(rank := Some(i + 1));
  }

  /** The table the screen displays: the home row (found or a placeholder)
      first, the away row at index `min(3, n - 1)` of the `n` output rows, every
      other row after them in its original order, and the ranks `1..n`. */
  function Reconciled(standings: seq<StandingsRow>, homeId: int, awayId: int): (display: seq<StandingsRow>)
    ensures |display| >= 2 && display[0].team.id == homeId
    ensures forall i :: 0 <= i < |display| ==> display[i].rank == Some(i + 1)
  {
    var home := TakeTeam(standings, homeId, "Home");
    var away := TakeTeam(home.rest, awayId, "Away");
    Renumber(Arrange(home.row, away.rest, away.row))
  }

  /** Where every row of the reconciled table comes from, and its new rank. */
  lemma ReconciledLayout(standings: seq<StandingsRow>, homeId: int, awayId: int)
    ensures var display := Reconciled(standings, homeId, awayId);
            var home := TakeTeam(standings, homeId, "Home");
            var away := TakeTeam(home.rest, awayId, "Away");
            var at := AwayIndex(|away.rest|);
            && |display| == |away.rest| + 2
            && at == Min(3, |display| - 1)
            && display[0] == home.row.(rank := Some(1))
            && display[at] == away.row.(rank := Some(at + 1))
            && (forall j :: 0 <= j < |away.rest| ==>
                  display[Shifted(j, at)] == away.rest[j].(rank := Some(Shifted(j, at) + 1)))
            && (forall i :: 0 <= i < |display| ==> display[i].rank == Some(i + 1))
  {
  }

  /** `displayRows` as the screen runs it on a copy of the table: splice the home
      row out (or make a placeholder), then the away row, put the home row back
      first with rank 1, insert the away row at `min(3, rows.length)`, renumber. */
  method DisplayRows(standings: seq<StandingsRow>, homeId: int, awayId: int) returns (display: seq<StandingsRow>)
    ensures display == Reconciled(standings, homeId, awayId)
  {
    var homeRow, rows := Take(standings, homeId, "Home");
    var awayRow, rest := Take(rows, awayId, "Away");
    rows := [homeRow.(rank := Some(1))] + rest;
    var insertIndex := Min(3, |rows|);
    rows := rows[..insertIndex] + [awayRow.(rank := Some(insertIndex + 1))] + rows[insertIndex..];
    display := Renumber(rows);
    assert rows == Arrange(homeRow.(rank := Some(1)), rest, awayRow.(rank := Some(insertIndex + 1)));
    RenumberForgetsInsertRanks(homeRow, rest, awayRow, Some(1), Some(insertIndex + 1));
  }

  /** A team of the match: the rows the screen highlights. */
  predicate IsPlaying(row: StandingsRow, homeId: int, awayId: int)
  {
    row.team.id == homeId || row.team.id == awayId
  }

  /** Both teams of the match are shown, highlighted, within the first four rows. */
  lemma PlayingTeamsNearTop(standings: seq<StandingsRow>, homeId: int, awayId: int)
    ensures var display := Reconciled(standings, homeId, awayId);
            && |display| >= 2
            && display[0].team.id == homeId && IsPlaying(display[0], homeId, awayId)
            && exists at :: 1 <= at <= 3 && at < |display| && display[at].team.id == awayId &&
                            IsPlaying(display[at], homeId, awayId)
  {
    var home := TakeTeam(standings, homeId, "Home");
    var away := TakeTeam(home.rest, awayId, "Away");
    var at := AwayIndex(|away.rest|);
    ReconciledLayout(standings, homeId, awayId);
    assert Reconciled(standings, homeId, awayId)[at].team.id == awayId;
  }

  /** A team without a row is shown as a placeholder under its default name
      (`Home` or `Away`) with zero points and no record: the home team first,
      the away team at index `min(3, n - 1)` of the `n` rows shown. */
  lemma MissingTeamsGetPlaceholders(standings: seq<StandingsRow>, homeId: int, awayId: int)
    ensures var display := Reconciled(standings, homeId, awayId);
            var at := Min(3, |display| - 1);
            && (!HasTeam(standings, homeId) ==>
                  display[0] == StandingsRow(Some(1), TableTeam(homeId, "Home", None), 0, None))
            && (!HasTeam(standings, awayId) ==>
                  display[at] == StandingsRow(Some(at + 1), TableTeam(awayId, "Away", None), 0, None))
  {
    ReconciledLayout(standings, homeId, awayId);
  }

  /** One promotion step leaves the other rows in order, and each row of another
      team as often as before. */
  lemma TakeTeamKeepsOthers(rows: seq<StandingsRow>, id: int, name: string)
    ensures IsSubsequence(TakeTeam(rows, id, name).rest, rows)
    ensures forall r: StandingsRow :: r.team.id != id ==>
              multiset(TakeTeam(rows, id, name).rest)[r] == multiset(rows)[r]
  {
    var i := FindIndex(rows, id);
    if i >= 0 {
      RemoveAtIsSubsequence(rows, i);
    } else {
      SubsequenceReflexive(rows);
    }
  }

  /** Apart from the two promoted rows, the reconciled table keeps every row of
      the input in its original relative order, each non-highlighted row exactly
      as often as before, and only the rows found for the two teams are removed. */
  lemma ReconcileKeepsOthers(standings: seq<StandingsRow>, homeId: int, awayId: int)
    ensures var home := TakeTeam(standings, homeId, "Home");
            var away := TakeTeam(home.rest, awayId, "Away");
            && IsSubsequence(away.rest, standings)
            && |away.rest| == |standings| - (if HasTeam(standings, homeId) then 1 else 0)
                                          - (if HasTeam(home.rest, awayId) then 1 else 0)
            && (forall r: StandingsRow :: r.team.id != homeId && r.team.id != awayId ==>
                  multiset(away.rest)[r] == multiset(standings)[r])
  {
    var home := TakeTeam(standings, homeId, "Home");
    var away := TakeTeam(home.rest, awayId, "Away");
    TakeTeamKeepsOthers(standings, homeId, "Home");
    TakeTeamKeepsOthers(home.rest, awayId, "Away");
    SubsequenceTransitive(away.rest, home.rest, standings);
  }

  /** A match between the top two of a table of at least four rows: the
      leaders stay first, the runners-up drop to fourth, the league's third and
      fourth move up to second and third, and every row from the fifth on keeps
      its place. */
  lemma TopTwoPlaying(rows: seq<StandingsRow>, homeId: int, awayId: int)
    requires |rows| >= 4 && homeId != awayId
    requires rows[0].team.id == homeId && rows[1].team.id == awayId
    ensures var display := Reconciled(rows, homeId, awayId);
            && |display| == |rows|
            && display[0] == rows[0].(rank := Some(1))
            && display[1] == rows[2].(rank := Some(2))
            && display[2] == rows[3].(rank := Some(3))
            && display[3] == rows[1].(rank := Some(4))
            && forall i :: 4 <= i < |rows| ==> display[i] == rows[i].(rank := Some(i + 1))
  {
    var home := TakeTeam(rows, homeId, "Home");
    assert FindIndex(rows, homeId) == 0;
    assert home.rest == rows[1..];
    var away := TakeTeam(home.rest, awayId, "Away");
    assert FindIndex(rows[1..], awayId) == 0;
    assert away.rest == rows[2..];
    ReconciledLayout(rows, homeId, awayId);
    var display := Reconciled(rows, homeId, awayId);
    forall i | 4 <= i < |rows| ensures display[i] == rows[i].(rank := Some(i + 1)) {
      assert Shifted(i - 2, 3) == i;
    }
  }
}
