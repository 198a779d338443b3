/** The mock data used when no sports-data API is configured: the lineup
    generator with its running player-id counter, and the static fixtures,
    events, favourites and league table. Random names and the random draws of
    the shirt numbers are supplied by the caller. */
module MockData {
  import opened Seqs
  import opened Text
  import opened Domain
  import Formation

  /** One line of a formation spec: a position code and how many players play it. */
  datatype FormationEntry = FormationEntry(pos: string, count: nat)

  /** One goalkeeper, four defenders, four midfielders and two forwards. */
  const Formation442: seq<FormationEntry> :=
    [FormationEntry("G", 1), FormationEntry("D", 4), FormationEntry("M", 4), FormationEntry("F", 2)]

  /** Substitutes per lineup. */
  const NumSubs: nat := 7

  /** The first player identifier handed out. */
  const FirstPlayerId: int := 2000

  /** The coach's title, put before the team's last word. */
  const CoachTitle: string := "Hlavný tréner "

  // ---- Shirt numbers ----

  /** `Math.floor(Math.random() * 99) + 1` for the draw `draw` of `Math.random()`. */
  function JerseyNumber(draw: real): (n: int)
    requires 0.0 <= draw < 1.0
    ensures 1 <= n <= 99
  {
    (draw * 99.0).Floor + 1
  }

  /** Every shirt number from 1 to 99 can be drawn. */
  lemma JerseyNumberReachesAll(n: int)
    requires 1 <= n <= 99
    ensures 0.0 <= (n - 1) as real / 99.0 < 1.0
    ensures JerseyNumber((n - 1) as real / 99.0) == n
  {
    assert (n - 1) as real / 99.0 * 99.0 == (n - 1) as real;
  }

  /** Draws of `Math.random()`: each in `[0, 1)`. */
  ghost predicate ValidDraws(draws: seq<real>)
  {
    forall i :: 0 <= i < |draws| ==> 0.0 <= draws[i] < 1.0
  }

  // ---- Formation spec ----

  /** The number of starters a formation spec asks for. */
  function TotalCount(formation: seq<FormationEntry>): nat
    decreases |formation|
  {
    if formation == [] then 0
    else TotalCount(formation[..|formation| - 1]) + formation[|formation| - 1].count
  }

  /** `count` copies of a position code. */
  function Repeat(pos: string, count: nat): (r: seq<string>)
    ensures |r| == count && forall i :: 0 <= i < count ==> r[i] == pos
  {
    seq(count, _ => pos)
  }

  /** The starters' position codes in formation order: each entry's code as
      many times as its count. */
  function Positions(formation: seq<FormationEntry>): (r: seq<string>)
    ensures |r| == TotalCount(formation)
    decreases |formation|
  {
    if formation == [] then []
    else
      var last := formation[|formation| - 1];
      Positions(formation[..|formation| - 1]) + Repeat(last.pos, last.count)
  }

  /** The positions of the first `e` entries come first. */
  lemma {:induction false} PositionsPrefix(formation: seq<FormationEntry>, e: nat)
    requires e <= |formation|
    ensures Positions(formation[..e]) <= Positions(formation)
    decreases |formation| - e
  {
    if e < |formation| {
      PositionsPrefix(formation, e + 1);
      assert formation[..e + 1][..e] == formation[..e];
    } else {
      assert formation[..e] == formation;
    }
  }

  /** Player `i` of entry `e` plays that entry's position. */
  lemma PositionAt(formation: seq<FormationEntry>, e: nat, i: nat)
    requires e < |formation| && i < formation[e].count
    ensures TotalCount(formation[..e]) + i < TotalCount(formation)
    ensures Positions(formation)[TotalCount(formation[..e]) + i] == formation[e].pos
  {
    var before := TotalCount(formation[..e]);
    PositionsOneMore(formation, e);
    var extended := Positions(formation[..e + 1]);
    assert extended[before + i] == formation[e].pos;
    PositionsPrefix(formation, e + 1);
  }

  /** Taking one more entry appends that entry's positions. */
  lemma PositionsOneMore(formation: seq<FormationEntry>, e: nat)
    requires e < |formation|
    ensures Positions(formation[..e + 1]) == Positions(formation[..e]) + Repeat(formation[e].pos, formation[e].count)
  {
    var pre := formation[..e + 1];
    assert pre[..e] == formation[..e] && pre[e] == formation[e];
  }

  /** A substitute's position: `D`, `M`, `F` in turn. */
  function SubPosition(i: nat): (pos: string)
    ensures pos in ["D", "M", "F"]
  {
    if i % 3 == 0 then "D" else if i % 3 == 1 then "M" else "F"
  }

  /** The counts of the outfield entries (every entry but `G`), in order. */
  function OutfieldCounts(formation: seq<FormationEntry>): (counts: seq<nat>)
    decreases |formation|
  {
    if formation == [] then []
    else (if formation[0].pos != "G" then [formation[0].count] else []) + OutfieldCounts(formation[1..])
  }

  /** The human-friendly formation string: the outfield counts joined with `-`. */
  function FormationString(formation: seq<FormationEntry>): string
  {
    Formation.CountsLabel(OutfieldCounts(formation))
  }

  /** The formation string of a spec with at least one outfield entry, all of
      positive count, parses back to the outfield counts on the detail screen. */
  lemma FormationStringRoundTrip(formation: seq<FormationEntry>)
    requires |OutfieldCounts(formation)| >= 1
    requires forall i :: 0 <= i < |OutfieldCounts(formation)| ==> OutfieldCounts(formation)[i] > 0
    ensures Formation.ParseFormation(Some(FormationString(formation))) == OutfieldCounts(formation)
  {
    Formation.ParseFormationOfLabel(OutfieldCounts(formation));
  }

  /** `"Hlavný tréner "` and the last space-separated word of the team name. */
  function CoachName(teamName: string): (coach: string)
    ensures |CoachTitle| <= |coach| <= |CoachTitle| + |teamName|
    ensures coach[..|CoachTitle|] == CoachTitle
    ensures var word := coach[|CoachTitle|..];
            ' ' !in word && word == teamName[|teamName| - |word|..] &&
            (|word| == |teamName| || teamName[|teamName| - |word| - 1] == ' ')
  {
    CoachTitle + LastPiece(teamName, ' ')
  }

  // ---- Generated lineups ----

  /** Player `k` of a lineup whose first player gets `firstId`: the next
      identifier, the `k`-th name and the shirt number of the `k`-th draw. */
  function Draft(firstId: int, names: seq<string>, draws: seq<real>, k: nat, pos: string): LineupPlayer
    requires k < |names| && k < |draws| && 0.0 <= draws[k] < 1.0
  {
    LineupPlayer(Player(firstId + k, Some(names[k]), Some(JerseyNumber(draws[k]))), pos)
  }

  /** One starter per position code, identifiers from `firstId`. */
  function Starters(firstId: int, names: seq<string>, draws: seq<real>, positions: seq<string>): (r: seq<LineupPlayer>)
    requires |names| >= |positions| && |draws| >= |positions| && ValidDraws(draws)
    ensures |r| == |positions|
    ensures forall k :: 0 <= k < |positions| ==> r[k] == Draft(firstId, names, draws, k, positions[k])
  {
    seq(|positions|, k requires 0 <= k < |positions| => Draft(firstId, names, draws, k, positions[k]))
  }

  /** The substitutes, drafted after `starters` players. */
  function Substitutes(firstId: int, names: seq<string>, draws: seq<real>, starters: nat): (r: seq<LineupPlayer>)
    requires |names| >= starters + NumSubs && |draws| >= starters + NumSubs && ValidDraws(draws)
    ensures |r| == NumSubs
    ensures forall i :: 0 <= i < NumSubs ==> r[i] == Draft(firstId, names, draws, starters + i, SubPosition(i))
  {
    seq(NumSubs, i requires 0 <= i < NumSubs => Draft(firstId, names, draws, starters + i, SubPosition(i)))
  }

  /** The lineup `generateTeamLineup` builds when the counter starts at `firstId`. */
  function TeamLineup(firstId: int, teamId: int, teamName: string, logo: string,
                      formation: seq<FormationEntry>, names: seq<string>, draws: seq<real>): Lineup
    requires |names| >= TotalCount(formation) + NumSubs && |draws| >= TotalCount(formation) + NumSubs
    requires ValidDraws(draws)
  {
    Lineup(Team(Some(teamId), Some(teamName), Some(logo)),
           Starters(firstId, names, draws, Positions(formation)),
           Substitutes(firstId, names, draws, TotalCount(formation)),
           CoachName(teamName),
           Some(FormationString(formation)))
  }

  /** The identifiers of a lineup's players: starters, then substitutes. */
  function PlayerIds(lineup: Lineup): (ids: seq<int>)
    ensures |ids| == |lineup.startXI| + |lineup.substitutes|
  {
    seq(|lineup.startXI|, k requires 0 <= k < |lineup.startXI| => lineup.startXI[k].player.id) +
    seq(|lineup.substitutes|, k requires 0 <= k < |lineup.substitutes| => lineup.substitutes[k].player.id)
  }

  /** The `count` consecutive identifiers from `first`. */
  function IdRange(first: int, count: nat): (ids: seq<int>)
    ensures |ids| == count && forall i :: 0 <= i < count ==> ids[i] == first + i
  {
    seq(count, i => first + i)
  }

  /** A generated lineup has the formation's starters in formation order and
      seven substitutes cycling through `D`, `M`, `F`, all numbered 1 to 99. */
  lemma TeamLineupShape(firstId: int, teamId: int, teamName: string, logo: string,
                        formation: seq<FormationEntry>, names: seq<string>, draws: seq<real>)
    requires |names| >= TotalCount(formation) + NumSubs && |draws| >= TotalCount(formation) + NumSubs
    requires ValidDraws(draws)
    ensures var lineup := TeamLineup(firstId, teamId, teamName, logo, formation, names, draws);
            && lineup.team == Team(Some(teamId), Some(teamName), Some(logo))
            && lineup.coach == CoachName(teamName) && lineup.formation == Some(FormationString(formation))
            && |lineup.startXI| == TotalCount(formation)
            && (forall k :: 0 <= k < |lineup.startXI| ==> lineup.startXI[k].pos == Positions(formation)[k])
            && |lineup.substitutes| == NumSubs
            && (forall i :: 0 <= i < NumSubs ==> lineup.substitutes[i].pos == SubPosition(i))
            && (forall k :: 0 <= k < |lineup.startXI| ==> 1 <= lineup.startXI[k].player.number.value <= 99)
            && (forall i :: 0 <= i < NumSubs ==> 1 <= lineup.substitutes[i].player.number.value <= 99)
  {
    StartersShape(firstId, names, draws, Positions(formation));
    SubstitutesShape(firstId, names, draws, TotalCount(formation));
  }

  /** Each starter plays its slot's position and has a shirt number from 1 to 99. */
  lemma StartersShape(firstId: int, names: seq<string>, draws: seq<real>, positions: seq<string>)
    requires |names| >= |positions| && |draws| >= |positions| && ValidDraws(draws)
    ensures var r := Starters(firstId, names, draws, positions);
            forall k :: 0 <= k < |r| ==> r[k].pos == positions[k] && 1 <= r[k].player.number.value <= 99
  {
    var r := Starters(firstId, names, draws, positions);
    forall k | 0 <= k < |r| ensures r[k].pos == positions[k] && 1 <= r[k].player.number.value <= 99 {
      assert r[k] == Draft(firstId, names, draws, k, positions[k]);
    }
  }

  /** Each substitute plays `D`, `M`, `F` in turn and has a shirt number from 1 to 99. */
  lemma SubstitutesShape(firstId: int, names: seq<string>, draws: seq<real>, starters: nat)
    requires |names| >= starters + NumSubs && |draws| >= starters + NumSubs && ValidDraws(draws)
    ensures var r := Substitutes(firstId, names, draws, starters);
            forall i :: 0 <= i < NumSubs ==> r[i].pos == SubPosition(i) && 1 <= r[i].player.number.value <= 99
  {
    var r := Substitutes(firstId, names, draws, starters);
    forall i | 0 <= i < NumSubs ensures r[i].pos == SubPosition(i) && 1 <= r[i].player.number.value <= 99 {
      assert r[i] == Draft(firstId, names, draws, starters + i, SubPosition(i));
    }
  }

  /** The player identifiers of a generated lineup run consecutively from
      `firstId`, starters first. */
  lemma TeamLineupIds(firstId: int, teamId: int, teamName: string, logo: string,
                      formation: seq<FormationEntry>, names: seq<string>, draws: seq<real>)
    requires |names| >= TotalCount(formation) + NumSubs && |draws| >= TotalCount(formation) + NumSubs
    requires ValidDraws(draws)
    ensures PlayerIds(TeamLineup(firstId, teamId, teamName, logo, formation, names, draws)) ==
            IdRange(firstId, TotalCount(formation) + NumSubs)
  {
    var lineup := TeamLineup(firstId, teamId, teamName, logo, formation, names, draws);
    DraftedIds(firstId, names, draws, Positions(formation), lineup);
  }

  /** Starters drafted from `firstId` and the substitutes after them carry
      consecutive identifiers. */
  lemma DraftedIds(firstId: int, names: seq<string>, draws: seq<real>, positions: seq<string>, lineup: Lineup)
    requires |names| >= |positions| + NumSubs && |draws| >= |positions| + NumSubs && ValidDraws(draws)
    requires lineup.startXI == Starters(firstId, names, draws, positions)
    requires lineup.substitutes == Substitutes(firstId, names, draws, |positions|)
    ensures PlayerIds(lineup) == IdRange(firstId, |positions| + NumSubs)
  {
    var startXI, substitutes := lineup.startXI, lineup.substitutes;
    var ids := PlayerIds(lineup);
    var starters := |positions|;
    forall k | 0 <= k < starters + NumSubs ensures ids[k] == firstId + k {
      if k < starters {
        assert ids[k] == startXI[k].player.id;
        assert startXI[k] == Draft(firstId, names, draws, k, positions[k]);
      } else {
        assert ids[k] == substitutes[k - starters].player.id;
        assert substitutes[k - starters] == Draft(firstId, names, draws, k, SubPosition(k - starters));
      }
    }
  }

  /** Appending the next drafted starter keeps every starter drafted. */
  lemma DraftAppend(firstId: int, names: seq<string>, draws: seq<real>, positions: seq<string>,
                    startXI: seq<LineupPlayer>, player: LineupPlayer)
    requires |startXI| < |positions| <= |names| && |positions| <= |draws| && ValidDraws(draws)
    requires forall k :: 0 <= k < |startXI| ==> startXI[k] == Draft(firstId, names, draws, k, positions[k])
    requires player == Draft(firstId, names, draws, |startXI|, positions[|startXI|])
    ensures forall k :: 0 <= k < |startXI| + 1 ==>
              (startXI + [player])[k] == Draft(firstId, names, draws, k, positions[k])
  {
    forall k | 0 <= k < |startXI| + 1
      ensures (startXI + [player])[k] == Draft(firstId, names, draws, k, positions[k])
    {
      if k < |startXI| {
        assert (startXI + [player])[k] == startXI[k];
      }
    }
  }

  /** The generator's state: the module-level counter `playerIdCounter`. */
  class LineupGenerator {
    /** The identifier the next generated player gets. */
    var playerIdCounter: int

    /** The counter as the module is loaded. */
    constructor ()
      ensures playerIdCounter == FirstPlayerId
    {
      playerIdCounter := FirstPlayerId;
    }

    /** `generateTeamLineup`: push one starter per formation slot, then the
      substitutes, each taking the next identifier from the counter. */
    method GenerateTeamLineup(teamId: int, teamName: string, logo: string, formation: seq<FormationEntry>,
                              names: seq<string>, draws: seq<real>) returns (lineup: Lineup)
      requires |names| >= TotalCount(formation) + NumSubs && |draws| >= TotalCount(formation) + NumSubs
      requires ValidDraws(draws)
      modifies this
      ensures lineup == TeamLineup(old(playerIdCounter), teamId, teamName, logo, formation, names, draws)
      ensures playerIdCounter == old(playerIdCounter) + TotalCount(formation) + NumSubs
    {
      var startXI := PushStarters(formation, names, draws);
      var substitutes := PushSubstitutes(TotalCount(formation), names, draws);
      lineup := Lineup(Team(Some(teamId), Some(teamName), Some(logo)), startXI, substitutes,
                       CoachName(teamName), Some(FormationString(formation)));
    }

    /** The formation loop of `generateTeamLineup`: one starter per slot of
        every entry, in formation order. */
    method PushStarters(formation: seq<FormationEntry>, names: seq<string>, draws: seq<real>)
      returns (startXI: seq<LineupPlayer>)
      requires |names| >= TotalCount(formation) && |draws| >= TotalCount(formation)
      requires ValidDraws(draws)
      modifies this
      ensures startXI == Starters(old(playerIdCounter), names, draws, Positions(formation))
      ensures playerIdCounter == old(playerIdCounter) + TotalCount(formation)
    {
      ghost var firstId := playerIdCounter;
      startXI := [];
      for e := 0 to |formation|
        invariant |startXI| == TotalCount(formation[..e]) <= TotalCount(formation)
        invariant playerIdCounter == firstId + |startXI|
        invariant forall k :: 0 <= k < |startXI| ==>
                    startXI[k] == Draft(firstId, names, draws, k, Positions(formation)[k])
      {
        startXI := PushEntry(formation, e, names, draws, firstId, startXI);
      }
      assert formation[..|formation|] == formation;
    }

    /** The inner loop of the formation loop: the `count` players of entry `e`,
        each with the next identifier and the entry's position. */
    method PushEntry(formation: seq<FormationEntry>, e: nat, names: seq<string>, draws: seq<real>,
                     ghost firstId: int, drafted: seq<LineupPlayer>)
      returns (startXI: seq<LineupPlayer>)
      requires e < |formation|
      requires |names| >= TotalCount(formation) && |draws| >= TotalCount(formation)
      requires ValidDraws(draws)
      requires |drafted| == TotalCount(formation[..e]) <= TotalCount(formation)
      requires playerIdCounter == firstId + |drafted|
      requires forall k :: 0 <= k < |drafted| ==>
                 drafted[k] == Draft(firstId, names, draws, k, Positions(formation)[k])
      modifies this
      ensures |startXI| == TotalCount(formation[..e + 1]) <= TotalCount(formation)
      ensures playerIdCounter == firstId + |startXI|
      ensures forall k :: 0 <= k < |startXI| ==>
                startXI[k] == Draft(firstId, names, draws, k, Positions(formation)[k])
    {
      var entry := formation[e];
      assert formation[..e + 1][..e] == formation[..e];
      PositionsPrefix(formation, e + 1);
      startXI := drafted;
      for i := 0 to entry.count
        invariant |startXI| == TotalCount(formation[..e]) + i <= TotalCount(formation)
        invariant playerIdCounter == firstId + |startXI|
        invariant forall k :: 0 <= k < |startXI| ==>
                    startXI[k] == Draft(firstId, names, draws, k, Positions(formation)[k])
      {
        PositionAt(formation, e, i);
        var k := |startXI|;
        var player := LineupPlayer(Player(playerIdCounter, Some(names[k]), Some(JerseyNumber(draws[k]))), entry.pos);
        assert player == Draft(firstId, names, draws, k, Positions(formation)[k]);
        DraftAppend(firstId, names, draws, Positions(formation), startXI, player);
        startXI := startXI + [player];
        playerIdCounter := playerIdCounter + 1;
      }
    }

    /** The substitutes loop of `generateTeamLineup`: seven players after the
        `starters` starters, cycling through `D`, `M`, `F`. */
    method PushSubstitutes(starters: nat, names: seq<string>, draws: seq<real>)
      returns (substitutes: seq<LineupPlayer>)
      requires |names| >= starters + NumSubs && |draws| >= starters + NumSubs
      requires ValidDraws(draws)
      modifies this
      ensures substitutes == Substitutes(old(playerIdCounter) - starters, names, draws, starters)
      ensures playerIdCounter == old(playerIdCounter) + NumSubs
    {
      ghost var firstId := playerIdCounter - starters;
      substitutes := [];
      for i := 0 to NumSubs
        invariant |substitutes| == i
        invariant playerIdCounter == firstId + starters + i
        invariant forall j :: 0 <= j < i ==>
                    substitutes[j] == Draft(firstId, names, draws, starters + j, SubPosition(j))
      {
        var k := starters + i;
        substitutes := substitutes + [LineupPlayer(Player(playerIdCounter, Some(names[k]), Some(JerseyNumber(draws[k]))), SubPosition(i))];
        playerIdCounter := playerIdCounter + 1;
      }
    }
  }

  /** The 4-4-2 spec has eleven starters: one `G`, four `D`, four `M`, two `F`. */
  lemma Formation442Positions()
    ensures TotalCount(Formation442) == 11
    ensures Positions(Formation442) == ["G", "D", "D", "D", "D", "M", "M", "M", "M", "F", "F"]
  {
    var f1 := [FormationEntry("G", 1)];
    var f2 := f1 + [FormationEntry("D", 4)];
    var f3 := f2 + [FormationEntry("M", 4)];
    assert f1[..0] == [] && f2[..1] == f1 && f3[..2] == f2 && Formation442[..3] == f3;
    assert TotalCount(f1) == 1 && Positions(f1) == ["G"];
    assert TotalCount(f2) == 5 && Positions(f2) == ["G", "D", "D", "D", "D"];
    assert TotalCount(f3) == 9 && Positions(f3) == ["G", "D", "D", "D", "D", "M", "M", "M", "M"];
  }

  /** The 4-4-2 outfield lines are four, four and two players. */
  lemma Formation442Outfield()
    ensures OutfieldCounts(Formation442) == [4, 4, 2]
  {
    assert OutfieldCounts(Formation442[3..]) == [2];
    assert OutfieldCounts(Formation442[2..]) == [4, 2];
    assert OutfieldCounts(Formation442[1..]) == [4, 4, 2];
  }

  /** The 4-4-2 formation string is `"4-4-2"`. */
  lemma Formation442Label()
    ensures FormationString(Formation442) == "4-4-2"
  {
    Formation442Outfield();
    var tokens := seq(3, i requires 0 <= i < 3 => IntToString([4, 4, 2][i]));
    assert tokens == ["4", "4", "2"];
    assert Join(["2"], '-') == "2";
    assert Join(["4", "2"], '-') == "4-2";
    assert Formation.CountsLabel([4, 4, 2]) == Join(tokens, '-') == "4-4-2";
  }

  /** The 4-4-2 formation string parses back to `[4, 4, 2]` on the detail
      screen, and the goalkeeper plus the parsed lines make the eleven starters. */
  lemma Formation442RoundTrip()
    ensures Formation.ParseFormation(Some(FormationString(Formation442))) == [4, 4, 2]
    ensures 1 + Sum(Formation.ParseFormation(Some(FormationString(Formation442)))) == TotalCount(Formation442)
  {
    Formation442Positions();
    Formation442Outfield();
    FormationStringRoundTrip(Formation442);
    assert [4, 4, 2][..2][..1] == [4];
    assert [4, 4, 2][..2][..1][..0] == [];
  }

  /** What one 4-4-2 call of the generator produced when the counter stood at `firstId`. */
  ghost predicate Generated442(lineup: Lineup, firstId: int)
  {
    |lineup.startXI| == 11 && |lineup.substitutes| == NumSubs && PlayerIds(lineup) == IdRange(firstId, 18)
  }

  /** One 4-4-2 call: eleven starters, seven substitutes, the next 18 identifiers. */
  lemma TeamLineup442(firstId: int, teamId: int, teamName: string, logo: string, names: seq<string>, draws: seq<real>)
    requires |names| >= 18 && |draws| >= 18 && ValidDraws(draws)
    ensures TotalCount(Formation442) == 11
    ensures Generated442(TeamLineup(firstId, teamId, teamName, logo, Formation442, names, draws), firstId)
  {
    Formation442Positions();
    TeamLineupShape(firstId, teamId, teamName, logo, Formation442, names, draws);
    TeamLineupIds(firstId, teamId, teamName, logo, Formation442, names, draws);
  }

  /** `MOCK_LINEUPS_1000001` and `MOCK_LINEUPS_1000006`: four 4-4-2 lineups
      generated in module order from a fresh counter, 18 draws each. Each takes
      the next 18 identifiers, so the 72 players have the distinct identifiers
      2000 to 2071. */
  method MockLineups(names: seq<string>, draws: seq<real>) returns (lineups1000001: seq<Lineup>, lineups1000006: seq<Lineup>)
    requires |names| == 72 && |draws| == 72 && ValidDraws(draws)
    ensures |lineups1000001| == 2 && |lineups1000006| == 2
    ensures Generated442(lineups1000001[0], 2000) && Generated442(lineups1000001[1], 2018)
    ensures Generated442(lineups1000006[0], 2036) && Generated442(lineups1000006[1], 2054)
  {
    var generator := new LineupGenerator();
    var a := Lineup442(generator, 541, "FC Mock Domov", names, draws, 0);
    var b := Lineup442(generator, 542, "SC Mock Hostia", names, draws, 1);
    lineups1000001 := [a, b];
    var c := Lineup442(generator, 529, "Mock C", names, draws, 2);
    var d := Lineup442(generator, 530, "Mock D", names, draws, 3);
    lineups1000006 := [c, d];
  }

  /** The `slot`-th call of the mock data: team `teamId` with its logo URL, the
      `slot`-th block of 18 names and draws. */
  method Lineup442(generator: LineupGenerator, teamId: int, teamName: string, names: seq<string>, draws: seq<real>, slot: nat)
    returns (lineup: Lineup)
    requires |names| == 72 && |draws| == 72 && ValidDraws(draws) && slot < 4
    modifies generator
    ensures Generated442(lineup, old(generator.playerIdCounter))
    ensures generator.playerIdCounter == old(generator.playerIdCounter) + 18
  {
    var ds := draws[18 * slot .. 18 * slot + 18];
    var ns := names[18 * slot .. 18 * slot + 18];
    var logo := "https://media.api-sports.io/football/teams/" + IntToString(teamId) + ".png";
    Formation442Positions();
    TeamLineup442(generator.playerIdCounter, teamId, teamName, logo, ns, ds);
    lineup := generator.GenerateTeamLineup(teamId, teamName, logo, Formation442, ns, ds);
  }

  /** Identifier blocks handed to different calls never overlap. */
  lemma GeneratedIdsDisjoint(a: Lineup, firstA: int, b: Lineup, firstB: int)
    requires Generated442(a, firstA) && Generated442(b, firstB) && firstA + 18 <= firstB
    ensures forall i, j :: 0 <= i < 18 && 0 <= j < 18 ==> PlayerIds(a)[i] != PlayerIds(b)[j]
  {
  }

  // ---- Static tables ----

  function TeamOf(id: int, name: string): Team
  {
    Team(Some(id), Some(name), Some("https://media.api-sports.io/football/teams/" + IntToString(id) + ".png"))
  }

  function Fixture(id: int, date: string, elapsed: Option<int>, long: string, short: string, leagueId: int,
                   leagueName: string, country: string, home: Team, away: Team, goals: Goals): Match
  {
    Match(Domain.Fixture(id, Some(date), Some(Status(Some(short), Some(long), elapsed))),
          Some(League(Some(leagueId), Some(leagueName), Some(country))),
          Some(Teams(Some(home), Some(away))), Some(goals))
  }

  /** `MOCK_FIXTURES`: the match list. */
  const MockFixtures: seq<Match> := [
    Fixture(1000001, "2025-12-03T20:00:00+00:00", Some(75), "Second Half", "2H", 10, "Mock Super Liga", "SVK",
            TeamOf(541, "FC Mock Domov"), TeamOf(542, "SC Mock Hostia"), Goals(Some(3), Some(1))),
    Fixture(1000002, "2025-12-03T20:00:00+00:00", None, "Match Finished", "FT", 11, "Mock Pohár", "CZE",
            TeamOf(543, "Test Sparta"), TeamOf(544, "Test Slavia"), Goals(Some(0), Some(2))),
    Fixture(1000003, "2025-12-04T18:30:00+00:00", Some(45), "Halftime", "HT", 39, "Premier League Mock", "ENG",
            TeamOf(33, "Man Utd Mock"), TeamOf(40, "Liverpool Mock"), Goals(Some(1), Some(1))),
    Fixture(1000004, "2025-12-04T21:00:00+00:00", Some(0), "Not Started", "NS", 78, "Bundesliga Mock", "GER",
            TeamOf(161, "Bayern Mock"), TeamOf(165, "Dortmund Mock"), Goals(None, None)),
    Fixture(1000005, "2025-12-05T15:00:00+00:00", Some(5), "First Half", "1H", 128, "Série A Mock", "BRA",
            TeamOf(131, "Mock A"), TeamOf(133, "Mock B"), Goals(Some(0), Some(0))),
    Fixture(1000006, "2025-12-05T17:00:00+00:00", Some(60), "Second Half", "2H", 140, "La Liga Mock", "ESP",
            TeamOf(529, "Mock C"), TeamOf(530, "Mock D"), Goals(Some(2), Some(2)))
  ]

  function EventOf(elapsed: int, teamId: int, teamName: string, player: string, kind: string, detail: string): Event
  {
    Event(Some(elapsed), Some(Team(Some(teamId), Some(teamName), None)), Some(player), kind, detail, None)
  }

  /** `MOCK_EVENTS_1000001`: three goals, a yellow card and a substitution. */
  const MockEvents1000001: seq<Event> := [
    EventOf(15, 541, "FC Mock Domov", "Peter Golista", "Goal", "Normal Goal"),
    EventOf(30, 542, "SC Mock Hostia", "Ján Rýchly", "Goal", "Normal Goal"),
    EventOf(40, 542, "SC Mock Hostia", "Karol Agresor", "Card", "Yellow Card"),
    EventOf(65, 541, "FC Mock Domov", "Peter Golista", "Goal", "Normal Goal"),
    EventOf(75, 541, "FC Mock Domov", "Ivan Striedac", "subst", "Substitution")
  ]

  /** `MOCK_EVENTS_1000006`: four goals and a yellow card. */
  const MockEvents1000006: seq<Event> := [
    EventOf(10, 529, "Mock C", "Rýchly Gól", "Goal", "Normal Goal"),
    EventOf(25, 530, "Mock D", "Odpoved", "Goal", "Penalty"),
    EventOf(55, 529, "Mock C", "Druhý Strelec", "Goal", "Normal Goal"),
    EventOf(60, 530, "Mock D", "Žltý Faul", "Card", "Yellow Card"),
    EventOf(70, 530, "Mock D", "Kopáč", "Goal", "Normal Goal")
  ]

  /** `MOCK_FAVORITES`: the mock user's one favourite, fixture 1000003. */
  const MockFavorites: seq<Favorite> := [
    Favorite(1, "mock-user-1", "1000003", Some("Premier League Mock"), MockFixtures[2].teams)
  ]

  function Row(rank: int, id: int, name: string, logo: string, points: int, played: int, win: int, draw: int,
               loss: int, goalsFor: int, goalsAgainst: int, goalsDiff: int): StandingsRow
  {
    StandingsRow(Some(rank), TableTeam(id, name, Some(logo)), points,
                 Some(Record(played, win, draw, loss, goalsFor, goalsAgainst, goalsDiff)))
  }

  /** The table of league 10 (`Mock Super Liga`). */
  const MockStandings: seq<StandingsRow> := [
    Row(1, 541, "FC Mock Domov", "https://media.api-sports.io/football/teams/541.png", 45, 20, 14, 3, 3, 40, 18, 22),
    Row(2, 542, "SC Mock Hostia", "https://media.api-sports.io/football/teams/542.png", 42, 20, 13, 3, 4, 36, 20, 16),
    Row(3, 600, "Rival FC", "", 37, 20, 11, 4, 5, 30, 22, 8),
    Row(4, 601, "City Mock", "", 33, 20, 10, 3, 7, 28, 24, 4),
    Row(5, 602, "United Mock", "", 30, 20, 8, 6, 6, 25, 23, 2),
    Row(6, 603, "AC Mock", "", 28, 20, 8, 4, 8, 22, 21, 1),
    Row(7, 604, "Town FC", "", 26, 20, 7, 5, 8, 21, 24, -3),
    Row(8, 605, "Athletic Mock", "", 24, 20, 6, 6, 8, 20, 25, -5),
    Row(9, 606, "County Mock", "", 22, 20, 6, 4, 10, 18, 26, -8),
    Row(10, 607, "Rovers", "", 20, 20, 5, 5, 10, 17, 29, -12),
    Row(11, 608, "Olympic Mock", "", 18, 20, 4, 6, 10, 16, 28, -12),
    Row(12, 609, "Harbor FC", "", 17, 20, 4, 5, 11, 15, 30, -15),
    Row(13, 610, "Valley United", "", 15, 20, 3, 6, 11, 14, 31, -17),
    Row(14, 611, "Wanderers", "", 12, 20, 2, 6, 12, 12, 35, -23),
    Row(15, 612, "Bottom FC", "", 8, 20, 1, 5, 14, 10, 40, -30)
  ]

  /** `MOCK_STANDINGS`: the static tables by league identifier. */
  const MockTables: map<int, seq<StandingsRow>> := map[10 := MockStandings]

  /** A row whose record adds up: wins, draws and losses make the games played,
      three points a win and one a draw, and the goal difference is goals for
      minus goals against. */
  predicate ConsistentRow(r: StandingsRow)
  {
    r.record.Some? &&
    var c := r.record.value;
    c.win + c.draw + c.loss == c.played && r.points == 3 * c.win + c.draw &&
    c.goalsDiff == c.goalsFor - c.goalsAgainst
  }

  /** The league-10 table: ranks 1 to 15 in order, points never increasing down
      the table, distinct teams, and every record adds up. */
  lemma MockStandingsInvariants()
    ensures |MockStandings| == 15
    ensures forall i :: 0 <= i < 15 ==> MockStandings[i].rank == Some(i + 1)
    ensures forall i :: 0 <= i < 14 ==> MockStandings[i].points >= MockStandings[i + 1].points
    ensures forall i :: 0 <= i < 15 ==> ConsistentRow(MockStandings[i])
    ensures forall i, j :: 0 <= i < j < 15 ==> MockStandings[i].team.id != MockStandings[j].team.id
  {
  }
}
