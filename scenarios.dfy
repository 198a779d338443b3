/** Worked examples on the mock data: what the screens show for the mock match
    list, the events and table of fixture 1000001 and the mock user's favourite. */
module Scenarios {
  import opened Seqs
  import opened Text
  import opened Domain
  import Standings
  import MatchDetail
  import HomeScreen
  import MatchCard
  import MockData

  /** The timeline of fixture 1000001 lists its three goals and the yellow card,
      in match order, and leaves out the substitution. */
  lemma TimelineOfFixture1000001()
    ensures MatchDetail.EventTimeline(Some(MockData.MockEvents1000001)) ==
            MatchDetail.Shown(MockData.MockEvents1000001[..4])
  {
    var events := MockData.MockEvents1000001;
    assert MatchDetail.IsShownEvent(events[0]) && MatchDetail.IsShownEvent(events[1]);
    assert MatchDetail.IsShownEvent(events[2]) && MatchDetail.IsShownEvent(events[3]);
    assert !MatchDetail.IsShownEvent(events[4]);
    FilterAllButLast(events, MatchDetail.IsShownEvent);
  }

  /** Filtering five elements of which only the last is rejected. */
  lemma FilterAllButLast<T>(s: seq<T>, p: T -> bool)
    requires |s| == 5 && p(s[0]) && p(s[1]) && p(s[2]) && p(s[3]) && !p(s[4])
    ensures Filter(s, p) == s[..4]
  {
    assert s[4..][1..] == [];
    assert Filter(s[4..], p) == [];
    assert Filter(s[3..], p) == [s[3]];
    assert Filter(s[2..], p) == [s[2], s[3]];
    assert Filter(s[1..], p) == [s[1], s[2], s[3]];
  }

  /** Filtering six elements of which only the first and the last are kept. */
  lemma FilterFirstAndLast<T>(s: seq<T>, p: T -> bool)
    requires |s| == 6 && p(s[0]) && !p(s[1]) && !p(s[2]) && !p(s[3]) && !p(s[4]) && p(s[5])
    ensures Filter(s, p) == [s[0], s[5]]
  {
    assert s[5..][1..] == [];
    assert Filter(s[5..], p) == [s[5]];
    assert Filter(s[4..], p) == [s[5]];
    assert Filter(s[3..], p) == [s[5]];
    assert Filter(s[2..], p) == [s[5]];
    assert Filter(s[1..], p) == [s[5]];
  }

  /** The mock user has saved fixture 1000003 and no other. */
  lemma MockFavoriteIsFixture1000003(fixtureId: int)
    ensures MatchDetail.IsFavorite(Some(MockData.MockFavorites), fixtureId) <==> fixtureId == 1000003
  {
    var favorites := MockData.MockFavorites;
    MatchDetail.IsFavoriteIff(Some(favorites), fixtureId);
    assert IntToString(1000003) == "1000003";
    if MatchDetail.IsFavorite(Some(favorites), fixtureId) {
      IntToStringInjective(fixtureId, 1000003);
    }
  }

  /** The table of fixture 1000001: the home team stays first; the away team,
      second in the league, is shown fourth, below the league's third and fourth. */
  lemma TableOfFixture1000001()
    ensures var display := Standings.Reconciled(MockData.MockStandings, 541, 542);
            && |display| == 15
            && display[0] == MockData.MockStandings[0]
            && display[1] == MockData.MockStandings[2].(rank := Some(2))
            && display[2] == MockData.MockStandings[3].(rank := Some(3))
            && display[3] == MockData.MockStandings[1].(rank := Some(4))
            && display[4] == MockData.MockStandings[4]
  {
    MockData.MockStandingsInvariants();
    Standings.TopTwoPlaying(MockData.MockStandings, 541, 542);
  }

  /** A two-row table that holds neither team of the match grows to four rows:
      the home placeholder, the two rows, and the away placeholder. */
  lemma ShortTableWithoutTeams(first: StandingsRow, second: StandingsRow, homeId: int, awayId: int)
    requires first.team.id != homeId && second.team.id != homeId
    requires first.team.id != awayId && second.team.id != awayId
    ensures var display := Standings.Reconciled([first, second], homeId, awayId);
            && |display| == 4
            && display[0] == Standings.Placeholder(homeId, "Home").(rank := Some(1))
            && display[1] == first.(rank := Some(2))
            && display[2] == second.(rank := Some(3))
            && display[3] == Standings.Placeholder(awayId, "Away").(rank := Some(4))
  {
    var rows := [first, second];
    assert !Standings.HasTeam(rows, homeId);
    assert !Standings.HasTeam(rows, awayId);
    Standings.ReconciledLayout(rows, homeId, awayId);
    assert Standings.Shifted(0, 3) == 1 && Standings.Shifted(1, 3) == 2;
  }

  /** The league buttons of the mock match list: one per fixture's league, in
      list order. */
  lemma MockLeagueButtons()
    ensures |HomeScreen.Leagues(MockData.MockFixtures)| == 6
    ensures HomeScreen.LeagueOrder(MockData.MockFixtures) == [10, 11, 39, 78, 128, 140]
  {
    var ms := MockData.MockFixtures;
    assert ms[..1][..0] == [] && ms[..2][..1] == ms[..1] && ms[..3][..2] == ms[..2];
    assert ms[..4][..3] == ms[..3] && ms[..5][..4] == ms[..4] && ms[..6][..5] == ms[..5];
    assert HomeScreen.LeagueOrder(ms[..1]) == [10];
    assert HomeScreen.LeagueOrder(ms[..2]) == [10, 11];
    assert HomeScreen.LeagueOrder(ms[..3]) == [10, 11, 39];
    assert HomeScreen.LeagueOrder(ms[..4]) == [10, 11, 39, 78];
    assert HomeScreen.LeagueOrder(ms[..5]) == [10, 11, 39, 78, 128];
    assert ms[..6] == ms;
  }

  /** The `2H` status button keeps the two matches in their second half. */
  lemma SecondHalfFilter()
    ensures HomeScreen.FilteredMatches(MockData.MockFixtures, HomeScreen.Filters(None, Some("2H"))) ==
            [MockData.MockFixtures[0], MockData.MockFixtures[5]]
  {
    var ms := MockData.MockFixtures;
    var f := HomeScreen.Filters(None, Some("2H"));
    assert HomeScreen.Selected(ms[0], f) && !HomeScreen.Selected(ms[1], f) && !HomeScreen.Selected(ms[2], f);
    assert !HomeScreen.Selected(ms[3], f) && !HomeScreen.Selected(ms[4], f) && HomeScreen.Selected(ms[5], f);
    SelectFirstAndLast(ms, f);
  }

  /** The match list of six matches of which only the first and the last pass the filters. */
  lemma SelectFirstAndLast(ms: seq<Match>, f: HomeScreen.Filters)
    requires |ms| == 6 && HomeScreen.Selected(ms[0], f) && HomeScreen.Selected(ms[5], f)
    requires !HomeScreen.Selected(ms[1], f) && !HomeScreen.Selected(ms[2], f)
    requires !HomeScreen.Selected(ms[3], f) && !HomeScreen.Selected(ms[4], f)
    ensures HomeScreen.FilteredMatches(ms, f) == [ms[0], ms[5]]
  {
    FilterFirstAndLast(ms, m => HomeScreen.Selected(m, f));
  }

  /** Long league names are shortened on their buttons; short ones are kept. */
  lemma MockLeagueLabels()
    ensures HomeScreen.LeagueLabel("Premier League Mock") == "Premier Leag."
    ensures HomeScreen.LeagueLabel("Mock Pohár") == "Mock Pohár"
  {
  }

  /** The badges of the mock teams read their initials. */
  lemma MockInitials()
    ensures MatchCard.Initials("Man Utd Mock") == "MU"
    ensures MatchCard.Initials("Rovers") == "R"
  {
    MatchCard.InitialsOfNonEmptyWords(["Man", "Utd", "Mock"]);
    assert Join(["Man", "Utd", "Mock"], ' ') == "Man Utd Mock";
    MatchCard.InitialsOfNonEmptyWords(["Rovers"]);
    assert Join(["Rovers"], ' ') == "Rovers";
  }

  /** The count line for the whole mock list and for a single match. */
  lemma MockCountLines()
    ensures HomeScreen.MatchCountText(|MockData.MockFixtures|) == "6 zápasov"
    ensures HomeScreen.MatchCountText(1) == "1 zápas"
  {
  }
}
