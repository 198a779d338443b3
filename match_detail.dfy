/** The match detail screen's logic: the goal-and-card timeline, the favourite
    lookup for the fixture, the lineups section with a pitch marker per starter,
    and the league table with the two teams of the match promoted. */
module MatchDetail {
  import opened Seqs
  import opened Text
  import opened Domain
  import Formation
  import Standings

  // ---- Event timeline ----

  /** The events the timeline shows: goals and cards. */
  predicate IsShownEvent(e: Event)
  {
    e.kind == "Goal" || e.kind == "Card"
  }

  /** What the timeline renders: a "no events" text, a "no goals or cards"
      text, or the list of shown events. */
  datatype Timeline = NoEvents | NoGoalsOrCards | Shown(events: seq<Event>)

  /** `EventTimeline`: nothing to show for a missing or empty event list; else
      the goals and cards, in their original order, or a text when there are none. */
  function EventTimeline(events: Option<seq<Event>>): (t: Timeline)
    ensures t.NoEvents? <==> events.None? || events.value == []
    ensures t.Shown? ==> t.events != [] && t.events == Filter(events.value, IsShownEvent)
  {
    if events.None? || events.value == [] then NoEvents
    else
      var shown := Filter(events.value, IsShownEvent);
      if shown == [] then NoGoalsOrCards else Shown(shown)
  }

  /** The timeline lists exactly the goal and card events of a non-empty event
      list: in their original order, each as often as in the input, and it
      falls back to its text exactly when there is no goal and no card. */
  lemma TimelineIsGoalsAndCards(events: seq<Event>)
    requires events != []
    ensures var t := EventTimeline(Some(events));
            && (t.NoGoalsOrCards? <==> forall i :: 0 <= i < |events| ==> !IsShownEvent(events[i]))
            && (t.Shown? ==> IsSubsequence(t.events, events))
            && (t.Shown? ==> forall e: Event :: multiset(t.events)[e] ==
                                (if IsShownEvent(e) then multiset(events)[e] else 0))
  {
    var shown := Filter(events, IsShownEvent);
    FilterIsSubsequence(events, IsShownEvent);
    forall e: Event ensures multiset(shown)[e] == if IsShownEvent(e) then multiset(events)[e] else 0 {
      FilterCount(events, IsShownEvent, e);
    }
    if shown == [] {
      forall i | 0 <= i < |events| ensures !IsShownEvent(events[i]) {
        FilterCount(events, IsShownEvent, events[i]);
      }
    }
  }

  // ---- Favourite status ----

  /** The position of the first favourite saved for the fixture printed as `key`, or -1. */
  function FavoriteIndex(favorites: seq<Favorite>, key: string): (i: int)
    ensures -1 <= i < |favorites|
    ensures i >= 0 ==> favorites[i].matchId == key
    ensures forall j :: 0 <= j < |favorites| && (i == -1 || j < i) ==> favorites[j].matchId != key
    decreases |favorites|
  {
    if favorites == [] then -1
    else if favorites[0].matchId == key then 0
    else
      var k := FavoriteIndex(favorites[1..], key);
      if k == -1 then -1 else k + 1
  }

  /** `favoriteItem`: the first of the viewer's favourites (absent while they are
      not loaded or nobody is signed in) whose `match_id` equals the fixture
      identifier as a string. */
  function FindFavorite(favorites: Option<seq<Favorite>>, fixtureId: int): (found: Option<Favorite>)
    ensures found.Some? ==> favorites.Some? && found.value.matchId == IntToString(fixtureId) &&
                            FavoriteIndex(favorites.value, IntToString(fixtureId)) >= 0 &&
                            found.value == favorites.value[FavoriteIndex(favorites.value, IntToString(fixtureId))]
  {
    if favorites.None? then None
    else
      var i := FavoriteIndex(favorites.value, IntToString(fixtureId));
      if i >= 0 then Some(favorites.value[i]) else None
  }

  /** `isFavorite`: a favourite was found. */
  predicate IsFavorite(favorites: Option<seq<Favorite>>, fixtureId: int)
  {
    FindFavorite(favorites, fixtureId).Some?
  }

  /** The fixture is a favourite exactly when some loaded favourite carries its
      identifier as a string. */
  lemma IsFavoriteIff(favorites: Option<seq<Favorite>>, fixtureId: int)
    ensures IsFavorite(favorites, fixtureId) <==>
      favorites.Some? && exists i :: 0 <= i < |favorites.value| && favorites.value[i].matchId == IntToString(fixtureId)
  {
    if favorites.Some? && exists i :: 0 <= i < |favorites.value| && favorites.value[i].matchId == IntToString(fixtureId) {
      var i :| 0 <= i < |favorites.value| && favorites.value[i].matchId == IntToString(fixtureId);
      assert FavoriteIndex(favorites.value, IntToString(fixtureId)) != -1;
    }
  }

  /** The record `addFavorite` stores for a user and a match: the fixture
      identifier as a string, the league name and the teams. The store assigns
      the identifier. */
  function SavedFavorite(id: int, userId: string, m: Match): (fav: Favorite)
    requires m.league.Some?
    ensures ParseInt(fav.matchId) == Some(m.fixture.id)
  {
    ParseIntOfIntToString(m.fixture.id);
    Favorite(id, userId, IntToString(m.fixture.id), m.league.value.name, m.teams)
  }

  /** Once the favourite saved for a match is among the loaded favourites, the
      detail screen of that match shows it as a favourite. */
  lemma SavedFavoriteIsFound(favorites: seq<Favorite>, id: int, userId: string, m: Match)
    requires m.league.Some? && SavedFavorite(id, userId, m) in favorites
    ensures IsFavorite(Some(favorites), m.fixture.id)
  {
    var i :| 0 <= i < |favorites| && favorites[i] == SavedFavorite(id, userId, m);
    IsFavoriteIff(Some(favorites), m.fixture.id);
  }

  /** A favourite saved for one match marks no other fixture. */
  lemma SavedFavoriteMatchesOnlyItsFixture(id: int, userId: string, m: Match, fixtureId: int)
    requires m.league.Some?
    ensures IsFavorite(Some([SavedFavorite(id, userId, m)]), fixtureId) <==> fixtureId == m.fixture.id
  {
    if IsFavorite(Some([SavedFavorite(id, userId, m)]), fixtureId) {
      IntToStringInjective(fixtureId, m.fixture.id);
    }
  }

  // ---- Lineups ----

  /** The lineup shown on the pitch: the home team's or the away team's. */
  datatype Side = Home | Away

  /** A starter drawn on the pitch at `at` (left and top, in percent). */
  datatype Marker = Marker(player: LineupPlayer, at: Formation.Point)

  /** What the lineups section renders: a "not available" text, or both teams'
      names with the selected lineup's starters on the pitch and its substitutes. */
  datatype LineupsView =
    | NotAvailable
    | Pitch(home: Lineup, away: Lineup, selected: Side, markers: seq<Marker>, substitutes: seq<LineupPlayer>)

  /** `Math.max(6, Math.min(90, y))`: the marker's top edge kept inside the pitch image. */
  function VisibleY(y: int): (v: int)
    ensures 6 <= v <= 90
    ensures 6 <= y <= 90 ==> v == y
  {
    if y > 90 then 90 else if y < 6 then 6 else y
  }

  /** `LineupsSection`: fewer than two lineups show a text; otherwise the
      selected side's starters are placed at `computePositions(formation,
      startXI.length)`, one point per starter in order, and its substitutes are
      listed. The clamp of the top edge never moves a computed point. */
  method LineupsSection(lineups: Option<seq<Lineup>>, selected: Side) returns (view: LineupsView)
    ensures view.NotAvailable? <==> lineups.None? || |lineups.value| < 2
    ensures view.Pitch? ==>
      var chosen := if selected == Home then lineups.value[0] else lineups.value[1];
      var positions := Formation.Fit(Formation.Layout(Formation.ParseFormation(chosen.formation)), |chosen.startXI|);
      && view.home == lineups.value[0] && view.away == lineups.value[1] && view.selected == selected
      && |view.markers| == |chosen.startXI|
      && (forall i :: 0 <= i < |chosen.startXI| ==> view.markers[i] == Marker(chosen.startXI[i], positions[i]))
      && view.substitutes == chosen.substitutes
  {
    if lineups.None? || |lineups.value| < 2 {
      return NotAvailable;
    }
    var homeLineup, awayLineup := lineups.value[0], lineups.value[1];
    var chosen := if selected == Home then homeLineup else awayLineup;
    var positions := Formation.ComputePositions(chosen.formation, |chosen.startXI|);
    Formation.PositionsOnPitch(chosen.formation, |chosen.startXI|);
    var markers := seq(|chosen.startXI|, i requires 0 <= i < |chosen.startXI| =>
      var p := if i < |positions| then positions[i] else Formation.Fallback;
      Marker(chosen.startXI[i], Formation.Point(p.x, VisibleY(p.y))));
    view := Pitch(homeLineup, awayLineup, selected, markers, chosen.substitutes);
  }

  /** The two lines of a marker's caption. */
  datatype Caption = Caption(first: string, last: string)

  /** The caption of a starter: the first word of the name, then the remaining
      words; a player without a name is captioned `?`. */
  function MarkerCaption(name: Option<string>): (c: Caption)
    ensures name.None? ==> c == Caption("?", "")
    ensures ' ' !in c.first
  {
    var parts := if name.Some? then Split(name.value, ' ') else ["?"];
    Caption(parts[0], Join(parts[1..], ' '))
  }

  /** The caption loses nothing: the first line is the name up to its first
      space, and the second line is everything after that space. */
  lemma MarkerCaptionRejoins(name: string)
    ensures var c := MarkerCaption(Some(name));
            && ' ' !in c.first
            && (' ' !in name ==> c.first == name && c.last == "")
            && (' ' in name ==> name == c.first + " " + c.last)
  {
    var parts := Split(name, ' ');
    JoinSplit(name, ' ');
    if |parts| == 1 {
      assert name == parts[0];
    } else {
      assert Join(parts, ' ') == parts[0] + [' '] + Join(parts[1..], ' ');
      assert ' ' in name by {
        assert name[|parts[0]|] == ' ';
      }
    }
  }

  // ---- League table ----

  /** `LeagueTable`: the static table of the match's league (none when the league
      has no table or an empty one), reconciled for the home and away teams. */
  method LeagueTable(tables: map<int, seq<StandingsRow>>, leagueId: int, homeId: int, awayId: int)
    returns (rows: Option<seq<StandingsRow>>)
    ensures rows.None? <==> leagueId !in tables || tables[leagueId] == []
    ensures rows.Some? ==> rows.value == Standings.Reconciled(tables[leagueId], homeId, awayId)
  {
    var standings := if leagueId in tables then tables[leagueId] else [];
    if standings == [] {
      return None;
    }
    var display := Standings.DisplayRows(standings, homeId, awayId);
    return Some(display);
  }
}
