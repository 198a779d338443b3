/** The home screen's match list logic: the league filter buttons built from the
    matches, the league and status filters, the toggle and reset rules of the
    selection, the shortened league labels and the match-count text. */
module HomeScreen {
  import opened Seqs
  import opened Text
  import opened Domain

  // ---- League buttons ----

  /** One league filter button. */
  datatype LeagueOption = LeagueOption(id: int, name: string)

  /** `m.league?.id && m.league?.name`: the match names its league by a truthy
      (non-zero) identifier and a truthy (non-empty) name. */
  predicate HasLeague(m: Match)
  {
    m.league.Some? && m.league.value.id.Some? && m.league.value.id.value != 0 &&
    m.league.value.name.Some? && m.league.value.name.value != ""
  }

  function LeagueIdOf(m: Match): int
    requires HasLeague(m)
  {
    m.league.value.id.value
  }

  function LeagueNameOf(m: Match): string
    requires HasLeague(m)
  {
    m.league.value.name.value
  }

  /** The `leagues` map after `ms`: each league identifier with the name last set for it. */
  function LeagueNames(ms: seq<Match>): map<int, string>
    decreases |ms|
  {
    if ms == [] then map[]
    else
      var prev := LeagueNames(ms[..|ms| - 1]);
      var m := ms[|ms| - 1];
      if HasLeague(m) then prev[LeagueIdOf(m) := LeagueNameOf(m)] else prev
  }

  /** The `leagues` map's keys in insertion order: each identifier where it was first set. */
  function LeagueOrder(ms: seq<Match>): seq<int>
    decreases |ms|
  {
    if ms == [] then []
    else
      var prev := LeagueOrder(ms[..|ms| - 1]);
      var m := ms[|ms| - 1];
      if HasLeague(m) && LeagueIdOf(m) !in prev then prev + [LeagueIdOf(m)] else prev
  }

  /** The keys listed in insertion order are exactly the keys of the map. */
  lemma {:induction false} LeagueOrderIsKeys(ms: seq<Match>)
    ensures forall id :: id in LeagueOrder(ms) <==> id in LeagueNames(ms)
    ensures forall i :: 0 <= i < |LeagueOrder(ms)| ==> LeagueOrder(ms)[i] in LeagueNames(ms)
    decreases |ms|
  {
    if ms != [] {
      LeagueOrderIsKeys(ms[..|ms| - 1]);
    }
  }

  /** `Array.from(leagues.entries())`: one button per key, in insertion order. */
  function Leagues(ms: seq<Match>): (leagues: seq<LeagueOption>)
    ensures |leagues| == |LeagueOrder(ms)|
    ensures forall i :: 0 <= i < |leagues| ==> leagues[i].id == LeagueOrder(ms)[i]
  {
    LeagueOrderIsKeys(ms);
    Options(LeagueOrder(ms), LeagueNames(ms))
  }

  /** One button per listed key, named as the map says. */
  function Options(order: seq<int>, names: map<int, string>): (options: seq<LeagueOption>)
    requires forall i :: 0 <= i < |order| ==> order[i] in names
    ensures |options| == |order|
    ensures forall i :: 0 <= i < |order| ==> options[i] == LeagueOption(order[i], names[order[i]])
  {
    seq(|order|, i requires 0 <= i < |order| => LeagueOption(order[i], names[order[i]]))
  }

  /** `uniqueLeagues`: walk the matches, setting each named league's name in a
      map that remembers the order keys were first inserted. */
  method UniqueLeagues(matches: seq<Match>) returns (leagues: seq<LeagueOption>)
    ensures leagues == Leagues(matches)
  {
    var order: seq<int> := [];
    var names: map<int, string> := map[];
    for k := 0 to |matches|
      invariant order == LeagueOrder(matches[..k]) && names == LeagueNames(matches[..k])
    {
      var m := matches[k];
      assert matches[..k + 1][..k] == matches[..k];
      if m.league.Some? && m.league.value.id.Some? && m.league.value.id.value != 0 &&
         m.league.value.name.Some? && m.league.value.name.value != "" {
        var id := m.league.value.id.value;
        LeagueOrderIsKeys(matches[..k]);
        if id !in names {
          order := order + [id];
        }
        names := names[id := m.league.value.name.value];
      }
    }
    assert matches[..|matches|] == matches;
    LeagueOrderIsKeys(matches);
    leagues := Options(order, names);
  }

  /** No league gets two buttons. */
  lemma {:induction false} LeagueOrderDistinct(ms: seq<Match>)
    ensures forall i, j :: 0 <= i < j < |LeagueOrder(ms)| ==> LeagueOrder(ms)[i] != LeagueOrder(ms)[j]
    decreases |ms|
  {
    if ms != [] {
      LeagueOrderDistinct(ms[..|ms| - 1]);
    }
  }

  /** A league gets a button exactly when some match names it. */
  lemma {:induction false} LeagueNamesKeys(ms: seq<Match>, id: int)
    ensures id in LeagueNames(ms) <==> exists k :: 0 <= k < |ms| && HasLeague(ms[k]) && LeagueIdOf(ms[k]) == id
    decreases |ms|
  {
    if ms != [] {
      var init := ms[..|ms| - 1];
      LeagueNamesKeys(init, id);
      if exists k :: 0 <= k < |init| && HasLeague(init[k]) && LeagueIdOf(init[k]) == id {
        var k :| 0 <= k < |init| && HasLeague(init[k]) && LeagueIdOf(init[k]) == id;
        assert ms[k] == init[k];
      }
      if exists k :: 0 <= k < |ms| && HasLeague(ms[k]) && LeagueIdOf(ms[k]) == id {
        var k :| 0 <= k < |ms| && HasLeague(ms[k]) && LeagueIdOf(ms[k]) == id;
        if k < |init| {
          assert init[k] == ms[k];
        }
      }
    }
  }

  /** A button carries the name of the last match that names its league. */
  lemma {:induction false} LeagueNamesLast(ms: seq<Match>, k: nat)
    requires k < |ms| && HasLeague(ms[k])
    requires forall j :: k < j < |ms| && HasLeague(ms[j]) ==> LeagueIdOf(ms[j]) != LeagueIdOf(ms[k])
    ensures LeagueIdOf(ms[k]) in LeagueNames(ms) && LeagueNames(ms)[LeagueIdOf(ms[k])] == LeagueNameOf(ms[k])
    decreases |ms|
  {
    if k < |ms| - 1 {
      var init := ms[..|ms| - 1];
      assert init[k] == ms[k];
      LeagueNamesLast(init, k);
    }
  }

  /** Buttons are in order of first appearance: the buttons of the first `k`
      matches come first, and a league first named by match `k` comes right
      after them. */
  lemma {:induction false} LeagueOrderPrefix(ms: seq<Match>, k: nat)
    requires k <= |ms|
    ensures LeagueOrder(ms[..k]) <= LeagueOrder(ms)
    ensures k < |ms| && HasLeague(ms[k]) && LeagueIdOf(ms[k]) !in LeagueOrder(ms[..k]) ==>
              |LeagueOrder(ms[..k])| < |LeagueOrder(ms)| &&
              LeagueOrder(ms)[|LeagueOrder(ms[..k])|] == LeagueIdOf(ms[k])
    decreases |ms| - k
  {
    if k < |ms| {
      LeagueOrderPrefix(ms, k + 1);
      assert ms[..k + 1][..k] == ms[..k];
    } else {
      assert ms[..k] == ms;
    }
  }

  // ---- Filters ----

  /** The selection: a league identifier and a status short code, each possibly unset. */
  datatype Filters = Filters(league: Option<int>, status: Option<string>)

  /** `m.league?.id === selectedLeague`. */
  predicate InLeague(m: Match, league: int)
  {
    m.league.Some? && m.league.value.id == Some(league)
  }

  /** `m.fixture?.status?.short === selectedStatus`. */
  predicate HasStatus(m: Match, status: string)
  {
    m.fixture.status.Some? && m.fixture.status.value.short == Some(status)
  }

  /** The match passes every active filter. */
  predicate Selected(m: Match, f: Filters)
  {
    (f.league.None? || InLeague(m, f.league.value)) && (f.status.None? || HasStatus(m, f.status.value))
  }

  /** `filteredMatches`: the league filter when a league is selected, then the
      status filter when a status is selected. */
  function FilteredMatches(matches: seq<Match>, f: Filters): (shown: seq<Match>)
    ensures shown == Filter(matches, m => Selected(m, f))
  {
    var selected := (m: Match) => Selected(m, f);
    if f.league.Some? && f.status.Some? then
      FilterTwice(matches, m => InLeague(m, f.league.value), m => HasStatus(m, f.status.value), selected);
      Filter(Filter(matches, m => InLeague(m, f.league.value)), m => HasStatus(m, f.status.value))
    else if f.league.Some? then
      FilterSame(matches, m => InLeague(m, f.league.value), selected);
      Filter(matches, m => InLeague(m, f.league.value))
    else if f.status.Some? then
      FilterSame(matches, m => HasStatus(m, f.status.value), selected);
      Filter(matches, m => HasStatus(m, f.status.value))
    else
      FilterKeepsAll(matches, selected);
      matches
  }

  /** Filters with the same predicate agree. */
  lemma {:induction false} FilterSame(s: seq<Match>, p: Match -> bool, q: Match -> bool)
    requires forall m :: p(m) == q(m)
    ensures Filter(s, p) == Filter(s, q)
    decreases |s|
  {
    if s != [] {
      FilterSame(s[1..], p, q);
    }
  }

  /** The list shows the matches that pass the active filters, in their order,
      each as often as in the input, and no other. */
  lemma FilteredMatchesExactly(matches: seq<Match>, f: Filters)
    ensures IsSubsequence(FilteredMatches(matches, f), matches)
    ensures forall m: Match :: multiset(FilteredMatches(matches, f))[m] ==
              if Selected(m, f) then multiset(matches)[m] else 0
  {
    FilterIsSubsequence(matches, m => Selected(m, f));
    forall m: Match ensures multiset(FilteredMatches(matches, f))[m] ==
                            if Selected(m, f) then multiset(matches)[m] else 0 {
      FilterCount(matches, m => Selected(m, f), m);
    }
  }

  // ---- Selection rules ----

  /** The status buttons. */
  const Statuses: seq<string> := ["1H", "2H", "HT", "FT", "NS"]

  /** Pressing a filter button: pressing the selected value clears it, pressing
      any other value selects that value. */
  function Toggle<T(==)>(selected: Option<T>, pressed: T): (next: Option<T>)
    ensures next.None? <==> selected == Some(pressed)
    ensures next.Some? ==> next == Some(pressed)
  {
    if selected == Some(pressed) then None else Some(pressed)
  }

  /** Pressing a league button. */
  function PressLeague(f: Filters, id: int): (g: Filters)
    ensures g.status == f.status
    ensures g.league.None? <==> f.league == Some(id)
    ensures g.league.Some? ==> g.league == Some(id)
  {
    f.(league := Toggle(f.league, id))
  }

  /** Pressing a status button. */
  function PressStatus(f: Filters, status: string): (g: Filters)
    ensures g.league == f.league
    ensures g.status.None? <==> f.status == Some(status)
    ensures g.status.Some? ==> g.status == Some(status)
  {
    f.(status := Toggle(f.status, status))
  }

  /** `hasActiveFilters`: a league or a status is selected. */
  predicate HasActiveFilters(f: Filters)
  {
    f.league.Some? || f.status.Some?
  }

  /** The reset button clears both selections. */
  function Reset(f: Filters): (g: Filters)
    ensures !HasActiveFilters(g)
  {
    Filters(None, None)
  }

  /** After a reset no filter is active and the whole list shows; the list is
      the whole list whenever no filter is active. */
  lemma ResetShowsAll(matches: seq<Match>, f: Filters)
    ensures !HasActiveFilters(Reset(f))
    ensures !HasActiveFilters(f) ==> FilteredMatches(matches, f) == matches
    ensures FilteredMatches(matches, Reset(f)) == matches
  {
  }

  /** A league button selects its league, keeping the status; pressed again,
      it restores the unselected state. */
  lemma PressLeagueTwice(f: Filters, id: int)
    requires f.league.None?
    ensures PressLeague(f, id) == f.(league := Some(id))
    ensures PressLeague(PressLeague(f, id), id) == f
  {
  }

  /** A status button selects its status, keeping the league; pressed again,
      it restores the unselected state. */
  lemma PressStatusTwice(f: Filters, status: string)
    requires f.status.None?
    ensures PressStatus(f, status) == f.(status := Some(status))
    ensures PressStatus(PressStatus(f, status), status) == f
  {
  }

  /** Pressing a league button while another league is selected switches the
      selection to it; the list then holds only that league's matches. */
  lemma PressOtherLeague(matches: seq<Match>, f: Filters, id: int)
    requires f.league != Some(id)
    ensures PressLeague(f, id).league == Some(id)
    ensures forall m :: m in FilteredMatches(matches, PressLeague(f, id)) ==> InLeague(m, id)
  {
    var g := PressLeague(f, id);
    FilteredMatchesExactly(matches, g);
    forall m | m in FilteredMatches(matches, g) ensures InLeague(m, id) {
      assert multiset(FilteredMatches(matches, g))[m] > 0;
    }
  }

  // ---- Labels ----

  /** The label of a league button: a name longer than 12 characters is cut to
      its first 12 and marked with `.`. */
  function LeagueLabel(name: string): (caption: string)
    ensures |caption| <= 13 && |caption| <= |name| + 1
    ensures |name| <= 12 ==> caption == name
    ensures |name| > 12 ==> |caption| == 13 && caption[..12] == name[..12] && caption[12] == '.'
  {
    if |name| > 12 then name[..12] + "." else name
  }

  /** Shortening a label again changes nothing. */
  lemma LeagueLabelIdempotent(name: string)
    ensures LeagueLabel(LeagueLabel(name)) == LeagueLabel(name)
  {
    if |name| > 12 {
      var caption := LeagueLabel(name);
      assert caption[..12] + "." == caption;
    }
  }

  /** The plural ending of `zápas`: none for exactly one match, `ov` otherwise. */
  function MatchCountSuffix(count: nat): (suffix: string)
    ensures suffix == "" <==> count == 1
    ensures suffix != "" ==> suffix == "ov"
  {
    if count == 1 then "" else "ov"
  }

  /** The count line above the list, e.g. `1 zápas`, `6 zápasov`. */
  function MatchCountText(count: nat): (text: string)
  {
    NatToString(count) + " zápas" + MatchCountSuffix(count)
  }

  /** The count line starts with the count: `parseInt` reads it back. */
  lemma MatchCountTextReadsBack(count: nat)
    ensures ParseInt(MatchCountText(count)) == Some(count)
  {
    var suffix := MatchCountSuffix(count);
    var rest := " zápas" + suffix;
    assert rest[0] == ' ' && !IsDigit(rest[0]);
    ParseIntOfNatThen(count, rest);
    assert MatchCountText(count) == NatToString(count) + rest;
  }
}
