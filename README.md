# Live football screens — a Dafny model

This project models the logic behind the screens of a React Native live-football
app: the home screen's match list with its league and status filters, the match
card, and the match detail screen. The detail screen has a timeline of goals and
cards, the favourite lookup, a lineup pitch with a marker per starter, and a
league table in which the two teams of the match are promoted. The model also
covers the mock data module that feeds these screens offline: the lineup
generator with its global player-id counter, and the static fixtures, events,
favourites and standings.

The modules follow the program:

- `Seqs` and `Text` hold the JavaScript primitives the screens rely on:
  - `filter` and `splice` on arrays;
  - `split` and `join` on one character;
  - `parseInt(s, 10)`, `String(n)` and ASCII `toUpperCase`.
- `Domain` holds the records shared by the screens.
- `Formation` models `computePositions`.
- `Standings` models the league table's `displayRows`.
- `MatchDetail` models the rest of the detail screen.
- `MockData` models the mock data: the generator is a class whose field is the
  counter.
- `HomeScreen` models the home screen.
- `MatchCard` models the match card.
- `Scenarios` works the definitions through on the mock data.

The pure parts are functions with lemmas. The parts of the source that loop or
mutate are methods proved against those functions:

- the coordinate loop of `computePositions`;
- the splice sequence of `displayRows`;
- the `Map` walk of `uniqueLeagues`;
- the generator with its counter.

Paths below are relative to the repository root. JavaScript's `Math.round` on
the non-negative rationals that occur is modelled exactly, as
`floor(num/den + 1/2)`.

## Model

| member | source | states |
|---|---|---|
| Formation.ParseFormation | src/screens/MatchDetail.tsx:126-131 | the line sizes are never empty and all positive (the exact values are stated by `Formation.ParseFormationOfLabel` and `Formation.ParseFormationDefaults`) |
| Formation.ParseFormationOfLabel | src/screens/MatchDetail.tsx:128-130 | positive line sizes printed with `-` between them parse back to the same sizes |
| Formation.ParseFormationDefaults | src/screens/MatchDetail.tsx:126-131 | an absent label and `""` give `[4,4,2]` |
| Formation.MalformedFormationDefaults | src/screens/MatchDetail.tsx:126-131 | a label of two characters that are neither white space, sign nor digit around a dash (such as `"x-y"`) gives `[4,4,2]` |
| Formation.NoPositiveTokens | src/screens/MatchDetail.tsx:129-130 | tokens none of which parses to a number leave no line sizes |
| Formation.ParseFormation433 | src/screens/MatchDetail.tsx:129-130 | `"4-3-3"` gives `[4,3,3]` |
| Formation.ParseFormation352 | src/screens/MatchDetail.tsx:129-130 | `"3-5-2"` gives `[3,5,2]` |
| Formation.RoundDiv | src/screens/MatchDetail.tsx:144 | `Math.round(num/den)` is the integer r with `r - 1/2 <= num/den < r + 1/2` |
| Formation.RoundDivUnique | src/screens/MatchDetail.tsx:144 | the rounding bounds determine the rounded value |
| Formation.RoundDivExact | src/screens/MatchDetail.tsx:152 | whole numbers round to themselves |
| Formation.RoundDivShift | src/screens/MatchDetail.tsx:152 | adding one whole unit adds one to the rounded value |
| Formation.RoundDivMono | src/screens/MatchDetail.tsx:144 | rounding is monotone |
| Formation.RoundDivStrict | src/screens/MatchDetail.tsx:152 | a numerator one whole unit larger rounds strictly higher |
| Formation.RoundDivBetween | src/screens/MatchDetail.tsx:144 | a value between two integers rounds into that range |
| Formation.ComputePositions | src/screens/MatchDetail.tsx:125-161 | returns exactly `startersCount` points, the goalkeeper's `(50,85)` first; the points are the layout of the parsed line sizes, padded with `(50,50)` or cut |
| Formation.PlaceLines | src/screens/MatchDetail.tsx:133-160 | the loop pushes the goalkeeper, then every line left to right; the result equals `Fit(Layout(counts))` |
| Formation.PushLine | src/screens/MatchDetail.tsx:145-155 | one line of `n` players at height `y` appends exactly the points `(LineX(i, n), y)` for `i` from 0 to `n - 1`, one point `(50, y)` for a single player |
| Formation.PadAndCut | src/screens/MatchDetail.tsx:159-160 | padding with `(50,50)` and cutting leaves exactly the first `count` points, followed by `(50,50)` where there were too few |
| Formation.Fit | src/screens/MatchDetail.tsx:159-160 | the result has exactly `count` points: the given ones, then `(50,50)` |
| Formation.LinePoints | src/screens/MatchDetail.tsx:145-155 | a line of `n` players has `n` points at its height, the `i`-th at `LineX(i, n)` |
| Formation.Outfield | src/screens/MatchDetail.tsx:142-156 | the outfield has one point per player of the lines placed so far (the sum of their sizes) |
| Formation.Layout | src/screens/MatchDetail.tsx:133-156 | before padding there is one point for the goalkeeper plus one per outfield player |
| Formation.OutfieldAt | src/screens/MatchDetail.tsx:142-156 | player `i` of line `line` comes after every player of the earlier lines, at `(LineX(i,n), LineY(line))` |
| Formation.LayoutAt | src/screens/MatchDetail.tsx:133-156 | the same position holds in the whole layout, after the goalkeeper |
| Formation.LineY | src/screens/MatchDetail.tsx:138-144 | every outfield line lies between heights 18 and 65 |
| Formation.LineYMonotone | src/screens/MatchDetail.tsx:140-144 | a later line is never lower than an earlier one |
| Formation.LineYStrict | src/screens/MatchDetail.tsx:140-144 | a later line is strictly higher while the step between lines is at least one unit (at most 48 lines) |
| Formation.LineYEnds | src/screens/MatchDetail.tsx:138-144 | with two or more lines, the first sits at 65 and the last at 18 |
| Formation.LineX | src/screens/MatchDetail.tsx:148-152 | every player lies between 15 and 85 across the pitch |
| Formation.LineXEnds | src/screens/MatchDetail.tsx:148-152 | a line of two or more runs from 15 to 85 |
| Formation.LineXMonotone | src/screens/MatchDetail.tsx:150-152 | within a line, x never decreases from left to right |
| Formation.LineXStrict | src/screens/MatchDetail.tsx:150-152 | within a line, x strictly increases for lines of up to 71 players |
| Formation.OutfieldOnPitch | src/screens/MatchDetail.tsx:142-156 | every outfield point lies in `[15,85] x [18,65]` |
| Formation.PositionsOnPitch | src/screens/MatchDetail.tsx:125-161 | every point returned lies in `[15,85] x [18,85]` |
| Formation.LayoutOnPitch | src/screens/MatchDetail.tsx:133-156 | every point of the unpadded layout lies in `[15,85] x [18,85]` |
| Formation.FitOnPitch | src/screens/MatchDetail.tsx:159-160 | padding with `(50,50)` and truncating keep every point in `[15,85] x [18,85]` |
| Formation.DefaultLayout | src/screens/MatchDetail.tsx:135-156 | the `[4,4,2]` layout is the goalkeeper, two lines of four at heights 65 and 42, and two players at 18 |
| Formation.DefaultHeights | src/screens/MatchDetail.tsx:138-144 | three lines sit at heights 65, 42 (41.5 rounded up) and 18 |
| Formation.LineOfFour | src/screens/MatchDetail.tsx:148-153 | a line of four players sits at 15, 38, 62 and 85 across |
| Formation.LineOfTwo | src/screens/MatchDetail.tsx:148-153 | a line of two players sits at 15 and 85 across |
| Formation.DefaultPositions | src/screens/MatchDetail.tsx:125-161 | eleven starters without a label get exactly the default layout |
| Standings.FindIndex | src/screens/MatchDetail.tsx:245 | `findIndex` gives the first row of the team, or -1 when no row has it |
| Standings.TakeTeam | src/screens/MatchDetail.tsx:247-250 | a team's first row is spliced out, leaving one row fewer and the same multiset apart from it; a missing team gets a placeholder row and nothing is removed |
| Standings.Take | src/screens/MatchDetail.tsx:245-250 | the find-and-splice step computes `TakeTeam` |
| Standings.AwayIndex | src/screens/MatchDetail.tsx:254 | the away row's insert index is between 1 and 3, and never past the end |
| Standings.Renumber | src/screens/MatchDetail.tsx:258 | row `i` keeps everything except its rank, which becomes `i + 1` |
| Standings.Arrange | src/screens/MatchDetail.tsx:253-255 | the home row comes first and the away row at the insert index; every other row moves to its shifted index |
| Standings.RenumberForgetsInsertRanks | src/screens/MatchDetail.tsx:253-258 | the ranks given on insertion are overwritten by the final renumbering |
| Standings.ReconciledLayout | src/screens/MatchDetail.tsx:239-259 | the output has two more rows than the leftover rows: home first, away at `min(3, n-1)`, the others in order, ranks `1..n` |
| Standings.DisplayRows | src/screens/MatchDetail.tsx:239-259 | the splice sequence on a copy of the table computes `Reconciled` |
| Standings.PlayingTeamsNearTop | src/screens/MatchDetail.tsx:253-255 | the home team is shown first and the away team within rows 2 to 4, both highlighted |
| Standings.TakeTeamKeepsOthers | src/screens/MatchDetail.tsx:247-250 | a splice keeps the other rows in order, and other teams' rows as often as before |
| Standings.ReconcileKeepsOthers | src/screens/MatchDetail.tsx:240-258 | all rows but the two promoted ones are kept, in order and with their multiplicities; only rows that exist are removed |
| Standings.Reconciled | src/screens/MatchDetail.tsx:239-259 | the table shown has at least two rows, the home team's first, and the rows are ranked 1 to n by position |
| Standings.MissingTeamsGetPlaceholders | src/screens/MatchDetail.tsx:245-250 | a team without a row is shown as a placeholder named `Home` or `Away` with zero points and no record: the home team first, the away team at index `min(3, n - 1)` |
| Standings.TopTwoPlaying | src/screens/MatchDetail.tsx:239-259 | when the top two of a table of at least four rows meet, the leader stays first, the runners-up drop to fourth, the old third and fourth rows move up to second and third, and every row from the fifth on keeps its place; each row's rank becomes its position |
| MatchDetail.EventTimeline | src/screens/MatchDetail.tsx:77-82 | no events or an empty list shows the no-events text; otherwise the goals and cards are shown, or a text when there are none |
| MatchDetail.TimelineIsGoalsAndCards | src/screens/MatchDetail.tsx:80-82 | the list is exactly the goal and card events, in order, each as often as in the input; the fallback text appears exactly when there is no goal and no card |
| MatchDetail.FavoriteIndex | src/screens/MatchDetail.tsx:302 | the first favourite whose `match_id` is the key, or -1 when there is none |
| MatchDetail.FindFavorite | src/screens/MatchDetail.tsx:301-304 | a found favourite is the first loaded one whose `match_id` is the fixture id as a string |
| MatchDetail.IsFavoriteIff | src/screens/MatchDetail.tsx:301-305 | the fixture is a favourite if and only if some loaded favourite carries its id as a string |
| MatchDetail.SavedFavorite | src/api/favourite.ts:4-10 | the stored `match_id` parses back to the fixture id |
| MatchDetail.SavedFavoriteIsFound | src/screens/MatchDetail.tsx:301-305 | once the saved favourite is loaded, the match shows as a favourite |
| MatchDetail.SavedFavoriteMatchesOnlyItsFixture | src/screens/MatchDetail.tsx:302 | a saved favourite marks its own fixture and no other |
| MatchDetail.VisibleY | src/screens/MatchDetail.tsx:178 | the marker's top stays in `[6,90]`, and a value already inside is unchanged |
| MatchDetail.LineupsSection | src/screens/MatchDetail.tsx:115-232 | fewer than two lineups show a text; otherwise every starter of the selected side gets exactly its computed point, and the side's substitutes are listed |
| MatchDetail.MarkerCaption | src/screens/MatchDetail.tsx:180-182 | a player without a name is captioned `?` over an empty line; the first line never holds a space |
| MatchDetail.MarkerCaptionRejoins | src/screens/MatchDetail.tsx:180-182 | the caption loses nothing: its first line is the name up to the first space, and the rest follows on the second line |
| MatchDetail.LeagueTable | src/screens/MatchDetail.tsx:235-259 | there is no table exactly when the league has no rows or an empty list; otherwise the table is the reconciled one |
| MockData.JerseyNumber | src/mock/mockData.ts:22-24 | a shirt number is between 1 and 99 |
| MockData.JerseyNumberReachesAll | src/mock/mockData.ts:22-24 | every number from 1 to 99 can be drawn |
| MockData.Positions | src/mock/mockData.ts:32-43 | there is one starter position per counted player |
| MockData.PositionsPrefix | src/mock/mockData.ts:32-43 | the positions of the earlier formation entries come first |
| MockData.PositionAt | src/mock/mockData.ts:32-41 | player `i` of entry `e` plays that entry's position |
| MockData.PositionsOneMore | src/mock/mockData.ts:32-43 | one more formation entry appends that entry's code `count` times |
| MockData.SubPosition | src/mock/mockData.ts:53 | a substitute plays `D`, `M` or `F` |
| MockData.FormationStringRoundTrip | src/mock/mockData.ts:63 | the generated formation string parses back, on the detail screen, to the outfield counts |
| MockData.CoachName | src/mock/mockData.ts:61 | the coach is the title followed by the team name's text after its last space (the whole name when there is no space) |
| MockData.Starters | src/mock/mockData.ts:32-43 | one drafted starter per position |
| MockData.Substitutes | src/mock/mockData.ts:46-55 | seven substitutes, drafted after the starters |
| MockData.PlayerIds | src/mock/mockData.ts:36 | one id per player, starters first |
| MockData.IdRange | src/mock/mockData.ts:36 | `count` consecutive ids from `first` |
| MockData.TeamLineupShape | src/mock/mockData.ts:27-65 | the lineup has the team, the formation's starters in order, seven substitutes in the `D`/`M`/`F` cycle, shirt numbers in 1..99, the coach and the formation string |
| MockData.TeamLineupIds | src/mock/mockData.ts:36 | the player ids run consecutively from the counter's value, starters then substitutes |
| MockData.StartersShape | src/mock/mockData.ts:32-43 | each starter plays its slot's position and has a shirt number from 1 to 99 |
| MockData.SubstitutesShape | src/mock/mockData.ts:46-55 | each substitute plays `D`, `M`, `F` in turn and has a shirt number from 1 to 99 |
| MockData.DraftedIds | src/mock/mockData.ts:36 | starters drafted from an id and the substitutes after them carry consecutive ids |
| MockData.LineupGenerator.constructor | src/mock/mockData.ts:11 | the counter starts at 2000 |
| MockData.LineupGenerator.GenerateTeamLineup | src/mock/mockData.ts:27-65 | the generated lineup is `TeamLineup` for the old counter value, and the counter advances by starters plus substitutes |
| MockData.LineupGenerator.PushStarters | src/mock/mockData.ts:32-43 | the formation loop pushes exactly `Starters` for the old counter value and advances the counter by the starter count |
| MockData.LineupGenerator.PushEntry | src/mock/mockData.ts:32-41 | the inner loop appends the entry's `count` players, each drafted with the next identifier and the entry's position, after the starters already drafted |
| MockData.LineupGenerator.PushSubstitutes | src/mock/mockData.ts:46-55 | the bench loop pushes exactly `Substitutes` after the starters and advances the counter by seven |
| MockData.Formation442Positions | src/mock/mockData.ts:4-9 | 4-4-2 has eleven starters: one G, four D, four M, two F |
| MockData.Formation442Outfield | src/mock/mockData.ts:4-9 | the 4-4-2 outfield counts are `[4,4,2]` |
| MockData.Formation442Label | src/mock/mockData.ts:63 | the 4-4-2 formation string is `"4-4-2"` |
| MockData.Formation442RoundTrip | src/mock/mockData.ts:63 | `"4-4-2"` parses back to `[4,4,2]`, whose lines plus the goalkeeper make the eleven starters |
| MockData.TeamLineup442 | src/mock/mockData.ts:27-65 | a 4-4-2 call yields eleven starters and seven substitutes with the next 18 ids |
| MockData.MockLineups | src/mock/mockData.ts:113-129 | the four mock lineups are 4-4-2 lineups whose ids start at 2000, 2018, 2036 and 2054 |
| MockData.Lineup442 | src/mock/mockData.ts:114-128 | one call yields a 4-4-2 lineup from the current counter and advances it by 18 |
| MockData.GeneratedIdsDisjoint | src/mock/mockData.ts:11 | lineups generated one after the other never share an id |
| MockData.MockStandingsInvariants | src/mock/mockData.ts:140-154 | the table has 15 rows ranked 1 to 15; points never increase; every record adds up; team ids are distinct |
| HomeScreen.Leagues | src/screens/HomeScreen.tsx:63 | one button per league, in first-insertion order |
| HomeScreen.UniqueLeagues | src/screens/HomeScreen.tsx:56-64 | the walk over the matches with the `Map` computes `Leagues` |
| HomeScreen.LeagueOrderIsKeys | src/screens/HomeScreen.tsx:57-63 | the keys listed in insertion order are exactly the map's keys |
| HomeScreen.LeagueOrderDistinct | src/screens/HomeScreen.tsx:57-63 | no league gets two buttons |
| HomeScreen.LeagueNamesKeys | src/screens/HomeScreen.tsx:58-62 | a league gets a button if and only if some match names it with a truthy id and name |
| HomeScreen.LeagueNamesLast | src/screens/HomeScreen.tsx:60 | a button shows the name from the last match of its league |
| HomeScreen.LeagueOrderPrefix | src/screens/HomeScreen.tsx:57-63 | buttons are in order of first appearance |
| HomeScreen.FilteredMatches | src/screens/HomeScreen.tsx:69-81 | the league filter followed by the status filter equals one filter keeping the matches that pass every active selection |
| HomeScreen.FilteredMatchesExactly | src/screens/HomeScreen.tsx:69-81 | the list holds exactly the selected matches, in order, each as often as in the input |
| HomeScreen.Toggle | src/screens/HomeScreen.tsx:137-139 | pressing the selected value clears it; pressing any other value selects it |
| HomeScreen.PressLeague | src/screens/HomeScreen.tsx:137-139 | a league button keeps the status; it clears the league exactly when that league was selected, and otherwise selects it |
| HomeScreen.PressStatus | src/screens/HomeScreen.tsx:154-156 | a status button keeps the league; it clears the status exactly when that status was selected, and otherwise selects it |
| HomeScreen.Reset | src/screens/HomeScreen.tsx:83-100 | after the reset button neither a league nor a status is selected, so `hasActiveFilters` is false |
| HomeScreen.PressLeagueTwice | src/screens/HomeScreen.tsx:137-139 | from a state with no league selected, a league button selects its league without touching the status; pressed again, it restores the state |
| HomeScreen.PressStatusTwice | src/screens/HomeScreen.tsx:154-156 | from a state with no status selected, a status button selects its status without touching the league; pressed again, it restores the state |
| HomeScreen.PressOtherLeague | src/screens/HomeScreen.tsx:69-81 | after pressing another league's button, only that league's matches remain |
| HomeScreen.ResetShowsAll | src/screens/HomeScreen.tsx:83 | after a reset no filter is active and the whole list shows; with no active filter the list is unfiltered |
| HomeScreen.LeagueLabel | src/screens/HomeScreen.tsx:135 | names of up to 12 characters are kept; longer ones become their first 12 characters and `.` |
| HomeScreen.LeagueLabelIdempotent | src/screens/HomeScreen.tsx:135 | shortening a label again changes nothing |
| HomeScreen.MatchCountSuffix | src/screens/HomeScreen.tsx:93 | the suffix is empty if and only if the count is 1, and `ov` otherwise |
| HomeScreen.MatchCountTextReadsBack | src/screens/HomeScreen.tsx:93 | the count line starts with the count in decimal |
| MatchCard.FirstLetter | src/components/MatchCard.tsx:27 | `s[0]` joined as text: one character, or nothing for an empty word |
| MatchCard.LeadingLetters | src/components/MatchCard.tsx:26-29 | at most two letters; the first is the name's first character when the name does not start with a space |
| MatchCard.Initials | src/components/MatchCard.tsx:23-31 | at most two characters with no lower-case ASCII letter; empty for an empty name; starts with the upper-cased first character of a name without a leading space |
| MatchCard.InitialsOfWords | src/components/MatchCard.tsx:23-31 | for any space-free pieces joined by single spaces (empty pieces allowed), the initials are the upper-cased first letters of the first two pieces, an empty piece contributing nothing |
| MatchCard.InitialsOfNonEmptyWords | src/components/MatchCard.tsx:23-31 | for non-empty space-free words joined by single spaces, the initials are the upper-cased first characters of the first word, or of the first two words when there are two or more |
| MatchCard.InitialsSkipLeadingSpace | src/components/MatchCard.tsx:27-29 | a name that starts with one space and then a single word gives just that word's upper-cased first letter (the empty leading piece contributes nothing) |
| MatchCard.InitialsSkipDoubledSpace | src/components/MatchCard.tsx:27-29 | a word followed by two spaces gives only that word's upper-cased first letter, because the empty second piece contributes nothing |
| MatchCard.TeamBadge | src/components/MatchCard.tsx:59-65 | the logo is shown if and only if it is present and non-empty; otherwise the initials of the shown name |
| MatchCard.OrEmpty | src/components/MatchCard.tsx:34-36 | `x \|\| ''` is the text when present, else empty |
| MatchCard.ScoreTextReadsBack | src/components/MatchCard.tsx:69 | split at the bullet, the two sides parse to the home and away goals, or to NaN for a `-` |
| MatchCard.BareMatchCard | src/components/MatchCard.tsx:34-39 | a match without league, status, teams or goals shows empty texts, empty initials and dashes |
| MatchCard.CardShowsGoals | src/components/MatchCard.tsx:37-38 | known goals, 0 included, are shown in decimal |
| MatchCard.CardBadgeWithoutLogo | src/components/MatchCard.tsx:59-65 | a team without a logo gets a badge whose first letter is its name's, upper-cased |
| Text.Split | src/screens/MatchDetail.tsx:129 | `split` gives at least one piece, and no piece contains the separator |
| Text.JoinSplit | src/screens/MatchDetail.tsx:180-182 | joining the pieces of a split gives back the string |
| Text.SplitJoin | src/mock/mockData.ts:63 | splitting joined pieces that lack the separator gives back the pieces |
| Text.LastPiece | src/mock/mockData.ts:61 | `split(' ').pop()` is the suffix after the last separator, or the whole string |
| Text.TrimStart | src/screens/MatchDetail.tsx:129 | what `parseInt` reads after skipping white space is no longer than the text and does not start with white space |
| Text.TrimStartIsSuffix | src/screens/MatchDetail.tsx:129 | what remains after skipping white space is a suffix of the text |
| Text.ParseIntOfNonNumeric | src/screens/MatchDetail.tsx:129 | one character that is neither white space, sign nor digit parses to NaN |
| Text.SplitTwo | src/screens/MatchDetail.tsx:129 | two pieces without the separator, joined by it, split back into the two |
| Text.DigitPrefix | src/screens/MatchDetail.tsx:129 | `parseInt` reads the longest run of leading digits |
| Text.ParseIntOfIntToString | src/screens/MatchDetail.tsx:302 | `parseInt(String(n))` is `n` |
| Text.IntToStringInjective | src/screens/MatchDetail.tsx:302 | different ids print differently |
| Text.NumberOrDash | src/components/MatchCard.tsx:69 | `n ?? '-'` parses back to `n`, or to NaN for the dash |
| Text.ParseIntOfNumberOrDashThen | src/components/MatchCard.tsx:69 | text after a printed number that does not start with a digit is ignored by `parseInt` |
| Text.ParseIntSkipsSpace | src/components/MatchCard.tsx:69 | a leading space does not change what `parseInt` reads |
| Text.ToUpper | src/components/MatchCard.tsx:30 | `toUpperCase` maps each ASCII letter to its capital and keeps everything else |
| Seqs.Filter | src/screens/MatchDetail.tsx:80 | a filter returns no more elements than its input, each of which passes |
| Seqs.FilterMembership | src/screens/MatchDetail.tsx:80 | an element is in the result exactly when it is in the input and passes |
| Seqs.FilterRejectsAll | src/screens/MatchDetail.tsx:129 | a filter that rejects every element returns nothing |
| Seqs.FilterCount | src/screens/HomeScreen.tsx:72-77 | each passing element is kept as often as in the input; every other element is dropped |
| Seqs.FilterIsSubsequence | src/screens/MatchDetail.tsx:80 | a filter keeps the input order |
| Seqs.FilterTwice | src/screens/HomeScreen.tsx:72-77 | two filters in a row equal one filter by both predicates |
| Seqs.RemoveAt | src/screens/MatchDetail.tsx:247 | `splice(i, 1)` removes entry `i`: one fewer entry, the others shifted, the multiset less that entry |
| Seqs.RemoveAtIsSubsequence | src/screens/MatchDetail.tsx:247 | a splice keeps the other entries in order |
| Scenarios.TimelineOfFixture1000001 | src/mock/mockData.ts:106-112 | fixture 1000001 shows its three goals and the card, without the substitution |
| Scenarios.MockFavoriteIsFixture1000003 | src/mock/mockData.ts:132-134 | the mock user's only favourite is fixture 1000003 |
| Scenarios.TableOfFixture1000001 | src/mock/mockData.ts:140-154 | in fixture 1000001, home team 541 stays first and away team 542 (league rank 2) is shown fourth |
| Scenarios.ShortTableWithoutTeams | src/screens/MatchDetail.tsx:247-255 | a two-row table holding neither team grows to four rows: home placeholder, the two rows, away placeholder |
| Scenarios.MockLeagueButtons | src/mock/mockData.ts:69-103 | the mock list gives the league buttons 10, 11, 39, 78, 128 and 140, in that order |
| Scenarios.SecondHalfFilter | src/mock/mockData.ts:69-103 | the `2H` filter keeps fixtures 1000001 and 1000006 |
| Scenarios.MockLeagueLabels | src/screens/HomeScreen.tsx:135 | `Premier League Mock` shows as `Premier Leag.`; `Mock Pohár` is kept |
| Scenarios.MockInitials | src/components/MatchCard.tsx:23-31 | `Man Utd Mock` gives `MU`; `Rovers` gives `R` |
| Scenarios.MockCountLines | src/screens/HomeScreen.tsx:93 | six matches read `6 zápasov`; one reads `1 zápas` |

## Left out

- Rendering is not modelled:
  - styles, colours and the images;
  - the jersey picture and its colour choice by position;
  - the header, tab and navigation components.

  The model stops at the values the screens display.
- Network and storage calls are not part of this model:
  - the football API client, Supabase, the React Query hooks and the session hook;
  - `toggleFavorite` with its alerts.

  The favourites the screen loads are an input. `addFavorite` is modelled only as
  the record it stores (`MatchDetail.SavedFavorite`).
- The real-API/mock switch and the `data?.response || data` unwrapping of responses
  are left out. Each screen receives its lists directly.
- The aggregate `MatchDetail` component is left out: its header, and its loading
  and error flags. Its three sections are modelled one by one.
- React state is left out. The selected lineup side and the filter selections are
  parameters, and the `show filters` toggle is not modelled.
- `Math.random` is left out. The mock data's random draws are a caller-supplied
  list of reals in `[0, 1)`.
- `getRandomName` is left out. Player names are a caller-supplied list.
- `MockData.JerseyNumber` computes exactly on reals, not in floating point.
- Formation.RoundDiv: models `Math.round` exactly on rationals. JavaScript computes
  the same quotients in double precision, and at such small magnitudes the values
  agree; the model does not prove that.
- Text.ToUpper: maps only the ASCII letters `a`-`z`. JavaScript's `toUpperCase`
  also maps other letters and can lengthen a string (for example `ß` to `SS`).
  These are outside the model.
- Strings are sequences of Unicode scalar values. `length`, `substring` and `s[0]`
  in JavaScript count UTF-16 code units, so the two differ for characters outside
  the Basic Multilingual Plane.
- In `displayRows`, the index `awayIdx` found before the home row is spliced out
  is never used afterwards, so the model computes only the index taken after the
  splice.
- A table that holds neither team has four rows, not two: both input rows plus a
  placeholder for each team (`Scenarios.ShortTableWithoutTeams`).
- MockData.LineupGenerator.GenerateTeamLineup: formation counts are natural
  numbers; a negative or fractional `count` in a formation entry is not modelled.
- MatchDetail.SavedFavorite: requires the match to have a league, because
  `match.league.name` throws otherwise.
