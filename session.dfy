/**
 * The game records of server/index.ts as values, and the per-game steps its
 * socket handlers perform on them. The handlers themselves, which update the
 * server's tables in place, are in module Server.
 */
module Session {
  import opened Wrappers
  import opened Words
  import opened Scores
  import Random

  /** A team: its id (a socket id, possibly renamed on reconnect) and display name. */
  datatype Team = Team(id: string, name: string)

  /** The `settings` payload of `host-game`; a field the client left out is `None`. */
  datatype HostSettings = HostSettings(
    rounds: Option<int>,
    turnDuration: Option<int>,
    categories: Option<seq<string>>,
    difficulties: Option<seq<string>>)

  /** The settings a game keeps. `rounds` stays `undefined` when the host sent none. */
  datatype Settings = Settings(
    rounds: Option<int>,
    turnDuration: int,
    categories: seq<string>,
    difficulties: seq<string>)

  /** `currentTeamIndex`, a JavaScript number: `x % 0` makes it NaN. */
  datatype TeamIndex = At(pos: nat) | NotANumber

  /** `currentGame`: the turn state, present once the game has been started. */
  datatype TurnState = TurnState(
    currentTeamIndex: TeamIndex,
    currentRound: int,
    scores: Record,
    currentWord: Option<Word>,
    timeRemaining: int,
    currentCategory: Option<string>,
    guessed: seq<string>,
    skipped: seq<string>,
    usedWords: set<string>,
    availableWords: seq<Word>,
    timer: Option<nat>,
    turnStarted: bool)

  /** An entry of the `games` table. */
  datatype Game = Game(
    hostId: string,
    teams: seq<Team>,
    settings: Settings,
    currentGame: Option<TurnState>)

  /**
   * What a handler ends with: success, the end of the game with the winner's
   * name, an `error` message to the requester, a silent `return`, or a
   * TypeError that no `catch` handles: reading a field of `undefined`, or a
   * `reduce` of an empty array (state changes made before the throw are kept).
   */
  datatype Outcome = Done | GameOver(winner: string) | Rejected(message: string) | Ignored | Fault

  // ---------------------------------------------------------------- game codes

  const Alphabet := "ABCDEFGHIJKLMNOPQRSTUVWXYZ"

  predicate IsGameCode(c: string) {
    |c| == 4 && forall i :: 0 <= i < |c| ==> 'A' <= c[i] <= 'Z'
  }

  /** The code `generateGameCode` builds from its draws, one letter per draw. */
  function CodeOf(draws: seq<real>): (c: string)
    requires Random.AllDraws(draws)
    ensures |c| == |draws|
    ensures forall i :: 0 <= i < |c| ==> 'A' <= c[i] <= 'Z'
  {
    seq(|draws|, i requires 0 <= i < |draws| => Alphabet[Random.PickIndex(draws[i], |Alphabet|)])
  }

  /** Every code of four capital letters can come out of `generateGameCode`. */
  lemma EveryCodeReachable(c: string)
    requires IsGameCode(c)
    ensures exists ds :: |ds| == 4 && Random.AllDraws(ds) && CodeOf(ds) == c
  {
    var ds := seq(4, i requires 0 <= i < 4 => ((c[i] as int - 'A' as int) as real) / 26.0);
    forall i | 0 <= i < 4
      ensures Random.IsDraw(ds[i]) && Alphabet[Random.PickIndex(ds[i], 26)] == c[i]
    {
      var k := c[i] as int - 'A' as int;
      Random.PickIndexOnto(k, 26);
      assert Alphabet[k] as int == 'A' as int + k;
    }
    assert CodeOf(ds) == c;
  }

  // ----------------------------------------------------------------- settings

  /**
   * The settings `host-game` stores: the payload's own fields, with a missing
   * or 0 duration replaced by 30, missing categories by none and missing
   * difficulties by easy alone.
   */
  function HostedSettings(s: HostSettings): (r: Settings)
    ensures r.rounds == s.rounds && r.turnDuration != 0
    ensures s.turnDuration.None? ==> r.turnDuration == 30
    ensures s.turnDuration.Some? ==> r.turnDuration == (if s.turnDuration.value == 0 then 30 else s.turnDuration.value)
    ensures r.categories == (if s.categories.Some? then s.categories.value else [])
    ensures r.difficulties == (if s.difficulties.Some? then s.difficulties.value else ["easy"])
  {
    Settings(
      s.rounds,
      if s.turnDuration.Some? && s.turnDuration.value != 0 then s.turnDuration.value else 30,
      s.categories.GetOr([]),
      s.difficulties.GetOr(["easy"]))
  }

  /** The record `host-game` stores: the host's team alone, not started. */
  function NewGame(hostId: string, teamName: string, s: HostSettings): (g: Game)
    ensures g.hostId == hostId && g.teams == [Team(hostId, teamName)] && g.currentGame.None?
    ensures g.settings.rounds == s.rounds
    ensures g.settings.turnDuration == 30 <==> s.turnDuration.None? || s.turnDuration.value in {0, 30}
    ensures s.turnDuration.Some? && s.turnDuration.value != 0 ==> g.settings.turnDuration == s.turnDuration.value
    ensures s.categories.None? ==> g.settings.categories == []
    ensures s.categories.Some? ==> g.settings.categories == s.categories.value
    ensures s.difficulties.None? ==> g.settings.difficulties == ["easy"]
    ensures s.difficulties.Some? ==> g.settings.difficulties == s.difficulties.value
  {
    Game(hostId, [Team(hostId, teamName)], HostedSettings(s), None)
  }

  /** `toLowerCase` on the ASCII letters; other characters are kept. */
  function LowerChar(c: char): char {
    if 'A' <= c <= 'Z' then (c as int + 32) as char else c
  }

  function LowerAscii(s: string): string {
    seq(|s|, i requires 0 <= i < |s| => LowerChar(s[i]))
  }

  /** Every difficulty lower-cased, as `start-game` does before filtering. */
  function LowerAll(ds: seq<string>): seq<string> {
    seq(|ds|, i requires 0 <= i < |ds| => LowerAscii(ds[i]))
  }

  /** Lower-casing leaves no capital ASCII letter, keeps every other character, and is idempotent. */
  lemma LowerAsciiSpec(s: string)
    ensures |LowerAscii(s)| == |s|
    ensures forall i :: 0 <= i < |s| ==> !('A' <= LowerAscii(s)[i] <= 'Z')
    ensures forall i :: 0 <= i < |s| && !('A' <= s[i] <= 'Z') ==> LowerAscii(s)[i] == s[i]
    ensures LowerAscii(LowerAscii(s)) == LowerAscii(s)
  {
  }

  // ---------------------------------------------------------------- the teams

  function HasId(id: string): Team -> bool {
    (t: Team) => t.id == id
  }

  /** `teams.find(p)`, as the position of the first team satisfying `p`. */
  function FindFirst(teams: seq<Team>, p: Team -> bool): (r: Option<nat>)
    ensures r.Some? ==> r.value < |teams| && p(teams[r.value])
    ensures r.Some? ==> forall j :: 0 <= j < r.value ==> !p(teams[j])
    ensures r.None? ==> forall j :: 0 <= j < |teams| ==> !p(teams[j])
  {
    if teams == [] then None
    else if p(teams[0]) then Some(0)
    else
      match FindFirst(teams[1..], p)
      case Some(i) => Some(i + 1)
      case None => None
  }

  /** `team.id = newId` on the first team whose id is `oldId`, if any. */
  function RenameTeam(teams: seq<Team>, oldId: string, newId: string): (r: seq<Team>)
    ensures |r| == |teams|
    ensures forall i :: 0 <= i < |r| ==> r[i].name == teams[i].name
    ensures FindFirst(teams, HasId(oldId)).None? ==> r == teams
    ensures FindFirst(teams, HasId(oldId)).Some? ==>
      var i := FindFirst(teams, HasId(oldId)).value;
      r[i].id == newId && forall j :: 0 <= j < |r| && j != i ==> r[j] == teams[j]
  {
    match FindFirst(teams, HasId(oldId))
    case None => teams
    case Some(i) => teams[i := Team(newId, teams[i].name)]
  }

  /** The teams in order, less every team whose id is the leaving socket's. */
  function RemoveTeam(teams: seq<Team>, socketId: string): (r: seq<Team>)
    ensures |r| <= |teams|
    ensures forall t :: t in r <==> t in teams && t.id != socketId
    ensures (forall i :: 0 <= i < |teams| ==> teams[i].id != socketId) ==> r == teams
  {
    if teams == [] then []
    else if teams[0].id != socketId then [teams[0]] + RemoveTeam(teams[1..], socketId)
    else RemoveTeam(teams[1..], socketId)
  }

  /** The filter works piecewise, so the surviving teams keep their order, which is the turn order. */
  lemma {:induction false} RemoveTeamAppend(a: seq<Team>, b: seq<Team>, socketId: string)
    ensures RemoveTeam(a + b, socketId) == RemoveTeam(a, socketId) + RemoveTeam(b, socketId)
  {
    if a == [] {
      assert a + b == b;
    } else {
      assert (a + b)[0] == a[0];
      assert (a + b)[1..] == a[1..] + b;
      RemoveTeamAppend(a[1..], b, socketId);
    }
  }

  /** The team an `identify-team` claim matches: by a non-empty id, else by a non-empty name. */
  function Claims(teamId: Option<string>, teamName: Option<string>): (r: Team -> bool)
    ensures forall t: Team :: r(t) ==> (teamId.Some? && t.id == teamId.value) || (teamName.Some? && t.name == teamName.value)
    ensures forall t: Team :: teamId.Some? && teamId.value != "" && t.id == teamId.value ==> r(t)
    ensures forall t: Team :: teamName.Some? && teamName.value != "" && t.name == teamName.value ==> r(t)
    ensures (teamId.None? || teamId.value == "") && (teamName.None? || teamName.value == "") ==> forall t: Team :: !r(t)
  {
    (t: Team) =>
      (teamId.Some? && teamId.value != "" && t.id == teamId.value) ||
      (teamName.Some? && teamName.value != "" && t.name == teamName.value)
  }

  /** `game.teams[currentTeamIndex]`, which is `undefined` for NaN or an index past the end. */
  function ActiveTeam(g: Game): (r: Option<Team>)
    requires g.currentGame.Some?
    ensures var i := g.currentGame.value.currentTeamIndex;
      r.Some? <==> i.At? && i.pos < |g.teams|
    ensures var i := g.currentGame.value.currentTeamIndex;
      r.Some? ==> r.value == g.teams[i.pos]
  {
    var i := g.currentGame.value.currentTeamIndex;
    if i.At? && i.pos < |g.teams| then Some(g.teams[i.pos]) else None
  }

  /** The name of the first team with the winning id; a missing team or an empty name gives "Unknown Team". */
  function WinnerName(teams: seq<Team>, id: string): (r: string)
    ensures r != ""
    ensures FindFirst(teams, HasId(id)).None? ==> r == "Unknown Team"
    ensures FindFirst(teams, HasId(id)).Some? && teams[FindFirst(teams, HasId(id)).value].name != "" ==>
      r == teams[FindFirst(teams, HasId(id)).value].name
  {
    match FindFirst(teams, HasId(id))
    case Some(i) => if teams[i].name != "" then teams[i].name else "Unknown Team"
    case None => "Unknown Team"
  }

  // ------------------------------------------------------------ authorization

  /**
   * The `start-turn` check: the socket is the team's id, or the socket maps
   * link the two in either direction.
   */
  function LinkedToTeam(sid: string, teamId: string, socketIdMap: map<string, string>,
                        reverseSocketIdMap: map<string, string>): (b: bool)
    ensures sid == teamId ==> b
    ensures sid in socketIdMap && socketIdMap[sid] == teamId ==> b
    ensures teamId in reverseSocketIdMap && reverseSocketIdMap[teamId] == sid ==> b
    ensures b && sid != teamId ==>
      (sid in socketIdMap && socketIdMap[sid] == teamId) ||
      (teamId in reverseSocketIdMap && reverseSocketIdMap[teamId] == sid)
  {
    || teamId == sid
    || (sid in socketIdMap && socketIdMap[sid] == teamId)
    || (teamId in reverseSocketIdMap && reverseSocketIdMap[teamId] == sid)
  }

  /**
   * The check `word-guessed`, `word-skipped` and `end-turn` make: only the
   * raw socket id is compared with the active team's id. `Done` means the
   * handler goes on; an active team that is `undefined` throws.
   */
  function RawTurnGuard(games: map<string, Game>, code: string, sid: string): (r: Outcome)
    ensures r == Done || r == Fault || r == Ignored
    ensures r == Done <==>
      code in games && games[code].currentGame.Some? && ActiveTeam(games[code]).Some? &&
      ActiveTeam(games[code]).value.id == sid
    ensures r == Fault <==>
      code in games && games[code].currentGame.Some? && ActiveTeam(games[code]).None?
  {
    if code !in games || games[code].currentGame.None? then Ignored
    else
      match ActiveTeam(games[code])
      case None => Fault
      case Some(t) => if sid == t.id then Done else Ignored
  }

  /** Every socket the raw-id check lets through also passes the `start-turn` check. */
  lemma RawGuardImpliesLinked(games: map<string, Game>, code: string, sid: string,
                              socketIdMap: map<string, string>, reverseSocketIdMap: map<string, string>)
    requires RawTurnGuard(games, code, sid) == Done
    ensures LinkedToTeam(sid, ActiveTeam(games[code]).value.id, socketIdMap, reverseSocketIdMap)
  {
  }

  /**
   * The converse fails: a reconnected socket that reaches the active team only
   * through `socketIdMap` may start the turn, but its guesses, skips and
   * end-turn requests are ignored.
   */
  lemma MappedSocketOnlyStarts(games: map<string, Game>, code: string, sid: string,
                               socketIdMap: map<string, string>, reverseSocketIdMap: map<string, string>)
    requires code in games && games[code].currentGame.Some? && ActiveTeam(games[code]).Some?
    requires ActiveTeam(games[code]).value.id != sid
    requires sid in socketIdMap && socketIdMap[sid] == ActiveTeam(games[code]).value.id
    ensures LinkedToTeam(sid, ActiveTeam(games[code]).value.id, socketIdMap, reverseSocketIdMap)
    ensures RawTurnGuard(games, code, sid) == Ignored
  {
  }

  /**
   * `identify-team` binds to a team no later in the list than any team the
   * claim names by a non-empty id or a non-empty name.
   */
  lemma ClaimsFirstMatch(teams: seq<Team>, teamId: Option<string>, teamName: Option<string>, j: nat)
    requires j < |teams|
    requires (teamId.Some? && teamId.value != "" && teams[j].id == teamId.value) ||
             (teamName.Some? && teamName.value != "" && teams[j].name == teamName.value)
    ensures FindFirst(teams, Claims(teamId, teamName)).Some?
    ensures FindFirst(teams, Claims(teamId, teamName)).value <= j
  {
    assert Claims(teamId, teamName)(teams[j]);
  }

  /**
   * The sockets `start-turn` sends `word-to-guess` to, among the live sockets
   * `live`: the one the team id maps to, the team id itself, and only when
   * neither is live, every live socket of the game's room mapped to the team.
   */
  function WordRecipients(teamId: string, live: set<string>, room: set<string>,
                          socketIdMap: map<string, string>, reverseSocketIdMap: map<string, string>): (r: set<string>)
    ensures forall s :: s in r ==> s in live && LinkedToTeam(s, teamId, socketIdMap, reverseSocketIdMap)
    ensures r == {} <==>
      && !(teamId in reverseSocketIdMap && reverseSocketIdMap[teamId] != "" && reverseSocketIdMap[teamId] in live)
      && teamId !in live
      && (forall s :: s in room && s in live ==> !(s in socketIdMap && socketIdMap[s] == teamId))
  {
    var viaMap := if teamId in reverseSocketIdMap && reverseSocketIdMap[teamId] != "" && reverseSocketIdMap[teamId] in live
                  then {reverseSocketIdMap[teamId]} else {};
    var direct := if teamId in live then {teamId} else {};
    if viaMap + direct != {} then viaMap + direct
    else
      RoomScanEmpty(teamId, live, room, socketIdMap);
      set s | s in room && s in live && s in socketIdMap && socketIdMap[s] == teamId
  }

  lemma RoomScanEmpty(teamId: string, live: set<string>, room: set<string>, socketIdMap: map<string, string>)
    ensures (set s | s in room && s in live && s in socketIdMap && socketIdMap[s] == teamId) == {} <==>
      forall s :: s in room && s in live ==> !(s in socketIdMap && socketIdMap[s] == teamId)
  {
    var scan := set s | s in room && s in live && s in socketIdMap && socketIdMap[s] == teamId;
    if scan != {} {
      var x :| x in scan;
      assert x in room && x in live && x in socketIdMap && socketIdMap[x] == teamId;
    } else {
      assert forall s :: s in room && s in live && s in socketIdMap && socketIdMap[s] == teamId ==> s in scan;
    }
  }

  // ------------------------------------------------------------ turn indexing

  /** `(i + 1) % n` on a JavaScript number: NaN when there are no teams, and NaN stays NaN. */
  function NextIndex(i: TeamIndex, n: nat): (r: TeamIndex)
    ensures r.At? <==> i.At? && n > 0
    ensures r.At? ==> r.pos < n && r.pos == (i.pos + 1) % n
  {
    match i
    case At(p) => if n == 0 then NotANumber else At((p + 1) % n)
    case NotANumber => NotANumber
  }

  /** Ending a turn: the index moves on, and the round moves only when the index becomes 0. */
  function Step(i: TeamIndex, round: int, n: nat): (r: (TeamIndex, int))
    ensures r.0 == NextIndex(i, n)
    ensures r.1 == round + 1 <==> r.0 == At(0)
    ensures r.1 == round <==> r.0 != At(0)
  {
    var next := NextIndex(i, n);
    (next, if next == At(0) then round + 1 else round)
  }

  /** `k` turn ends in a row. */
  function Steps(i: TeamIndex, round: int, n: nat, k: nat): (TeamIndex, int) {
    if k == 0 then (i, round)
    else
      var p := Steps(i, round, n, k - 1);
      Step(p.0, p.1, n)
  }

  /** `currentRound > settings.rounds`; a comparison with `undefined` is false. */
  function Exceeded(round: int, rounds: Option<int>): (b: bool)
    ensures rounds.None? ==> !b
    ensures rounds.Some? ==> (b <==> round > rounds.value)
  {
    rounds.Some? && round > rounds.value
  }

  lemma MulMonotone(a: int, b: int, n: nat)
    requires a <= b
    ensures a * n <= b * n
  {
    assert b * n - a * n == (b - a) * n;
  }

  lemma DivModUnique(x: int, n: nat, q: int, m: int)
    requires n > 0 && 0 <= m < n && x == q * n + m
    ensures x / n == q && x % n == m
  {
    var q', m' := x / n, x % n;
    assert x == q' * n + m' && 0 <= m' < n;
    if q' < q {
      MulMonotone(q' + 1, q, n);
      assert false;
    } else if q < q' {
      MulMonotone(q + 1, q', n);
      assert false;
    }
  }

  lemma DivModOfNext(x: nat, n: nat)
    requires n > 0
    ensures (x + 1) % n == (x % n + 1) % n
    ensures (x + 1) / n == x / n + (if (x % n + 1) % n == 0 then 1 else 0)
  {
    var q, m := x / n, x % n;
    assert x == q * n + m && 0 <= m < n;
    if m + 1 < n {
      DivModUnique(x + 1, n, q, m + 1);
      DivModUnique(m + 1, n, 0, m + 1);
    } else {
      assert (q + 1) * n == q * n + n;
      DivModUnique(x + 1, n, q + 1, 0);
      DivModUnique(m + 1, n, 1, 0);
    }
  }

  /**
   * From a valid index `i`, after `k` turn ends the index is `(i + k) mod n`
   * and the round has grown by the number of wrap-arounds, `(i + k) / n`.
   */
  lemma {:induction false} StepsClosedForm(i: nat, round: int, n: nat, k: nat)
    requires i < n
    ensures Steps(At(i), round, n, k) == (At((i + k) % n), round + (i + k) / n)
  {
    if k == 0 {
      DivModUnique(i, n, 0, i);
    } else {
      var j := i + k - 1;
      StepsClosedForm(i, round, n, k - 1);
      var p := Steps(At(i), round, n, k - 1);
      assert p == (At(j % n), round + j / n);
      DivModOfNext(j, n);
      var next := NextIndex(p.0, n);
      assert next == At((j % n + 1) % n);
      assert next == At((i + k) % n);
      assert Steps(At(i), round, n, k) == Step(p.0, p.1, n);
    }
  }

  /**
   * A game started at team 0 in round 1 with `rounds` rounds reaches a round
   * past the last one exactly when `rounds * n` turns have ended.
   */
  lemma GameLength(n: nat, rounds: nat, k: nat)
    requires n > 0
    ensures Exceeded(Steps(At(0), 1, n, k).1, Some(rounds)) <==> k >= rounds * n
  {
    StepsClosedForm(0, 1, n, k);
    assert Steps(At(0), 1, n, k).1 == 1 + k / n;
    DivAtLeast(k, n, rounds);
  }

  lemma DivAtLeast(k: nat, n: nat, q0: nat)
    requires n > 0
    ensures k / n >= q0 <==> k >= q0 * n
  {
    var q, m := k / n, k % n;
    assert k == q * n + m && 0 <= m < n;
    if q >= q0 {
      MulMonotone(q0, q, n);
    } else {
      MulMonotone(q + 1, q0, n);
      assert (q + 1) * n == q * n + n;
    }
  }

  // ---------------------------------------------------------------- the words

  /** The words of `words`, in order, of the current category whose text is not used yet. */
  function CategoryPool(words: seq<Word>, used: set<string>, category: Option<string>): (r: seq<Word>)
    ensures |r| <= |words|
    ensures forall w :: w in r <==> w in words && w.text !in used && category == Some(w.category)
  {
    if words == [] then []
    else if category == Some(words[0].category) && words[0].text !in used then
      [words[0]] + CategoryPool(words[1..], used, category)
    else
      CategoryPool(words[1..], used, category)
  }

  function Pool(cg: TurnState): seq<Word> {
    CategoryPool(cg.availableWords, cg.usedWords, cg.currentCategory)
  }

  /** More used words never make the pool longer. */
  lemma {:induction false} PoolMonotone(words: seq<Word>, used: set<string>, used': set<string>, category: Option<string>)
    requires used <= used'
    ensures |CategoryPool(words, used', category)| <= |CategoryPool(words, used, category)|
  {
    if words != [] {
      PoolMonotone(words[1..], used, used', category);
    }
  }

  /** Marking a pool word as used makes the pool strictly shorter, so a category runs dry. */
  lemma {:induction false} PoolShrinks(words: seq<Word>, used: set<string>, category: Option<string>, w: Word)
    requires w in CategoryPool(words, used, category)
    ensures |CategoryPool(words, used + {w.text}, category)| < |CategoryPool(words, used, category)|
  {
    if category == Some(words[0].category) && words[0].text !in used {
      if words[0].text == w.text {
        PoolMonotone(words[1..], used, used + {w.text}, category);
      } else {
        PoolShrinks(words[1..], used, category, w);
      }
    } else {
      PoolShrinks(words[1..], used, category, w);
    }
  }

  /** A uniformly indexed word of the pool, chosen by one draw. */
  function Pick(pool: seq<Word>, draw: real): (w: Word)
    requires pool != [] && Random.IsDraw(draw)
    ensures w in pool
  {
    pool[Random.PickIndex(draw, |pool|)]
  }

  // ------------------------------------------------------------ turn updates

  /** The score table `start-game` fills: every team's id, in team order, at 0 points. */
  function ZeroScores(teams: seq<Team>): (r: Record)
    ensures DistinctKeys(r)
    ensures Keys(r) == set t | t in teams :: t.id
    ensures forall k :: k in Keys(r) ==> Lookup(r, k) == Some(0)
  {
    if teams == [] then []
    else
      var prev := ZeroScores(teams[..|teams| - 1]);
      var t := teams[|teams| - 1];
      SetDistinct(prev, t.id, 0);
      SetLookupAll(prev, t.id, 0);
      assert teams == teams[..|teams| - 1] + [t];
      assert (set u | u in teams :: u.id) == (set u | u in teams[..|teams| - 1] :: u.id) + {t.id};
      Set(prev, t.id, 0)
  }

  /** No two teams share an id, as when every team id is a distinct socket id. */
  predicate DistinctIds(teams: seq<Team>) {
    forall i, j :: 0 <= i < j < |teams| ==> teams[i].id != teams[j].id
  }

  /** With distinct ids, the last team's id is not among the ids before it. */
  lemma LastIdFresh(teams: seq<Team>)
    requires teams != [] && DistinctIds(teams)
    ensures teams[|teams| - 1].id !in set u | u in teams[..|teams| - 1] :: u.id
  {
    var front := teams[..|teams| - 1];
    var t := teams[|teams| - 1];
    forall u | u in front
      ensures u.id != t.id
    {
      var j :| 0 <= j < |front| && front[j] == u;
      assert teams[j] == u;
    }
  }

  /** With distinct ids, the score entries come in team order, so team order decides the tie-break. */
  lemma {:induction false} ZeroScoresInTeamOrder(teams: seq<Team>)
    requires DistinctIds(teams)
    ensures |ZeroScores(teams)| == |teams|
    ensures forall i :: 0 <= i < |teams| ==> ZeroScores(teams)[i] == (teams[i].id, 0)
  {
    if teams != [] {
      var front := teams[..|teams| - 1];
      var t := teams[|teams| - 1];
      assert DistinctIds(front);
      ZeroScoresInTeamOrder(front);
      var prev := ZeroScores(front);
      LastIdFresh(teams);
      var r := prev + [(t.id, 0)];
      assert ZeroScores(teams) == Set(prev, t.id, 0) == r;
      forall i | 0 <= i < |teams|
        ensures r[i] == (teams[i].id, 0)
      {
        if i < |front| {
          assert r[i] == prev[i] == (front[i].id, 0);
          assert teams[i] == front[i];
        }
      }
    }
  }

  function FirstCategory(categories: seq<string>): Option<string> {
    if categories == [] then None else Some(categories[0])
  }

  /** `start-game`: team 0, round 1, a full clock, nothing used, every team at score 0. */
  function InitialTurn(g: Game, corpus: seq<Word>): (cg: TurnState)
    ensures cg.currentTeamIndex == At(0) && cg.currentRound == 1
    ensures cg.timeRemaining == g.settings.turnDuration && !cg.turnStarted
    ensures cg.usedWords == {} && cg.guessed == [] && cg.skipped == [] && cg.currentWord == None
    ensures cg.currentCategory == FirstCategory(g.settings.categories)
    ensures cg.timer == None
    ensures DistinctKeys(cg.scores) && Keys(cg.scores) == set t | t in g.teams :: t.id
    ensures forall t :: t in g.teams ==> Lookup(cg.scores, t.id) == Some(0)
    ensures forall w :: w in cg.availableWords <==>
      w in corpus && Selected(w, g.settings.categories, LowerAll(g.settings.difficulties))
  {
    TurnState(At(0), 1, ZeroScores(g.teams), None, g.settings.turnDuration,
              FirstCategory(g.settings.categories), [], [], {},
              GetWords(corpus, g.settings.categories, LowerAll(g.settings.difficulties)),
              None, false)
  }

  /** `start-turn` once authorized: the word is marked used and shown, and the clock restarts. */
  function StartedTurn(cg: TurnState, w: Word, duration: int, handle: nat): (r: TurnState)
    ensures cg.usedWords <= r.usedWords && r.usedWords == cg.usedWords + {w.text}
    ensures r.currentWord == Some(w) && r.timeRemaining == duration && r.turnStarted && r.timer == Some(handle)
    ensures r.(usedWords := cg.usedWords, currentWord := cg.currentWord, timeRemaining := cg.timeRemaining,
               turnStarted := cg.turnStarted, timer := cg.timer) == cg
  {
    cg.(usedWords := cg.usedWords + {w.text}, currentWord := Some(w), timeRemaining := duration,
        turnStarted := true, timer := Some(handle))
  }

  /** `word-guessed`: one point for the team, the word recorded as guessed and used. */
  function Guessed(cg: TurnState, teamId: string, word: string): (r: TurnState)
    ensures r.scores == AddPoint(cg.scores, teamId)
    ensures r.guessed == cg.guessed + [word] && r.skipped == cg.skipped
    ensures cg.usedWords <= r.usedWords && r.usedWords == cg.usedWords + {word}
    ensures r.(scores := cg.scores, guessed := cg.guessed, usedWords := cg.usedWords) == cg
  {
    cg.(scores := AddPoint(cg.scores, teamId),
        guessed := cg.guessed + [word], usedWords := cg.usedWords + {word})
  }

  /** `word-skipped`: no score changes; the word is recorded as skipped and used. */
  function Skipped(cg: TurnState, word: string): (r: TurnState)
    ensures r.scores == cg.scores
    ensures r.skipped == cg.skipped + [word] && r.guessed == cg.guessed
    ensures cg.usedWords <= r.usedWords && r.usedWords == cg.usedWords + {word}
    ensures r.(skipped := cg.skipped, usedWords := cg.usedWords) == cg
  {
    cg.(skipped := cg.skipped + [word], usedWords := cg.usedWords + {word})
  }

  /** `prepareTurn`: the per-turn lists, the word and the started flag are cleared. */
  function Prepared(cg: TurnState): (r: TurnState)
    ensures r.guessed == [] && r.skipped == [] && r.currentWord == None && !r.turnStarted
    ensures r.(guessed := cg.guessed, skipped := cg.skipped, currentWord := cg.currentWord,
               turnStarted := cg.turnStarted) == cg
  {
    cg.(guessed := [], skipped := [], currentWord := None, turnStarted := false)
  }

  /**
   * What ending a turn does to a started game (the `end-turn` handler, and
   * `endTurn` after it has cleared the clock): advance the index and round;
   * past the last round, `endGame` deletes the game (`None`) and names the
   * winner, unless the score table is empty, where its `reduce` throws;
   * otherwise `prepareTurn`, which throws after its reset when the new index
   * names no team.
   */
  function AfterTurn(g: Game): (r: (Option<Game>, Outcome))
    requires g.currentGame.Some?
    ensures var cg := g.currentGame.value;
      var next := Step(cg.currentTeamIndex, cg.currentRound, |g.teams|);
      && (r.0.None? <==> Exceeded(next.1, g.settings.rounds) && cg.scores != [])
      && (r.0.None? ==> r.1 == GameOver(WinnerName(g.teams, cg.scores[WinnerIndex(cg.scores)].0)))
      && (r.0.Some? ==> r.0.value.(currentGame := g.currentGame) == g && r.0.value.currentGame.Some?)
      && (r.0.Some? && Exceeded(next.1, g.settings.rounds) ==>
            r.0.value.currentGame.value == cg.(currentTeamIndex := next.0, currentRound := next.1) && r.1 == Fault)
      && (!Exceeded(next.1, g.settings.rounds) ==>
            r.0.Some? &&
            r.0.value.currentGame.value == Prepared(cg.(currentTeamIndex := next.0, currentRound := next.1)) &&
            r.1 == (if ActiveTeam(r.0.value).None? then Fault else Done))
  {
    var cg := g.currentGame.value;
    var next := Step(cg.currentTeamIndex, cg.currentRound, |g.teams|);
    var advanced := cg.(currentTeamIndex := next.0, currentRound := next.1);
    if Exceeded(next.1, g.settings.rounds) then
      if cg.scores == [] then (Some(g.(currentGame := Some(advanced))), Fault)
      else (None, GameOver(WinnerName(g.teams, cg.scores[WinnerIndex(cg.scores)].0)))
    else
      var prepared := g.(currentGame := Some(Prepared(advanced)));
      (Some(prepared), if ActiveTeam(prepared).None? then Fault else Done)
  }

  /** A turn end from a live index with teams present lands on a live index, and round moves iff it wraps. */
  lemma AfterTurnKeepsIndexValid(g: Game)
    requires g.currentGame.Some? && |g.teams| > 0
    requires g.currentGame.value.currentTeamIndex.At?
    requires !Exceeded(Step(g.currentGame.value.currentTeamIndex, g.currentGame.value.currentRound, |g.teams|).1, g.settings.rounds)
    ensures AfterTurn(g).0.Some? && AfterTurn(g).1 == Done
    ensures var cg' := AfterTurn(g).0.value.currentGame.value;
      cg'.currentTeamIndex == At((g.currentGame.value.currentTeamIndex.pos + 1) % |g.teams|)
      && (cg'.currentRound == g.currentGame.value.currentRound + 1 <==> cg'.currentTeamIndex == At(0))
      && (cg'.currentRound == g.currentGame.value.currentRound <==> cg'.currentTeamIndex != At(0))
  {
  }

  // ---------------------------------------------------------------- the clock

  /**
   * One tick of a live interval on `timeRemaining`: at or below 0 the turn
   * expires (`None`); otherwise one second passes.
   */
  function Countdown(t: int): (r: Option<int>)
    ensures r.Some? <==> t > 0
    ensures r.Some? ==> 0 <= r.value < t
    ensures r.Some? ==> r.value == t - 1
  {
    if t <= 0 then None else Some(t - 1)
  }

  /** `k` ticks in a row; once the turn has expired it stays expired. */
  function CountdownAfter(t: int, k: nat): Option<int> {
    if k == 0 then Some(t)
    else
      match CountdownAfter(t, k - 1)
      case None => None
      case Some(u) => Countdown(u)
  }

  /**
   * A clock started at `t` seconds counts down to 0 over `t` ticks and
   * expires on tick `t + 1`: the check comes before the decrement, and the
   * clock never goes below 0.
   */
  lemma {:induction false} CountdownLength(t: nat, k: nat)
    ensures k <= t ==> CountdownAfter(t, k) == Some(t - k)
    ensures k > t ==> CountdownAfter(t, k) == None
  {
    if k > 0 {
      CountdownLength(t, k - 1);
    }
  }

  // ------------------------------------------------------------------ tables

  /** `games.set(code, g)`, or `games.delete(code)` for `None`. */
  function Put(games: map<string, Game>, code: string, g: Option<Game>): map<string, Game> {
    match g
    case Some(v) => games[code := v]
    case None => games - {code}
  }

  function Handles(h: Option<nat>): set<nat> {
    match h
    case Some(v) => {v}
    case None => {}
  }
}
