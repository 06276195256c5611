/**
 * The game coordinator of server/index.ts: the `games` table, the three
 * socket maps, the live turn intervals, and one method per socket handler
 * and helper. Broadcasts are not kept; what a handler reports to its caller is
 * its `Outcome`.
 */
module Server {
  import opened Wrappers
  import opened Words
  import opened Scores
  import opened Session
  import Random

  /** `generateGameCode`: four letters, each chosen from A–Z by one draw. */
  method GenerateGameCode(draws: seq<real>) returns (code: string)
    requires |draws| == 4 && Random.AllDraws(draws)
    ensures IsGameCode(code)
    ensures code == CodeOf(draws)
  {
    code := "";
    var i := 0;
    while i < 4
      invariant 0 <= i <= 4
      invariant code == CodeOf(draws[..i])
    {
      code := code + [Alphabet[Random.PickIndex(draws[i], |Alphabet|)]];
      i := i + 1;
    }
    assert draws[..4] == draws;
  }

  /** The game `socketToGameMap` binds a socket to, when that code is non-empty and still live. */
  function BoundGame(socketToGameMap: map<string, string>, games: map<string, Game>, sid: string): (r: Option<string>)
    ensures r.Some? ==> sid in socketToGameMap && socketToGameMap[sid] == r.value && r.value != "" && r.value in games
    ensures r.None? ==> sid !in socketToGameMap || socketToGameMap[sid] == "" || socketToGameMap[sid] !in games
  {
    if sid in socketToGameMap && socketToGameMap[sid] != "" && socketToGameMap[sid] in games
    then Some(socketToGameMap[sid]) else None
  }

  /** The game a started turn runs in, if the code is live and the game started. */
  predicate Running(games: map<string, Game>, code: string) {
    code in games && games[code].currentGame.Some?
  }

  /** The handle a hosted, started game stores, which `disconnect` clears when its host leaves. */
  function HostTimer(g: Game, sid: string): Option<nat> {
    if g.hostId == sid && g.currentGame.Some? then g.currentGame.value.timer else None
  }

  function HostedHandles(games: map<string, Game>, sid: string, codes: set<string>): set<nat> {
    set c | c in codes && c in games && HostTimer(games[c], sid).Some? :: HostTimer(games[c], sid).value
  }

  /** The `games` table after `disconnect` has visited the codes in `done`. */
  function PartlyDisconnected(games: map<string, Game>, sid: string, done: set<string>): map<string, Game> {
    map c | c in games && (c !in done || games[c].hostId != sid) ::
      if c in done then games[c].(teams := RemoveTeam(games[c].teams, sid)) else games[c]
  }

  /** The `forEach` of `start-game` that puts every team at 0 points, in team order. */
  method InitialScores(teams: seq<Team>) returns (scores: Record)
    ensures scores == ZeroScores(teams)
    ensures DistinctKeys(scores) && Keys(scores) == set t | t in teams :: t.id
  {
    scores := [];
    var i := 0;
    while i < |teams|
      invariant 0 <= i <= |teams|
      invariant scores == ZeroScores(teams[..i])
    {
      ghost var prefix := teams[..i + 1];
      assert prefix[..|prefix| - 1] == teams[..i] && prefix[|prefix| - 1] == teams[i];
      assert ZeroScores(prefix) == Set(ZeroScores(teams[..i]), teams[i].id, 0);
      scores := Set(scores, teams[i].id, 0);
      i := i + 1;
    }
    assert teams[..|teams|] == teams;
  }

  /**
   * After `disconnect` has visited every game: the games the socket hosted are
   * gone and their clocks stopped, and every other game only lost the
   * socket's team.
   */
  lemma Disconnected(games: map<string, Game>, timers: map<nat, string>, sid: string)
    ensures var after := PartlyDisconnected(games, sid, games.Keys);
      && (forall c :: c in after <==> c in games && games[c].hostId != sid)
      && (forall c :: c in after ==> after[c] == games[c].(teams := RemoveTeam(games[c].teams, sid)))
    ensures forall c, h :: c in games && HostTimer(games[c], sid) == Some(h) ==>
      h !in timers - HostedHandles(games, sid, games.Keys)
  {
    forall c, h | c in games && HostTimer(games[c], sid) == Some(h)
      ensures h in HostedHandles(games, sid, games.Keys)
    {
    }
  }

  /** A game `disconnect` has not visited yet is still there, as it was. */
  lemma DisconnectPending(games: map<string, Game>, sid: string, done: set<string>, c: string)
    requires c in games && c !in done
    ensures c in PartlyDisconnected(games, sid, done) && PartlyDisconnected(games, sid, done)[c] == games[c]
  {
  }

  /** Visiting one more game: a hosted one is deleted with its clock, any other loses the socket's team. */
  lemma DisconnectStep(games: map<string, Game>, sid: string, done: set<string>, c: string)
    requires c in games && c !in done
    ensures games[c].hostId == sid ==>
      PartlyDisconnected(games, sid, done + {c}) == PartlyDisconnected(games, sid, done) - {c}
    ensures games[c].hostId != sid ==>
      PartlyDisconnected(games, sid, done + {c})
        == PartlyDisconnected(games, sid, done)[c := games[c].(teams := RemoveTeam(games[c].teams, sid))]
    ensures HostedHandles(games, sid, done + {c}) == HostedHandles(games, sid, done) + Handles(HostTimer(games[c], sid))
  {
    assert HostedHandles(games, sid, done + {c}) == HostedHandles(games, sid, done) + Handles(HostTimer(games[c], sid));
  }

  class GameServer {
    var games: map<string, Game>
    /** socket id -> team id */
    var socketIdMap: map<string, string>
    /** team id -> socket id */
    var reverseSocketIdMap: map<string, string>
    /** socket id -> game code */
    var socketToGameMap: map<string, string>
    /** The live intervals, each with the game code its callback looks up. */
    var timers: map<nat, string>
    /** The handle the next `setInterval` returns. */
    var nextTimer: nat
    /** The word corpus (`words.json`). */
    const corpus: seq<Word>

    /** Codes in the table come from `generateGameCode`; live handles were all handed out. */
    ghost predicate Valid()
      reads this
    {
      && (forall c :: c in games ==> IsGameCode(c))
      && (forall h :: h in timers ==> h < nextTimer)
    }

    twostate predicate IdentityUnchanged()
      reads this
    {
      && socketIdMap == old(socketIdMap)
      && reverseSocketIdMap == old(reverseSocketIdMap)
      && socketToGameMap == old(socketToGameMap)
    }

    constructor (corpus: seq<Word>)
      ensures Valid() && this.corpus == corpus
      ensures games == map[] && timers == map[] && nextTimer == 0
      ensures socketIdMap == map[] && reverseSocketIdMap == map[] && socketToGameMap == map[]
    {
      this.corpus := corpus;
      games, timers, nextTimer := map[], map[], 0;
      socketIdMap, reverseSocketIdMap, socketToGameMap := map[], map[], map[];
    }

    // ------------------------------------------------------------ identity

    /**
     * `updateSocketId`: records the reconnect in both socket maps, and when the
     * old socket was bound to a live game, renames the first team with the old
     * id and moves the binding to the new socket.
     */
    method UpdateSocketId(oldId: string, newId: string)
      requires Valid()
      modifies this
      ensures Valid()
      ensures socketIdMap == old(socketIdMap)[newId := oldId]
      ensures reverseSocketIdMap == old(reverseSocketIdMap)[oldId := newId]
      ensures timers == old(timers) && nextTimer == old(nextTimer)
      ensures BoundGame(old(socketToGameMap), old(games), oldId).None? ==>
        games == old(games) && socketToGameMap == old(socketToGameMap)
      ensures BoundGame(old(socketToGameMap), old(games), oldId).Some? ==>
        var c := BoundGame(old(socketToGameMap), old(games), oldId).value;
        && games == old(games)[c := old(games)[c].(teams := RenameTeam(old(games)[c].teams, oldId, newId))]
        && socketToGameMap == (old(socketToGameMap) - {oldId})[newId := c]
    {
      socketIdMap := socketIdMap[newId := oldId];
      reverseSocketIdMap := reverseSocketIdMap[oldId := newId];
      if oldId in socketToGameMap && socketToGameMap[oldId] != "" {
        var gameCode := socketToGameMap[oldId];
        if gameCode in games {
          var game := games[gameCode];
          games := games[gameCode := game.(teams := RenameTeam(game.teams, oldId, newId))];
          socketToGameMap := (socketToGameMap - {oldId})[newId := gameCode];
        }
      }
    }

    /** `mapTeamToSocket`: links the socket and the team both ways and binds the socket to the game. */
    method MapTeamToSocket(teamId: string, socketId: string, gameCode: string)
      requires Valid()
      modifies this
      ensures Valid()
      ensures socketIdMap == old(socketIdMap)[socketId := teamId]
      ensures reverseSocketIdMap == old(reverseSocketIdMap)[teamId := socketId]
      ensures socketToGameMap == old(socketToGameMap)[socketId := gameCode]
      ensures games == old(games) && timers == old(timers) && nextTimer == old(nextTimer)
    {
      socketIdMap := socketIdMap[socketId := teamId];
      reverseSocketIdMap := reverseSocketIdMap[teamId := socketId];
      socketToGameMap := socketToGameMap[socketId := gameCode];
    }

    /** `register-player`: a non-empty previous id is taken over by the calling socket. */
    method RegisterPlayer(sid: string, previousId: Option<string>)
      requires Valid()
      modifies this
      ensures Valid()
      ensures previousId.None? || previousId.value == "" ==>
        games == old(games) && IdentityUnchanged() && timers == old(timers)
      ensures previousId.Some? && previousId.value != "" ==>
        && socketIdMap == old(socketIdMap)[sid := previousId.value]
        && reverseSocketIdMap == old(reverseSocketIdMap)[previousId.value := sid]
        && timers == old(timers) && nextTimer == old(nextTimer)
      ensures (previousId.Some? && previousId.value != "" &&
               BoundGame(old(socketToGameMap), old(games), previousId.value).None?) ==>
        games == old(games) && socketToGameMap == old(socketToGameMap)
      ensures (previousId.Some? && previousId.value != "" &&
               BoundGame(old(socketToGameMap), old(games), previousId.value).Some?) ==>
        var c := BoundGame(old(socketToGameMap), old(games), previousId.value).value;
        && games == old(games)[c := old(games)[c].(teams := RenameTeam(old(games)[c].teams, previousId.value, sid))]
        && socketToGameMap == (old(socketToGameMap) - {previousId.value})[sid := c]
    {
      if previousId.Some? && previousId.value != "" {
        UpdateSocketId(previousId.value, sid);
      }
    }

    /**
     * `identify-team`: binds the socket to the first team, in list order,
     * claimed by id or by name, and hands back the current word only when that
     * team is the active one and its turn has started. An index that names no
     * team throws after the binding; the handler only logs that.
     */
    method IdentifyTeam(sid: string, code: string, teamId: Option<string>, teamName: Option<string>)
      returns (o: Outcome, word: Option<Word>)
      requires Valid()
      modifies this
      ensures Valid()
      ensures games == old(games) && timers == old(timers) && nextTimer == old(nextTimer)
      ensures code !in old(games) || FindFirst(old(games)[code].teams, Claims(teamId, teamName)).None? ==>
        o == Ignored && word == None && IdentityUnchanged()
      ensures code in old(games) && FindFirst(old(games)[code].teams, Claims(teamId, teamName)).Some? ==>
        var g := old(games)[code];
        var team := g.teams[FindFirst(g.teams, Claims(teamId, teamName)).value];
        && socketIdMap == old(socketIdMap)[sid := team.id]
        && reverseSocketIdMap == old(reverseSocketIdMap)[team.id := sid]
        && socketToGameMap == old(socketToGameMap)[sid := code]
        && o == Done
        && word == (if g.currentGame.Some? && ActiveTeam(g).Some? && ActiveTeam(g).value.id == team.id
                       && g.currentGame.value.turnStarted
                    then g.currentGame.value.currentWord else None)
    {
      word := None;
      if code !in games {
        return Ignored, None;
      }
      var game := games[code];
      var found := FindFirst(game.teams, Claims(teamId, teamName));
      if found.None? {
        return Ignored, None;
      }
      var team := game.teams[found.value];
      MapTeamToSocket(team.id, sid, code);
      o := Done;
      if game.currentGame.Some? {
        var active := ActiveTeam(game);
        if active.None? {
          return Done, None;
        }
        if active.value.id == team.id && game.currentGame.value.turnStarted {
          word := game.currentGame.value.currentWord;
        }
      }
    }

    /** `join-room`, for its one write: the socket is bound to a live game. */
    method JoinRoom(sid: string, code: string)
      requires Valid()
      modifies this
      ensures Valid()
      ensures games == old(games) && timers == old(timers) && nextTimer == old(nextTimer)
      ensures socketIdMap == old(socketIdMap) && reverseSocketIdMap == old(reverseSocketIdMap)
      ensures socketToGameMap == if code in old(games) then old(socketToGameMap)[sid := code] else old(socketToGameMap)
    {
      if code in games {
        socketToGameMap := socketToGameMap[sid := code];
      }
    }

    // --------------------------------------------------------------- lobby

    /**
     * `host-game`: stores a new game under a fresh four-letter code, without
     * checking whether the code is already taken. A missing settings payload
     * throws before anything is stored.
     */
    method HostGame(sid: string, teamName: string, settings: Option<HostSettings>, draws: seq<real>)
      returns (code: string, o: Outcome)
      requires Valid() && |draws| == 4 && Random.AllDraws(draws)
      modifies this
      ensures Valid()
      ensures code == CodeOf(draws) && IsGameCode(code)
      ensures IdentityUnchanged() && timers == old(timers) && nextTimer == old(nextTimer)
      ensures settings.None? ==> o == Rejected("Failed to create game. Please try again.") && games == old(games)
      ensures settings.Some? ==> o == Done && games == old(games)[code := NewGame(sid, teamName, settings.value)]
    {
      code := GenerateGameCode(draws);
      if settings.None? {
        return code, Rejected("Failed to create game. Please try again.");
      }
      games := games[code := NewGame(sid, teamName, settings.value)];
      o := Done;
    }

    /**
     * `join-team`: rejects a missing or started game without change; otherwise
     * appends the team `{id: socket id, name}` and maps the socket to it.
     */
    method JoinTeam(sid: string, code: string, teamName: string) returns (o: Outcome)
      requires Valid()
      modifies this
      ensures Valid()
      ensures timers == old(timers) && nextTimer == old(nextTimer)
      ensures code !in old(games) ==>
        o == Rejected("Game not found") && games == old(games) && IdentityUnchanged()
      ensures code in old(games) && old(games)[code].currentGame.Some? ==>
        o == Rejected("Game already in progress") && games == old(games) && IdentityUnchanged()
      ensures code in old(games) && old(games)[code].currentGame.None? ==>
        && o == Done
        && games == old(games)[code := old(games)[code].(teams := old(games)[code].teams + [Team(sid, teamName)])]
        && socketIdMap == old(socketIdMap)[sid := sid]
        && reverseSocketIdMap == old(reverseSocketIdMap)[sid := sid]
        && socketToGameMap == old(socketToGameMap)[sid := code]
    {
      if code !in games {
        return Rejected("Game not found");
      }
      var game := games[code];
      if game.currentGame.Some? {
        return Rejected("Game already in progress");
      }
      games := games[code := game.(teams := game.teams + [Team(sid, teamName)])];
      MapTeamToSocket(sid, sid, code);
      o := Done;
    }

    /**
     * `disconnect`: every game the socket hosts is deleted, with its clock;
     * in every other game the socket's team is filtered out. The turn index
     * is not revalidated and the socket maps are not cleaned.
     */
    method Disconnect(sid: string)
      requires Valid()
      modifies this
      ensures Valid()
      ensures games == PartlyDisconnected(old(games), sid, old(games).Keys)
      ensures timers == old(timers) - HostedHandles(old(games), sid, old(games).Keys)
      ensures IdentityUnchanged() && nextTimer == old(nextTimer)
    {
      ghost var g0 := games;
      ghost var t0 := timers;
      ghost var done: set<string> := {};
      var pending := games.Keys;
      while pending != {}
        invariant pending <= g0.Keys && done == g0.Keys - pending
        invariant games == PartlyDisconnected(g0, sid, done)
        invariant timers == t0 - HostedHandles(g0, sid, done)
        invariant Valid()
        invariant IdentityUnchanged() && nextTimer == old(nextTimer)
        decreases pending
      {
        var c :| c in pending;
        DisconnectPending(g0, sid, done, c);
        var game := games[c];
        if game.hostId == sid {
          if game.currentGame.Some? && game.currentGame.value.timer.Some? {
            timers := timers - {game.currentGame.value.timer.value};
          }
          games := games - {c};
        } else {
          games := games[c := game.(teams := RemoveTeam(game.teams, sid))];
        }
        DisconnectStep(g0, sid, done, c);
        pending := pending - {c};
        done := done + {c};
      }
    }

    // -------------------------------------------------------- turn machine

    /**
     * `start-game`: only the host may start; the turn state is installed (team
     * 0, round 1, a full clock, no used words, the first category, each team
     * at 0 points). With no teams the following broadcast throws; the handler
     * catches that and reports a failure, but the turn state stays installed.
     */
    method StartGame(sid: string, code: string) returns (o: Outcome)
      requires Valid()
      modifies this
      ensures Valid()
      ensures IdentityUnchanged() && timers == old(timers) && nextTimer == old(nextTimer)
      ensures code !in old(games) ==> o == Rejected("Game not found") && games == old(games)
      ensures code in old(games) && sid != old(games)[code].hostId ==>
        o == Rejected("Unauthorized to start game") && games == old(games)
      ensures code in old(games) && sid == old(games)[code].hostId ==>
        var g := old(games)[code];
        && games == old(games)[code := g.(currentGame := Some(InitialTurn(g, corpus)))]
        && o == (if g.teams == [] then Rejected("Failed to start game") else Done)
    {
      if code !in games {
        return Rejected("Game not found");
      }
      var game := games[code];
      if sid != game.hostId {
        return Rejected("Unauthorized to start game");
      }
      var allWords := GetWords(corpus, game.settings.categories, LowerAll(game.settings.difficulties));
      var scores := InitialScores(game.teams);
      var cg := TurnState(At(0), 1, scores, None, game.settings.turnDuration,
                          FirstCategory(game.settings.categories), [], [], {}, allWords, None, false);
      games := games[code := game.(currentGame := Some(cg))];
      o := if game.teams == [] then Rejected("Failed to start game") else Done;
    }

    /** `clearInterval`: the interval stops for good; clearing nothing is harmless. */
    method ClearInterval(h: Option<nat>)
      requires Valid()
      modifies this
      ensures Valid()
      ensures timers == old(timers) - Handles(h)
      ensures games == old(games) && IdentityUnchanged() && nextTimer == old(nextTimer)
    {
      if h.Some? {
        timers := timers - {h.value};
      }
    }

    /**
     * `start-turn`: only a socket linked to the active team through the socket
     * maps may start; with no unused word of the current category it reports
     * so and changes nothing; otherwise a word of that pool is marked used and
     * shown, the clock restarts on a new interval, and the word goes to the
     * team's live sockets only. An index that names no team throws before any
     * change; the handler catches that and reports a failure.
     */
    method StartTurn(sid: string, code: string, draw: real, live: set<string>, room: set<string>)
      returns (o: Outcome, recipients: set<string>)
      requires Valid() && Random.IsDraw(draw)
      modifies this
      ensures Valid()
      ensures IdentityUnchanged()
      ensures !Running(old(games), code) ==>
        o == Rejected("Game not found or not started") && games == old(games) && timers == old(timers) && recipients == {}
      ensures Running(old(games), code) && ActiveTeam(old(games)[code]).None? ==>
        o == Rejected("Failed to start turn") && games == old(games) && timers == old(timers) && recipients == {}
      ensures Running(old(games), code) && ActiveTeam(old(games)[code]).Some? ==>
        var g := old(games)[code];
        var cg := g.currentGame.value;
        var team := ActiveTeam(g).value;
        && (!LinkedToTeam(sid, team.id, old(socketIdMap), old(reverseSocketIdMap)) ==>
              o == Rejected("Not your turn") && games == old(games) && timers == old(timers) && recipients == {})
        && (LinkedToTeam(sid, team.id, old(socketIdMap), old(reverseSocketIdMap)) && Pool(cg) == [] ==>
              o == Rejected("No more words available") && games == old(games) && timers == old(timers) && recipients == {})
        && (LinkedToTeam(sid, team.id, old(socketIdMap), old(reverseSocketIdMap)) && Pool(cg) != [] ==>
              && o == Done
              && games == old(games)[code := g.(currentGame := Some(StartedTurn(cg, Pick(Pool(cg), draw),
                                                                               g.settings.turnDuration, old(nextTimer))))]
              && timers == (old(timers) - Handles(cg.timer))[old(nextTimer) := code]
              && nextTimer == old(nextTimer) + 1
              && recipients == WordRecipients(team.id, live, room, socketIdMap, reverseSocketIdMap))
      ensures o != Done ==> nextTimer == old(nextTimer)
      ensures o == Done ==> old(nextTimer) !in old(timers)
    {
      recipients := {};
      if code !in games || games[code].currentGame.None? {
        return Rejected("Game not found or not started"), {};
      }
      var game := games[code];
      var cg := game.currentGame.value;
      var active := ActiveTeam(game);
      if active.None? {
        return Rejected("Failed to start turn"), {};
      }
      var team := active.value;
      if !LinkedToTeam(sid, team.id, socketIdMap, reverseSocketIdMap) {
        return Rejected("Not your turn"), {};
      }
      var pool := Pool(cg);
      if pool == [] {
        return Rejected("No more words available"), {};
      }
      var selected := Pick(pool, draw);
      ClearInterval(cg.timer);
      var handle := nextTimer;
      timers := timers[handle := code];
      nextTimer := nextTimer + 1;
      games := games[code := game.(currentGame := Some(StartedTurn(cg, selected, game.settings.turnDuration, handle)))];
      recipients := WordRecipients(team.id, live, room, socketIdMap, reverseSocketIdMap);
      o := Done;
    }

    /** `prepareTurn`: clears the turn's lists, word and started flag; throws if the index names no team. */
    method PrepareTurn(code: string) returns (o: Outcome)
      requires Valid()
      modifies this
      ensures Valid()
      ensures IdentityUnchanged() && timers == old(timers) && nextTimer == old(nextTimer)
      ensures !Running(old(games), code) ==> o == Ignored && games == old(games)
      ensures Running(old(games), code) ==>
        var g := old(games)[code];
        var g' := g.(currentGame := Some(Prepared(g.currentGame.value)));
        games == old(games)[code := g'] && o == (if ActiveTeam(g').None? then Fault else Done)
    {
      if code !in games || games[code].currentGame.None? {
        return Ignored;
      }
      var game := games[code];
      var prepared := game.(currentGame := Some(Prepared(game.currentGame.value)));
      games := games[code := prepared];
      o := if ActiveTeam(prepared).None? then Fault else Done;
    }

    /**
     * `endGame`: the winner is the entry the score `reduce` returns (the last
     * of the top scores); the game is deleted. An empty score table makes the
     * `reduce` throw before the deletion.
     */
    method EndGame(code: string) returns (o: Outcome)
      requires Valid()
      modifies this
      ensures Valid()
      ensures IdentityUnchanged() && timers == old(timers) && nextTimer == old(nextTimer)
      ensures !Running(old(games), code) ==> o == Ignored && games == old(games)
      ensures Running(old(games), code) && old(games)[code].currentGame.value.scores == [] ==>
        o == Fault && games == old(games)
      ensures Running(old(games), code) && old(games)[code].currentGame.value.scores != [] ==>
        var g := old(games)[code];
        var scores := g.currentGame.value.scores;
        o == GameOver(WinnerName(g.teams, scores[WinnerIndex(scores)].0)) && games == old(games) - {code}
    {
      if code !in games || games[code].currentGame.None? {
        return Ignored;
      }
      var game := games[code];
      var scores := game.currentGame.value.scores;
      if scores == [] {
        return Fault;
      }
      var winner := scores[WinnerIndex(scores)];
      o := GameOver(WinnerName(game.teams, winner.0));
      games := games - {code};
    }

    /**
     * The part `endTurn` shares with the `end-turn` handler: next index modulo
     * the team count, a new round when it wraps to 0, then `endGame` past the
     * last round and `prepareTurn` otherwise.
     */
    method AdvanceTurn(code: string) returns (o: Outcome)
      requires Valid() && Running(games, code)
      modifies this
      ensures Valid()
      ensures IdentityUnchanged() && timers == old(timers) && nextTimer == old(nextTimer)
      ensures games == Put(old(games), code, AfterTurn(old(games)[code]).0)
      ensures o == AfterTurn(old(games)[code]).1
    {
      var game := games[code];
      var cg := game.currentGame.value;
      var next := Step(cg.currentTeamIndex, cg.currentRound, |game.teams|);
      games := games[code := game.(currentGame := Some(cg.(currentTeamIndex := next.0, currentRound := next.1)))];
      if Exceeded(next.1, game.settings.rounds) {
        o := EndGame(code);
      } else {
        o := PrepareTurn(code);
      }
    }

    /** `endTurn`: stops the game's stored interval, then advances the turn. */
    method EndTurn(code: string) returns (o: Outcome)
      requires Valid()
      modifies this
      ensures Valid()
      ensures IdentityUnchanged() && nextTimer == old(nextTimer)
      ensures !Running(old(games), code) ==> o == Ignored && games == old(games) && timers == old(timers)
      ensures Running(old(games), code) ==>
        var g := old(games)[code];
        && timers == old(timers) - Handles(g.currentGame.value.timer)
        && games == Put(old(games), code, AfterTurn(g).0)
        && o == AfterTurn(g).1
    {
      if code !in games || games[code].currentGame.None? {
        return Ignored;
      }
      ClearInterval(games[code].currentGame.value.timer);
      o := AdvanceTurn(code);
    }

    /**
     * The tail `word-guessed` and `word-skipped` share, once the handler has
     * recorded the word in `cg`: the next word is drawn from the unused words
     * of the current category, and with none left the turn ends.
     */
    method NextWord(code: string, cg: TurnState, draw: real) returns (o: Outcome)
      requires Valid() && code in games && Random.IsDraw(draw)
      modifies this
      ensures Valid()
      ensures IdentityUnchanged() && nextTimer == old(nextTimer)
      ensures var g := old(games)[code].(currentGame := Some(cg));
        && (Pool(cg) == [] ==>
              timers == old(timers) - Handles(cg.timer) &&
              games == Put(old(games), code, AfterTurn(g).0) && o == AfterTurn(g).1)
        && (Pool(cg) != [] ==>
              timers == old(timers) && o == Done &&
              games == old(games)[code := g.(currentGame := Some(cg.(currentWord := Some(Pick(Pool(cg), draw)))))])
    {
      var game := games[code].(currentGame := Some(cg));
      games := games[code := game];
      var pool := Pool(cg);
      if pool == [] {
        o := EndTurn(code);
        return;
      }
      games := games[code := game.(currentGame := Some(cg.(currentWord := Some(Pick(pool, draw)))))];
      o := Done;
    }

    /**
     * `word-guessed`: after the raw-id check, the active team's score goes up
     * by exactly 1 and the word is recorded as guessed and used; then the next
     * unused word of the same category is shown, or the turn ends.
     */
    method WordGuessed(sid: string, code: string, word: string, draw: real) returns (o: Outcome)
      requires Valid() && Random.IsDraw(draw)
      modifies this
      ensures Valid()
      ensures IdentityUnchanged() && nextTimer == old(nextTimer)
      ensures RawTurnGuard(old(games), code, sid) != Done ==>
        o == RawTurnGuard(old(games), code, sid) && games == old(games) && timers == old(timers)
      ensures RawTurnGuard(old(games), code, sid) == Done ==>
        var g := old(games)[code];
        var cg := Guessed(g.currentGame.value, ActiveTeam(g).value.id, word);
        Pool(cg) == [] ==>
          && timers == old(timers) - Handles(cg.timer)
          && games == Put(old(games), code, AfterTurn(g.(currentGame := Some(cg))).0)
          && o == AfterTurn(g.(currentGame := Some(cg))).1
      ensures RawTurnGuard(old(games), code, sid) == Done ==>
        var g := old(games)[code];
        var cg := Guessed(g.currentGame.value, ActiveTeam(g).value.id, word);
        Pool(cg) != [] ==>
          && timers == old(timers) && o == Done
          && games == old(games)[code := g.(currentGame := Some(cg.(currentWord := Some(Pick(Pool(cg), draw)))))]
    {
      var guard := RawTurnGuard(games, code, sid);
      if guard != Done {
        return guard;
      }
      var game := games[code];
      var team := ActiveTeam(game).value;
      var cg := Guessed(game.currentGame.value, team.id, word);
      o := NextWord(code, cg, draw);
    }

    /**
     * `word-skipped`: after the raw-id check, the word is recorded as skipped
     * and used, with no score change; then the next unused word of the same
     * category is shown, or the turn ends.
     */
    method WordSkipped(sid: string, code: string, word: string, draw: real) returns (o: Outcome)
      requires Valid() && Random.IsDraw(draw)
      modifies this
      ensures Valid()
      ensures IdentityUnchanged() && nextTimer == old(nextTimer)
      ensures RawTurnGuard(old(games), code, sid) != Done ==>
        o == RawTurnGuard(old(games), code, sid) && games == old(games) && timers == old(timers)
      ensures RawTurnGuard(old(games), code, sid) == Done ==>
        var g := old(games)[code];
        var cg := Skipped(g.currentGame.value, word);
        var g1 := g.(currentGame := Some(cg));
        && (Pool(cg) == [] ==>
              timers == old(timers) - Handles(cg.timer) &&
              games == Put(old(games), code, AfterTurn(g1).0) && o == AfterTurn(g1).1)
        && (Pool(cg) != [] ==>
              timers == old(timers) && o == Done &&
              games == old(games)[code := g.(currentGame := Some(cg.(currentWord := Some(Pick(Pool(cg), draw)))))])
    {
      var guard := RawTurnGuard(games, code, sid);
      if guard != Done {
        return guard;
      }
      var game := games[code];
      var cg := Skipped(game.currentGame.value, word);
      o := NextWord(code, cg, draw);
    }

    /**
     * The `end-turn` handler: after the raw-id check it advances the turn
     * like `endTurn`, but leaves the running interval alone.
     */
    method EndTurnRequest(sid: string, code: string) returns (o: Outcome)
      requires Valid()
      modifies this
      ensures Valid()
      ensures IdentityUnchanged() && timers == old(timers) && nextTimer == old(nextTimer)
      ensures RawTurnGuard(old(games), code, sid) != Done ==>
        o == RawTurnGuard(old(games), code, sid) && games == old(games)
      ensures RawTurnGuard(old(games), code, sid) == Done ==>
        games == Put(old(games), code, AfterTurn(old(games)[code]).0) && o == AfterTurn(old(games)[code]).1
    {
      var guard := RawTurnGuard(games, code, sid);
      if guard != Done {
        return guard;
      }
      o := AdvanceTurn(code);
    }

    /**
     * One firing of the live interval `h` (a cleared interval never fires).
     * If its game is gone or not started it clears itself; at or below 0
     * seconds it clears the game's stored interval and ends the turn;
     * otherwise one second passes.
     */
    method Tick(h: nat) returns (o: Outcome)
      requires Valid()
      modifies this
      ensures Valid()
      ensures IdentityUnchanged() && nextTimer == old(nextTimer)
      ensures h !in old(timers) ==> o == Ignored && games == old(games) && timers == old(timers)
      ensures h in old(timers) && !Running(old(games), old(timers)[h]) ==>
        o == Ignored && games == old(games) && timers == old(timers) - {h}
      ensures h in old(timers) && Running(old(games), old(timers)[h]) ==>
        var code := old(timers)[h];
        var g := old(games)[code];
        var cg := g.currentGame.value;
        && (Countdown(cg.timeRemaining).Some? ==>
              o == Done && timers == old(timers) &&
              games == old(games)[code := g.(currentGame := Some(cg.(timeRemaining := Countdown(cg.timeRemaining).value)))])
        && (Countdown(cg.timeRemaining).None? ==>
              timers == old(timers) - Handles(cg.timer) &&
              games == Put(old(games), code, AfterTurn(g).0) && o == AfterTurn(g).1)
    {
      if h !in timers {
        return Ignored;
      }
      var code := timers[h];
      if code !in games || games[code].currentGame.None? {
        timers := timers - {h};
        return Ignored;
      }
      var game := games[code];
      var cg := game.currentGame.value;
      if cg.timeRemaining <= 0 {
        ClearInterval(cg.timer);
        o := EndTurn(code);
        return;
      }
      games := games[code := game.(currentGame := Some(cg.(timeRemaining := cg.timeRemaining - 1)))];
      o := Done;
    }
  }
}
