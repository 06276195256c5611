/**
 * The client's `game` slice (src/store/index.ts): one state object whose
 * reducers write its fields in place.
 */
module Store {
  import opened Wrappers
  import opened Words
  import opened Scores
  import opened Session

  datatype TeamSettings = TeamSettings(maxTeams: int, names: seq<string>)

  datatype ClientSettings = ClientSettings(
    teams: TeamSettings, rounds: int, turnDuration: int,
    difficulties: seq<string>, categories: seq<string>)

  /** A `Partial<GameSettings>`: each key present or absent. */
  datatype SettingsPatch = SettingsPatch(
    teams: Option<TeamSettings>, rounds: Option<int>, turnDuration: Option<int>,
    difficulties: Option<seq<string>>, categories: Option<seq<string>>)

  /** The client copy of a running game. */
  datatype ClientGame = ClientGame(
    currentTeamIndex: int, currentRound: int, scores: Record, currentWord: Option<Word>,
    timeRemaining: int, guessed: seq<string>, skipped: seq<string>, usedWords: set<string>)

  datatype StoreState = StoreState(
    gameCode: Option<string>, teams: seq<Team>, isHost: bool, isPlaying: bool,
    settings: ClientSettings, currentGame: Option<ClientGame>)

  const DefaultSettings := ClientSettings(
    TeamSettings(4, ["Team 1", "Team 2", "Team 3", "Team 4"]), 3, 30, ["easy", "medium"],
    ["action", "things", "places", "food & drink", "hobbies", "entertainment"])

  /** `initialState`. */
  const Initial := StoreState(None, [], false, false, DefaultSettings, None)

  const NoChange := SettingsPatch(None, None, None, None, None)

  /** `{ ...settings, ...patch }`. */
  function Merge(s: ClientSettings, p: SettingsPatch): (r: ClientSettings)
    ensures p.teams.Some? ==> r.teams == p.teams.value
    ensures p.teams.None? ==> r.teams == s.teams
    ensures p.rounds.Some? ==> r.rounds == p.rounds.value
    ensures p.rounds.None? ==> r.rounds == s.rounds
    ensures p.turnDuration.Some? ==> r.turnDuration == p.turnDuration.value
    ensures p.turnDuration.None? ==> r.turnDuration == s.turnDuration
    ensures p.difficulties.Some? ==> r.difficulties == p.difficulties.value
    ensures p.difficulties.None? ==> r.difficulties == s.difficulties
    ensures p.categories.Some? ==> r.categories == p.categories.value
    ensures p.categories.None? ==> r.categories == s.categories
  {
    ClientSettings(p.teams.GetOr(s.teams), p.rounds.GetOr(s.rounds), p.turnDuration.GetOr(s.turnDuration),
                   p.difficulties.GetOr(s.difficulties), p.categories.GetOr(s.categories))
  }

  /** Two spreads in a row: keys of the later patch win. */
  function Then(p: SettingsPatch, q: SettingsPatch): SettingsPatch {
    SettingsPatch(
      if q.teams.Some? then q.teams else p.teams,
      if q.rounds.Some? then q.rounds else p.rounds,
      if q.turnDuration.Some? then q.turnDuration else p.turnDuration,
      if q.difficulties.Some? then q.difficulties else p.difficulties,
      if q.categories.Some? then q.categories else p.categories)
  }

  /** The patch carrying every key of `t`. */
  function FullPatch(t: ClientSettings): SettingsPatch {
    SettingsPatch(Some(t.teams), Some(t.rounds), Some(t.turnDuration), Some(t.difficulties), Some(t.categories))
  }

  lemma MergeNoChange(s: ClientSettings)
    ensures Merge(s, NoChange) == s
  {}

  lemma MergeIdempotent(s: ClientSettings, p: SettingsPatch)
    ensures Merge(Merge(s, p), p) == Merge(s, p)
  {}

  lemma MergeThen(s: ClientSettings, p: SettingsPatch, q: SettingsPatch)
    ensures Merge(Merge(s, p), q) == Merge(s, Then(p, q))
  {}

  /** A full patch replaces the settings whatever they were. */
  lemma MergeFull(s: ClientSettings, t: ClientSettings)
    ensures Merge(s, FullPatch(t)) == t
  {}

  class GameStore {
    var gameCode: Option<string>
    var teams: seq<Team>
    var isHost: bool
    var isPlaying: bool
    var settings: ClientSettings
    var currentGame: Option<ClientGame>

    function Snapshot(): StoreState
      reads this
    {
      StoreState(gameCode, teams, isHost, isPlaying, settings, currentGame)
    }

    constructor ()
      ensures Snapshot() == Initial
    {
      gameCode, teams, isHost, isPlaying := None, [], false, false;
      settings, currentGame := DefaultSettings, None;
    }

    method SetGameCode(code: Option<string>)
      modifies this
      ensures Snapshot() == old(Snapshot()).(gameCode := code)
    {
      gameCode := code;
    }

    method SetTeams(ts: seq<Team>)
      modifies this
      ensures Snapshot() == old(Snapshot()).(teams := ts)
    {
      teams := ts;
    }

    method SetIsHost(b: bool)
      modifies this
      ensures Snapshot() == old(Snapshot()).(isHost := b)
    {
      isHost := b;
    }

    method SetIsPlaying(b: bool)
      modifies this
      ensures Snapshot() == old(Snapshot()).(isPlaying := b)
    {
      isPlaying := b;
    }

    method SetCurrentGame(g: Option<ClientGame>)
      modifies this
      ensures Snapshot() == old(Snapshot()).(currentGame := g)
    {
      currentGame := g;
    }

    /** `resetGame`: every field back to `initialState`. */
    method ResetGame()
      modifies this
      ensures Snapshot() == Initial
    {
      gameCode, teams, isHost, isPlaying := Initial.gameCode, Initial.teams, Initial.isHost, Initial.isPlaying;
      settings, currentGame := Initial.settings, Initial.currentGame;
    }

    /** `updateSettings`: the keys present in the patch are overwritten, the rest kept. */
    method UpdateSettings(p: SettingsPatch)
      modifies this
      ensures Snapshot() == old(Snapshot()).(settings := Merge(old(settings), p))
    {
      settings := Merge(settings, p);
    }

    /** `updateTimeRemaining`: only the game's clock changes, and only when there is a game. */
    method UpdateTimeRemaining(t: int)
      modifies this
      ensures old(currentGame).None? ==> Snapshot() == old(Snapshot())
      ensures old(currentGame).Some? ==>
        Snapshot() == old(Snapshot()).(currentGame := Some(old(currentGame).value.(timeRemaining := t)))
    {
      if currentGame.Some? {
        currentGame := Some(currentGame.value.(timeRemaining := t));
      }
    }

    /**
     * `updateScore`: the team's score is written (appended as a new key when
     * absent); every other team's score and every other field is kept.
     */
    method UpdateScore(teamId: string, score: int)
      modifies this
      ensures old(currentGame).None? ==> Snapshot() == old(Snapshot())
      ensures old(currentGame).Some? ==>
        && currentGame.Some?
        && Lookup(currentGame.value.scores, teamId) == Some(score)
        && (forall k :: k != teamId ==> Lookup(currentGame.value.scores, k) == Lookup(old(currentGame).value.scores, k))
        && Keys(currentGame.value.scores) == Keys(old(currentGame).value.scores) + {teamId}
        && (DistinctKeys(old(currentGame).value.scores) ==> DistinctKeys(currentGame.value.scores))
        && Snapshot() == old(Snapshot()).(currentGame := Some(old(currentGame).value.(scores := currentGame.value.scores)))
    {
      if currentGame.Some? {
        var g := currentGame.value;
        SetLookupAll(g.scores, teamId, score);
        SetDistinct(g.scores, teamId, score);
        currentGame := Some(g.(scores := Set(g.scores, teamId, score)));
      }
    }

    /** `addGuessedWord`: appended to `guessed` and added to `usedWords`; `skipped` is kept. */
    method AddGuessedWord(w: string)
      modifies this
      ensures old(currentGame).None? ==> Snapshot() == old(Snapshot())
      ensures old(currentGame).Some? ==>
        var g := old(currentGame).value;
        Snapshot() == old(Snapshot()).(currentGame := Some(g.(guessed := g.guessed + [w], usedWords := g.usedWords + {w})))
    {
      if currentGame.Some? {
        var g := currentGame.value;
        currentGame := Some(g.(guessed := g.guessed + [w], usedWords := g.usedWords + {w}));
      }
    }

    /** `addSkippedWord`: appended to `skipped` and added to `usedWords`; `guessed` is kept. */
    method AddSkippedWord(w: string)
      modifies this
      ensures old(currentGame).None? ==> Snapshot() == old(Snapshot())
      ensures old(currentGame).Some? ==>
        var g := old(currentGame).value;
        Snapshot() == old(Snapshot()).(currentGame := Some(g.(skipped := g.skipped + [w], usedWords := g.usedWords + {w})))
    {
      if currentGame.Some? {
        var g := currentGame.value;
        currentGame := Some(g.(skipped := g.skipped + [w], usedWords := g.usedWords + {w}));
      }
    }
  }
}
