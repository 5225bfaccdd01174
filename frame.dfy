/** The class `Frame` of Frame.cs: one snapshot of the game's state, its
    roster lookups, and `Frame.Lerp`, which blends two snapshots for a
    playhead time between them.

    A frame is a value here: the core never edits a frame it is given.
    `Lerp` returns `from` or `to` itself in its early exits and otherwise
    builds a new frame. `DateTime` is a tick count, `float`
    is `real`. `Disc`, `LastThrow`, `LastScore` and `Pause` are opaque, and so
    are `Disc.Lerp` and `Team.Lerp`, which `Lerp` takes as parameters. */
module Frames {
  import opened Common
  import Math2
  import opened VRPlayers

  type Disc(==)
  type LastThrow(==)
  type LastScore(==)
  type Pause(==)

  /** `Team.TeamColor` */
  datatype TeamColor = Blue | Orange | Spectator

  /** The two `Player` fields the lookups compare; `userid` is a `ulong`. */
  datatype Player = Player(name: string, userid: nat)

  /** A roster: its color and its players in list order. */
  datatype Team = Team(color: TeamColor, players: seq<Player>)

  /** `Disc.Lerp(from, to, t)` */
  type DiscLerp = (Disc, Disc, real) -> Disc

  /** `Team.Lerp(from, to, t)` */
  type TeamLerp = (Team, Team, real) -> Team

  /** What a roster lookup compares a player against: the `string` overloads
      compare `name`, the `ulong` overloads compare `userid`. */
  datatype PlayerKey = ByName(name: string) | ByUserid(userid: nat)

  predicate Matches(p: Player, key: PlayerKey)
  {
    match key
    case ByName(n) => p.name == n
    case ByUserid(u) => p.userid == u
  }

  /** No player of any team matches `key`. */
  ghost predicate NoMatch(teams: seq<Team>, key: PlayerKey)
  {
    forall ti, pi :: 0 <= ti < |teams| && 0 <= pi < |teams[ti].players| ==>
      !Matches(teams[ti].players[pi], key)
  }

  /** Player `pi` of team `ti` matches `key`, and no player before it (an
      earlier team, or an earlier player of the same team) does. */
  ghost predicate FirstMatchAt(teams: seq<Team>, key: PlayerKey, ti: nat, pi: nat)
  {
    && ti < |teams| && pi < |teams[ti].players|
    && Matches(teams[ti].players[pi], key)
    && (forall a, b :: 0 <= a < ti && 0 <= b < |teams[a].players| ==> !Matches(teams[a].players[b], key))
    && (forall b :: 0 <= b < pi ==> !Matches(teams[ti].players[b], key))
  }

  /** There is at most one first match, so the player and the team that the
      lookups return for one key belong together. */
  lemma {:induction false} FirstMatchIsUnique(teams: seq<Team>, key: PlayerKey, ti: nat, pi: nat, tj: nat, pj: nat)
    requires FirstMatchAt(teams, key, ti, pi) && FirstMatchAt(teams, key, tj, pj)
    ensures ti == tj && pi == pj
  {
  }

  /** The nested `foreach` over teams, then players, that every lookup runs:
      the position of the first matching player, if any. */
  method FindFirst(teams: seq<Team>, key: PlayerKey) returns (found: Option<(nat, nat)>)
    ensures found.None? <==> NoMatch(teams, key)
    ensures found.Some? ==> FirstMatchAt(teams, key, found.value.0, found.value.1)
  {
    for ti := 0 to |teams|
      invariant forall a, b :: 0 <= a < ti && 0 <= b < |teams[a].players| ==> !Matches(teams[a].players[b], key)
    {
      var players := teams[ti].players;
      for pi := 0 to |players|
        invariant forall b :: 0 <= b < pi ==> !Matches(players[b], key)
      {
        if Matches(players[pi], key) {
          return Some((ti, pi));
        }
      }
    }
    return None;
  }

  /** The ratio between the frames: how far the playhead `t` has moved from
      `start` towards `end`, as exact real division of tick counts. */
  function Ratio(start: int, end: int, t: int): (r: real)
    requires start < end
    ensures start <= t <= end ==> 0.0 <= r <= 1.0
    ensures r == 0.0 <==> t == start
    ensures r == 1.0 <==> t == end
  {
    var elapsed := (t - start) as real;
    var span := (end - start) as real;
    assert elapsed == span * (elapsed / span);
    elapsed / span
  }

  /** Entry `i` of the blended team list: `to`'s team where only `to` has
      index `i`, `from`'s where only `from` has it, and `Team.Lerp` of the two
      where both do. Teams are paired by list position. */
  function TeamAt(fromTeams: seq<Team>, toTeams: seq<Team>, i: nat, ratio: real, teamLerp: TeamLerp): Team
    requires i < Max(|fromTeams|, |toTeams|)
  {
    if |fromTeams| <= i && |toTeams| > i then toTeams[i]
    else if |toTeams| <= i && |fromTeams| > i then fromTeams[i]
    else teamLerp(fromTeams[i], toTeams[i], ratio)
  }

  /** `teams` is the reconciliation of the two team lists: one entry per
      index of the longer list, chosen by the per-index rule. */
  ghost predicate TeamsReconciled(fromTeams: seq<Team>, toTeams: seq<Team>, ratio: real, teamLerp: TeamLerp, teams: seq<Team>)
  {
    && |teams| == Max(|fromTeams|, |toTeams|)
    && (forall i :: |fromTeams| <= i < |teams| ==> teams[i] == toTeams[i])
    && (forall i :: |toTeams| <= i < |teams| ==> teams[i] == fromTeams[i])
    && (forall i :: 0 <= i < |fromTeams| && i < |toTeams| ==> teams[i] == teamLerp(fromTeams[i], toTeams[i], ratio))
  }

  /** The team loop of `Frame.Lerp` (Frame.cs:237-258) as it is evidently
      meant to run: a list of `numTeams` entries filled in index order. The
      code as written creates the list with capacity `numTeams` but count 0,
      so its indexer stores throw; `FillTeamsAsWritten` models that. */
  method ReconcileTeams(fromTeams: seq<Team>, toTeams: seq<Team>, ratio: real, teamLerp: TeamLerp)
    returns (teams: seq<Team>)
    ensures TeamsReconciled(fromTeams, toTeams, ratio, teamLerp, teams)
  {
    var numTeams := Max(|fromTeams|, |toTeams|);
    teams := [];
    for i := 0 to numTeams
      invariant |teams| == i
      invariant forall k :: 0 <= k < i ==> teams[k] == TeamAt(fromTeams, toTeams, k, ratio, teamLerp)
    {
      teams := teams + [TeamAt(fromTeams, toTeams, i, ratio, teamLerp)];
    }
  }

  /** `List<T>`'s indexer setter: it replaces an existing entry and throws
      at or past `Count`. */
  function StoreAt(list: seq<Team>, i: nat, x: Team): (r: Result<seq<Team>>)
    ensures r.Success? <==> i < |list|
    ensures r.Failure? ==> r.error == ArgumentOutOfRange
    ensures r.Success? ==> |r.value| == |list| && r.value[i] == x
    ensures r.Success? ==> forall j :: 0 <= j < |list| && j != i ==> r.value[j] == list[j]
  {
    if i < |list| then Success(list[i := x]) else Failure(ArgumentOutOfRange)
  }

  /** The team loop as written at Frame.cs:239-258: `new List<Team>(numTeams)`
      sets the capacity, not the count, so the list starts empty and each
      `newFrame.teams[i] = …` is an indexer store into it. */
  function FillTeamsAsWritten(list: seq<Team>, i: nat, fromTeams: seq<Team>, toTeams: seq<Team>, ratio: real, teamLerp: TeamLerp): (r: Result<seq<Team>>)
    ensures r.Success? ==> |r.value| == |list|
    ensures r.Failure? ==> r.error == ArgumentOutOfRange
    ensures r.Success? <==> i >= Max(|fromTeams|, |toTeams|) || Max(|fromTeams|, |toTeams|) <= |list|
    decreases Max(|fromTeams|, |toTeams|) - i
  {
    if i >= Max(|fromTeams|, |toTeams|) then Success(list)
    else
      var stored := StoreAt(list, i, TeamAt(fromTeams, toTeams, i, ratio, teamLerp));
      if stored.Failure? then Failure(stored.error)
      else FillTeamsAsWritten(stored.value, i + 1, fromTeams, toTeams, ratio, teamLerp)
  }

  /** As written, the team loop throws on its first store whenever either
      frame has a team; only two team-less frames get through. */
  lemma {:induction false} FillTeamsAsWrittenThrows(fromTeams: seq<Team>, toTeams: seq<Team>, ratio: real, teamLerp: TeamLerp)
    ensures Max(|fromTeams|, |toTeams|) > 0 ==>
      FillTeamsAsWritten([], 0, fromTeams, toTeams, ratio, teamLerp) == Failure(ArgumentOutOfRange)
    ensures Max(|fromTeams|, |toTeams|) == 0 ==>
      FillTeamsAsWritten([], 0, fromTeams, toTeams, ratio, teamLerp) == Success([])
  {
    if Max(|fromTeams|, |toTeams|) > 0 {
      assert StoreAt([], 0, TeamAt(fromTeams, toTeams, 0, ratio, teamLerp)).Failure?;
    }
  }

  /** A concrete pair that exercises the defect: one team in each frame. */
  lemma OneTeamEachThrows(blue: Team, orange: Team, ratio: real, teamLerp: TeamLerp)
    ensures FillTeamsAsWritten([], 0, [blue], [orange], ratio, teamLerp) == Failure(ArgumentOutOfRange)
  {
    FillTeamsAsWrittenThrows([blue], [orange], ratio, teamLerp);
  }

  /** The new frame `Frame.Lerp` builds at playhead `t`, whose ratio is
      the elapsed share of the interval:
      - the recording time is `t`, and the game clock is interpolated;
      - the disc is `Disc.Lerp` of the two discs;
      - the teams are reconciled index by index;
      - the scoreboard, session and match fields are copied from `from`;
      - the fields the initializer leaves out keep their C# defaults
        (null, false, 0), so the player, pause, last throw and round scores
        are not carried over. */
  ghost predicate IsBlendOf(from: Frame, to: Frame, t: int, discLerp: DiscLerp, teamLerp: TeamLerp, f: Frame)
    requires from.recordedTime < to.recordedTime
  {
    var ratio := Ratio(from.recordedTime, to.recordedTime, t);
    && f.recordedTime == t
    && f.gameClock == from.gameClock + (to.gameClock - from.gameClock) * ratio
    && f.disc == discLerp(from.disc, to.disc, ratio)
    && TeamsReconciled(from.teams, to.teams, ratio, teamLerp, f.teams)
    // copied from `from`
    && f.sessionId == from.sessionId
    && f.orangePoints == from.orangePoints
    && f.bluePoints == from.bluePoints
    && f.privateMatch == from.privateMatch
    && f.clientName == from.clientName
    && f.gameClockDisplay == from.gameClockDisplay
    && f.gameStatus == from.gameStatus
    && f.matchType == from.matchType
    && f.mapName == from.mapName
    && f.possession == from.possession
    && f.tournamentMatch == from.tournamentMatch
    && f.lastScore == from.lastScore
    // not carried over
    && f.lastThrow.None? && f.sessionIp.None? && f.player.None? && f.pause.None?
    && f.totalRoundCount == 0 && f.blueRoundScore == 0 && f.orangeRoundScore == 0
    && !f.orangeTeamRestartRequest && !f.blueTeamRestartRequest
    && !f.leftShoulderPressed && !f.rightShoulderPressed
    && !f.leftShoulderPressed2 && !f.rightShoulderPressed2
  }

  /** The blended game clock runs between the two frames' clocks, equals
      `from`'s at `from`'s recording time and `to`'s at `to`'s. */
  lemma {:induction false} BlendedClockBetween(from: Frame, to: Frame, t: int, discLerp: DiscLerp, teamLerp: TeamLerp, f: Frame)
    requires from.recordedTime <= t <= to.recordedTime && from.recordedTime < to.recordedTime
    requires IsBlendOf(from, to, t, discLerp, teamLerp, f)
    ensures t == from.recordedTime ==> f.gameClock == from.gameClock
    ensures t == to.recordedTime ==> f.gameClock == to.gameClock
    ensures from.gameClock <= to.gameClock ==> from.gameClock <= f.gameClock <= to.gameClock
    ensures to.gameClock <= from.gameClock ==> to.gameClock <= f.gameClock <= from.gameClock
  {
    var ratio := Ratio(from.recordedTime, to.recordedTime, t);
    assert f.gameClock == Math2.Lerp(from.gameClock, to.gameClock, ratio);
  }

  /** A frame blended later in the interval has a clock no earlier in the
      direction the clock moves: for a counting-down clock, a later playhead
      never shows more time left. */
  lemma {:induction false} BlendedClockMonotone(from: Frame, to: Frame, s: int, t: int, discLerp: DiscLerp, teamLerp: TeamLerp, fs: Frame, ft: Frame)
    requires from.recordedTime <= s <= t <= to.recordedTime && from.recordedTime < to.recordedTime
    requires IsBlendOf(from, to, s, discLerp, teamLerp, fs) && IsBlendOf(from, to, t, discLerp, teamLerp, ft)
    requires to.gameClock <= from.gameClock
    ensures ft.gameClock <= fs.gameClock
  {
    var rs := Ratio(from.recordedTime, to.recordedTime, s);
    var rt := Ratio(from.recordedTime, to.recordedTime, t);
    RatioMonotone(from.recordedTime, to.recordedTime, s, t);
    Math2.LerpMonotone(to.gameClock, from.gameClock, 1.0 - rt, 1.0 - rs);
    assert fs.gameClock == Math2.Lerp(to.gameClock, from.gameClock, 1.0 - rs);
    assert ft.gameClock == Math2.Lerp(to.gameClock, from.gameClock, 1.0 - rt);
  }

  lemma RatioMonotone(start: int, end: int, s: int, t: int)
    requires start < end && s <= t
    ensures Ratio(start, end, s) <= Ratio(start, end, t)
  {
    var span := (end - start) as real;
    assert Ratio(start, end, t) - Ratio(start, end, s) == (t - s) as real / span;
  }

  /** Ten seconds between frames whose clock counts down from 100 to 90: a
      quarter of the way in, the blended clock reads 97.5. */
  lemma CountdownQuarterWay(from: Frame, to: Frame, discLerp: DiscLerp, teamLerp: TeamLerp, f: Frame)
    requires from.recordedTime == 0 && to.recordedTime == 10 * TicksPerSecond
    requires from.gameClock == 100.0 && to.gameClock == 90.0
    requires IsBlendOf(from, to, 25 * TicksPerSecond / 10, discLerp, teamLerp, f)
    ensures f.gameClock == 97.5
  {
    assert Ratio(0, 10 * TicksPerSecond, 25 * TicksPerSecond / 10) == 0.25;
  }

  /** A blended frame is in the lobby exactly when `from` is. */
  lemma BlendedLobbyFollowsFrom(from: Frame, to: Frame, t: int, discLerp: DiscLerp, teamLerp: TeamLerp, f: Frame)
    requires from.recordedTime < to.recordedTime
    requires IsBlendOf(from, to, t, discLerp, teamLerp, f)
    ensures f.InLobby() <==> from.InLobby()
  {
  }

  /** `DateTime` ticks are 100 ns. */
  const TicksPerSecond := 10_000_000

  /** The map name that marks the lobby. */
  const LobbyMap := "mpl_lobby_b2"

  datatype Frame = Frame(
    recordedTime: int,
    disc: Disc,
    lastThrow: Option<LastThrow>,
    sessionId: string,
    orangeTeamRestartRequest: bool,
    sessionIp: Option<string>,
    gameStatus: string,
    gameClockDisplay: string,
    gameClock: real,
    matchType: string,
    mapName: string,
    privateMatch: bool,
    orangePoints: int,
    totalRoundCount: int,
    blueRoundScore: int,
    orangeRoundScore: int,
    player: Option<VRPlayer>,
    pause: Option<Pause>,
    possession: seq<int>,
    tournamentMatch: bool,
    leftShoulderPressed: bool,
    rightShoulderPressed: bool,
    leftShoulderPressed2: bool,
    rightShoulderPressed2: bool,
    blueTeamRestartRequest: bool,
    clientName: string,
    bluePoints: int,
    lastScore: Option<LastScore>,
    teams: seq<Team>)
  {
    /** `inLobby` */
    predicate InLobby()
    {
      mapName == LobbyMap
    }

    /** `playerTeams`: the first two teams; indexing a shorter list throws. */
    function PlayerTeams(): (r: Result<seq<Team>>)
      ensures r.Success? <==> |teams| >= 2
      ensures r.Failure? ==> r.error == ArgumentOutOfRange
      ensures r.Success? ==> r.value == teams[..2]
    {
      if |teams| < 2 then Failure(ArgumentOutOfRange)
      else Success([teams[0], teams[1]])
    }

    /** `GetPlayer(string name)`: the first player, in team order and then
        list order, whose name is `name`; null when there is none. */
    method GetPlayerByName(name: string) returns (r: Option<Player>)
      ensures r.None? <==> NoMatch(teams, ByName(name))
      ensures r.Some? ==> exists ti: nat, pi: nat ::
        FirstMatchAt(teams, ByName(name), ti, pi) && r.value == teams[ti].players[pi]
    {
      var found := FindFirst(teams, ByName(name));
      if found.None? {
        return None;
      }
      return Some(teams[found.value.0].players[found.value.1]);
    }

    /** `GetPlayer(ulong userid)`: the first player whose `userid` matches. */
    method GetPlayerByUserid(userid: nat) returns (r: Option<Player>)
      ensures r.None? <==> NoMatch(teams, ByUserid(userid))
      ensures r.Some? ==> exists ti: nat, pi: nat ::
        FirstMatchAt(teams, ByUserid(userid), ti, pi) && r.value == teams[ti].players[pi]
    {
      var found := FindFirst(teams, ByUserid(userid));
      if found.None? {
        return None;
      }
      return Some(teams[found.value.0].players[found.value.1]);
    }

    /** `GetTeam(string player_name)`: the team that holds the first player
        named `playerName`; null when no team does. */
    method GetTeamByName(playerName: string) returns (r: Option<Team>)
      ensures r.None? <==> NoMatch(teams, ByName(playerName))
      ensures r.Some? ==> exists ti: nat, pi: nat ::
        FirstMatchAt(teams, ByName(playerName), ti, pi) && r.value == teams[ti]
    {
      var found := FindFirst(teams, ByName(playerName));
      if found.None? {
        return None;
      }
      return Some(teams[found.value.0]);
    }

    /** `GetTeam(ulong userid)`: the team that holds the first player with
        that `userid`. */
    method GetTeamByUserid(userid: nat) returns (r: Option<Team>)
      ensures r.None? <==> NoMatch(teams, ByUserid(userid))
      ensures r.Some? ==> exists ti: nat, pi: nat ::
        FirstMatchAt(teams, ByUserid(userid), ti, pi) && r.value == teams[ti]
    {
      var found := FindFirst(teams, ByUserid(userid));
      if found.None? {
        return None;
      }
      return Some(teams[found.value.0]);
    }

    /** `GetTeamColor(ulong userid)`: the color of the team holding the first
        player with that `userid`, and `spectator` when no team holds one. */
    method GetTeamColor(userid: nat) returns (r: TeamColor)
      ensures NoMatch(teams, ByUserid(userid)) ==> r == Spectator
      ensures !NoMatch(teams, ByUserid(userid)) ==> exists ti: nat, pi: nat ::
        FirstMatchAt(teams, ByUserid(userid), ti, pi) && r == teams[ti].color
    {
      var found := FindFirst(teams, ByUserid(userid));
      if found.None? {
        return Spectator;
      }
      return teams[found.value.0].color;
    }

    /** `GetAllPlayers`: the players of team 0, then team 1, then (only when
        asked) team 2, appended into one list. Indexing a missing team throws. */
    method GetAllPlayers(includeSpectators: bool) returns (r: Result<seq<Player>>)
      ensures var needed := if includeSpectators then 3 else 2;
        && (r.Success? <==> |teams| >= needed)
        && (r.Failure? ==> r.error == ArgumentOutOfRange)
        && (r.Success? ==> forall p :: p in r.value <==> exists i :: 0 <= i < needed && p in teams[i].players)
        && (r.Success? ==> |r.value| == |teams[0].players| + |teams[1].players|
                                        + (if includeSpectators then |teams[2].players| else 0))
        && (r.Success? ==> r.value[..|teams[0].players|] == teams[0].players)
        && (r.Success? ==> r.value[|teams[0].players|..|teams[0].players| + |teams[1].players|] == teams[1].players)
        && (r.Success? ==> r.value[|teams[0].players| + |teams[1].players|..]
                           == if includeSpectators then teams[2].players else [])
    {
      if |teams| < 2 {
        return Failure(ArgumentOutOfRange);
      }
      var list: seq<Player> := [];
      list := list + teams[0].players;
      list := list + teams[1].players;
      if includeSpectators {
        if |teams| < 3 {
          return Failure(ArgumentOutOfRange);
        }
        list := list + teams[2].players;
      }
      return Success(list);
    }

    /** `Frame.Lerp`: the frame at playhead `t` between `from` and `to`.
        Equal recording times give `from`; `from` recorded after `to` gives
        null; a playhead strictly before `from` or strictly after `to` gives
        that frame; otherwise a new frame blended by the ratio of elapsed
        time. */
    static method Lerp(from: Frame, to: Frame, t: int, discLerp: DiscLerp, teamLerp: TeamLerp)
      returns (r: Option<Frame>)
      ensures from.recordedTime == to.recordedTime ==> r == Some(from)
      ensures from.recordedTime > to.recordedTime ==> r == None
      ensures from.recordedTime < to.recordedTime && t < from.recordedTime ==> r == Some(from)
      ensures from.recordedTime < to.recordedTime && t > to.recordedTime ==> r == Some(to)
      ensures from.recordedTime < to.recordedTime && from.recordedTime <= t <= to.recordedTime ==>
        r.Some? && IsBlendOf(from, to, t, discLerp, teamLerp, r.value)
    {
      if from.recordedTime == to.recordedTime {
        return Some(from);
      }
      if from.recordedTime > to.recordedTime {
        return None;
      }
      if from.recordedTime > t {
        return Some(from);
      }
      if to.recordedTime < t {
        return Some(to);
      }

      var lerpValue := Ratio(from.recordedTime, to.recordedTime, t);
      var teams := ReconcileTeams(from.teams, to.teams, lerpValue, teamLerp);
      var newFrame := Frame(
        recordedTime := t,
        disc := discLerp(from.disc, to.disc, lerpValue),
        lastThrow := None,
        sessionId := from.sessionId,
        orangeTeamRestartRequest := false,
        sessionIp := None,
        gameStatus := from.gameStatus,
        gameClockDisplay := from.gameClockDisplay,
        gameClock := Math2.Lerp(from.gameClock, to.gameClock, lerpValue),
        matchType := from.matchType,
        mapName := from.mapName,
        privateMatch := from.privateMatch,
        orangePoints := from.orangePoints,
        totalRoundCount := 0,
        blueRoundScore := 0,
        orangeRoundScore := 0,
        player := None,
        pause := None,
        possession := from.possession,
        tournamentMatch := from.tournamentMatch,
        leftShoulderPressed := false,
        rightShoulderPressed := false,
        leftShoulderPressed2 := false,
        rightShoulderPressed2 := false,
        blueTeamRestartRequest := false,
        clientName := from.clientName,
        bluePoints := from.bluePoints,
        lastScore := from.lastScore,
        teams := teams);
      return Some(newFrame);
    }
  }
}
