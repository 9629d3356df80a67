/** The watch filter `matchesFilters` of KillFetcher.js and the normalised
    `playerNames` list that DiscordBot.js builds in its constructor. */
module WatchFilter {
  import opened Text
  import opened Events

  /** The configured guild and alliance names, as given (not yet normalised). */
  datatype WatchConfig = WatchConfig(guildName: string, allianceName: string)

  datatype Reason = NoFiltersConfigured | GuildMatch | AllianceMatch | PlayerMatch | NoMatch

  datatype MatchResult = MatchResult(ok: bool, reason: Reason)

  /** `config.players.map(norm).filter(Boolean)`: every configured player
      name, normalised, with the names that normalise to "" dropped. */
  function NormalizePlayers(players: seq<string>): (r: seq<string>)
    ensures |r| <= |players|
    ensures forall n :: n in r ==> n != "" && Norm(n) == n
    ensures forall n :: n in r <==> n != "" && exists p :: p in players && Norm(p) == n
    decreases |players|
  {
    if players == [] then []
    else
      var n := Norm(players[0]);
      NormIdempotent(players[0]);
      var rest := NormalizePlayers(players[1..]);
      assert forall p :: p in players <==> p == players[0] || p in players[1..];
      if n == "" then rest else [n] + rest
  }

  /** The filter is configured at all: a guild or alliance that is not blank,
      or at least one player. */
  predicate HasAnyFilter(cfg: WatchConfig, players: seq<string>) {
    Norm(cfg.guildName) != "" || Norm(cfg.allianceName) != "" || |players| > 0
  }

  /** `matchesFilters(kill)`, with `players` the bot's `playerNames`. Guild is
      tried first, then alliance, then player; each test looks at both sides. */
  function MatchesFilters(cfg: WatchConfig, players: seq<string>, kill: Kill): (r: MatchResult)
    ensures r.ok <==> r.reason in {GuildMatch, AllianceMatch, PlayerMatch}
    ensures !HasAnyFilter(cfg, players) ==> r == MatchResult(false, NoFiltersConfigured)
    ensures HasAnyFilter(cfg, players) && !r.ok ==> r.reason == NoMatch
    ensures r.reason == GuildMatch <==>
      GuildHit(cfg, kill.killer) || GuildHit(cfg, kill.victim)
    ensures r.reason == AllianceMatch <==>
      !GuildHit(cfg, kill.killer) && !GuildHit(cfg, kill.victim) &&
      (AllianceHit(cfg, kill.killer) || AllianceHit(cfg, kill.victim))
    ensures r.reason == PlayerMatch <==>
      !GuildHit(cfg, kill.killer) && !GuildHit(cfg, kill.victim) &&
      !AllianceHit(cfg, kill.killer) && !AllianceHit(cfg, kill.victim) &&
      (PlayerHit(players, kill.killer) || PlayerHit(players, kill.victim))
  {
    var wantedGuild := Norm(cfg.guildName);
    var wantedAlliance := Norm(cfg.allianceName);
    var killerGuild := Norm(kill.killer.guildName);
    var victimGuild := Norm(kill.victim.guildName);
    var killerAlliance := Norm(kill.killer.allianceName);
    var victimAlliance := Norm(kill.victim.allianceName);
    var killerName := Norm(kill.killer.name);
    var victimName := Norm(kill.victim.name);
    var hasAnyFilter := wantedGuild != "" || wantedAlliance != "" || |players| > 0;
    if !hasAnyFilter then MatchResult(false, NoFiltersConfigured)
    else if wantedGuild != "" && (killerGuild == wantedGuild || victimGuild == wantedGuild) then
      MatchResult(true, GuildMatch)
    else if wantedAlliance != "" && (killerAlliance == wantedAlliance || victimAlliance == wantedAlliance) then
      MatchResult(true, AllianceMatch)
    else if |players| > 0 && (killerName in players || victimName in players) then
      MatchResult(true, PlayerMatch)
    else MatchResult(false, NoMatch)
  }

  /** One side of the event is in the watched guild. */
  predicate GuildHit(cfg: WatchConfig, p: Player) {
    Norm(cfg.guildName) != "" && Norm(p.guildName) == Norm(cfg.guildName)
  }

  /** One side of the event is in the watched alliance. */
  predicate AllianceHit(cfg: WatchConfig, p: Player) {
    Norm(cfg.allianceName) != "" && Norm(p.allianceName) == Norm(cfg.allianceName)
  }

  /** One side of the event is a watched player. */
  predicate PlayerHit(players: seq<string>, p: Player) {
    Norm(p.name) in players
  }

  /** A side is watched when any configured criterion picks it out. */
  predicate Watched(cfg: WatchConfig, players: seq<string>, p: Player) {
    GuildHit(cfg, p) || AllianceHit(cfg, p) || PlayerHit(players, p)
  }

  /** An event passes exactly when its killer or its victim is watched. */
  lemma MatchesIffWatched(cfg: WatchConfig, players: seq<string>, kill: Kill)
    ensures MatchesFilters(cfg, players, kill).ok <==>
      Watched(cfg, players, kill.killer) || Watched(cfg, players, kill.victim)
  {
  }

  /** The killer with the victim swapped. */
  function Swapped(kill: Kill): Kill {
    kill.(killer := kill.victim, victim := kill.killer)
  }

  /** Kills and deaths of a watched entity are treated alike. */
  lemma MatchesSymmetric(cfg: WatchConfig, players: seq<string>, kill: Kill)
    ensures MatchesFilters(cfg, players, Swapped(kill)) == MatchesFilters(cfg, players, kill)
  {
  }

  /** Two players whose names, guilds and alliances agree up to case and
      surrounding white space. */
  predicate SameUpToNorm(a: Player, b: Player) {
    Norm(a.name) == Norm(b.name) && Norm(a.guildName) == Norm(b.guildName) &&
    Norm(a.allianceName) == Norm(b.allianceName)
  }

  /** Matching sees names only through `norm`: events that agree up to case and
      padding, under configurations that agree likewise, match alike. */
  lemma MatchesSeesOnlyNormalForm(cfg: WatchConfig, cfg': WatchConfig, players: seq<string>, kill: Kill, kill': Kill)
    requires Norm(cfg.guildName) == Norm(cfg'.guildName)
    requires Norm(cfg.allianceName) == Norm(cfg'.allianceName)
    requires SameUpToNorm(kill.killer, kill'.killer) && SameUpToNorm(kill.victim, kill'.victim)
    ensures MatchesFilters(cfg', players, kill') == MatchesFilters(cfg, players, kill)
  {
  }

  /** A configured player name matches the player however the configuration
      and the event spell it: the bot's list holds the normalised name. */
  lemma ConfiguredPlayerMatches(cfg: WatchConfig, configured: seq<string>, k: nat, kill: Kill)
    requires k < |configured| && Norm(configured[k]) != ""
    requires Norm(kill.victim.name) == Norm(configured[k])
    ensures MatchesFilters(cfg, NormalizePlayers(configured), kill).ok
  {
    assert configured[k] in configured;
  }

  /** The worked example of a guild match: "Foo" configured, victim in "foo". */
  lemma GuildMatchExample(kill: Kill)
    requires kill.victim.guildName == "foo"
    ensures MatchesFilters(WatchConfig("Foo", ""), [], kill) == MatchResult(true, GuildMatch)
  {
    assert Trim("Foo") == "Foo";
    assert Norm("Foo") == "foo";
    assert Trim("foo") == "foo";
    assert Norm("foo") == "foo";
  }
}
