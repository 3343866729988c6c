/** The engine's command line (`getArgs` in src/utils/game.ts). */
module GameArgs {

  /** `EGameType`. */
  datatype GameType = Solo | Host | Join

  /** `GameData`: the game code, the optional pet name, and how the game is played. */
  datatype GameData = GameData(code: string, petName: string, gameType: GameType)

  const WindowFlags: seq<string> := ["-window", "-nogui", "-nomusic", "-config", "default.cfg"]

  const EngineFlags: seq<string> :=
    ["-iwad", "freedoom2.wad", "-merge", "dm_iog.wad", "iog_assets.wad", "-warp", "1", "-ticdup", "2", "-devparm"]

  const NetworkFlags: seq<string> := ["-altdeath", "-connect", "1"]

  /** The argument list for a game: the fixed window and engine flags, the
      network flags unless the game is solo, and the pet last when one is named. */
  function Args(game: GameData): seq<string> {
    WindowFlags + EngineFlags
      + (if game.gameType != Solo then NetworkFlags else [])
      + (if game.petName != "" then ["-pet", game.petName] else [])
  }

  /** `getArgs`: the list is built by successive pushes. */
  method GetArgs(game: GameData) returns (args: seq<string>)
    ensures args == Args(game)
  {
    args := ["-window", "-nogui", "-nomusic", "-config", "default.cfg"];
    args := args + ["-iwad", "freedoom2.wad", "-merge", "dm_iog.wad", "iog_assets.wad", "-warp", "1", "-ticdup", "2", "-devparm"];
    if game.gameType == Solo {
      // nothing to add
    } else {
      args := args + ["-altdeath", "-connect", "1"];
    }
    if game.petName != "" {
      args := args + ["-pet", game.petName];
    }
  }

  /** The list always opens with the five window flags and the ten engine
      flags; its length is 15, plus 3 for a networked game, plus 2 for a pet. */
  lemma ArgsLayout(game: GameData)
    ensures |Args(game)| == 15 + (if game.gameType != Solo then 3 else 0) + (if game.petName != "" then 2 else 0)
    ensures Args(game)[..5] == WindowFlags
    ensures Args(game)[5..15] == EngineFlags
  {
  }

  /** `-altdeath -connect 1` follows the engine flags exactly when the game is not solo. */
  lemma NetworkFlagsIffNotSolo(game: GameData)
    ensures game.gameType != Solo <==> |Args(game)| >= 18 && Args(game)[15..18] == NetworkFlags
  {
  }

  /** `-pet <name>` closes the list exactly when a pet is named. */
  lemma PetLastIffNamed(game: GameData)
    ensures game.petName != "" <==> Args(game)[|Args(game)| - 2..] == ["-pet", game.petName]
  {
    var a := Args(game);
    if game.petName == "" {
      assert a[|a| - 1] in {"-devparm", "1"};
    }
  }

  /** The game code plays no part in the argument list. */
  lemma CodeIsIgnored(g1: GameData, g2: GameData)
    requires g1.petName == g2.petName && g1.gameType == g2.gameType
    ensures Args(g1) == Args(g2)
  {
  }
}
