/** Tuning constants of the game (core/settings.py), plus the ground line that every
    falling body uses. */
module Settings {
  const ScreenWidth := 1280
  const ScreenHeight := 720

  const PlayerSpeed := 5
  const PlayerHealth := 100

  /** Coins needed per sword level (floor division). */
  const CoinsForSwordLevelUp := 5
  /** SWORD_GROWTH_PER_COIN (0.5) times the factor 10 the sword applies: pixels of blade per level. */
  const BladePixelsPerLevel := 5

  const CoinsPerTreeCut := 1
  const CoinsPerMonsterKill := 3

  /** dragon.py imports COINS_PER_DRAGON_KILL, which core/settings.py does not define;
      its value is left open here. */
  const CoinsPerDragonKill: nat

  /** The top of the green ground strip: SCREEN_HEIGHT - 50. */
  const GroundLevel := ScreenHeight - 50
}
