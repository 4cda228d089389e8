/**
 * How the two variants of the scene relate: where the kong variant's
 * spawner and jump agree with the multi-jump variant's, and where they part.
 */
module Variants {
  import opened Rules
  import KongGame
  import MultiJumpGame

  /**
   * With no live bolt or food, the kong variant picks what the multi-jump
   * variant picks, except that a draw above 0.87 that would give a tree
   * gives a kong instead when none is live.
   */
  lemma SpawnersAgreeButForKong(score: nat, r: real, isUpsideDown: bool, isDark: bool, live: Census)
    requires live.Count(Bolt) == 0 && live.Count(Food) == 0
    ensures var m := MultiJumpGame.ChooseItem(score, r, isUpsideDown, isDark);
            KongGame.ChooseItem(score, r, isUpsideDown, isDark, live)
            == if m == Tree && r > 0.87 && live.Count(Kong) == 0 then Kong else m
  {
  }

  /**
   * The two picks differ only where the kong variant's extra rules apply:
   * the multi-jump pick is a bolt or food of which one is already live, or
   * it is a tree and the kong variant spawns a kong instead.
   */
  lemma PicksDifferOnlyByGates(score: nat, r: real, isUpsideDown: bool, isDark: bool, live: Census)
    ensures var k := KongGame.ChooseItem(score, r, isUpsideDown, isDark, live);
            var m := MultiJumpGame.ChooseItem(score, r, isUpsideDown, isDark);
            k != m ==> (m != Tree && live.Count(m) > 0) || (m == Tree && k == Kong)
  {
  }

  /** With multi-jump off, the two jump handlers decide alike. */
  lemma JumpsAgreeWithoutMultiJump(k: KongGame.Run, m: MultiJumpGame.Run, body: Body)
    requires k.isGameOver == m.isGameOver && k.isUpsideDown == m.isUpsideDown && k.highScore == m.highScore
    requires !m.multiJumpEnabled
    ensures k.Jump(body) == m.Jump(body)
  {
  }
}
