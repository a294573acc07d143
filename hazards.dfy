/** The obstacle loops of GameWorld (updateRocks and updateZigZagProps): walk the list
    from the back, move each obstacle, drop it once it has left the screen (scoring for
    it when the loop scores passes) or when it hits a player who can take damage. */
module Hazards {
  import opened Geometry
  import opened Physics

  /** Points for an obstacle that leaves the screen, where the loop scores passes. */
  const PassReward: int := 10

  /** What one obstacle loop does with its kind of obstacle: how it moves, when it has
      left the screen, its collision box, and whether passing it scores and may
      complete a given level at a given score. */
  datatype Hazard<!T> = Hazard(move: T -> T, gone: T -> bool, box: T -> Rect,
                              scoresOnPass: bool, completionLevel: int, completionTarget: int)

  /** The loop's state: the obstacles kept so far (those after the current index),
      the player's vitals and the level-complete flag. */
  datatype Pass<T> = Pass(kept: seq<T>, v: Vitals, levelComplete: bool)

  /** The loop body for one obstacle. */
  function Visit<T>(h: Hazard<T>, x: T, playerRect: Rect, invincibility: real, level: int,
                    st: Pass<T>): Pass<T>
  {
    var m := h.move(x);
    if h.gone(m) then
      if h.scoresOnPass then
        var p := st.v.pontos + PassReward;
        st.(v := st.v.(pontos := p),
            levelComplete := st.levelComplete || (level == h.completionLevel && p >= h.completionTarget))
      else st
    else if Overlaps(playerRect, h.box(m)) && st.v.podeLevarDano then
      st.(v := Dano(st.v, invincibility))
    else
      st.(kept := [m] + st.kept)
  }

  /** How many obstacles leave the screen on this move. */
  function Passed<T>(h: Hazard<T>, items: seq<T>): nat
    decreases |items|
  {
    if items == [] then 0
    else Passed(h, items[..|items| - 1]) + (if h.gone(h.move(items[|items| - 1])) then 1 else 0)
  }

  /** The moved obstacles that are still on screen, in list order. */
  function Remaining<T>(h: Hazard<T>, items: seq<T>): seq<T>
    decreases |items|
  {
    if items == [] then []
    else
      var m := h.move(items[|items| - 1]);
      Remaining(h, items[..|items| - 1]) + (if h.gone(m) then [] else [m])
  }

  /** The whole loop, last obstacle first, starting from `st`. At most one hit lands,
      and it starts the invincibility window; no obstacle that has left the screen is
      kept; and only a scoring loop on its completion level completes the level. */
  function Sweep<T>(h: Hazard<T>, items: seq<T>, playerRect: Rect, invincibility: real, level: int,
                    st: Pass<T>): (r: Pass<T>)
    ensures (forall k :: 0 <= k < |st.kept| ==> !h.gone(st.kept[k])) ==>
              forall k :: 0 <= k < |r.kept| ==> !h.gone(r.kept[k])
    ensures st.v.vidas - 1 <= r.v.vidas <= st.v.vidas
    ensures r.v.vidas < st.v.vidas ==>
              st.v.podeLevarDano && !r.v.podeLevarDano && r.v.tempoInvencivel == invincibility &&
              r.v.playerSpeedX == KnockbackSpeed
    ensures r.v.vidas == st.v.vidas ==> r.v == st.v.(pontos := r.v.pontos)
    ensures st.v.pontos >= 0 ==> r.v.pontos >= 0
    ensures InPlayStrip(st.v.playerX) ==> InPlayStrip(r.v.playerX)
    ensures st.levelComplete ==> r.levelComplete
    ensures r.levelComplete ==> st.levelComplete || (h.scoresOnPass && level == h.completionLevel)
    decreases |items|
  {
    if items == [] then st
    else Sweep(h, items[..|items| - 1], playerRect, invincibility, level,
               Visit(h, items[|items| - 1], playerRect, invincibility, level, st))
  }

  /** The loop keeps at most the obstacles it was given. */
  lemma {:induction false} SweepKeepsAtMost<T>(h: Hazard<T>, items: seq<T>, playerRect: Rect,
                                                invincibility: real, level: int, st: Pass<T>)
    ensures |Sweep(h, items, playerRect, invincibility, level, st).kept| <= |st.kept| + |items|
    decreases |items|
  {
    if items != [] {
      SweepKeepsAtMost(h, items[..|items| - 1], playerRect, invincibility, level,
                       Visit(h, items[|items| - 1], playerRect, invincibility, level, st));
    }
  }

  /** While the player is invincible nothing is hit: every obstacle still on screen is
      kept in list order, and every pass is scored where the loop scores. */
  lemma {:induction false} SweepWhileInvincible<T>(h: Hazard<T>, items: seq<T>, playerRect: Rect,
                                                    invincibility: real, level: int, st: Pass<T>)
    requires !st.v.podeLevarDano
    ensures var r := Sweep(h, items, playerRect, invincibility, level, st);
            r.v == st.v.(pontos := st.v.pontos + (if h.scoresOnPass then PassReward * Passed(h, items) else 0)) &&
            r.kept == Remaining(h, items) + st.kept
    decreases |items|
  {
    if items != [] {
      var init := items[..|items| - 1];
      var st1 := Visit(h, items[|items| - 1], playerRect, invincibility, level, st);
      SweepWhileInvincible(h, init, playerRect, invincibility, level, st1);
      assert Remaining(h, items) + st.kept == Remaining(h, init) + st1.kept;
    }
  }

  /** The level completes only in a frame in which at least one obstacle is passed. */
  lemma {:induction false} CompletionNeedsPass<T>(h: Hazard<T>, items: seq<T>, playerRect: Rect,
                                                   invincibility: real, level: int, st: Pass<T>)
    requires Sweep(h, items, playerRect, invincibility, level, st).levelComplete && !st.levelComplete
    ensures h.scoresOnPass && level == h.completionLevel && Passed(h, items) > 0
    decreases |items|
  {
    var init := items[..|items| - 1];
    var st1 := Visit(h, items[|items| - 1], playerRect, invincibility, level, st);
    if !st1.levelComplete {
      CompletionNeedsPass(h, init, playerRect, invincibility, level, st1);
    }
  }

  /** A loop that completes the level was starting from a score that its passes alone
      lift to the completion target: a hit in between only takes points away. */
  lemma {:induction false} CompletionReachesTarget<T>(h: Hazard<T>, items: seq<T>, playerRect: Rect,
                                                       invincibility: real, level: int, st: Pass<T>)
    requires st.v.pontos >= 0
    requires Sweep(h, items, playerRect, invincibility, level, st).levelComplete && !st.levelComplete
    ensures st.v.pontos + PassReward * Passed(h, items) >= h.completionTarget
    decreases |items|
  {
    var init := items[..|items| - 1];
    var m := h.move(items[|items| - 1]);
    var st1 := Visit(h, items[|items| - 1], playerRect, invincibility, level, st);
    assert Passed(h, items) == Passed(h, init) + (if h.gone(m) then 1 else 0);
    if !st1.levelComplete {
      assert 0 <= st1.v.pontos <= st.v.pontos + (if h.gone(m) then PassReward else 0);
      CompletionReachesTarget(h, init, playerRect, invincibility, level, st1);
    }
  }

  /** Without a hit, a scoring loop that reaches the completion target on the completion
      level marks the level complete. */
  lemma {:induction false} SweepCompletesLevel<T>(h: Hazard<T>, items: seq<T>, playerRect: Rect,
                                                   invincibility: real, level: int, st: Pass<T>)
    requires !st.v.podeLevarDano && h.scoresOnPass && level == h.completionLevel
    requires Passed(h, items) > 0 && st.v.pontos + PassReward * Passed(h, items) >= h.completionTarget
    ensures Sweep(h, items, playerRect, invincibility, level, st).levelComplete
    decreases |items|
  {
    var init := items[..|items| - 1];
    var st1 := Visit(h, items[|items| - 1], playerRect, invincibility, level, st);
    if h.gone(h.move(items[|items| - 1])) {
      assert st1.v.pontos == st.v.pontos + PassReward;
      if Passed(h, init) > 0 {
        SweepCompletesLevel(h, init, playerRect, invincibility, level, st1);
      } else {
        assert st1.levelComplete;
      }
    } else {
      assert st1.v == st.v;
      SweepCompletesLevel(h, init, playerRect, invincibility, level, st1);
    }
  }

  /** A loop that does not score passes never raises the score and never completes the
      level: passing its obstacles earns nothing, and a hit only costs points. */
  lemma {:induction false} SweepWithoutScoring<T>(h: Hazard<T>, items: seq<T>, playerRect: Rect,
                                                   invincibility: real, level: int, st: Pass<T>)
    requires !h.scoresOnPass && st.v.pontos >= 0
    ensures var r := Sweep(h, items, playerRect, invincibility, level, st);
            r.levelComplete == st.levelComplete && r.v.pontos <= st.v.pontos
    decreases |items|
  {
    if items != [] {
      SweepWithoutScoring(h, items[..|items| - 1], playerRect, invincibility, level,
                          Visit(h, items[|items| - 1], playerRect, invincibility, level, st));
    }
  }

  /** An obstacle loop lands at most one hit. */
  lemma SweepLandsOneHit<T>(h: Hazard<T>, items: seq<T>, playerRect: Rect, invincibility: real, level: int,
                            st: Pass<T>)
    requires st.v.pontos >= 0
    ensures Hit(st.v, Sweep(h, items, playerRect, invincibility, level, st).v, invincibility)
  {
  }

  /** The loop as written: a backward index over the list, removing in place. */
  method SweepObstacles<T>(h: Hazard<T>, items: seq<T>, playerRect: Rect, invincibility: real,
                          level: int, v: Vitals, levelComplete: bool)
    returns (kept: seq<T>, after: Vitals, complete: bool)
    ensures Pass(kept, after, complete) == Sweep(h, items, playerRect, invincibility, level, Pass([], v, levelComplete))
  {
    var list := items;
    var i := |items|;
    after, complete := v, levelComplete;
    ghost var st: Pass<T> := Pass([], v, levelComplete);
    assert items[..i] == items;
    while i > 0
      invariant 0 <= i <= |items|
      invariant list == items[..i] + st.kept && after == st.v && complete == st.levelComplete
      invariant Sweep(h, items, playerRect, invincibility, level, Pass([], v, levelComplete)) ==
                Sweep(h, items[..i], playerRect, invincibility, level, st)
    {
      i := i - 1;
      ghost var prev := st;
      st := Visit(h, items[i], playerRect, invincibility, level, prev);
      assert items[..i + 1][..i] == items[..i] && items[..i + 1][i] == items[i];
      assert Sweep(h, items[..i + 1], playerRect, invincibility, level, prev) ==
             Sweep(h, items[..i], playerRect, invincibility, level, st);
      assert list[i] == items[i] && list[..i] == items[..i] && list[i + 1..] == prev.kept;
      var m := h.move(list[i]);
      if h.gone(m) {
        if h.scoresOnPass {
          after := after.(pontos := after.pontos + PassReward);
          if level == h.completionLevel && after.pontos >= h.completionTarget && !complete {
            complete := true;
          }
        }
        list := list[..i] + list[i + 1..];
      } else if Overlaps(playerRect, h.box(m)) && after.podeLevarDano {
        after := Dano(after, invincibility);
        list := list[..i] + list[i + 1..];
      } else {
        list := list[..i] + [m] + list[i + 1..];
      }
    }
    assert items[..0] == [];
    kept := list;
  }
}
