/** Uninterrupted sessions come to an end, after an exact number of messages. */
module Liveness {
  import opened ChunkIndex
  import opened Protocol
  import opened Session
  import opened SessionPlan
  import opened QuietRun

  // ----- Length of a run -----

  ghost predicate CanMove(p: Plan, w: World, l: Label)
    requires |p.cfg.sources| == |p.cfg.manifest.files|
  {
    && (l == SenderReceives || l == ReceiverReceives(p.env))
    && WorldOk(p.cfg, w) && Enabled(p.cfg, w, l)
  }

  ghost predicate Moves(p: Plan, w: World, l: Label, w2: World)
    requires |p.cfg.sources| == |p.cfg.manifest.files|
  {
    CanMove(p, w, l) && w2 == Next(p.cfg, w, l)
  }

  /** A session, from the given stage on, in which nothing happens but deliveries, in whatever order the
      parties choose. */
  ghost predicate Undisturbed(p: Plan, ws: seq<World>, ls: seq<Label>, first: Stage)
    requires |p.cfg.sources| == |p.cfg.manifest.files| == |p.initial|
  {
    && |ws| == |ls| + 1
    && At(p, ws[0], first)
    && (forall w | w in ws :: NamesFree(p.env, w))
    && (forall i | 0 <= i < |ls| :: Moves(p, ws[i], ls[i], ws[i + 1]))
  }

  lemma OverIsFinal(p: Plan, w: World, l: Label)
    requires ValidPlan(p)
    ensures At(p, w, Over) ==> !CanMove(p, w, l)
  {
  }

  lemma MoveIsDue(p: Plan, w: World, stage: Stage, l: Label) returns (next: Stage)
    requires ValidPlan(p) && At(p, w, stage) && CanMove(p, w, l) && NamesFree(p.env, w)
    ensures At(p, Next(p.cfg, w, l), next) && Left(p.items, next) == Left(p.items, stage) - 1
  {
    hide FlatIds, Prefix, SkipSet, ItemsOk, At, Next, NamesFree;
    OverIsFinal(p, w, l);
    next := QuietStep(p, w, stage);
  }

  /** At every moment the number of messages delivered so far and the number still to come add up to the
      same number: for a whole session, two per unskipped chunk plus four. */
  lemma {:induction false} MessagesAddUp(p: Plan, ws: seq<World>, ls: seq<Label>, first: Stage, i: nat)
    returns (stage: Stage)
    requires ValidPlan(p) && Undisturbed(p, ws, ls, first) && i < |ws|
    ensures At(p, ws[i], stage)
    ensures i + Left(p.items, stage) == Left(p.items, first)
  {
    hide FlatIds, Prefix, SkipSet, ItemsOk, At, Next, NamesFree, Enabled;
    if i == 0 {
      stage := first;
    } else {
      var before := MessagesAddUp(p, ws, ls, first, i - 1);
      assert ws[i - 1] in ws && Moves(p, ws[i - 1], ls[i - 1], ws[i]);
      stage := MoveIsDue(p, ws[i - 1], before, ls[i - 1]);
    }
  }

  /** No deadlock, and an exact length: an undisturbed session can go on until it is over, and it is
      over after exactly the number of messages left at its first stage. */
  lemma SessionLength(p: Plan, ws: seq<World>, ls: seq<Label>, first: Stage)
    requires ValidPlan(p) && Undisturbed(p, ws, ls, first)
    ensures |ls| <= Left(p.items, first)
    ensures (exists l :: CanMove(p, ws[|ls|], l)) <==> |ls| < Left(p.items, first)
    ensures |ls| == Left(p.items, first) <==> At(p, ws[|ls|], Over)
  {
    var stage := MessagesAddUp(p, ws, ls, first, |ls|);
    assert ws[|ls|] in ws;
    if stage == Over {
      forall l ensures !CanMove(p, ws[|ls|], l) { OverIsFinal(p, ws[|ls|], l); }
    } else {
      var next := QuietStep(p, ws[|ls|], stage);
      assert CanMove(p, ws[|ls|], Due(p, ws[|ls|]));
      LeftPositive(p, ws[|ls|], stage);
    }
  }

  lemma LeftPositive(p: Plan, w: World, stage: Stage)
    requires ValidPlan(p) && At(p, w, stage) && stage != Over
    ensures Left(p.items, stage) > 0 && !At(p, w, Over)
  {
    hide FlatIds, Prefix, SkipSet, ItemsOk, ValidConfig, Through, EndsOk, TempsDistinct, Remaining;
  }
}
