/** Two replays of one dead delivery: nothing makes the second wait for the first, or look again. */
module RacingReplays {
  import opened Prelude
  import opened Deliveries
  import opened Protocol
  import opened NoLostWork
  import opened CleanRuns
  import opened Scenarios

  /** Two replays have read the delivery dead. */
  lemma ReachBothRead(cfg: Config) returns (s: State, row: Delivery, v: Id, w: Id)
    requires cfg.maxAttempts >= 1
    ensures v != w && row.state.Dead? && Reachable(cfg, s)
    ensures Spent(s, None, row, map[v := DeadRead(DELIVERY, row), w := DeadRead(DELIVERY, row)])
  {
    var s0, s1;
    s0, row := ReachDead(cfg, None);
    s1, v := ReadIt(cfg, s0, None, row, map[]);
    s, w := ReadIt(cfg, s1, None, row, map[v := DeadRead(DELIVERY, row)]);
    assert map[v := DeadRead(DELIVERY, row)][w := DeadRead(DELIVERY, row)]
        == map[v := DeadRead(DELIVERY, row), w := DeadRead(DELIVERY, row)];
  }

  /** Both commit and both publish: two tokens for one delivery, although nothing was redelivered
      and nobody crashed. */
  lemma RaceMakesTwoTokens(cfg: Config)
    requires cfg.maxAttempts >= 1
    ensures exists s, b, c ::
              && Reachable(cfg, s) && s.ledger.hazards == {}
              && Token(s, b, DELIVERY) && Token(s, c, DELIVERY) && b != c
  {
    var s0, row, v, w := ReachBothRead(cfg);
    var read := DeadRead(DELIVERY, row);
    var s1 := ResetIt(cfg, s0, None, row, map[v := read, w := read], v);
    var a2, a3, a4 := ReplayStep(w, CommitReset(DELIVERY)), ReplayStep(v, PublishReset), ReplayStep(w, PublishReset);
    ReachStep(cfg, s1, a2);
    var s2 := Apply(s1, cfg, a2);
    ReachStep(cfg, s2, a3);
    var s3 := Apply(s2, cfg, a3);
    ReachStep(cfg, s3, a4);
    var s4 := Apply(s3, cfg, a4);
    var n := s4.redis.delivered;
    assert Token(s4, InStream(n), DELIVERY) && Token(s4, InStream(n + 1), DELIVERY);
    assert InStream(n) != InStream(n + 1);
  }

  /** One resets, publishes and has it delivered before the other commits: a delivered row is reset. */
  lemma RaceReopensDelivered(cfg: Config)
    requires cfg.maxAttempts >= 1
    ensures exists s, a :: Reachable(cfg, s) && s.ledger.hazards == {} && Enabled(s, cfg, a)
              && DELIVERY in s.store.deliveries && s.store.deliveries[DELIVERY].state.Delivered?
              && DELIVERY in Apply(s, cfg, a).store.deliveries
              && Apply(s, cfg, a).store.deliveries[DELIVERY].state.Pending?
  {
    var s0, row, v, w := ReachBothRead(cfg);
    var read := DeadRead(DELIVERY, row);
    var renewed := ResetForReplay(row);
    var s1 := ResetIt(cfg, s0, None, row, map[v := read, w := read], v);
    var reading := s1.reading;
    assert w in reading && reading[w] == read;
    var s2 := PublishIt(cfg, s1, None, renewed, reading, v);
    var s3 := FinishWith(cfg, s2, None, renewed, reading, true);
    var a := ReplayStep(w, CommitReset(DELIVERY));
    assert Enabled(s3, cfg, a);
    assert Apply(s3, cfg, a).store.deliveries[DELIVERY].state.Pending?;
  }
}
