/** Early stopping of a training run (deeprankcore/utils/earlystopping.py).

    The stopper is called once per epoch with the validation loss (and,
    optionally, the training loss). It stops training when the validation
    loss has not improved by at least `delta` for `patience` calls, or when
    the validation loss exceeds the training loss by more than `maxgap`.
    Scores are negated losses, so a higher score is better. Losses are
    `real`s: nothing here depends on floating-point rounding. */
module EarlyStopping {
  import opened Wrappers

  /** The `ValueError` raised when the gap check needs a training loss
      that was not supplied. */
  datatype StopError = MissingTrainLoss

  /** Settings fixed at construction; a `delta` of None has become 0. */
  datatype Config = Config(patience: int, delta: real, maxgap: Option<real>, verbose: bool)

  /** The mutable part of the stopper. `bestScore == None` means no call has
      happened yet; `valLossMin == None` stands for the initial infinity. */
  datatype State = State(earlyStop: bool, counter: int, bestScore: Option<real>, valLossMin: Option<real>)

  /** One call of the stopper: its epoch, its validation loss and its
      optional training loss. */
  datatype Call = Call(epoch: int, valLoss: real, trainLoss: Option<real>)

  function DeltaOrZero(delta: Option<real>): real {
    if delta.None? then 0.0 else delta.value
  }

  function Fresh(): State {
    State(false, 0, None, None)
  }

  /** The gap check runs only when `maxgap` is truthy (given and non-zero)
      and the epoch is positive. */
  predicate GapCheckActive(cfg: Config, epoch: int) {
    cfg.maxgap.Some? && cfg.maxgap.value != 0.0 && epoch > 0
  }

  /** The call does not improve on the best score by at least `delta`. */
  predicate NotImproving(cfg: Config, s: State, valLoss: real)
    requires s.bestScore.Some?
  {
    -valLoss < s.bestScore.value + cfg.delta
  }

  /** What the stopper keeps true between calls: the counter is a count; no
      call yet means no count and no recorded minimum; a recorded minimum
      exists only in verbose mode and is the loss of the best score; once
      the counter has reached the patience, training is stopped. */
  predicate Inv(cfg: Config, s: State) {
    && s.counter >= 0
    && (s.bestScore.None? ==> s.counter == 0 && s.valLossMin.None?)
    && (s.valLossMin.Some? ==> cfg.verbose && s.bestScore == Some(-s.valLossMin.value))
    && (s.counter > 0 && s.counter >= cfg.patience ==> s.earlyStop)
  }

  /** One call of the stopper: the new state, and whether it raised. */
  function Next(cfg: Config, s: State, epoch: int, valLoss: real, trainLoss: Option<real>): (r: (State, Outcome<StopError>))
    // the first call only records the score
    ensures s.bestScore.None? ==>
      r.0.bestScore == Some(-valLoss) && r.0.counter == s.counter && r.0.valLossMin == s.valLossMin
    // a call that does not improve counts one more and keeps the best score
    ensures s.bestScore.Some? && NotImproving(cfg, s, valLoss) ==>
      r.0.counter == s.counter + 1 && r.0.bestScore == s.bestScore && r.0.valLossMin == s.valLossMin
    // an improving call records the score and resets the count
    ensures s.bestScore.Some? && !NotImproving(cfg, s, valLoss) ==>
      r.0.counter == 0 && r.0.bestScore == Some(-valLoss)
      && r.0.valLossMin == (if cfg.verbose then Some(valLoss) else s.valLossMin)
    // with a non-negative delta the best score never decreases
    ensures cfg.delta >= 0.0 && s.bestScore.Some? ==>
      r.0.bestScore.Some? && r.0.bestScore.value >= s.bestScore.value
    // the stop flag is set exactly by exhausted patience or by a too-large gap, and is latched
    ensures r.0.earlyStop <==>
      || s.earlyStop
      || (s.bestScore.Some? && NotImproving(cfg, s, valLoss) && s.counter + 1 >= cfg.patience)
      || (GapCheckActive(cfg, epoch) && trainLoss.Some? && valLoss - trainLoss.value > cfg.maxgap.value)
    // the call raises exactly when the gap check needs a missing training loss
    ensures r.1.Fail? <==> GapCheckActive(cfg, epoch) && trainLoss.None?
    ensures Inv(cfg, s) ==> Inv(cfg, r.0)
  {
    var score := -valLoss;
    var s1 :=
      if s.bestScore.None? then
        s.(bestScore := Some(score))
      else if score < s.bestScore.value + cfg.delta then
        var c := s.counter + 1;
        s.(counter := c, earlyStop := if c >= cfg.patience then true else s.earlyStop)
      else
        s.(valLossMin := if cfg.verbose then Some(valLoss) else s.valLossMin,
           bestScore := Some(score), counter := 0);
    if GapCheckActive(cfg, epoch) then
      if trainLoss.None? then (s1, Fail(MissingTrainLoss))
      else if valLoss - trainLoss.value > cfg.maxgap.value then (s1.(earlyStop := true), Pass)
      else (s1, Pass)
    else (s1, Pass)
  }

  /** A run of calls: each call in turn, stopping at the first one that
      raises (the exception leaves the training loop). */
  function Run(cfg: Config, s: State, calls: seq<Call>): (State, Outcome<StopError>)
    decreases |calls|
  {
    if calls == [] then (s, Pass)
    else
      var (s1, o) := Next(cfg, s, calls[0].epoch, calls[0].valLoss, calls[0].trainLoss);
      if o.Fail? then (s1, o) else Run(cfg, s1, calls[1..])
  }

  /** No call of the run lacks a training loss that the gap check needs. */
  predicate NeverMissingTrainLoss(cfg: Config, calls: seq<Call>) {
    forall i :: 0 <= i < |calls| ==> !GapCheckActive(cfg, calls[i].epoch) || calls[i].trainLoss.Some?
  }

  /** The invariant holds after any run that starts from it. */
  lemma {:induction false} RunKeepsInv(cfg: Config, s: State, calls: seq<Call>)
    requires Inv(cfg, s)
    ensures Inv(cfg, Run(cfg, s, calls).0)
    decreases |calls|
  {
    if calls != [] {
      var (s1, o) := Next(cfg, s, calls[0].epoch, calls[0].valLoss, calls[0].trainLoss);
      if o.Pass? {
        RunKeepsInv(cfg, s1, calls[1..]);
      }
    }
  }

  /** Once set, the stop flag stays set for the rest of the run. */
  lemma {:induction false} RunLatchesStop(cfg: Config, s: State, calls: seq<Call>)
    requires s.earlyStop
    ensures Run(cfg, s, calls).0.earlyStop
    decreases |calls|
  {
    if calls != [] {
      var (s1, o) := Next(cfg, s, calls[0].epoch, calls[0].valLoss, calls[0].trainLoss);
      if o.Pass? {
        RunLatchesStop(cfg, s1, calls[1..]);
      }
    }
  }

  /** With a non-negative delta the best score never decreases over a run. */
  lemma {:induction false} RunBestScoreMonotone(cfg: Config, s: State, calls: seq<Call>)
    requires cfg.delta >= 0.0 && s.bestScore.Some?
    ensures Run(cfg, s, calls).0.bestScore.Some?
    ensures Run(cfg, s, calls).0.bestScore.value >= s.bestScore.value
    decreases |calls|
  {
    if calls != [] {
      var (s1, o) := Next(cfg, s, calls[0].epoch, calls[0].valLoss, calls[0].trainLoss);
      if o.Pass? {
        RunBestScoreMonotone(cfg, s1, calls[1..]);
      }
    }
  }

  /** Each call adds at most one to the counter. */
  lemma {:induction false} RunCounterBound(cfg: Config, s: State, calls: seq<Call>)
    requires s.counter >= 0
    ensures Run(cfg, s, calls).0.counter <= s.counter + |calls|
    decreases |calls|
  {
    if calls != [] {
      var (s1, o) := Next(cfg, s, calls[0].epoch, calls[0].valLoss, calls[0].trainLoss);
      if o.Pass? {
        RunCounterBound(cfg, s1, calls[1..]);
      }
    }
  }

  /** When no call of a run beats the best score by `delta`, every call
      counts, the best score stays put, and training is stopped as soon as
      the count reaches the patience. */
  lemma {:induction false} RunWithoutImprovement(cfg: Config, s: State, calls: seq<Call>)
    requires s.bestScore.Some?
    requires forall i :: 0 <= i < |calls| ==> -calls[i].valLoss < s.bestScore.value + cfg.delta
    requires NeverMissingTrainLoss(cfg, calls)
    ensures Run(cfg, s, calls).1.Pass?
    ensures Run(cfg, s, calls).0.counter == s.counter + |calls|
    ensures Run(cfg, s, calls).0.bestScore == s.bestScore
    ensures calls != [] && s.counter + |calls| >= cfg.patience ==> Run(cfg, s, calls).0.earlyStop
    decreases |calls|
  {
    if calls != [] {
      var (s1, o) := Next(cfg, s, calls[0].epoch, calls[0].valLoss, calls[0].trainLoss);
      assert NotImproving(cfg, s, calls[0].valLoss);
      assert forall i :: 0 <= i < |calls[1..]| ==> calls[1..][i] == calls[i + 1];
      RunWithoutImprovement(cfg, s1, calls[1..]);
      if s1.earlyStop {
        RunLatchesStop(cfg, s1, calls[1..]);
      }
    }
  }

  /** `val_loss_min` is bookkeeping for messages: two states that differ only
      there, under settings that differ only in verbosity, make the same
      decisions. */
  lemma ValLossMinIrrelevant(cfg: Config, s: State, t: State, verbose: bool, epoch: int, valLoss: real, trainLoss: Option<real>)
    requires t == s.(valLossMin := t.valLossMin)
    ensures var (a, oa) := Next(cfg, s, epoch, valLoss, trainLoss);
            var (b, ob) := Next(cfg.(verbose := verbose), t, epoch, valLoss, trainLoss);
            a.earlyStop == b.earlyStop && a.counter == b.counter && a.bestScore == b.bestScore && oa == ob
  {
  }

  /** The stopper object; its fields are updated in place by each call. */
  class EarlyStopping {
    const patience: int
    const delta: real
    const maxgap: Option<real>
    const verbose: bool

    var earlyStop: bool
    var counter: int
    var bestScore: Option<real>
    var valLossMin: Option<real>

    function Settings(): Config {
      Config(patience, delta, maxgap, verbose)
    }

    function Current(): State
      reads this
    {
      State(earlyStop, counter, bestScore, valLossMin)
    }

    ghost predicate Valid()
      reads this
    {
      Inv(Settings(), Current())
    }

    constructor (patience: int := 10, delta: Option<real> := None, maxgap: Option<real> := None, verbose: bool := true)
      ensures Valid()
      ensures Settings() == Config(patience, DeltaOrZero(delta), maxgap, verbose)
      ensures Current() == Fresh()
    {
      this.patience := patience;
      this.delta := DeltaOrZero(delta);
      this.maxgap := maxgap;
      this.verbose := verbose;
      earlyStop := false;
      counter := 0;
      bestScore := None;
      valLossMin := None;
    }

    /** One call (`__call__`) at the end of an epoch. */
    method Step(epoch: int, valLoss: real, trainLoss: Option<real>) returns (r: Outcome<StopError>)
      requires Valid()
      modifies this
      ensures Valid()
      ensures (Current(), r) == Next(Settings(), old(Current()), epoch, valLoss, trainLoss)
    {
      var score := -valLoss;
      if bestScore.None? {
        bestScore := Some(score);
      } else if score < bestScore.value + delta {
        counter := counter + 1;
        if counter >= patience {
          earlyStop := true;
        }
      } else {
        if verbose {
          valLossMin := Some(valLoss);
        }
        bestScore := Some(score);
        counter := 0;
      }

      r := Pass;
      if maxgap.Some? && maxgap.value != 0.0 && epoch > 0 {
        if trainLoss.None? {
          r := Fail(MissingTrainLoss);
          return;
        }
        var gap := valLoss - trainLoss.value;
        if gap > maxgap.value {
          earlyStop := true;
        }
      }
    }
  }
}
