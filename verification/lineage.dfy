/** The history of a control database through any number of restores.  A moment is a state and the
    step taken in it; each moment starts from the control state that the one before it left, while
    ledgers, network, workers and clock may have moved on, as they do when only the control
    database is put back. */
module Lineages {
  import opened Schema
  import opened System
  import opened Steps
  import opened Intents
  import opened Runs
  import opened Resumption

  datatype Moment = Moment(state: Sys, step: Timed)

  /** `ms` leads the control database from `start` to that of `s`. */
  ghost predicate Lineage(start: Control, ms: seq<Moment>, s: Sys)
    decreases |ms|
  {
    if ms == [] then s.ctl == start
    else
      var last := ms[|ms| - 1];
      Lineage(start, ms[..|ms| - 1], last.state) && s.ctl == Step(last.state, last.step).ctl
  }

  lemma LineageLast(start: Control, ms: seq<Moment>, s: Sys)
    requires Lineage(start, ms, s) && ms != []
    ensures Lineage(start, ms[..|ms| - 1], ms[|ms| - 1].state)
    ensures s.ctl == Step(ms[|ms| - 1].state, ms[|ms| - 1].step).ctl
  {
    hide Step;
  }

  lemma {:induction false} LineagePrefix(start: Control, ms: seq<Moment>, s: Sys, i: nat)
    requires Lineage(start, ms, s) && i < |ms|
    ensures Lineage(start, ms[..i], ms[i].state)
    decreases |ms|
  {
    hide Step;
    var init := ms[..|ms| - 1];
    if i < |init| {
      assert init[..i] == ms[..i] && init[i] == ms[i];
      LineagePrefix(start, init, ms[|init|].state, i);
    }
  }

  lemma {:induction false} LineageConfig(start: Control, ms: seq<Moment>, s: Sys)
    requires Lineage(start, ms, s)
    ensures s.ctl.cfg == start.cfg
    decreases |ms|
  {
    if ms != [] {
      hide Act;
      var last := ms[|ms| - 1];
      LineageConfig(start, ms[..|ms| - 1], last.state);
      StepWrites(last.state.(now := last.step.at), last.step.event);
    }
  }

  ghost function MomentsOf(s: Sys, es: seq<Timed>): seq<Moment> {
    if es == [] then [] else MomentsOf(s, es[..|es| - 1]) + [Moment(Run(s, es[..|es| - 1]), es[|es| - 1])]
  }

  lemma {:induction false} MomentAt(s: Sys, es: seq<Timed>, i: nat)
    requires i < |es|
    ensures |MomentsOf(s, es)| == |es| && MomentsOf(s, es)[i] == Moment(Run(s, es[..i]), es[i])
  {
    hide Run;
    var init := es[..|es| - 1];
    if i < |init| {
      assert init[..i] == es[..i] && init[i] == es[i];
      MomentAt(s, init, i);
    } else if init != [] {
      MomentAt(s, init, 0);
    }
  }

  /** What happens after a restore continues the history of what was restored. */
  lemma {:induction false} LineageGoesOn(start: Control, ms: seq<Moment>, mid: Sys, restored: Sys, es: seq<Timed>)
    requires Lineage(start, ms, mid) && restored.ctl == mid.ctl
    ensures Lineage(start, ms + MomentsOf(restored, es), Run(restored, es))
    decreases |es|
  {
    hide Step;
    if es == [] {
      assert ms + MomentsOf(restored, es) == ms;
      SameControl(start, ms, mid, restored);
    } else {
      var init := es[..|es| - 1];
      LineageGoesOn(start, ms, mid, restored, init);
      var all := ms + MomentsOf(restored, es);
      assert all[..|all| - 1] == ms + MomentsOf(restored, init);
    }
  }

  lemma SameControl(start: Control, ms: seq<Moment>, s: Sys, s': Sys)
    requires Lineage(start, ms, s) && s'.ctl == s.ctl
    ensures Lineage(start, ms, s')
  {
  }

  function NewControl(cfg: Config, policy: Hash): Control {
    Control(cfg, policy, NO_BUSINESS, OPEN_GATE, map[], map[])
  }

  lemma RunIsLineage(cfg: Config, policy: Hash, start: Time, es: seq<Timed>)
    ensures Lineage(NewControl(cfg, policy), MomentsOf(Init(cfg, policy, start), es), From(cfg, policy, start, es))
  {
    var init := Init(cfg, policy, start);
    LineageGoesOn(NewControl(cfg, policy), [], init, init, es);
    assert [] + MomentsOf(init, es) == MomentsOf(init, es);
  }

  /** The moments of a run up to a restore, and those after it. */
  ghost function RestoredMoments(cfg: Config, policy: Hash, start: Time, es: seq<Timed>, point: nat,
                                 recovery: seq<Timed>): seq<Moment>
    requires point <= |es|
  {
    MomentsOf(Init(cfg, policy, start), es[..point])
      + MomentsOf(Restored(From(cfg, policy, start, es[..point]), From(cfg, policy, start, es)), recovery)
  }

  lemma RestoredIsLineage(cfg: Config, policy: Hash, start: Time, es: seq<Timed>, point: nat, recovery: seq<Timed>)
    requires point <= |es|
    ensures var r := Restored(From(cfg, policy, start, es[..point]), From(cfg, policy, start, es));
      Lineage(NewControl(cfg, policy), RestoredMoments(cfg, policy, start, es, point, recovery), Run(r, recovery))
  {
    var past, present := From(cfg, policy, start, es[..point]), From(cfg, policy, start, es);
    RunIsLineage(cfg, policy, start, es[..point]);
    hide Run, Lineage;
    LineageGoesOn(NewControl(cfg, policy), MomentsOf(Init(cfg, policy, start), es[..point]), past,
                  Restored(past, present), recovery);
  }
}
