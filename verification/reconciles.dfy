/** A reconcile by itself, as a sequence of calls on a world. */
module Reconciles {
  import opened Types
  import opened Protocol
  import opened Worlds

  function Next(cfg: Config, w: World, pc: Pc, c: Choice): Pc
    requires !pc.Returned?
  {
    After(cfg, pc, Reply(w, cfg, pc, c))
  }

  /** A reconcile that nobody disturbs, from this position, with its calls going this way. */
  function Alone(cfg: Config, w: World, pc: Pc, choices: seq<Choice>): (World, Pc)
    decreases |choices|
  {
    if choices == [] || pc.Returned? then (w, pc)
    else Alone(cfg, Served(w, cfg, pc, choices[0]), Next(cfg, w, pc, choices[0]), choices[1..])
  }

  lemma AloneStep(cfg: Config, w: World, pc: Pc, c: Choice, rest: seq<Choice>, w': World, pc': Pc)
    requires !pc.Returned? && w' == Served(w, cfg, pc, c) && pc' == Next(cfg, w, pc, c)
    ensures Alone(cfg, w, pc, [c] + rest) == Alone(cfg, w', pc', rest)
  {
    assert ([c] + rest)[1..] == rest;
  }

  /** The choices make sense one after the other. */
  predicate SensibleAlong(cfg: Config, w: World, pc: Pc, choices: seq<Choice>)
    decreases |choices|
  {
    choices == [] || pc.Returned?
    || (&& Sensible(w, pc, choices[0])
        && SensibleAlong(cfg, Served(w, cfg, pc, choices[0]), Next(cfg, w, pc, choices[0]), choices[1..]))
  }

  lemma StepAlong(cfg: Config, w: World, pc: Pc, c: Choice, rest: seq<Choice>, w': World, pc': Pc)
    requires !pc.Returned? && w' == Served(w, cfg, pc, c) && pc' == Next(cfg, w, pc, c)
    requires Sensible(w, pc, c) && SensibleAlong(cfg, w', pc', rest)
    ensures Alone(cfg, w, pc, [c] + rest) == Alone(cfg, w', pc', rest) && SensibleAlong(cfg, w, pc, [c] + rest)
  {
    AloneStep(cfg, w, pc, c, rest, w', pc');
    assert ([c] + rest)[1..] == rest;
  }
}
