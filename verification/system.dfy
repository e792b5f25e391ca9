/** All names together: the state of the world and the controller, its runs, and
    what holds over every run. */
module System {
  import opened Types
  import opened Protocol
  import opened Invariant

  datatype Sys = Sys(g: Globals, locals: map<Name, Local>)

  function At(s: Sys, n: Name): Local {
    if n in s.locals then s.locals[n] else EMPTY_LOCAL
  }

  /** The names the controller believes to hold an instance. */
  ghost function Backed(s: Sys): set<Name> {
    set n | n in s.locals && s.locals[n].view.Some? && s.locals[n].view.value.instance.Some?
  }

  ghost predicate Enabled(cfg: Config, s: Sys, a: Action) {
    && (forall n :: Taken(cfg, s.g, a, n, At(s, n)))
    && (a.Cycle? && a.c.StartProvision? && a.c.names != {} ==> |Backed(s)| + |a.c.names| <= cfg.maxRunners)
  }

  function Targets(a: Action): set<Name> {
    match a
    case Tick(_) => {}
    case Cycle(c) => if c.StartProvision? then c.names else {}
    case _ => {a.n}
  }

  /** The state after an action: every name takes its own effect. */
  ghost predicate Follows(cfg: Config, s: Sys, a: Action, r: Sys)
    requires Enabled(cfg, s, a)
  {
    r.g == Advance(a, s.g) &&
    forall n :: At(r, n) == After(cfg, s.g, a, n, At(s, n))
  }

  lemma Untouched(cfg: Config, g: Globals, a: Action, n: Name)
    requires Taken(cfg, g, a, n, EMPTY_LOCAL) && n !in Targets(a)
    ensures After(cfg, g, a, n, EMPTY_LOCAL) == EMPTY_LOCAL
  {
  }

  lemma Following(cfg: Config, s: Sys, a: Action)
    requires Enabled(cfg, s, a)
    ensures exists r :: Follows(cfg, s, a, r)
  {
    assert forall n :: Taken(cfg, s.g, a, n, At(s, n));
    var r := Sys(Advance(a, s.g), map n | n in s.locals.Keys + Targets(a) :: After(cfg, s.g, a, n, At(s, n)));
    forall n ensures At(r, n) == After(cfg, s.g, a, n, At(s, n)) {
      assert Taken(cfg, s.g, a, n, At(s, n));
      if n !in s.locals.Keys + Targets(a) {
        Untouched(cfg, s.g, a, n);
      }
    }
    assert Follows(cfg, s, a, r);
  }

  ghost function Apply(cfg: Config, s: Sys, a: Action): (r: Sys)
    requires Enabled(cfg, s, a)
    ensures Follows(cfg, s, a, r)
  {
    Following(cfg, s, a);
    var r :| Follows(cfg, s, a, r);
    r
  }

  /** The state a run ends in, or None when some action of it was not allowed. */
  ghost function Run(cfg: Config, s: Sys, acts: seq<Action>): Option<Sys> {
    if |acts| == 0 then Some(s)
    else
      var k := |acts| - 1;
      match Run(cfg, s, acts[..k])
      case None => None
      case Some(m) => if Enabled(cfg, m, acts[k]) then Some(Apply(cfg, m, acts[k])) else None
  }

  ghost predicate Legal(cfg: Config, s: Sys, acts: seq<Action>) {
    Run(cfg, s, acts).Some?
  }

  ghost function Exec(cfg: Config, s: Sys, acts: seq<Action>): Sys
    requires Legal(cfg, s, acts)
  {
    Run(cfg, s, acts).value
  }

  /** A fresh controller process over any world that respects the environment's rules. */
  ghost predicate Init(cfg: Config, s: Sys) {
    s.g.stage == Idle &&
    forall n :: At(s, n).view == None && At(s, n).note == EMPTY_NOTE && At(s, n).log == [] &&
            InitialCell(Owned(cfg, n), At(s, n).cell)
  }

  predicate InitialCell(owned: bool, c: Cell) {
    && (c.job ==> c.reg.Some?)
    && (owned && !c.known ==> c == EMPTY_CELL)
    && (c.regPending || c.instPending ==> owned)
    && !c.mine
  }

  ghost predicate SysInv(cfg: Config, s: Sys) {
    forall n :: LocalInv(cfg, s.g, n, At(s, n))
  }

  lemma StepKeeps(cfg: Config, s: Sys, a: Action)
    requires SysInv(cfg, s) && Enabled(cfg, s, a)
    ensures SysInv(cfg, Apply(cfg, s, a))
  {
    forall n ensures LocalInv(cfg, Advance(a, s.g), n, At(Apply(cfg, s, a), n)) {
      assert Taken(cfg, s.g, a, n, At(s, n));
      ActionKeeps(cfg, s.g, a, n, At(s, n));
    }
  }

  lemma {:induction false} RunKeeps(cfg: Config, s: Sys, acts: seq<Action>)
    requires SysInv(cfg, s) && Legal(cfg, s, acts)
    ensures SysInv(cfg, Exec(cfg, s, acts))
  {
    if |acts| > 0 {
      var k := |acts| - 1;
      RunKeeps(cfg, s, acts[..k]);
      StepKeeps(cfg, Exec(cfg, s, acts[..k]), acts[k]);
    }
  }

  /** The invariant holds in every state of every run. */
  lemma RunInv(cfg: Config, s: Sys, acts: seq<Action>)
    requires Init(cfg, s) && Legal(cfg, s, acts)
    ensures SysInv(cfg, Exec(cfg, s, acts))
  {
    forall n ensures LocalInv(cfg, s.g, n, At(s, n)) {
      assert InitialCell(Owned(cfg, n), At(s, n).cell);
    }
    RunKeeps(cfg, s, acts);
  }

  /** Taking one more step of a run. */
  lemma Extend(cfg: Config, s: Sys, acts: seq<Action>, a: Action)
    requires Legal(cfg, s, acts) && Enabled(cfg, Exec(cfg, s, acts), a)
    ensures Legal(cfg, s, acts + [a]) && Exec(cfg, s, acts + [a]) == Apply(cfg, Exec(cfg, s, acts), a)
  {
    assert (acts + [a])[..|acts|] == acts;
  }

  /** An action on one name is allowed when it is allowed there, and touches no other. */
  lemma OneStep(cfg: Config, s: Sys, a: Action)
    requires !a.Tick? && !a.Cycle? && Taken(cfg, s.g, a, a.n, At(s, a.n))
    ensures Enabled(cfg, s, a) && Apply(cfg, s, a).g == s.g
    ensures At(Apply(cfg, s, a), a.n) == After(cfg, s.g, a, a.n, At(s, a.n))
    ensures forall m :: m != a.n ==> At(Apply(cfg, s, a), m) == At(s, m)
  {
    forall n ensures Taken(cfg, s.g, a, n, At(s, n)) {
      if n == a.n {
        assert At(s, n) == At(s, a.n);
      }
    }
  }

  lemma CycleStep(cfg: Config, s: Sys, c: CycleMove)
    requires CycleAt(c, s.g.stage) && !c.StartProvision? && !c.EndCycle?
    ensures Enabled(cfg, s, Cycle(c))
  {
  }

  /** A run goes on from any state it has passed. */
  lemma {:induction false} RunTail(cfg: Config, s: Sys, a: seq<Action>, b: seq<Action>)
    requires a <= b && Legal(cfg, s, a) && Legal(cfg, s, b)
    ensures Legal(cfg, Exec(cfg, s, a), b[|a|..]) && Exec(cfg, Exec(cfg, s, a), b[|a|..]) == Exec(cfg, s, b)
  {
    if |a| == |b| {
      assert a == b && b[|a|..] == [];
    } else {
      var k := |b| - 1;
      RunTail(cfg, s, a, b[..k]);
      assert b[|a|..][..k - |a|] == b[..k][|a|..];
    }
  }
}
