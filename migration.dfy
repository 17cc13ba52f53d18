/**
 * core/crates/migration/src/lib.rs: schema migrations.  A migrator holds its
 * steps sorted by (from, to); migrating from one version to another takes,
 * while the current version is below the target, the first step leaving the
 * current version, applies it and moves to the step's target version.  A dry
 * run records the same steps without applying them.
 */
module Migration {
  import opened Wrappers
  import opened Seqs
  import opened Sorting
  import opened Decimal
  import opened Json

  type SchemaVersion = nat

  /** A migration step: its versions, its summary and its rewrite of the document. */
  datatype Step = Step(from: SchemaVersion, to: SchemaVersion, summary: string, apply: Json -> Result<Json, string>)

  datatype MigrationReport = MigrationReport(from: SchemaVersion, to: SchemaVersion, appliedSteps: seq<string>)

  /** Why a migration stopped: no step leaves the version, a step failed, or (see Findings) the walk came back to a version it had left. */
  datatype MigrateError = NoStepFrom(version: SchemaVersion) | StepFailed(message: string) | NoProgress(version: SchemaVersion)

  function Message(e: MigrateError): string
  {
    match e
    case NoStepFrom(v) => "No migration step from " + NatStr(v)
    case StepFailed(m) => m
    case NoProgress(v) => "Migration revisits version " + NatStr(v)
  }

  datatype Migrator = Migrator(steps: seq<Step>)

  predicate StepBefore(a: Step, b: Step)
  {
    a.from < b.from || (a.from == b.from && a.to <= b.to)
  }

  function StepLeq(): (Step, Step) -> bool
  {
    (a: Step, b: Step) => StepBefore(a, b)
  }

  lemma StepLeqTotal()
    ensures TotalPreorder(StepLeq())
  {
  }

  /** Migrator::new: the steps stably sorted by (from, to). */
  function New(steps: seq<Step>): (m: Migrator)
    ensures SortedBy(m.steps, StepLeq()) && multiset(m.steps) == multiset(steps)
  {
    StepLeqTotal();
    SortBySorted(steps, StepLeq());
    Migrator(SortBy(steps, StepLeq()))
  }

  /** The line recorded for an applied step: "from -> to (summary)". */
  function Describe(s: Step): string
  {
    NatStr(s.from) + " -> " + NatStr(s.to) + " (" + s.summary + ")"
  }

  function FindStep(m: Migrator, cur: SchemaVersion): (r: Option<nat>)
    ensures r.Some? ==> r.value < |m.steps| && m.steps[r.value].from == cur
    ensures r.None? <==> forall k :: 0 <= k < |m.steps| ==> m.steps[k].from != cur
  {
    FindFirst(m.steps, (s: Step) => s.from == cur)
  }

  /** The versions some step leaves: a migration can visit each at most once before it repeats. */
  function Froms(m: Migrator): set<SchemaVersion>
  {
    set k | 0 <= k < |m.steps| :: m.steps[k].from
  }

  lemma FoundInFroms(m: Migrator, i: nat)
    requires i < |m.steps|
    ensures m.steps[i].from in Froms(m)
  {
  }

  // ---------------------------------------------------------------------
  // The plan: the steps a migration takes
  // ---------------------------------------------------------------------

  /**
   * The steps taken from `cur` until the target is reached, or why none can
   * be taken; `seen` holds the versions already left on the way here, and a
   * step found at one of them means the walk has entered a cycle.
   */
  function Plan(m: Migrator, cur: SchemaVersion, to: SchemaVersion, seen: set<SchemaVersion>): Result<seq<Step>, MigrateError>
    decreases Froms(m) - seen
  {
    if cur >= to then Ok([])
    else
      match FindStep(m, cur)
      case None => Err(NoStepFrom(cur))
      case Some(i) =>
        var s := m.steps[i];
        if cur in seen then Err(NoProgress(cur))
        else
          FoundInFroms(m, i);
          var rest :- Plan(m, s.to, to, seen + {cur});
          Ok([s] + rest)
  }

  /**
   * The steps chain: each leaves the version the previous one reached, every
   * version but the last is below the target, and no version is left twice.
   */
  ghost predicate Chained(ss: seq<Step>, cur: SchemaVersion, to: SchemaVersion)
  {
    (ss == [] <==> cur >= to)
    && (ss != [] ==>
          ss[0].from == cur && ss[|ss| - 1].to >= to
          && (forall k :: 0 <= k < |ss| - 1 ==> ss[k].to == ss[k + 1].from && ss[k].to < to)
          && (forall j, k :: 0 <= j < k < |ss| ==> ss[j].from != ss[k].from))
  }

  /**
   * A plan is a chain from the current version to at least the target, each
   * step the first one of the sorted list leaving its version, none leaving
   * a version already seen.
   */
  lemma {:induction false} PlanChained(m: Migrator, cur: SchemaVersion, to: SchemaVersion, seen: set<SchemaVersion>)
    requires Plan(m, cur, to, seen).Ok?
    ensures Chained(Plan(m, cur, to, seen).value, cur, to)
    ensures forall k :: 0 <= k < |Plan(m, cur, to, seen).value| ==>
      Plan(m, cur, to, seen).value[k].from !in seen
      && FindStep(m, Plan(m, cur, to, seen).value[k].from).Some?
      && Plan(m, cur, to, seen).value[k] == m.steps[FindStep(m, Plan(m, cur, to, seen).value[k].from).value]
    decreases Froms(m) - seen
  {
    if cur < to {
      var i := FindStep(m, cur).value;
      FoundInFroms(m, i);
      var s := m.steps[i];
      PlanChained(m, s.to, to, seen + {cur});
      var rest := Plan(m, s.to, to, seen + {cur}).value;
      var ss := Plan(m, cur, to, seen).value;
      assert ss == [s] + rest;
      forall k | 0 <= k < |ss| - 1
        ensures ss[k].to == ss[k + 1].from && ss[k].to < to
      {
        if k > 0 {
          assert ss[k] == rest[k - 1] && ss[k + 1] == rest[k];
        }
      }
      forall j, k | 0 <= j < k < |ss|
        ensures ss[j].from != ss[k].from
      {
        assert ss[k] == rest[k - 1] && ss[k].from !in seen + {cur};
        if j > 0 {
          assert ss[j] == rest[j - 1];
        }
      }
      forall k | 0 <= k < |ss|
        ensures ss[k].from !in seen
        ensures FindStep(m, ss[k].from).Some? && ss[k] == m.steps[FindStep(m, ss[k].from).value]
      {
        if k > 0 {
          assert ss[k] == rest[k - 1];
        }
      }
    }
  }

  function Describes(ss: seq<Step>): (r: seq<string>)
    ensures |r| == |ss| && forall k :: 0 <= k < |ss| ==> r[k] == Describe(ss[k])
  {
    if ss == [] then [] else [Describe(ss[0])] + Describes(ss[1..])
  }

  // ---------------------------------------------------------------------
  // migrate and dry_run
  // ---------------------------------------------------------------------

  /** migrate from `cur`: the document rewritten by each step in turn, and the steps' lines. */
  function MigrateFrom(m: Migrator, v: Json, cur: SchemaVersion, to: SchemaVersion, seen: set<SchemaVersion>): Result<(Json, seq<string>), MigrateError>
    decreases Froms(m) - seen
  {
    if cur >= to then Ok((v, []))
    else
      match FindStep(m, cur)
      case None => Err(NoStepFrom(cur))
      case Some(i) =>
        var s := m.steps[i];
        if cur in seen then Err(NoProgress(cur))
        else
          FoundInFroms(m, i);
          match s.apply(v)
          case Err(e) => Err(StepFailed(e))
          case Ok(next) =>
            var rest :- MigrateFrom(m, next, s.to, to, seen + {cur});
            Ok((rest.0, [Describe(s)] + rest.1))
  }

  /**
   * A successful migration applied exactly the planned steps, so a dry run
   * records the same lines; a plan that fails makes the migration fail too.
   */
  lemma {:induction false} DryRunAgrees(m: Migrator, v: Json, cur: SchemaVersion, to: SchemaVersion, seen: set<SchemaVersion>)
    ensures MigrateFrom(m, v, cur, to, seen).Ok? ==>
      Plan(m, cur, to, seen).Ok? && MigrateFrom(m, v, cur, to, seen).value.1 == Describes(Plan(m, cur, to, seen).value)
    ensures Plan(m, cur, to, seen).Err? ==> MigrateFrom(m, v, cur, to, seen).Err?
    decreases Froms(m) - seen
  {
    if cur < to && FindStep(m, cur).Some? {
      var i := FindStep(m, cur).value;
      var s := m.steps[i];
      if cur !in seen && s.apply(v).Ok? {
        FoundInFroms(m, i);
        DryRunAgrees(m, s.apply(v).value, s.to, to, seen + {cur});
        if Plan(m, s.to, to, seen + {cur}).Ok? {
          var ss := [s] + Plan(m, s.to, to, seen + {cur}).value;
          assert ss[1..] == Plan(m, s.to, to, seen + {cur}).value;
        }
      }
    }
  }

  function Prefixed(done: seq<string>, rest: Result<(Json, seq<string>), MigrateError>): Result<(Json, seq<string>), MigrateError>
  {
    if rest.Ok? then Ok((rest.value.0, done + rest.value.1)) else rest
  }

  /**
   * Migrator::migrate, as its loop runs, with the versions already left kept
   * in `seen`: the document and the report, or the first error.
   */
  method Migrate(m: Migrator, v0: Json, from: SchemaVersion, to: SchemaVersion)
    returns (r: Result<(Json, MigrationReport), MigrateError>)
    ensures MigrateFrom(m, v0, from, to, {}).Ok? ==>
      r == Ok((MigrateFrom(m, v0, from, to, {}).value.0, MigrationReport(from, to, MigrateFrom(m, v0, from, to, {}).value.1)))
    ensures MigrateFrom(m, v0, from, to, {}).Err? ==> r == Err(MigrateFrom(m, v0, from, to, {}).error)
    ensures from >= to ==> r == Ok((v0, MigrationReport(from, to, [])))
  {
    var v := v0;
    var cur: SchemaVersion := from;
    var applied: seq<string> := [];
    var seen: set<SchemaVersion> := {};
    if MigrateFrom(m, v0, from, to, {}).Ok? {
      assert [] + MigrateFrom(m, v0, from, to, {}).value.1 == MigrateFrom(m, v0, from, to, {}).value.1;
    }
    while cur < to
      invariant MigrateFrom(m, v0, from, to, {}) == Prefixed(applied, MigrateFrom(m, v, cur, to, seen))
      decreases Froms(m) - seen
    {
      var i := FindStep(m, cur);
      if i.None? {
        return Err(NoStepFrom(cur));
      }
      var step := m.steps[i.value];
      if cur in seen {
        return Err(NoProgress(cur));
      }
      FoundInFroms(m, i.value);
      var next := step.apply(v);
      if next.Err? {
        return Err(StepFailed(next.error));
      }
      ghost var rest := MigrateFrom(m, next.value, step.to, to, seen + {cur});
      if rest.Ok? {
        assert applied + ([Describe(step)] + rest.value.1) == (applied + [Describe(step)]) + rest.value.1;
      }
      v := next.value;
      applied := applied + [Describe(step)];
      seen := seen + {cur};
      cur := step.to;
    }
    assert applied + [] == applied;
    r := Ok((v, MigrationReport(from, to, applied)));
  }

  /** Migrator::dry_run, as its loop runs with the same guard: the lines of the planned steps, or why there is no plan. */
  method DryRun(m: Migrator, from: SchemaVersion, to: SchemaVersion) returns (r: Result<MigrationReport, MigrateError>)
    ensures Plan(m, from, to, {}).Ok? ==> r == Ok(MigrationReport(from, to, Describes(Plan(m, from, to, {}).value)))
    ensures Plan(m, from, to, {}).Err? ==> r == Err(Plan(m, from, to, {}).error)
  {
    var cur: SchemaVersion := from;
    var applied: seq<string> := [];
    var seen: set<SchemaVersion> := {};
    ghost var taken: seq<Step> := [];
    if Plan(m, from, to, {}).Ok? {
      assert [] + Plan(m, from, to, {}).value == Plan(m, from, to, {}).value;
    }
    while cur < to
      invariant applied == Describes(taken)
      invariant Plan(m, from, to, {}) == Taken(taken, Plan(m, cur, to, seen))
      decreases Froms(m) - seen
    {
      var i := FindStep(m, cur);
      if i.None? {
        return Err(NoStepFrom(cur));
      }
      var step := m.steps[i.value];
      if cur in seen {
        return Err(NoProgress(cur));
      }
      FoundInFroms(m, i.value);
      DescribesAppend(taken, step);
      TakenStep(taken, step, Plan(m, step.to, to, seen + {cur}));
      applied := applied + [Describe(step)];
      taken := taken + [step];
      seen := seen + {cur};
      cur := step.to;
    }
    assert taken + [] == taken;
    r := Ok(MigrationReport(from, to, applied));
  }

  function Taken(done: seq<Step>, rest: Result<seq<Step>, MigrateError>): Result<seq<Step>, MigrateError>
  {
    if rest.Ok? then Ok(done + rest.value) else rest
  }

  lemma TakenStep(done: seq<Step>, s: Step, rest: Result<seq<Step>, MigrateError>)
    ensures Taken(done, if rest.Ok? then Ok([s] + rest.value) else rest) == Taken(done + [s], rest)
  {
    if rest.Ok? {
      assert done + ([s] + rest.value) == (done + [s]) + rest.value;
    }
  }

  lemma {:induction false} DescribesAppend(ss: seq<Step>, s: Step)
    ensures Describes(ss + [s]) == Describes(ss) + [Describe(s)]
  {
  }

  // ---------------------------------------------------------------------
  // The loop as written (see Findings)
  // ---------------------------------------------------------------------

  /**
   * The source's loop without a progress check: the version it holds after
   * n more iterations, or None once it has left the loop (target reached or
   * no step found).
   */
  function LoopVersion(m: Migrator, cur: SchemaVersion, to: SchemaVersion, n: nat): Option<SchemaVersion>
    decreases n
  {
    if cur >= to then None
    else if n == 0 then Some(cur)
    else
      match FindStep(m, cur)
      case None => None
      case Some(i) => LoopVersion(m, m.steps[i].to, to, n - 1)
  }

  /**
   * A step that leaves the current version for the same version, when it is
   * the step found there, keeps the loop at that version below any higher
   * target, whatever the number of iterations.
   */
  lemma {:induction false} StandingStepNeverEnds(m: Migrator, cur: SchemaVersion, to: SchemaVersion, i: nat, n: nat)
    requires cur < to && FindStep(m, cur) == Some(i) && i < |m.steps| && m.steps[i].to == cur
    ensures LoopVersion(m, cur, to, n) == Some(cur)
    decreases n
  {
    if n > 0 {
      StandingStepNeverEnds(m, cur, to, i, n - 1);
    }
  }

  /** The smallest such input: one step from 1 to 1 and a target of 2. */
  lemma StandingStepExample(m: Migrator, n: nat)
    requires |m.steps| == 1 && m.steps[0].from == 1 && m.steps[0].to == 1
    ensures LoopVersion(m, 1, 2, n) == Some(1)
  {
    assert FindStep(m, 1) == Some(0);
    StandingStepNeverEnds(m, 1, 2, 0, n);
  }

  /** LoopVersion runs its iterations one after another: a + b of them are b more after the first a. */
  lemma {:induction false} LoopCompose(m: Migrator, cur: SchemaVersion, to: SchemaVersion, a: nat, b: nat)
    ensures LoopVersion(m, cur, to, a + b) ==
      if LoopVersion(m, cur, to, a).Some? then LoopVersion(m, LoopVersion(m, cur, to, a).value, to, b) else None
    decreases a
  {
    if a > 0 && cur < to && FindStep(m, cur).Some? {
      LoopCompose(m, m.steps[FindStep(m, cur).value].to, to, a - 1, b);
    }
  }

  /**
   * As written, a walk that comes back to its version after p > 0 iterations
   * goes round that cycle for ever: it is still in the loop after any number
   * of iterations.
   */
  lemma {:induction false} CycleNeverEnds(m: Migrator, cur: SchemaVersion, to: SchemaVersion, p: nat, n: nat)
    requires p > 0 && LoopVersion(m, cur, to, p) == Some(cur)
    ensures LoopVersion(m, cur, to, n).Some?
    decreases n
  {
    if n < p {
      LoopCompose(m, cur, to, n, p - n);
    } else {
      LoopCompose(m, cur, to, p, n - p);
      CycleNeverEnds(m, cur, to, p, n - p);
    }
  }

  /** The two steps 1 -> 0 and 0 -> 2, as the migrator sorts them. */
  function DetourMigrator(down: Json -> Result<Json, string>, up: Json -> Result<Json, string>): Migrator
  {
    Migrator([Step(0, 2, "up", up), Step(1, 0, "down", down)])
  }

  /**
   * A step back to a version not yet visited is followed, as the source
   * does: migrating from 1 to 2 over 1 -> 0 and 0 -> 2 takes both steps.
   */
  lemma DetourExample(down: Json -> Result<Json, string>, up: Json -> Result<Json, string>)
    ensures Plan(DetourMigrator(down, up), 1, 2, {}) == Ok([Step(1, 0, "down", down), Step(0, 2, "up", up)])
    ensures LoopVersion(DetourMigrator(down, up), 1, 2, 2) == None
  {
    var m := DetourMigrator(down, up);
    assert |m.steps| == 2 && m.steps[0].from == 0 && m.steps[1].from == 1;
    assert FindStep(m, 1).Some? && FindStep(m, 0).Some?;
    assert FindStep(m, 1) == Some(1) && FindStep(m, 0) == Some(0);
    assert Plan(m, 2, 2, {1, 0}) == Ok([]);
    assert {1} + {0} == {1, 0} && [m.steps[0]] + [] == [m.steps[0]];
    assert Plan(m, 0, 2, {1}) == Ok([m.steps[0]]);
    assert {} + {1} == {1} && [m.steps[1]] + [m.steps[0]] == [Step(1, 0, "down", down), Step(0, 2, "up", up)];
  }

  /** The walk from `o` held version `s` within its first d iterations. */
  ghost predicate VisitedBefore(m: Migrator, o: SchemaVersion, to: SchemaVersion, d: nat, s: SchemaVersion)
  {
    exists a: nat :: a < d && LoopVersion(m, o, to, a) == Some(s)
  }

  /** A walk that, as written, reaches a version it was at before goes round forever. */
  lemma {:induction false} RevisitNeverEnds(m: Migrator, o: SchemaVersion, to: SchemaVersion, a: nat, d: nat, cur: SchemaVersion)
    requires a < d && LoopVersion(m, o, to, a) == Some(cur) && LoopVersion(m, o, to, d) == Some(cur)
    ensures forall n: nat :: LoopVersion(m, o, to, n).Some?
  {
    LoopCompose(m, o, to, a, d - a);
    forall n: nat
      ensures LoopVersion(m, o, to, n).Some?
    {
      if n <= a {
        LoopCompose(m, o, to, n, a - n);
      } else {
        LoopCompose(m, o, to, a, n - a);
        CycleNeverEnds(m, cur, to, d - a, n - a);
      }
    }
  }

  /** The plan reports NoProgress only for a walk that, as written, loops: it came back to a version it had left. */
  lemma {:induction false} StallLoops(m: Migrator, o: SchemaVersion, to: SchemaVersion, d: nat, cur: SchemaVersion, seen: set<SchemaVersion>)
    requires LoopVersion(m, o, to, d) == Some(cur)
    requires forall s :: s in seen ==> VisitedBefore(m, o, to, d, s)
    requires Plan(m, cur, to, seen).Err? && Plan(m, cur, to, seen).error.NoProgress?
    ensures forall n: nat :: LoopVersion(m, o, to, n).Some?
    decreases Froms(m) - seen
  {
    var i := FindStep(m, cur).value;
    if cur in seen {
      var a: nat :| a < d && LoopVersion(m, o, to, a) == Some(cur);
      RevisitNeverEnds(m, o, to, a, d, cur);
    } else {
      FoundInFroms(m, i);
      var next := m.steps[i].to;
      LoopCompose(m, o, to, d, 1);
      forall s | s in seen + {cur}
        ensures VisitedBefore(m, o, to, d + 1, s)
      {
        if s == cur {
          assert d < d + 1 && LoopVersion(m, o, to, d) == Some(s);
        } else {
          var a: nat :| a < d && LoopVersion(m, o, to, a) == Some(s);
          assert a < d + 1;
        }
      }
      StallLoops(m, o, to, d + 1, next, seen + {cur});
    }
  }

  /** A plan that ends without NoProgress is a walk that, as written, leaves the loop. */
  lemma {:induction false} PlanEndsLoop(m: Migrator, cur: SchemaVersion, to: SchemaVersion, seen: set<SchemaVersion>)
    requires !(Plan(m, cur, to, seen).Err? && Plan(m, cur, to, seen).error.NoProgress?)
    ensures exists n: nat :: LoopVersion(m, cur, to, n) == None
    decreases Froms(m) - seen
  {
    if cur >= to {
      assert LoopVersion(m, cur, to, 0) == None;
    } else if FindStep(m, cur).None? {
      assert LoopVersion(m, cur, to, 1) == None;
    } else {
      var i := FindStep(m, cur).value;
      FoundInFroms(m, i);
      var next := m.steps[i].to;
      PlanEndsLoop(m, next, to, seen + {cur});
      var n: nat :| LoopVersion(m, next, to, n) == None;
      assert LoopVersion(m, cur, to, n + 1) == None;
    }
  }

  /**
   * The guard changes nothing where the source ends: a dry run reports
   * NoProgress exactly when the loop as written never leaves.
   */
  lemma DryRunStallsIffSourceLoops(m: Migrator, from: SchemaVersion, to: SchemaVersion)
    ensures (Plan(m, from, to, {}).Err? && Plan(m, from, to, {}).error.NoProgress?)
      <==> forall n: nat :: LoopVersion(m, from, to, n).Some?
  {
    if Plan(m, from, to, {}).Err? && Plan(m, from, to, {}).error.NoProgress? {
      assert LoopVersion(m, from, to, 0) == Some(from);
      StallLoops(m, from, to, 0, from, {});
    } else {
      PlanEndsLoop(m, from, to, {});
    }
  }

  /** When every step moves forward no version repeats, so neither migrate nor the plan ever returns NoProgress. */
  lemma {:induction false} ForwardStepsNeverStall(m: Migrator, v: Json, cur: SchemaVersion, to: SchemaVersion, seen: set<SchemaVersion>)
    requires forall k :: 0 <= k < |m.steps| ==> m.steps[k].from < m.steps[k].to
    requires forall s :: s in seen ==> s < cur
    ensures !(MigrateFrom(m, v, cur, to, seen).Err? && MigrateFrom(m, v, cur, to, seen).error.NoProgress?)
    ensures !(Plan(m, cur, to, seen).Err? && Plan(m, cur, to, seen).error.NoProgress?)
    decreases Froms(m) - seen
  {
    if cur < to && FindStep(m, cur).Some? {
      var i := FindStep(m, cur).value;
      FoundInFroms(m, i);
      var s := m.steps[i];
      if s.apply(v).Ok? {
        ForwardStepsNeverStall(m, s.apply(v).value, s.to, to, seen + {cur});
      } else {
        ForwardStepsNeverStall(m, v, s.to, to, seen + {cur});
      }
    }
  }
}
