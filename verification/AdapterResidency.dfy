/** Adapters over whole sessions, finished or ended by an exception: never two resident at once, each one
    released exactly once, and the job finalized last with none resident. */
module AdapterResidency {
  import opened Prelude
  import opened SessionModel
  import opened StageGates
  import opened CandidateProtocol
  import opened SessionSpec
  import opened Session

  /** Even positions create an adapter that the next position releases; odd positions release. */
  ghost predicate InStep(events: seq<AdapterEvent>, i: nat)
    requires i < |events|
  {
    if i % 2 == 0 then events[i].Created? && i + 1 < |events| && events[i + 1] == Released(events[i].owner)
    else events[i].Released?
  }

  /** Creations and releases alternate, each release naming the adapter created just before. */
  ghost predicate Paired(events: seq<AdapterEvent>) {
    && |events| % 2 == 0
    && forall i | 0 <= i < |events| :: InStep(events, i)
  }

  lemma PairedAppend(a: seq<AdapterEvent>, b: seq<AdapterEvent>)
    requires Paired(a) && Paired(b)
    ensures Paired(a + b)
  {
    forall i | 0 <= i < |a + b| ensures InStep(a + b, i) {
      if i < |a| {
        assert InStep(a, i);
      } else {
        assert InStep(b, i - |a|) && (i - |a|) % 2 == i % 2;
      }
    }
  }

  lemma UseIsPaired(create: Outcome<()>, owner: AdapterOwner)
    ensures Paired(UseOf(create, owner)) && Paired([])
  {}

  lemma {:induction false} GroupIsPaired(ctx: Context, role: Role, group: Group, base: Results, i: nat)
    requires Ids(ctx.batch) <= base.Keys && i <= |group.candidates|
    ensures Paired(ExecuteFrom(ctx, role, group, base, i).events)
    decreases |group.candidates| - i
  {
    hide ExecuteOne, MayStopAfterFirst, Paired;
    if i == |group.candidates| {
      assert Paired([]) by { UseIsPaired(Returned(()), JudgeAdapter(role)); }
    } else {
      var used := UseOf(ctx.answers(role).candidates(i).create, CandidateAdapter(role, i));
      UseIsPaired(ctx.answers(role).candidates(i).create, CandidateAdapter(role, i));
      GroupIsPaired(ctx, role, group, base, i + 1);
      PairedAppend(used, ExecuteFrom(ctx, role, group, base, i + 1).events);
    }
  }

  lemma DecideIsPaired(ctx: Context, role: Role, group: Group)
    ensures match Decide(ctx, role, group)
      case Decided(d) => Paired(d.events)
      case Undecided(_, events) => Paired(events)
  {
    hide Paired, Judged;
    UseIsPaired(ctx.answers(role).judge.create, JudgeAdapter(role));
  }

  lemma StageIsPaired(ctx: Context, role: Role, base: Results)
    requires Ids(ctx.batch) <= base.Keys
    ensures Paired(RunStage(ctx, role, base).events)
  {
    hide Paired, ExecuteFrom, Decide, JudgedStage, PreflightOf;
    UseIsPaired(Returned(()), JudgeAdapter(role));
    if role in ctx.registry && ctx.registry[role].candidates != [] {
      var group := ctx.registry[role];
      ExecutedKeys(ctx, role, group, base, 0);
      GroupIsPaired(ctx, role, group, base, 0);
      DecideIsPaired(ctx, role, group);
      var g := ExecuteFrom(ctx, role, group, base, 0);
      match Decide(ctx, role, group)
      case Decided(d) => PairedAppend(g.events, d.events);
      case Undecided(_, events) => PairedAppend(g.events, events);
    }
  }

  /** Residency over every session: whatever raises, creations and releases come in adjacent pairs. */
  lemma {:induction false} SessionIsPaired(ctx: Context, k: nat)
    requires k <= |ROLE_ORDER|
    ensures Paired(After(ctx, k).events)
  {
    hide Paired, RunStage;
    if k == 0 {
      UseIsPaired(Returned(()), JudgeAdapter(Asr));
    } else {
      SessionIsPaired(ctx, k - 1);
      var p := After(ctx, k - 1);
      if p.raised.None? {
        StageIsPaired(ctx, ROLE_ORDER[k - 1], p.results);
        PairedAppend(p.events, RunStage(ctx, ROLE_ORDER[k - 1], p.results).events);
      }
    }
  }

  function CreatedIn(events: seq<AdapterEvent>): nat {
    if events == [] then 0
    else CreatedIn(events[..|events| - 1]) + if events[|events| - 1].Created? then 1 else 0
  }

  function ReleasedIn(events: seq<AdapterEvent>): nat {
    if events == [] then 0
    else ReleasedIn(events[..|events| - 1]) + if events[|events| - 1].Released? then 1 else 0
  }

  /** At any moment of a paired log at most one adapter is created and not yet released. */
  lemma {:induction false} AtMostOneResident(events: seq<AdapterEvent>, n: nat)
    requires Paired(events) && n <= |events|
    ensures CreatedIn(events[..n]) == ReleasedIn(events[..n]) + n % 2
  {
    if n > 0 {
      AtMostOneResident(events, n - 1);
      assert InStep(events, n - 1) && (n - 1) % 2 == 1 - n % 2;
      assert events[..n][..n - 1] == events[..n - 1];
      assert events[..n][n - 1] == events[n - 1];
    }
  }

  /** The log of one call of `run_with_trace`: at most one resident adapter at every moment, every adapter that
      was created released by the very next event, one finalization, at the end, with nothing resident. */
  lemma JobLog(ctx: Context)
    ensures var events := Finished(ctx).events;
      var log := events + [Finalized];
      && (forall n | 0 <= n <= |events| :: 0 <= CreatedIn(log[..n]) - ReleasedIn(log[..n]) <= 1)
      && (forall i | 0 <= i < |events| && log[i].Created? :: log[i + 1] == Released(log[i].owner))
      && (forall i | 0 <= i < |events| && log[i].Released? :: i > 0 && log[i - 1] == Created(log[i].owner))
      && (forall i | 0 <= i < |log| :: log[i] == Finalized <==> i == |log| - 1)
      && CreatedIn(events) == ReleasedIn(events)
  {
    hide After;
    SessionIsPaired(ctx, |ROLE_ORDER|);
    var events := Finished(ctx).events;
    var log := events + [Finalized];
    forall n | 0 <= n <= |events| ensures 0 <= CreatedIn(log[..n]) - ReleasedIn(log[..n]) <= 1 {
      AtMostOneResident(events, n);
      assert log[..n] == events[..n];
    }
    forall i | 0 <= i < |events| && log[i].Released? ensures i > 0 && log[i - 1] == Created(log[i].owner) {
      assert InStep(events, i) && i % 2 == 1;
      assert InStep(events, i - 1) && (i - 1) % 2 == 0;
    }
    forall i | 0 <= i < |events| && log[i].Created? ensures log[i + 1] == Released(log[i].owner) {
      assert InStep(events, i);
    }
    forall i | 0 <= i < |log| ensures log[i] == Finalized <==> i == |log| - 1 {
      if i < |events| { assert InStep(events, i); }
    }
    AtMostOneResident(events, |events|);
    assert events[..|events|] == events;
  }
}
