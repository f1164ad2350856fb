/** How many requests are outstanding: what `get_pending_count` returns after any run,
    counted from the run itself. */
module CorrelationCounts {
  import opened Types
  import opened Correlation
  import opened CorrelationRuns

  predicate IsRegistration(a: Action) {
    a.Reg? || a.RegStream?
  }

  /** Ids are generated fresh, so no id is registered twice. */
  predicate FreshIds(trace: seq<Action>) {
    forall i, j :: 0 <= i < j < |trace| && IsRegistration(trace[i]) && IsRegistration(trace[j]) ==> trace[i].c != trace[j].c
  }

  /** Whether `b` takes the registration `a` out of its table. */
  predicate Removes(a: Action, b: Action)
    requires IsRegistration(a)
  {
    if a.Reg? then Pops(b, a.c) else Ends(b, a.c)
  }

  predicate Survives(a: Action, later: seq<Action>)
    requires IsRegistration(a)
  {
    forall j :: 0 <= j < |later| ==> !Removes(a, later[j])
  }

  function Registrations(trace: seq<Action>): nat {
    if trace == [] then 0 else (if IsRegistration(trace[0]) then 1 else 0) + Registrations(trace[1..])
  }

  /** The registrations that some later action takes out again. */
  function Removals(trace: seq<Action>): nat {
    if trace == [] then 0
    else (if IsRegistration(trace[0]) && !Survives(trace[0], trace[1..]) then 1 else 0) + Removals(trace[1..])
  }

  /** Ids of the registrations of one sort that nothing later removes. */
  function Outstanding(trace: seq<Action>, plain: bool): set<Id> {
    if trace == [] then {}
    else
      var a := trace[0];
      Outstanding(trace[1..], plain) +
      (if IsRegistration(a) && a.Reg? == plain && Survives(a, trace[1..]) then {a.c} else {})
  }

  lemma {:induction false} OutstandingIsRegistered(trace: seq<Action>, plain: bool, c: Id)
    requires c in Outstanding(trace, plain)
    ensures exists i :: 0 <= i < |trace| && trace[i] == (if plain then Reg(c) else RegStream(c))
    decreases |trace|
  {
    if c in Outstanding(trace[1..], plain) {
      OutstandingIsRegistered(trace[1..], plain, c);
      var i :| 0 <= i < |trace[1..]| && trace[1..][i] == (if plain then Reg(c) else RegStream(c));
      assert trace[i + 1] == (if plain then Reg(c) else RegStream(c));
    } else {
      assert trace[0] == if plain then Reg(c) else RegStream(c);
    }
  }

  lemma {:induction false} OutstandingAt(before: seq<Action>, a: Action, after: seq<Action>)
    requires IsRegistration(a) && NeverRegisters(before, a.c) && NeverRegisters(after, a.c)
    ensures a.c in Outstanding(before + [a] + after, a.Reg?) <==> Survives(a, after)
    decreases |before|
  {
    var trace := before + [a] + after;
    if before == [] {
      assert trace[1..] == after;
      if a.c in Outstanding(after, a.Reg?) {
        OutstandingIsRegistered(after, a.Reg?, a.c);
      }
    } else {
      assert trace[1..] == before[1..] + [a] + after && trace[0] == before[0];
      assert forall i :: 0 <= i < |before[1..]| ==> before[1..][i] == before[i + 1];
      OutstandingAt(before[1..], a, after);
    }
  }

  lemma {:induction false} NeverPlain(t: Table, trace: seq<Action>, c: Id)
    requires WellFormed(t) && c !in t.plain.pending && forall i :: 0 <= i < |trace| ==> trace[i] != Reg(c)
    ensures c !in Run(t, trace).plain.pending
    decreases |trace|
  {
    if trace != [] {
      assert trace[0] != Reg(c) && forall i :: 0 <= i < |trace[1..]| ==> trace[1..][i] == trace[i + 1];
      NeverPlain(Do(t, trace[0]), trace[1..], c);
    }
  }

  lemma {:induction false} NeverStream(t: Table, trace: seq<Action>, c: Id)
    requires WellFormed(t) && c !in t.live.streaming && forall i :: 0 <= i < |trace| ==> trace[i] != RegStream(c)
    ensures c !in Run(t, trace).live.streaming
    decreases |trace|
  {
    if trace != [] {
      assert trace[0] != RegStream(c) && forall i :: 0 <= i < |trace[1..]| ==> trace[1..][i] == trace[i + 1];
      NeverStream(Do(t, trace[0]), trace[1..], c);
    }
  }

  lemma SplitAt(trace: seq<Action>, i: nat)
    requires i < |trace| && FreshIds(trace) && IsRegistration(trace[i])
    ensures trace == trace[..i] + [trace[i]] + trace[i + 1..]
    ensures NeverRegisters(trace[..i], trace[i].c) && NeverRegisters(trace[i + 1..], trace[i].c)
  {
    var after := trace[i + 1..];
    assert forall j :: 0 <= j < |after| ==> after[j] == trace[i + 1 + j];
  }

  lemma PlainExactly(trace: seq<Action>, c: Id)
    requires FreshIds(trace)
    ensures c in Run(EMPTY_TABLE, trace).plain.pending <==> c in Outstanding(trace, true)
  {
    if i :| 0 <= i < |trace| && trace[i] == Reg(c) {
      SplitAt(trace, i);
      FutureProjection(trace[..i], c, trace[i + 1..]);
      OutstandingAt(trace[..i], trace[i], trace[i + 1..]);
    } else {
      NeverPlain(EMPTY_TABLE, trace, c);
      if c in Outstanding(trace, true) {
        OutstandingIsRegistered(trace, true, c);
      }
    }
  }

  lemma StreamExactly(trace: seq<Action>, c: Id)
    requires FreshIds(trace)
    ensures c in Run(EMPTY_TABLE, trace).live.streaming <==> c in Outstanding(trace, false)
  {
    if i :| 0 <= i < |trace| && trace[i] == RegStream(c) {
      var after := trace[i + 1..];
      SplitAt(trace, i);
      StreamProjection(trace[..i], c, after);
      OutstandingAt(trace[..i], trace[i], after);
      assert UntilEnd(after, c) == after <==> Survives(trace[i], after);
    } else {
      NeverStream(EMPTY_TABLE, trace, c);
      if c in Outstanding(trace, false) {
        OutstandingIsRegistered(trace, false, c);
      }
    }
  }

  lemma NotOutstandingLater(a: Action, rest: seq<Action>, plain: bool)
    requires FreshIds([a] + rest) && IsRegistration(a)
    ensures a.c !in Outstanding(rest, plain)
  {
    var trace := [a] + rest;
    assert trace[0] == a && forall i :: 0 <= i < |rest| ==> rest[i] == trace[i + 1];
    if a.c in Outstanding(rest, plain) {
      OutstandingIsRegistered(rest, plain, a.c);
    }
  }

  lemma OutstandingSize(a: Action, rest: seq<Action>, plain: bool)
    requires FreshIds([a] + rest)
    ensures |Outstanding([a] + rest, plain)| == |Outstanding(rest, plain)|
              + if IsRegistration(a) && a.Reg? == plain && Survives(a, rest) then 1 else 0
  {
    assert ([a] + rest)[1..] == rest;
    if IsRegistration(a) {
      NotOutstandingLater(a, rest, plain);
    }
  }

  lemma {:induction false} Counts(trace: seq<Action>)
    requires FreshIds(trace)
    ensures |Outstanding(trace, true)| + |Outstanding(trace, false)| + Removals(trace) == Registrations(trace)
    decreases |trace|
  {
    if trace != [] {
      var a, rest := trace[0], trace[1..];
      assert trace == [a] + rest;
      assert FreshIds(rest) by {
        assert forall i :: 0 <= i < |rest| ==> rest[i] == trace[i + 1];
      }
      Counts(rest);
      OutstandingSize(a, rest, true);
      OutstandingSize(a, rest, false);
    }
  }

  /** After any run with fresh ids, exactly the requests that nothing has removed are still
      in the tables, and every registration is either counted by `get_pending_count` or has
      been removed: no entry leaks and none is dropped twice. */
  lemma CountConserved(trace: seq<Action>)
    requires FreshIds(trace)
    ensures var t := Run(EMPTY_TABLE, trace);
            && t.plain.pending.Keys == Outstanding(trace, true)
            && t.live.streaming.Keys == Outstanding(trace, false)
            && |t.plain.pending| + |t.live.streaming| + Removals(trace) == Registrations(trace)
  {
    var t := Run(EMPTY_TABLE, trace);
    forall c: Id
      ensures c in t.plain.pending.Keys <==> c in Outstanding(trace, true)
      ensures c in t.live.streaming.Keys <==> c in Outstanding(trace, false)
    {
      PlainExactly(trace, c);
      StreamExactly(trace, c);
    }
    Counts(trace);
    assert |t.plain.pending.Keys| == |t.plain.pending| && |t.live.streaming.Keys| == |t.live.streaming|;
  }
}
