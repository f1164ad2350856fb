/** `InMemoryPushNotificationConfigStore`
    (src/a2a/server/tasks/inmemory_push_notification_config_store.py): lists in a
    dictionary that behave as insertion-ordered maps. */
module PushConfigStore {
  import opened Types

  datatype Config = Config(id: Option<string>, url: string, token: Option<string>)

  type Infos = map<string, seq<Config>>

  function WithId(c: Config, taskId: string): Config {
    if c.id.None? then c.(id := Some(taskId)) else c
  }

  function IdOr(id: Option<string>, taskId: string): string {
    if id.None? then taskId else id.value
  }

  function ListOf(m: Infos, taskId: string): seq<Config> {
    if taskId in m then m[taskId] else []
  }

  /** The list without its first entry of that id. */
  function Without(cs: seq<Config>, id: string): seq<Config> {
    if cs == [] then []
    else if cs[0].id == Some(id) then cs[1..]
    else [cs[0]] + Without(cs[1..], id)
  }

  function Set(m: Infos, taskId: string, c: Config): Infos {
    var c' := WithId(c, taskId);
    m[taskId := Without(ListOf(m, taskId), c'.id.value) + [c']]
  }

  function Delete(m: Infos, taskId: string, id: Option<string>): Infos {
    if taskId !in m || m[taskId] == [] then m
    else
      var rest := Without(m[taskId], IdOr(id, taskId));
      if rest == [] then m - {taskId} else m[taskId := rest]
  }

  class InMemoryPushNotificationConfigStore {
    var infos: Infos

    constructor ()
      ensures infos == map[]
    {
      infos := map[];
    }

    /** Search by id, then `list.remove`, which drops the first EQUAL entry: the same one,
        because no earlier entry has the id. */
    static method RemoveById(configs: seq<Config>, id: string) returns (rest: seq<Config>)
      ensures rest == Without(configs, id)
    {
      var i := 0;
      while i < |configs|
        invariant i <= |configs|
        invariant forall j :: 0 <= j < i ==> configs[j].id != Some(id)
      {
        if configs[i].id == Some(id) {
          WithoutAt(configs, id, i);
          rest := Remove(configs, configs[i], i);
          return;
        }
        i := i + 1;
      }
      WithoutAt(configs, id, i);
      rest := configs;
    }

    static method Remove(configs: seq<Config>, config: Config, ghost i: nat) returns (rest: seq<Config>)
      requires i < |configs| && configs[i] == config && forall j :: 0 <= j < i ==> configs[j] != config
      ensures rest == configs[..i] + configs[i + 1..]
    {
      var k := 0;
      while configs[k] != config
        invariant k <= i
        decreases i - k
      {
        k := k + 1;
      }
      rest := configs[..k] + configs[k + 1..];
    }

    method SetInfo(taskId: string, config: Config)
      modifies this
      ensures infos == Set(old(infos), taskId, config)
    {
      if taskId !in infos {
        infos := infos[taskId := []];
      }
      var c := config;
      if c.id.None? {
        c := c.(id := Some(taskId));
      }
      var rest := RemoveById(infos[taskId], c.id.value);
      infos := infos[taskId := rest];
      infos := infos[taskId := infos[taskId] + [c]];
    }

    method GetInfo(taskId: string) returns (configs: seq<Config>)
      ensures configs == ListOf(infos, taskId)
    {
      configs := if taskId in infos then infos[taskId] else [];
    }

    method DeleteInfo(taskId: string, configId: Option<string>)
      modifies this
      ensures infos == Delete(old(infos), taskId, configId)
    {
      var id := if configId.None? then taskId else configId.value;
      if taskId in infos {
        var configurations := infos[taskId];
        if configurations == [] {
          return;
        }
        configurations := RemoveById(configurations, id);
        infos := infos[taskId := configurations];
        if |configurations| == 0 {
          infos := infos - {taskId};
        }
      }
    }
  }

  lemma {:induction false} WithoutAt(cs: seq<Config>, id: string, i: nat)
    requires i <= |cs| && (forall j :: 0 <= j < i ==> cs[j].id != Some(id)) && (i < |cs| ==> cs[i].id == Some(id))
    ensures Without(cs, id) == if i < |cs| then cs[..i] + cs[i + 1..] else cs
    decreases |cs|
  {
    if i > 0 {
      var rest := cs[1..];
      WithoutAt(rest, id, i - 1);
      assert cs == [cs[0]] + rest;
      if i < |cs| {
        assert rest[i..] == cs[i + 1..] && cs[..i] == [cs[0]] + rest[..i - 1];
      }
    }
  }

  // ---- Runs ----

  datatype Op = SetOp(taskId: string, config: Config) | DeleteOp(taskId: string, id: Option<string>)

  function Apply(m: Infos, op: Op): Infos {
    match op
    case SetOp(taskId, c) => Set(m, taskId, c)
    case DeleteOp(taskId, id) => Delete(m, taskId, id)
  }

  function Run(m: Infos, ops: seq<Op>): Infos {
    if ops == [] then m else Apply(Run(m, ops[..|ops| - 1]), ops[|ops| - 1])
  }

  /** The id an operation on `taskId` is about: the given one, or else the task id. */
  function Target(op: Op): string {
    match op
    case SetOp(taskId, c) => if c.id.Some? then c.id.value else taskId
    case DeleteOp(taskId, id) => if id.Some? then id.value else taskId
  }

  predicate Touches(op: Op, taskId: string, id: string) {
    op.taskId == taskId && Target(op) == id
  }

  predicate TouchedBy(ops: seq<Op>, taskId: string, id: string) {
    exists i :: 0 <= i < |ops| && Touches(ops[i], taskId, id)
  }

  /** What an operation leaves for good, given the operations after it. */
  function Lasting(op: Op, later: seq<Op>, taskId: string): seq<Config> {
    if op.SetOp? && op.taskId == taskId && !TouchedBy(later, taskId, Target(op)) then [Config(Some(Target(op)), op.config.url, op.config.token)] else []
  }

  /** The configurations that should be there: in the order of the operations, each one
      that was set and whose id no later operation touches. */
  function Surviving(ops: seq<Op>, taskId: string): seq<Config> {
    if ops == [] then [] else Lasting(ops[0], ops[1..], taskId) + Surviving(ops[1..], taskId)
  }

  function Afterwards(before: seq<Config>, op: Op, taskId: string): seq<Config> {
    if op.taskId != taskId then before
    else Untouched(before, Target(op)) + (if op.SetOp? then [Config(Some(Target(op)), op.config.url, op.config.token)] else [])
  }

  lemma {:induction false} SurvivingSnoc(ops: seq<Op>, op: Op, taskId: string)
    ensures Surviving(ops + [op], taskId) == Afterwards(Surviving(ops, taskId), op, taskId)
    decreases |ops|
  {
    if ops == [] {
      assert ops + [op] == [op] && [op][1..] == [];
    } else {
      var first, later := ops[0], ops[1..];
      assert (ops + [op])[1..] == later + [op];
      SurvivingSnoc(later, op, taskId);
      LastingSnoc(first, later, op, taskId);
      UntouchedConcat(Lasting(first, later, taskId), Surviving(later, taskId), Target(op));
    }
  }

  lemma LastingSnoc(first: Op, later: seq<Op>, op: Op, taskId: string)
    ensures Lasting(first, later + [op], taskId) ==
            if op.taskId != taskId then Lasting(first, later, taskId)
            else Untouched(Lasting(first, later, taskId), Target(op))
  {
    TouchedSnoc(later, op, taskId, Target(first));
    var l := Lasting(first, later, taskId);
    if l != [] {
      assert l[0].id == Some(Target(first)) && l[1..] == [];
    }
  }

  lemma {:induction false} UntouchedConcat(a: seq<Config>, b: seq<Config>, id: string)
    ensures Untouched(a + b, id) == Untouched(a, id) + Untouched(b, id)
    decreases |a|
  {
    if a == [] {
      assert a + b == b;
    } else {
      assert (a + b)[1..] == a[1..] + b;
      UntouchedConcat(a[1..], b, id);
    }
  }

  lemma TouchedSnoc(ops: seq<Op>, op: Op, taskId: string, id: string)
    ensures TouchedBy(ops + [op], taskId, id) <==> TouchedBy(ops, taskId, id) || Touches(op, taskId, id)
  {
    var all := ops + [op];
    assert all[|ops|] == op;
    if TouchedBy(ops, taskId, id) {
      var i :| 0 <= i < |ops| && Touches(ops[i], taskId, id);
      assert all[i] == ops[i];
    }
  }

  /** All entries but those of the given id. */
  function Untouched(cs: seq<Config>, id: string): (r: seq<Config>)
    ensures forall c :: c in r <==> c in cs && c.id != Some(id)
  {
    if cs == [] then []
    else (if cs[0].id == Some(id) then [] else [cs[0]]) + Untouched(cs[1..], id)
  }

  predicate UniqueIds(cs: seq<Config>) {
    && (forall i :: 0 <= i < |cs| ==> cs[i].id.Some?)
    && (forall i, j :: 0 <= i < j < |cs| ==> cs[i].id != cs[j].id)
  }

  lemma {:induction false} WithoutIsUntouched(cs: seq<Config>, id: string)
    requires UniqueIds(cs)
    ensures Without(cs, id) == Untouched(cs, id) && UniqueIds(Untouched(cs, id))
    decreases |cs|
  {
    if cs != [] {
      var rest := cs[1..];
      assert forall i :: 0 <= i < |rest| ==> rest[i] == cs[i + 1];
      assert UniqueIds(rest);
      WithoutIsUntouched(rest, id);
      if cs[0].id == Some(id) {
        AllUntouched(rest, id);
      } else {
        UniqueCons(cs[0], Untouched(rest, id));
      }
    }
  }

  lemma UniqueCons(c: Config, cs: seq<Config>)
    requires UniqueIds(cs) && c.id.Some? && forall x :: x in cs ==> x.id != c.id
    ensures UniqueIds([c] + cs)
  {
  }

  lemma {:induction false} AllUntouched(cs: seq<Config>, id: string)
    requires forall i :: 0 <= i < |cs| ==> cs[i].id != Some(id)
    ensures Untouched(cs, id) == cs
    decreases |cs|
  {
    if cs != [] {
      AllUntouched(cs[1..], id);
      assert cs == [cs[0]] + cs[1..];
    }
  }

  /** Over any run from the empty store: each task's list is exactly the surviving
      configurations, so set replaces and moves to the end; ids are unique; a task is
      present exactly when something survives; and other tasks are never affected. */
  lemma {:induction false} RunKeepsSurvivors(ops: seq<Op>, taskId: string)
    ensures var m := Run(map[], ops);
            && ListOf(m, taskId) == Surviving(ops, taskId)
            && UniqueIds(ListOf(m, taskId))
            && (taskId in m <==> Surviving(ops, taskId) != [])
    decreases |ops|
  {
    if ops != [] {
      var front, op := ops[..|ops| - 1], ops[|ops| - 1];
      assert ops == front + [op];
      SurvivingSnoc(front, op, taskId);
      RunKeepsSurvivors(front, taskId);
      ApplyActsOnList(Run(map[], front), op, taskId);
    }
  }

  /** What is stored: the configuration as given, under its own id or else the task's. */
  lemma StoredAs(op: Op)
    requires op.SetOp?
    ensures WithId(op.config, op.taskId) == Config(Some(Target(op)), op.config.url, op.config.token)
    ensures IdOr(op.config.id, op.taskId) == Target(op)
  {
  }

  lemma ApplyActsOnList(m: Infos, op: Op, taskId: string)
    requires UniqueIds(ListOf(m, taskId)) && (taskId in m ==> m[taskId] != [])
    ensures var m' := Apply(m, op);
            && ListOf(m', taskId) == Afterwards(ListOf(m, taskId), op, taskId)
            && UniqueIds(ListOf(m', taskId))
            && (taskId in m' <==> ListOf(m', taskId) != [])
  {
    if op.taskId == taskId {
      if op.SetOp? {
        StoredAs(op);
      }
      WithoutIsUntouched(ListOf(m, taskId), Target(op));
      assert Untouched(ListOf(m, taskId), Target(op)) + [] == Untouched(ListOf(m, taskId), Target(op));
    }
  }

  /** What a lookup finds: the last configuration set for the id, unless it was deleted. */
  function LastSet(ops: seq<Op>, taskId: string, id: string): Option<Config> {
    if ops == [] then None
    else
      var op := ops[|ops| - 1];
      if !Touches(op, taskId, id) then LastSet(ops[..|ops| - 1], taskId, id)
      else if op.SetOp? then Some(Config(Some(Target(op)), op.config.url, op.config.token))
      else None
  }

  lemma MembersAfterwards(before: seq<Config>, op: Op, taskId: string, c: Config)
    ensures c in Afterwards(before, op, taskId) <==>
            if op.taskId != taskId then c in before
            else (c in before && c.id != Some(Target(op))) || (op.SetOp? && c == Config(Some(Target(op)), op.config.url, op.config.token))
  {
  }

  lemma {:induction false} LookupIsLastSet(ops: seq<Op>, taskId: string, c: Config)
    ensures c in ListOf(Run(map[], ops), taskId) <==> c.id.Some? && LastSet(ops, taskId, c.id.value) == Some(c)
    decreases |ops|
  {
    if ops != [] {
      var front, op := ops[..|ops| - 1], ops[|ops| - 1];
      LookupIsLastSet(front, taskId, c);
      RunKeepsSurvivors(front, taskId);
      ApplyActsOnList(Run(map[], front), op, taskId);
      MembersAfterwards(ListOf(Run(map[], front), taskId), op, taskId, c);
    }
  }
}
