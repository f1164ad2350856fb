/** `append_artifact_to_task` (src/a2a/utils/helpers.py): how a stream of
    artifact updates builds the artifact list of a task. */
module Artifacts {
  import opened Types

  type Arts = seq<Artifact>

  function Ids(arts: Arts): (ids: seq<string>)
    ensures |ids| == |arts|
    ensures forall i :: 0 <= i < |arts| ==> ids[i] == arts[i].artifactId
  {
    seq(|arts|, i requires 0 <= i < |arts| => arts[i].artifactId)
  }

  predicate Distinct(ids: seq<string>) {
    forall i, j :: 0 <= i < j < |ids| ==> ids[i] != ids[j]
  }

  function Appends(u: ArtifactUpdate): bool {
    u.append == Some(true)
  }

  /** Position of the first artifact with the given id, or the length of the list. */
  function Find(arts: Arts, id: string): (k: nat)
    ensures k <= |arts|
    ensures k < |arts| ==> arts[k].artifactId == id
    ensures forall i :: 0 <= i < k ==> arts[i].artifactId != id
  {
    if arts == [] || arts[0].artifactId == id then 0 else 1 + Find(arts[1..], id)
  }

  /** One update applied to an artifact list. */
  function Apply(arts: Arts, u: ArtifactUpdate): Arts {
    var k := Find(arts, u.artifact.artifactId);
    if !Appends(u) then
      if k < |arts| then arts[k := u.artifact] else arts + [u.artifact]
    else if k < |arts| then
      arts[k := arts[k].(parts := arts[k].parts + u.artifact.parts)]
    else
      arts
  }

  function Current(task: Task): Arts {
    if task.artifacts.None? then [] else task.artifacts.value
  }

  function ApplyToTask(task: Task, u: ArtifactUpdate): Task {
    task.(artifacts := Some(Apply(Current(task), u)))
  }

  /** The helper itself, with its linear search and its three branches. */
  method AppendArtifactToTask(task: Task, event: ArtifactUpdate) returns (updated: Task)
    ensures updated == ApplyToTask(task, event)
  {
    var artifacts := if task.artifacts.None? || task.artifacts.value == [] then [] else task.artifacts.value;
    var newArtifact := event.artifact;
    var artifactId := newArtifact.artifactId;
    var appendParts := event.append.Some? && event.append.value;
    var index := 0;
    while index < |artifacts| && artifacts[index].artifactId != artifactId
      invariant index <= |artifacts|
      invariant forall i :: 0 <= i < index ==> artifacts[i].artifactId != artifactId
    {
      index := index + 1;
    }
    if !appendParts {
      if index < |artifacts| {
        artifacts := artifacts[index := newArtifact];
      } else {
        artifacts := artifacts + [newArtifact];
      }
    } else if index < |artifacts| {
      var existing := artifacts[index];
      artifacts := artifacts[index := existing.(parts := existing.parts + newArtifact.parts)];
    }
    updated := task.(artifacts := Some(artifacts));
  }

  function ApplyAll(arts: Arts, us: seq<ArtifactUpdate>): Arts
    decreases |us|
  {
    if us == [] then arts else ApplyAll(Apply(arts, us[0]), us[1..])
  }

  // ---- What a stream of updates means, stated without the fold ----

  function Lookup(arts: Arts, id: string): Option<Artifact> {
    var k := Find(arts, id);
    if k < |arts| then Some(arts[k]) else None
  }

  /** Index just past the last replacing update for `id`; 0 when there is none. */
  function AfterLastReset(us: seq<ArtifactUpdate>, id: string): (k: nat)
    ensures k <= |us|
    ensures k > 0 ==> us[k - 1].append != Some(true) && us[k - 1].artifact.artifactId == id
    ensures forall i :: k <= i < |us| ==> us[i].append == Some(true) || us[i].artifact.artifactId != id
  {
    if us == [] then 0
    else
      var last := us[|us| - 1];
      if last.append != Some(true) && last.artifact.artifactId == id then |us| else AfterLastReset(us[..|us| - 1], id)
  }

  /** All parts appended for `id`, in order. */
  function AppendedParts(us: seq<ArtifactUpdate>, id: string): seq<string> {
    if us == [] then []
    else
      AppendedParts(us[..|us| - 1], id) +
      (var u := us[|us| - 1];
       if u.append == Some(true) && u.artifact.artifactId == id then u.artifact.parts else [])
  }

  /** The artifact a reader should see: the last replacing update for `id` (or the
      artifact the task started with), followed by everything appended since. */
  function Meaning(start: Arts, us: seq<ArtifactUpdate>, id: string): Option<Artifact> {
    var k := AfterLastReset(us, id);
    var base := if k > 0 then Some(us[k - 1].artifact) else Lookup(start, id);
    if base.None? then None
    else Some(base.value.(parts := base.value.parts + AppendedParts(us[k..], id)))
  }

  /** Ids in the order in which they first appear. */
  function FirstSeen(ids: seq<string>, us: seq<ArtifactUpdate>): seq<string>
    decreases |us|
  {
    if us == [] then ids
    else
      var u := us[0];
      FirstSeen(if u.append == Some(true) || u.artifact.artifactId in ids then ids else ids + [u.artifact.artifactId], us[1..])
  }

  lemma FindOn(arts: Arts, id: string, k: nat)
    requires k <= |arts|
    requires k < |arts| ==> arts[k].artifactId == id
    requires forall i :: 0 <= i < k ==> arts[i].artifactId != id
    ensures Find(arts, id) == k
  {
  }

  lemma LookupAfterApply(arts: Arts, u: ArtifactUpdate, id: string)
    ensures Lookup(Apply(arts, u), id) ==
            if u.artifact.artifactId != id then Lookup(arts, id)
            else if u.append != Some(true) then Some(u.artifact)
            else if Lookup(arts, id).None? then None
            else var a := Lookup(arts, id).value; Some(a.(parts := a.parts + u.artifact.parts))
  {
    var k := Find(arts, u.artifact.artifactId);
    var next := Apply(arts, u);
    if u.artifact.artifactId == id {
      FindOn(next, id, k);
    } else {
      var j := Find(arts, id);
      FindOn(next, id, if j == |arts| then |next| else j);
    }
  }

  /** The flag itself: absent or false, the artifact is created or replaced as it is; true,
      its parts are added to what is there, or to nothing. */
  lemma FlagDecides(arts: Arts, u: ArtifactUpdate)
    ensures var id := u.artifact.artifactId;
            var found := Lookup(Apply(arts, u), id);
            match u.append
            case None => found == Some(u.artifact)
            case Some(append) =>
              if !append then found == Some(u.artifact)
              else if Lookup(arts, id).None? then Apply(arts, u) == arts
              else
                var before := Lookup(arts, id).value;
                found == Some(Artifact(id, before.name, before.parts + u.artifact.parts))
  {
    LookupAfterApply(arts, u, u.artifact.artifactId);
  }

  lemma ApplyAllSnoc(arts: Arts, us: seq<ArtifactUpdate>, u: ArtifactUpdate)
    ensures ApplyAll(arts, us + [u]) == Apply(ApplyAll(arts, us), u)
    decreases |us|
  {
    if us == [] {
      assert [u][1..] == [];
    } else {
      assert (us + [u])[1..] == us[1..] + [u];
      ApplyAllSnoc(Apply(arts, us[0]), us[1..], u);
    }
  }

  /** For any starting list and any stream of updates, every id ends up with exactly
      its meaning: an id that was never created stays absent. */
  lemma {:induction false} StreamMeaning(arts: Arts, us: seq<ArtifactUpdate>, id: string)
    ensures Lookup(ApplyAll(arts, us), id) == Meaning(arts, us, id)
    decreases |us|
  {
    if us == [] {
      assert us[0..] == [];
      NothingAppended(Lookup(arts, id));
    } else {
      var front, u := us[..|us| - 1], us[|us| - 1];
      assert us == front + [u];
      ApplyAllSnoc(arts, front, u);
      StreamMeaning(arts, front, id);
      LookupAfterApply(ApplyAll(arts, front), u, id);
      if AfterLastReset(us, id) == |us| {
        assert us[|us|..] == [];
        NothingAppended(Some(u.artifact));
      } else {
        AppendMeaning(arts, front, us, id);
      }
    }
  }

  lemma NothingAppended(base: Option<Artifact>)
    ensures base.Some? ==> Some(base.value.(parts := base.value.parts + [])) == base
  {
    if base.Some? {
      assert base.value.parts + [] == base.value.parts;
    }
  }

  lemma AppendMeaning(arts: Arts, front: seq<ArtifactUpdate>, us: seq<ArtifactUpdate>, id: string)
    requires us != [] && front == us[..|us| - 1] && AfterLastReset(us, id) < |us|
    ensures var u := us[|us| - 1];
            var before := Meaning(arts, front, id);
            Meaning(arts, us, id) ==
            if !(u.append == Some(true) && u.artifact.artifactId == id) || before.None? then before
            else Some(before.value.(parts := before.value.parts + u.artifact.parts))
  {
    var u := us[|us| - 1];
    var k := AfterLastReset(us, id);
    var rest := us[k..];
    assert rest[..|rest| - 1] == front[k..] && rest[|rest| - 1] == u;
    var base := if k > 0 then Some(us[k - 1].artifact) else Lookup(arts, id);
    if base.Some? {
      var b := base.value;
      assert b.parts + (AppendedParts(front[k..], id) + u.artifact.parts)
          == (b.parts + AppendedParts(front[k..], id)) + u.artifact.parts;
      assert AppendedParts(front[k..], id) + [] == AppendedParts(front[k..], id);
    }
  }

  /** Ids stay distinct and stay in the order of first creation. */
  lemma {:induction false} StreamOrder(arts: Arts, us: seq<ArtifactUpdate>)
    requires Distinct(Ids(arts))
    ensures Ids(ApplyAll(arts, us)) == FirstSeen(Ids(arts), us)
    ensures Distinct(Ids(ApplyAll(arts, us)))
    decreases |us|
  {
    if us != [] {
      var u := us[0];
      var id := u.artifact.artifactId;
      var k := Find(arts, id);
      var next := Apply(arts, u);
      if k < |arts| {
        assert Ids(arts)[k] == id;
        assert Ids(next) == Ids(arts);
      } else {
        assert id !in Ids(arts);
        if u.append != Some(true) { assert Ids(next) == Ids(arts) + [id]; }
      }
      StreamOrder(next, us[1..]);
    }
  }
}
