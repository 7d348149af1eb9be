/**
 The explanation versions of one decision, under retries and any number of workers. A worker reads a version
 that is being generated, calls the gateway outside any transaction, and commits under a guard; other commands
 may spend event keys in between. Whether the decision is linked to a task is settled when it is imported.
 */
module Explanations {
  import opened Vocabulary
  import opened Lifecycle

  datatype Stage = Generating | Generated | Failed | NotAdopted | NotConfigured

  datatype Version = Version(id: string, number: nat, stage: Stage, content: Option<string>)

  datatype Kind = Requested(explanation: string) | Completed(explanation: string, stage: Stage) | Unrelated

  datatype Entry = Entry(key: string, kind: Kind)

  datatype Chain = Chain(linked: bool, versions: seq<Version>, events: seq<Entry>)

  /** What the gateway says: an explanation, or one of three errors. */
  datatype GatewayReply = Explained(content: string) | Unconfigured | Unusable | Broken

  function StageOf(reply: GatewayReply): Stage {
    match reply
    case Explained(_) => Generated
    case Unconfigured => NotConfigured
    case Unusable => NotAdopted
    case Broken => Failed
  }

  function ContentOf(reply: GatewayReply): Option<string> {
    if reply.Explained? then Some(reply.content) else None
  }

  // ----- the transactions -----

  function CompletionKey(id: string): string { "ai-complete:" + id }

  lemma CompletionKeysDiffer(a: string, b: string)
    ensures CompletionKey(a) == CompletionKey(b) ==> a == b
  {
    var n := |"ai-complete:"|;
    assert CompletionKey(a)[n..] == a && CompletionKey(b)[n..] == b;
  }

  function Keys(events: seq<Entry>): set<string> {
    set e | e in events :: e.key
  }

  function Ids(versions: seq<Version>): set<string> {
    set v | v in versions :: v.id
  }

  /** The position of the version with the highest number among the wanted ones. */
  function Highest(versions: seq<Version>, wanted: Version -> bool): (found: Option<nat>)
    ensures found.None? ==> forall i :: 0 <= i < |versions| ==> !wanted(versions[i])
    ensures found.Some? ==> found.value < |versions| && wanted(versions[found.value])
    ensures found.Some? ==> forall i :: 0 <= i < |versions| && wanted(versions[i]) ==>
      versions[i].number <= versions[found.value].number
  {
    if versions == [] then None
    else
      var last := |versions| - 1;
      var rest := Highest(versions[..last], wanted);
      if wanted(versions[last]) && (rest.None? || versions[rest.value].number <= versions[last].number)
      then Some(last) else rest
  }

  predicate Any(v: Version) { true }

  predicate IsGenerated(v: Version) { v.stage.Generated? }

  /** The highest number given so far, 0 before the first. */
  function HighestNumber(versions: seq<Version>): nat {
    if versions == [] then 0
    else
      var rest := HighestNumber(versions[..|versions| - 1]);
      var last := versions[|versions| - 1].number;
      if last > rest then last else rest
  }

  predicate StillGenerating(versions: seq<Version>) {
    var latest := Highest(versions, Any);
    latest.Some? && versions[latest.value].stage.Generating?
  }

  /** A request for a further version: who asks, under which key, and the identifier the database draws. */
  datatype Request = Request(role: Role, name: string, key: string, id: string)

  function RetryOutcome(c: Chain, operator: string, request: Request): Outcome {
    if request.role.NoRole? then Refused(Forbidden)
    else if Blank(request.key) then Refused(InvalidState)
    else if !c.linked then Refused(NotFound)
    else if request.role.Operations? && request.name != operator then Refused(Forbidden)
    else if request.key in Keys(c.events) then Replayed
    else if StillGenerating(c.versions) then Refused(InvalidState)
    else if request.id in Ids(c.versions) then Refused(KeyTaken)
    else Applied
  }

  function Retried(c: Chain, operator: string, request: Request): Chain {
    if RetryOutcome(c, operator, request).Applied? then
      c.(versions := c.versions + [Version(request.id, HighestNumber(c.versions) + 1, Generating, None)],
         events := c.events + [Entry(request.key, Requested(request.id))])
    else c
  }

  /** The guarded update: every version under this id that is still being generated. */
  function Finish(versions: seq<Version>, id: string, stage: Stage, content: Option<string>): seq<Version> {
    seq(|versions|, i requires 0 <= i < |versions| =>
      if versions[i].id == id && versions[i].stage.Generating?
      then versions[i].(stage := stage, content := content) else versions[i])
  }

  /** A worker's commit: the guarded update, and for a linked decision the completion event unless its key exists. */
  function Committed(c: Chain, id: string, reply: GatewayReply): Chain {
    c.(versions := Finish(c.versions, id, StageOf(reply), ContentOf(reply)),
       events := if c.linked && CompletionKey(id) !in Keys(c.events)
                 then c.events + [Entry(CompletionKey(id), Completed(id, StageOf(reply)))] else c.events)
  }

  /** What a commit writes to the version it completes. */
  lemma CommitWrites(c: Chain, id: string, reply: GatewayReply, i: nat)
    requires i < |c.versions| && c.versions[i].id == id && c.versions[i].stage == Generating
    ensures var v := Committed(c, id, reply).versions[i];
            match reply
            case Explained(text) => v == Version(id, c.versions[i].number, Generated, Some(text))
            case Unconfigured => v == Version(id, c.versions[i].number, NotConfigured, None)
            case Unusable => v == Version(id, c.versions[i].number, NotAdopted, None)
            case Broken => v == Version(id, c.versions[i].number, Failed, None)
  {
  }

  /** Some other command spends an event key. */
  function Spent(c: Chain, key: string): Chain {
    if key in Keys(c.events) then c else c.(events := c.events + [Entry(key, Unrelated)])
  }

  /** The tables as the service and the workers use them. */
  class Tables {
    const linked: bool
    const operator: string
    var versions: seq<Version>
    var events: seq<Entry>

    ghost function Rows(): Chain
      reads this
    {
      Chain(linked, versions, events)
    }

    constructor (linked: bool, operator: string, id: string)
      ensures Rows() == Imported(linked, id) && this.operator == operator
    {
      this.linked, this.operator := linked, operator;
      versions, events := [Version(id, 1, Generating, None)], [];
    }

    method RetryAI(request: Request) returns (outcome: Outcome)
      modifies this
      ensures outcome == RetryOutcome(old(Rows()), operator, request)
      ensures Rows() == Retried(old(Rows()), operator, request)
    {
      if !request.role.Operations? && !request.role.Supervisor? {
        return Refused(Forbidden);
      }
      if Blank(request.key) {
        return Refused(InvalidState);
      }
      if !linked {
        return Refused(NotFound);
      }
      if request.role.Operations? && operator != request.name {
        return Refused(Forbidden);
      }
      if request.key in Keys(events) {
        return Replayed;
      }
      var next := HighestNumber(versions) + 1;
      var latest := Highest(versions, Any);
      if latest.Some? {
        var actual := versions[latest.value].stage;
        if actual.Generating? {
          return Refused(InvalidState);
        }
      }
      if request.id in Ids(versions) {
        return Refused(KeyTaken);
      }
      versions := versions + [Version(request.id, next, Generating, None)];
      events := events + [Entry(request.key, Requested(request.id))];
      return Applied;
    }

    method Commit(id: string, reply: GatewayReply)
      modifies this
      ensures Rows() == Committed(old(Rows()), id, reply)
    {
      var stage, content := Generated, None;
      match reply {
        case Unconfigured => stage := NotConfigured;
        case Unusable => stage := NotAdopted;
        case Broken => stage := Failed;
        case Explained(text) => content := Some(text);
      }
      versions := Finish(versions, id, stage, content);
      if linked && CompletionKey(id) !in Keys(events) {
        events := events + [Entry(CompletionKey(id), Completed(id, stage))];
      }
    }
  }

  // ----- many workers -----

  function Imported(linked: bool, id: string): Chain {
    Chain(linked, [Version(id, 1, Generating, None)], [])
  }

  /** The workers by the version each has read and not yet committed. */
  datatype World = World(chain: Chain, workers: seq<Option<string>>)

  datatype Step =
    | Ask(operator: string, request: Request)
    | Spend(key: string)
    | Join
    | Read(w: nat, i: nat)
    | Commit(w: nat, reply: GatewayReply)
    | Crash(w: nat)

  function Next(s: World, step: Step): World {
    match step
    case Ask(operator, request) => s.(chain := Retried(s.chain, operator, request))
    case Spend(key) => s.(chain := Spent(s.chain, key))
    case Join => s.(workers := s.workers + [None])
    case Read(w, i) =>
      if w < |s.workers| && i < |s.chain.versions| && s.chain.versions[i].stage.Generating?
      then s.(workers := s.workers[w := Some(s.chain.versions[i].id)]) else s
    case Commit(w, reply) =>
      if w < |s.workers| && s.workers[w].Some?
      then World(Committed(s.chain, s.workers[w].value, reply), s.workers[w := None]) else s
    case Crash(w) => if w < |s.workers| then s.(workers := s.workers[w := None]) else s
  }

  /** The worlds of a run from an import on, one step after another. */
  ghost predicate Behaviour(worlds: seq<World>, steps: seq<Step>) {
    && |worlds| == |steps| + 1
    && |worlds[0].chain.versions| == 1
    && worlds[0] == World(Imported(worlds[0].chain.linked, worlds[0].chain.versions[0].id), [])
    && forall i :: 0 <= i < |steps| ==> worlds[i + 1] == Next(worlds[i], steps[i])
  }

  // ----- what every run keeps -----

  /** Versions count up from 1 without gaps under distinct ids, only the last may be generating, and exactly the
      generated ones have content. */
  ghost predicate Numbered(versions: seq<Version>) {
    && |versions| > 0
    && (forall i :: 0 <= i < |versions| ==> versions[i].number == i + 1)
    && (forall i :: 0 <= i < |versions| - 1 ==> !versions[i].stage.Generating?)
    && (forall i :: 0 <= i < |versions| ==> (versions[i].content.Some? <==> versions[i].stage.Generated?))
    && (forall i, j :: 0 <= i < j < |versions| ==> versions[i].id != versions[j].id)
  }

  /** Some completed version has this id and stage. */
  ghost predicate Stands(versions: seq<Version>, id: string, stage: Stage) {
    !stage.Generating? && exists i :: 0 <= i < |versions| && versions[i].id == id && versions[i].stage == stage
  }

  /** Event keys are unique, a completion event tells the stored status of its version, and only a linked
      decision has events of its own. */
  ghost predicate Truthful(c: Chain) {
    && (forall i, j :: 0 <= i < j < |c.events| ==> c.events[i].key != c.events[j].key)
    && (forall e :: e in c.events && e.kind.Completed? ==>
          c.linked && e.key == CompletionKey(e.kind.explanation)
          && Stands(c.versions, e.kind.explanation, e.kind.stage))
    && (forall e :: e in c.events && e.kind.Requested? ==> c.linked)
  }

  /** Every completed version of a linked decision has had its completion event, unless the key was taken. */
  ghost predicate Told(c: Chain) {
    c.linked ==> forall i :: 0 <= i < |c.versions| && !c.versions[i].stage.Generating? ==>
      CompletionKey(c.versions[i].id) in Keys(c.events)
  }

  function Requests(events: seq<Entry>): nat {
    if events == [] then 0
    else Requests(events[..|events| - 1]) + (if events[|events| - 1].kind.Requested? then 1 else 0)
  }

  ghost predicate Sound(s: World) {
    && Numbered(s.chain.versions)
    && Truthful(s.chain)
    && Told(s.chain)
    && |s.chain.versions| == Requests(s.chain.events) + 1
    && (forall w :: 0 <= w < |s.workers| && s.workers[w].Some? ==> s.workers[w].value in Ids(s.chain.versions))
  }

  /** Later states only add: completed versions are untouched, the others keep their id and number. */
  ghost predicate Grows(before: seq<Version>, after: seq<Version>) {
    && |before| <= |after|
    && (forall i :: 0 <= i < |before| ==> after[i].id == before[i].id && after[i].number == before[i].number)
    && (forall i :: 0 <= i < |before| && !before[i].stage.Generating? ==> after[i] == before[i])
  }

  lemma LogGrows(events: seq<Entry>, e: Entry)
    ensures Keys(events + [e]) == Keys(events) + {e.key}
    ensures Requests(events + [e]) == Requests(events) + (if e.kind.Requested? then 1 else 0)
  {
  }

  lemma StandsKept(before: seq<Version>, after: seq<Version>)
    requires Grows(before, after)
    ensures forall id, stage :: Stands(before, id, stage) ==> Stands(after, id, stage)
  {
  }

  lemma IdsKept(before: seq<Version>, after: seq<Version>)
    requires Grows(before, after)
    ensures Ids(before) <= Ids(after)
  {
  }

  /** Numbered 1..n, the highest number is the count and the highest version the last. */
  lemma {:induction false} NumbersArePositions(versions: seq<Version>)
    requires forall i :: 0 <= i < |versions| ==> versions[i].number == i + 1
    ensures HighestNumber(versions) == |versions|
    ensures versions != [] ==> Highest(versions, Any) == Some(|versions| - 1)
  {
    if versions != [] {
      NumbersArePositions(versions[..|versions| - 1]);
      assert Any(versions[|versions| - 1]);
    }
  }

  lemma Appended(versions: seq<Version>, id: string)
    requires Numbered(versions) && !versions[|versions| - 1].stage.Generating? && id !in Ids(versions)
    ensures Numbered(versions + [Version(id, |versions| + 1, Generating, None)])
    ensures Grows(versions, versions + [Version(id, |versions| + 1, Generating, None)])
  {
  }

  lemma Finished(versions: seq<Version>, id: string, reply: GatewayReply)
    requires Numbered(versions)
    ensures Numbered(Finish(versions, id, StageOf(reply), ContentOf(reply)))
    ensures Grows(versions, Finish(versions, id, StageOf(reply), ContentOf(reply)))
  {
  }

  /** One more event keeps the log truthful when it is, and its key is new. */
  lemma Logged(c: Chain, e: Entry)
    requires Truthful(c) && e.key !in Keys(c.events)
    requires e.kind.Completed? ==> c.linked && e.key == CompletionKey(e.kind.explanation)
                                   && Stands(c.versions, e.kind.explanation, e.kind.stage)
    requires e.kind.Requested? ==> c.linked
    ensures Truthful(c.(events := c.events + [e]))
  {
  }

  lemma RequestKeepsLog(c: Chain, added: Version, request: Request)
    requires Truthful(c) && Told(c) && c.linked && request.key !in Keys(c.events) && added.stage.Generating?
    ensures var d := Chain(true, c.versions + [added], c.events + [Entry(request.key, Requested(request.id))]);
            Truthful(d) && Told(d) && Requests(d.events) == Requests(c.events) + 1
  {
    var d := c.(versions := c.versions + [added]);
    assert Truthful(d) by {
      assert Grows(c.versions, d.versions);
      StandsKept(c.versions, d.versions);
    }
    assert Told(d);
    LogGrows(c.events, Entry(request.key, Requested(request.id)));
    Logged(d, Entry(request.key, Requested(request.id)));
  }

  /** An accepted retry adds the next version and its event, and was allowed to. */
  lemma RetryAdds(c: Chain, operator: string, request: Request)
    requires Numbered(c.versions) && RetryOutcome(c, operator, request).Applied?
    ensures c.linked && request.key !in Keys(c.events) && request.id !in Ids(c.versions)
    ensures !c.versions[|c.versions| - 1].stage.Generating?
    ensures Retried(c, operator, request) ==
            Chain(true, c.versions + [Version(request.id, |c.versions| + 1, Generating, None)],
                  c.events + [Entry(request.key, Requested(request.id))])
  {
    NumbersArePositions(c.versions);
  }

  lemma RetryKeepsSound(s: World, operator: string, request: Request)
    requires Sound(s)
    ensures Sound(s.(chain := Retried(s.chain, operator, request)))
    ensures Grows(s.chain.versions, Retried(s.chain, operator, request).versions)
  {
    if RetryOutcome(s.chain, operator, request).Applied? {
      RetryAdds(s.chain, operator, request);
      var added := Version(request.id, |s.chain.versions| + 1, Generating, None);
      Appended(s.chain.versions, request.id);
      IdsKept(s.chain.versions, s.chain.versions + [added]);
      RequestKeepsLog(s.chain, added, request);
    }
  }

  lemma SpendKeepsSound(s: World, key: string)
    requires Sound(s)
    ensures Sound(s.(chain := Spent(s.chain, key)))
  {
    if key !in Keys(s.chain.events) {
      LogGrows(s.chain.events, Entry(key, Unrelated));
      Logged(s.chain, Entry(key, Unrelated));
    }
  }

  lemma CommitKeepsLog(c: Chain, id: string, reply: GatewayReply)
    requires Numbered(c.versions) && Truthful(c) && Told(c) && id in Ids(c.versions)
    ensures Truthful(Committed(c, id, reply)) && Told(Committed(c, id, reply))
    ensures Requests(Committed(c, id, reply).events) == Requests(c.events)
  {
    var e := Entry(CompletionKey(id), Completed(id, StageOf(reply)));
    var d := c.(versions := Finish(c.versions, id, StageOf(reply), ContentOf(reply)));
    Finished(c.versions, id, reply);
    StandsKept(c.versions, d.versions);
    LogGrows(c.events, e);
    var i: nat :| i < |c.versions| && c.versions[i].id == id;
    if c.linked && e.key !in Keys(c.events) {
      assert c.versions[i].stage.Generating? && d.versions[i].stage == StageOf(reply);
      Logged(d, e);
    }
  }

  lemma CommitKeepsSound(s: World, w: nat, reply: GatewayReply)
    requires Sound(s)
    ensures Sound(Next(s, Commit(w, reply)))
    ensures Grows(s.chain.versions, Next(s, Commit(w, reply)).chain.versions)
  {
    if w < |s.workers| && s.workers[w].Some? {
      Finished(s.chain.versions, s.workers[w].value, reply);
      IdsKept(s.chain.versions, Committed(s.chain, s.workers[w].value, reply).versions);
      CommitKeepsLog(s.chain, s.workers[w].value, reply);
    }
  }

  lemma SoundKept(s: World, step: Step)
    requires Sound(s)
    ensures Sound(Next(s, step)) && Grows(s.chain.versions, Next(s, step).chain.versions)
  {
    match step
    case Ask(operator, request) => RetryKeepsSound(s, operator, request);
    case Spend(key) => SpendKeepsSound(s, key);
    case Commit(w, reply) => CommitKeepsSound(s, w, reply);
    case _ =>
  }

  lemma {:induction false} EveryChainIsSound(worlds: seq<World>, steps: seq<Step>, n: nat)
    requires Behaviour(worlds, steps) && n <= |steps|
    ensures Sound(worlds[n])
  {
    if n > 0 {
      EveryChainIsSound(worlds, steps, n - 1);
      SoundKept(worlds[n - 1], steps[n - 1]);
    }
  }

  // ----- over whole runs -----

  lemma {:induction false} VersionsOnlyGrow(worlds: seq<World>, steps: seq<Step>, i: nat, k: nat)
    requires Behaviour(worlds, steps) && i <= k <= |steps|
    ensures Grows(worlds[i].chain.versions, worlds[k].chain.versions)
    ensures worlds[k].chain.linked == worlds[0].chain.linked
    decreases k
  {
    if i < k {
      VersionsOnlyGrow(worlds, steps, i, k - 1);
      EveryChainIsSound(worlds, steps, k - 1);
      SoundKept(worlds[k - 1], steps[k - 1]);
    } else if 0 < k {
      VersionsOnlyGrow(worlds, steps, k - 1, k - 1);
      assert worlds[k] == Next(worlds[k - 1], steps[k - 1]);
    }
  }

  /** Whoever commits first decides: a completed version is the same for the rest of every run, whatever other
      workers that read it earlier still commit. */
  lemma FirstCommitStands(worlds: seq<World>, steps: seq<Step>, i: nat, k: nat, m: nat)
    requires Behaviour(worlds, steps) && i <= k <= |steps|
    requires m < |worlds[i].chain.versions| && !worlds[i].chain.versions[m].stage.Generating?
    ensures m < |worlds[k].chain.versions| && worlds[k].chain.versions[m] == worlds[i].chain.versions[m]
  {
    VersionsOnlyGrow(worlds, steps, i, k);
  }

  lemma {:induction false} KeysOnlyGrow(worlds: seq<World>, steps: seq<Step>, i: nat, k: nat)
    requires Behaviour(worlds, steps) && i <= k <= |steps|
    ensures Keys(worlds[i].chain.events) <= Keys(worlds[k].chain.events)
    decreases k
  {
    if i < k {
      KeysOnlyGrow(worlds, steps, i, k - 1);
      assert worlds[k] == Next(worlds[k - 1], steps[k - 1]);
      assert worlds[k - 1].chain.events <= worlds[k].chain.events;
      forall e | e in worlds[k - 1].chain.events ensures e in worlds[k].chain.events {
        var j :| 0 <= j < |worlds[k - 1].chain.events| && worlds[k - 1].chain.events[j] == e;
        assert worlds[k].chain.events[j] == e;
      }
    }
  }

  /** A retry that was accepted, or any other command that spent its key, makes every later retry under that key
      a no-op, whoever sends it and whatever has happened in between. */
  lemma RetryIsOnce(worlds: seq<World>, steps: seq<Step>, i: nat, k: nat, operator: string, request: Request)
    requires Behaviour(worlds, steps) && i < k < |steps| && steps[k] == Ask(operator, request)
    requires steps[i] == Spend(request.key)
             || (steps[i].Ask? && steps[i].request.key == request.key
                 && RetryOutcome(worlds[i].chain, steps[i].operator, steps[i].request).Applied?)
    ensures worlds[k + 1] == worlds[k]
  {
    var key := request.key;
    assert worlds[i + 1] == Next(worlds[i], steps[i]);
    if key !in Keys(worlds[i].chain.events) {
      LogGrows(worlds[i].chain.events, worlds[i + 1].chain.events[|worlds[i].chain.events|]);
      assert worlds[i + 1].chain.events ==
             worlds[i].chain.events + [worlds[i + 1].chain.events[|worlds[i].chain.events|]];
    }
    assert key in Keys(worlds[i + 1].chain.events);
    KeysOnlyGrow(worlds, steps, i + 1, k);
  }

  /** In every reachable state a retry is accepted exactly for a linked decision, from a supervisor or from the
      operator the row names, under a key no event has, when the last version is no longer generating. */
  lemma RetryAcceptedExactly(worlds: seq<World>, steps: seq<Step>, n: nat, operator: string, request: Request)
    requires Behaviour(worlds, steps) && n <= |steps| && request.id !in Ids(worlds[n].chain.versions)
    ensures var c := worlds[n].chain;
            |c.versions| > 0
            && (RetryOutcome(c, operator, request) == Applied <==>
                  && c.linked && !Blank(request.key)
                  && (request.role == Supervisor || (request.role == Operations && request.name == operator))
                  && (forall e :: e in c.events ==> e.key != request.key)
                  && c.versions[|c.versions| - 1].stage != Generating)
  {
    EveryChainIsSound(worlds, steps, n);
    NumbersArePositions(worlds[n].chain.versions);
    assert forall e :: e in worlds[n].chain.events ==> e.key in Keys(worlds[n].chain.events);
  }

  /** In every reachable state the versions are 1..n, only n may be generating, and there is one accepted retry
      for each version after the first. */
  lemma VersionsHaveNoGaps(worlds: seq<World>, steps: seq<Step>, n: nat, m: nat)
    requires Behaviour(worlds, steps) && n <= |steps| && m < |worlds[n].chain.versions|
    ensures worlds[n].chain.versions[m].number == m + 1
    ensures worlds[n].chain.versions[m].stage.Generating? ==> m + 1 == |worlds[n].chain.versions|
    ensures |worlds[n].chain.versions| == Requests(worlds[n].chain.events) + 1
  {
    EveryChainIsSound(worlds, steps, n);
  }

  /** A completion event with the stored status exists for a version exactly when the version is complete, its
      decision is linked, and no other command has spent the key; and there is never a second one. */
  lemma CompletionIsToldExactly(worlds: seq<World>, steps: seq<Step>, n: nat, m: nat)
    requires Behaviour(worlds, steps) && n <= |steps| && m < |worlds[n].chain.versions|
    ensures var c := worlds[n].chain; var v := c.versions[m];
            && (Entry("ai-complete:" + v.id, Completed(v.id, v.stage)) in c.events <==>
                  && !v.stage.Generating? && c.linked
                  && !exists e :: e in c.events && e.key == "ai-complete:" + v.id && !e.kind.Completed?)
            && forall e :: e in c.events && e.kind.Completed? && e.kind.explanation == v.id ==> e.kind.stage == v.stage
  {
    EveryChainIsSound(worlds, steps, n);
    TruthOf(worlds[n].chain, m);
  }

  lemma TruthOf(c: Chain, m: nat)
    requires Numbered(c.versions) && Truthful(c) && Told(c) && m < |c.versions|
    ensures var v := c.versions[m];
            && (Entry("ai-complete:" + v.id, Completed(v.id, v.stage)) in c.events <==>
                  && !v.stage.Generating? && c.linked
                  && !exists e :: e in c.events && e.key == "ai-complete:" + v.id && !e.kind.Completed?)
            && forall e :: e in c.events && e.kind.Completed? && e.kind.explanation == v.id ==> e.kind.stage == v.stage
  {
    var v := c.versions[m];
    if c.linked && !v.stage.Generating? {
      var e :| e in c.events && e.key == CompletionKey(v.id);
      if e.kind.Completed? {
        CompletionKeysDiffer(e.kind.explanation, v.id);
        assert e == Entry(CompletionKey(v.id), Completed(v.id, v.stage));
      }
    }
  }

  // ----- what the reader sees -----

  /** The number of the highest generated version, 0 while there is none. */
  function GeneratedNumber(versions: seq<Version>): nat {
    var highest := Highest(versions, IsGenerated);
    if highest.None? then 0 else versions[highest.value].number
  }

  /** The detail query: the latest version's content, else that of the highest generated version. */
  function Shown(versions: seq<Version>): Option<string> {
    var latest, previous := Highest(versions, Any), Highest(versions, IsGenerated);
    if latest.Some? && versions[latest.value].content.Some? then versions[latest.value].content
    else if previous.None? then None
    else versions[previous.value].content
  }

  lemma ShownByNumber(versions: seq<Version>)
    requires Numbered(versions)
    ensures Shown(versions).Some? <==> exists m :: 0 <= m < |versions| && versions[m].stage.Generated?
    ensures forall m | 0 <= m < |versions| && versions[m].stage.Generated? ::
              versions[m].number <= GeneratedNumber(versions)
              && (versions[m].number == GeneratedNumber(versions) ==> Shown(versions) == versions[m].content)
    ensures GeneratedNumber(versions) <= |versions|
    ensures Shown(versions).Some? <==> GeneratedNumber(versions) > 0
    ensures Shown(versions).Some? ==> versions[GeneratedNumber(versions) - 1].stage.Generated?
  {
    NumbersArePositions(versions);
    assert forall m :: 0 <= m < |versions| ==> (IsGenerated(versions[m]) <==> versions[m].stage.Generated?);
  }

  /** What is shown is the content of the generated version with the highest number and of no other; once there is
      one, some content is shown for the rest of every run, and it changes only when a version with a higher number
      has been generated. */
  lemma ShownIsNeverLost(worlds: seq<World>, steps: seq<Step>, i: nat, k: nat)
    requires Behaviour(worlds, steps) && i <= k <= |steps|
    ensures var now, later := worlds[i].chain.versions, worlds[k].chain.versions;
            && (Shown(now).Some? <==> exists m :: 0 <= m < |now| && now[m].stage.Generated?)
            && (forall m | 0 <= m < |now| && now[m].stage.Generated? ::
                  now[m].number <= GeneratedNumber(now)
                  && (now[m].number == GeneratedNumber(now) ==> Shown(now) == now[m].content))
            && GeneratedNumber(now) <= GeneratedNumber(later)
            && (Shown(now).Some? ==> Shown(later).Some?)
            && (GeneratedNumber(now) == GeneratedNumber(later) ==> Shown(later) == Shown(now))
  {
    EveryChainIsSound(worlds, steps, i);
    EveryChainIsSound(worlds, steps, k);
    VersionsOnlyGrow(worlds, steps, i, k);
    ShownGrows(worlds[i].chain.versions, worlds[k].chain.versions);
  }

  lemma ShownGrows(now: seq<Version>, later: seq<Version>)
    requires Numbered(now) && Numbered(later) && Grows(now, later)
    ensures Shown(now).Some? <==> exists m :: 0 <= m < |now| && now[m].stage.Generated?
    ensures forall m | 0 <= m < |now| && now[m].stage.Generated? ::
              now[m].number <= GeneratedNumber(now)
              && (now[m].number == GeneratedNumber(now) ==> Shown(now) == now[m].content)
    ensures GeneratedNumber(now) <= GeneratedNumber(later)
    ensures Shown(now).Some? ==> Shown(later).Some?
    ensures GeneratedNumber(now) == GeneratedNumber(later) ==> Shown(later) == Shown(now)
  {
    ShownByNumber(now);
    ShownByNumber(later);
    if Shown(now).Some? {
      var m := GeneratedNumber(now) - 1;
      assert later[m] == now[m];
    }
  }
}
