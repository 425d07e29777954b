/** The controller's state, and what each of its handlers does to it. A handler that raises yields None. */
module ControllerModel {
  import opened Arithmetic
  import opened Common

  // ---------- entities ----------

  datatype Rollout = Rollout(tag: nat, prompt: nat, version: int)

  datatype Status = Uninitialized | Ready | Running | Reduced

  datatype Command =
    | WeightResume
    | BuildMesh(ranks: map<nat, nat>)
    | PolicyBroadcast(src: nat, dsts: set<nat>, totalSteps: int)
    | PolicyUnicast(src: nat, dst: nat, totalSteps: int)
    | PolicyToRollout(src: nat, dst: nat, trainableOnly: bool, weightStep: Option<int>, lastStep: Option<int>)
    | RolloutBroadcast(src: nat, dsts: set<nat>, trainableOnly: bool, weightStep: Option<int>, lastStep: Option<int>)
    | DataFetch(items: nat, globalStep: int, totalSteps: int, remaining: int)

  /** A replica as the controller sees it, with everything published to it so far: the command stream, the
      rollouts, and how many fetches it has acknowledged. */
  datatype Replica = Replica(
    size: nat, atoms: set<nat>, start: Option<int>, status: Option<Status>, loaded: bool, rank: Option<nat>, ended: bool,
    stream: seq<Command>, received: seq<Rollout>, acks: nat)

  predicate Arrived(r: Replica) {
    |r.atoms| == r.size
  }

  type Group = map<nat, Replica>

  /** Per-replica batch size, staleness bound, step limit, weight-sync interval, dispatch by rank, on-policy. */
  datatype Config = Config(batch: nat, allowed: int, maxSteps: Option<int>, syncInterval: nat, byRank: bool, onPolicy: bool)

  predicate ValidConfig(c: Config) {
    0 < c.batch && 0 < c.syncInterval
  }

  /** For the record: all rollouts ever buffered, those of each step, those cleared at the end, and whether
      the extra last fetch was issued. */
  datatype Log = Log(buffered: seq<Rollout>, steps: seq<seq<Rollout>>, cleared: seq<Rollout>, faked: bool)

  datatype World = World(
    policies: Group, policyOrder: seq<nat>, policyInit: nat, policyReady: bool, resumed: bool,
    rollouts: Group, rolloutOrder: seq<nat>, rolloutInit: nat, rolloutReady: bool,
    step: int, total: int, remain: int, inFlight: int,
    queue: seq<Rollout>, rankQueues: seq<seq<Rollout>>, stepSampled: bool, log: Log)

  function NewReplica(size: nat, atom: nat): Replica {
    Replica(size, {atom}, None, None, false, None, false, [], [], 0)
  }

  // ---------- groups of replicas ----------

  function ArrivedIn(g: Group, order: seq<nat>): (ids: seq<nat>)
    ensures forall id :: id in ids <==> id in order && id in g && Arrived(g[id])
    ensures |ids| <= |order|
  {
    if order == [] then []
    else
      var front, last := ArrivedIn(g, order[..|order| - 1]), order[|order| - 1];
      if last in g && Arrived(g[last]) then front + [last] else front
  }

  function StartOf(g: Group, id: nat): int {
    if id in g && g[id].start.Some? then g[id].start.value else -1
  }

  function InsertByStart(g: Group, id: nat, s: seq<nat>): (t: seq<nat>)
    ensures |t| == |s| + 1 && forall x :: x in t <==> x == id || x in s
  {
    if s == [] || StartOf(g, id) < StartOf(g, s[0]) then [id] + s else [s[0]] + InsertByStart(g, id, s[1..])
  }

  /** Stable sorting by start time. */
  function SortByStart(g: Group, s: seq<nat>): (t: seq<nat>)
    ensures |t| == |s| && forall x :: x in t <==> x in s
  {
    if s == [] then [] else InsertByStart(g, s[|s| - 1], SortByStart(g, s[..|s| - 1]))
  }

  function Told(r: Replica, cmd: Command): Replica {
    r.(stream := r.stream + [cmd])
  }

  /** Publishes a command to some replicas. */
  function Tell(g: Group, ids: set<nat>, cmd: Command): (h: Group)
    ensures h.Keys == g.Keys && forall id :: id in g ==> h[id] == if id in ids then Told(g[id], cmd) else g[id]
  {
    map id | id in g :: if id in ids then Told(g[id], cmd) else g[id]
  }

  /** Publishes a command to some replicas and regards their weights as loaded. */
  function Load(g: Group, ids: set<nat>, cmd: Command): (h: Group)
    ensures h.Keys == g.Keys && forall id :: id in g ==> h[id] == if id in ids then Told(g[id], cmd).(loaded := true) else g[id]
  {
    map id | id in g :: if id in ids then Told(g[id], cmd).(loaded := true) else g[id]
  }

  function SetStatus(g: Group, ids: set<nat>, s: Status): (h: Group)
    ensures h.Keys == g.Keys && forall id :: id in g ==> h[id] == if id in ids then g[id].(status := Some(s)) else g[id]
  {
    map id | id in g :: if id in ids then g[id].(status := Some(s)) else g[id]
  }

  function IndexOf(s: seq<nat>, id: nat): (i: nat)
    requires id in s
    ensures i < |s| && s[i] == id && forall j :: 0 <= j < i ==> s[j] != id
  {
    if s[0] == id then 0 else 1 + IndexOf(s[1..], id)
  }

  /** The ranks of a mesh: positions in the list. */
  function MeshOf(order: seq<nat>): map<nat, nat> {
    map id | id in order :: IndexOf(order, id)
  }

  function InMesh(r: Replica, order: seq<nat>, id: nat): Replica
    requires id in order
  {
    Told(r, BuildMesh(MeshOf(order))).(rank := Some(IndexOf(order, id)))
  }

  /** Ranks the listed replicas in order and tells them. */
  function BuildMeshIn(g: Group, order: seq<nat>): (h: Group)
    ensures h.Keys == g.Keys && forall id :: id in g ==> h[id] == if id in order then InMesh(g[id], order, id) else g[id]
  {
    map id | id in g :: if id in order then InMesh(g[id], order, id) else g[id]
  }

  function FirstLoaded(g: Group, order: seq<nat>): (r: Option<nat>)
    ensures r.Some? ==> r.value in order && r.value in g && g[r.value].loaded
    ensures r.None? ==> forall id :: id in order && id in g ==> !g[id].loaded
  {
    if order == [] then None
    else if order[0] in g && g[order[0]].loaded then Some(order[0])
    else FirstLoaded(g, order[1..])
  }

  function ArrivedPolicies(w: World): seq<nat> {
    ArrivedIn(w.policies, w.policyOrder)
  }

  function ArrivedRollouts(w: World): seq<nat> {
    ArrivedIn(w.rollouts, w.rolloutOrder)
  }

  function AsSet(s: seq<nat>): (t: set<nat>)
    ensures forall x :: x in t <==> x in s
  {
    set x | x in s
  }

  // ---------- steps ----------

  predicate Finished(w: World) {
    w.step >= w.total && w.total > 0
  }

  function PerStep(c: Config, w: World): nat {
    c.batch * |ArrivedPolicies(w)|
  }

  function Recompute(c: Config, w: World, remaining: int): World {
    if Finished(w) || PerStep(c, w) == 0 then w
    else
      var byData := w.step + FloorDiv(remaining, PerStep(c, w));
      w.(total := if c.maxSteps.Some? then Min(byData, c.maxSteps.value) else byData)
  }

  function Pending(c: Config, w: World): nat {
    if c.byRank then QueuedIn(w.rankQueues) else |w.queue|
  }

  function QueuedIn(qs: seq<seq<Rollout>>): nat {
    if qs == [] then 0 else QueuedIn(qs[..|qs| - 1]) + |qs[|qs| - 1]|
  }

  predicate AllStatus(w: World, allowed: set<Status>) {
    forall id :: id in w.policies && w.policies[id].status.Some? ==> w.policies[id].status.value in allowed
  }

  predicate Enough(c: Config, w: World) {
    if c.byRank then forall i :: 0 <= i < |w.rankQueues| ==> |w.rankQueues[i]| >= c.batch
    else |w.queue| >= PerStep(c, w)
  }

  // ---------- dispatching ----------

  /** What the i-th of n replicas gets when k rounds are dealt from the front of a queue. */
  function Share(queue: seq<Rollout>, n: nat, k: nat, i: nat): seq<Rollout>
    requires i < n
  {
    if k == 0 || |queue| < n then [] else [queue[i]] + Share(queue[n..], n, k - 1, i)
  }

  function InsertByPrompt(x: Rollout, s: seq<Rollout>): (t: seq<Rollout>)
    ensures |t| == |s| + 1
  {
    if s == [] || x.prompt < s[0].prompt then [x] + s else [s[0]] + InsertByPrompt(x, s[1..])
  }

  /** Stable sorting by prompt index. */
  function SortByPrompt(s: seq<Rollout>): (t: seq<Rollout>)
    ensures |t| == |s|
  {
    if s == [] then [] else InsertByPrompt(s[|s| - 1], SortByPrompt(s[..|s| - 1]))
  }

  function Given(r: Replica, xs: seq<Rollout>): Replica {
    r.(received := r.received + xs)
  }

  function Deal(c: Config, g: Group, ids: seq<nat>, queue: seq<Rollout>): (h: Group)
    requires c.batch * |ids| <= |queue|
    ensures h.Keys == g.Keys
    ensures forall id :: id in g && id !in ids ==> h[id] == g[id]
    ensures forall id :: id in g && id in ids ==> h[id] == Given(g[id], Share(queue, |ids|, c.batch, IndexOf(ids, id)))
  {
    map id | id in g :: if id in ids then Given(g[id], Share(queue, |ids|, c.batch, IndexOf(ids, id))) else g[id]
  }

  /** The rank queues with the first n of them sorted by prompt. */
  function SortedQueues(qs: seq<seq<Rollout>>, n: nat): (ts: seq<seq<Rollout>>)
    requires n <= |qs|
    ensures |ts| == |qs| && forall i :: 0 <= i < |qs| ==> ts[i] == if i < n then SortByPrompt(qs[i]) else qs[i]
  {
    seq(|qs|, i requires 0 <= i < |qs| => if i < n then SortByPrompt(qs[i]) else qs[i])
  }

  /** The queues without their first k rollouts, for the first n of them. */
  function Served(qs: seq<seq<Rollout>>, n: nat, k: nat): (ts: seq<seq<Rollout>>)
    requires n <= |qs| && forall i :: 0 <= i < n ==> k <= |qs[i]|
    ensures |ts| == |qs| && forall i :: 0 <= i < |qs| ==> ts[i] == if i < n then qs[i][k..] else qs[i]
  {
    seq(|qs|, i requires 0 <= i < |qs| => if i < n then qs[i][k..] else qs[i])
  }

  function DealByRank(g: Group, ids: seq<nat>, qs: seq<seq<Rollout>>, k: nat): (h: Group)
    requires |ids| <= |qs| && forall i :: 0 <= i < |ids| ==> k <= |qs[i]|
    ensures h.Keys == g.Keys
    ensures forall id :: id in g && id !in ids ==> h[id] == g[id]
    ensures forall id :: id in g && id in ids ==> h[id] == Given(g[id], qs[IndexOf(ids, id)][..k])
  {
    map id | id in g :: if id in ids then Given(g[id], qs[IndexOf(ids, id)][..k]) else g[id]
  }

  /** The rollouts dealt by rank, in order. */
  function DealtByRank(qs: seq<seq<Rollout>>, n: nat, k: nat): seq<Rollout>
    requires n <= |qs| && forall i :: 0 <= i < n ==> k <= |qs[i]|
  {
    if n == 0 then [] else DealtByRank(qs, n - 1, k) + qs[n - 1][..k]
  }

  /** Deals the shared queue to the arrived replicas in rounds; the extra last step takes nothing. */
  function DispatchShared(c: Config, w: World, fake: bool): World
    requires fake || |w.queue| >= PerStep(c, w)
  {
    if fake then w.(log := w.log.(steps := w.log.steps + [[]]))
    else w.(policies := Deal(c, w.policies, ArrivedPolicies(w), w.queue), queue := w.queue[PerStep(c, w)..],
            log := w.log.(steps := w.log.steps + [w.queue[..PerStep(c, w)]]))
  }

  /** Serves each arrived replica, in order of start time, from the sorted queue of its rank. */
  function DispatchByRank(w: World, items: nat): World
    requires |ArrivedPolicies(w)| <= |w.rankQueues|
    requires forall i :: 0 <= i < |ArrivedPolicies(w)| ==> items <= |w.rankQueues[i]|
  {
    var ids := ArrivedPolicies(w);
    var qs := SortedQueues(w.rankQueues, |ids|);
    w.(policies := DealByRank(w.policies, SortByStart(w.policies, ids), qs, items), rankQueues := Served(qs, |ids|, items),
       log := w.log.(steps := w.log.steps + [DealtByRank(qs, |ids|, items)]))
  }

  /** Hands out the rollouts of one step. None when a rank has no queue. */
  function Dispatch(c: Config, w: World, fake: bool): Option<World>
    requires fake || Enough(c, w)
  {
    if !c.byRank then Some(DispatchShared(c, w, fake))
    else if |ArrivedPolicies(w)| > |w.rankQueues| then None
    else Some(DispatchByRank(w, if fake then 0 else c.batch))
  }

  /** Publishes the fetch of a step and sets the replicas running. */
  function Fetch(g: Group, ids: set<nat>, cmd: Command): (h: Group)
    ensures h.Keys == g.Keys
    ensures forall id :: id in g ==> h[id] == if id in ids then Told(g[id], cmd).(status := Some(Running)) else g[id]
  {
    SetStatus(Tell(g, ids, cmd), ids, Running)
  }

  /** The command of the next step. */
  function FetchOf(c: Config, w: World, fake: bool): Command {
    DataFetch(if fake then 0 else c.batch, w.step + 1, w.total, w.remain - (if fake then 0 else PerStep(c, w)))
  }

  /** Announces the step dispatched from w to its arrived replicas. */
  function Launch(c: Config, w: World, d: World, fake: bool): World {
    d.(policies := Fetch(d.policies, AsSet(ArrivedPolicies(w)), FetchOf(c, w, fake)), step := w.step + 1,
       remain := w.remain - (if fake then 0 else PerStep(c, w)), log := d.log.(faked := w.log.faked || fake))
  }

  /** Whether the next step starts: all are ready and the rollouts suffice, or it is the extra one. */
  predicate Triggers(c: Config, w: World, fake: bool) {
    && ArrivedPolicies(w) != [] && !Finished(w)
    && (fake || (AllStatus(w, {Ready, Reduced}) && Enough(c, w)))
  }

  function TryTrigger(c: Config, w: World, fake: bool): Option<World> {
    if !Triggers(c, w, fake) then Some(w)
    else if fake && w.step + 1 != w.total then None
    else
      match Dispatch(c, w, fake)
      case None => None
      case Some(d) => Some(Launch(c, w, d, fake))
  }

  // ---------- rollouts coming in ----------

  function Buffer(c: Config, w: World, x: Rollout): Option<World> {
    var log := w.log.(buffered := w.log.buffered + [x]);
    if !c.byRank then Some(w.(queue := w.queue + [x], log := log))
    else if w.rankQueues == [] then None
    else
      var i := x.prompt % |w.rankQueues|;
      Some(w.(rankQueues := w.rankQueues[i := w.rankQueues[i] + [x]], log := log))
  }

  function PutRollout(c: Config, w: World, x: Rollout): Option<World> {
    match Buffer(c, w, x)
    case None => None
    case Some(b) => TryTrigger(c, b, false)
  }

  /** Puts rollouts one by one; on-policy, stops as soon as a step has used them all up. */
  function PutEach(c: Config, w: World, xs: seq<Rollout>): Option<World>
    decreases |xs|
  {
    if xs == [] then Some(w)
    else
      match PutRollout(c, w, xs[0])
      case None => None
      case Some(p) =>
        if c.onPolicy && Pending(c, p) == 0 then Some(p.(stepSampled := true)) else PutEach(c, p, xs[1..])
  }

  function PutRollouts(c: Config, w: World, xs: seq<Rollout>): Option<World> {
    if c.onPolicy && w.stepSampled then Some(w.(remain := w.remain - |xs|)) else PutEach(c, w, xs)
  }

  /** The step at which a rollout with this many ahead of it is expected to be used, less one. */
  function EstimatedStep(c: Config, w: World, ahead: nat): int
    requires ValidConfig(c)
  {
    w.step + FloorDiv(ahead, c.batch * Max(|ArrivedPolicies(w)|, 1))
  }

  predicate Fresh(c: Config, w: World, i: nat, x: Rollout)
    requires ValidConfig(c)
  {
    EstimatedStep(c, w, i + Pending(c, w)) - x.version <= c.allowed
  }

  function FreshOnes(c: Config, w: World, xs: seq<Rollout>): seq<Rollout>
    requires ValidConfig(c)
  {
    if xs == [] then []
    else
      var front, last := FreshOnes(c, w, xs[..|xs| - 1]), xs[|xs| - 1];
      if Fresh(c, w, |xs| - 1, last) then front + [last] else front
  }

  predicate VersionsKnown(w: World, xs: seq<Rollout>) {
    forall i :: 0 <= i < |xs| ==> xs[i].version <= w.step
  }

  /** A group of rollouts arrives: the outdated ones are dropped, the others buffered. */
  function PutGroup(c: Config, w: World, xs: seq<Rollout>): Option<World>
    requires ValidConfig(c)
  {
    if !VersionsKnown(w, xs) then None
    else
      var kept := FreshOnes(c, w, xs);
      PutRollouts(c, w.(remain := w.remain - (|xs| - |kept|)), kept)
  }

  // ---------- weights ----------

  function SendPolicyToRollout(w: World, src: nat, dst: nat, weightStep: Option<int>, lastStep: Option<int>): (v: World)
    requires dst in w.rollouts
    ensures v.policies.Keys == w.policies.Keys && v.rollouts.Keys == w.rollouts.Keys
  {
    var cmd := PolicyToRollout(src, dst, w.rollouts[dst].loaded, weightStep, lastStep);
    w.(policies := Tell(w.policies, {src}, cmd), rollouts := Load(w.rollouts, {dst}, cmd))
  }

  function MeshMembers(g: Group, ids: set<nat>): (t: set<nat>)
    ensures forall id :: id in t <==> id in ids && id in g && g[id].rank.Some?
  {
    set id | id in ids && id in g && g[id].rank.Some?
  }

  predicate AllLoaded(g: Group, ids: set<nat>) {
    forall id :: id in ids && id in g ==> g[id].loaded
  }

  function BroadcastToRollouts(w: World, src: nat, dsts: set<nat>, weightStep: Option<int>, lastStep: Option<int>): (v: World)
    requires src in w.rollouts
    ensures v.policies.Keys == w.policies.Keys && v.rollouts.Keys == w.rollouts.Keys
  {
    if w.rollouts[src].rank.None? then w
    else
      var cmd := RolloutBroadcast(src, dsts, AllLoaded(w.rollouts, dsts), weightStep, lastStep);
      w.(rollouts := Load(w.rollouts, MeshMembers(w.rollouts, dsts), cmd))
  }

  /** Sends the policy's weights to the first rollout replica, and from there to all. */
  function SyncWeights(w: World, src: nat, step: int, lastStep: int): World {
    var ids := SortByStart(w.rollouts, ArrivedRollouts(w));
    if ids == [] then w
    else
      var s := SendPolicyToRollout(w, src, ids[0], Some(step), Some(lastStep));
      BroadcastToRollouts(s, ids[0], AsSet(ids), Some(step), Some(lastStep))
  }

  function Acked(w: World, id: nat): World
    requires id in w.policies
  {
    w.(policies := w.policies[id := w.policies[id].(status := Some(Reduced), acks := w.policies[id].acks + 1)])
  }

  /** All replicas are ready again and the step's samples are accounted for. */
  function StepDone(c: Config, w: World): World {
    w.(inFlight := w.inFlight - PerStep(c, w), policies := SetStatus(w.policies, AsSet(ArrivedPolicies(w)), Ready))
  }

  function SyncIfDue(c: Config, w: World, step: int, lastStep: int): World
    requires ValidConfig(c)
  {
    var ids := SortByStart(w.policies, ArrivedPolicies(w));
    if ids != [] && (step % c.syncInterval == 0 || step == lastStep) then SyncWeights(w, ids[0], step, lastStep) else w
  }

  /** A replica reports a step done. The last one to do so triggers the weight sync and the next step. */
  function TrainAck(c: Config, w: World, id: nat, step: int, lastStep: int): Option<World>
    requires ValidConfig(c)
  {
    if id !in w.policies || w.policies[id].status.None? then None
    else
      var a := Acked(w, id);
      if !AllStatus(a, {Reduced}) then Some(a)
      else if a.inFlight < PerStep(c, a) then None
      else
        match TryTrigger(c, SyncIfDue(c, StepDone(c, a), step, lastStep), false)
        case None => None
        case Some(t) => Some(if c.onPolicy then t.(stepSampled := false) else t)
  }

  // ---------- the end ----------

  predicate AllEnded(w: World) {
    forall id :: id in w.rollouts ==> w.rollouts[id].ended
  }

  function MarkEnded(w: World, id: nat): World {
    if id in w.rollouts then w.(rollouts := w.rollouts[id := w.rollouts[id].(ended := true)]) else w
  }

  /** The shared queue is cleared and the next step becomes the last. */
  function Curtailed(w: World): World {
    w.(queue := [], total := w.step + 1, log := w.log.(cleared := w.log.cleared + w.queue))
  }

  /** All rollouts have ended: the number of steps follows from what is pending; if nothing more can be
      trained an extra fetch tells the policies to stop. */
  function Conclude(c: Config, w: World): Option<World> {
    var t := Recompute(c, w, Pending(c, w));
    if t.total > t.step || t.step == w.total then Some(t) else TryTrigger(c, Curtailed(t), true)
  }

  /** A rollout replica has run out of prompts. */
  function RolloutEnd(c: Config, w: World, id: nat): Option<World> {
    var e := MarkEnded(w, id);
    if AllEnded(e) then Conclude(c, e) else Some(e)
  }

  // ---------- replicas coming and going ----------

  /** Adds an atom of a replica; a repeated atom or a different group size raises. */
  function Enrol(g: Group, id: nat, atom: nat, size: nat): (h: Option<Group>)
    ensures h.Some? ==> id in h.value
  {
    if id !in g then Some(g[id := NewReplica(size, atom)])
    else if atom in g[id].atoms || g[id].size != size then None
    else Some(g[id := g[id].(atoms := g[id].atoms + {atom})])
  }

  function Stamp(g: Group, id: nat, now: int): Group
    requires id in g
  {
    if g[id].start.None? then g[id := g[id].(start := Some(now))] else g
  }

  function Slotted(qs: seq<seq<Rollout>>, xs: seq<Rollout>): (ts: seq<seq<Rollout>>)
    requires qs != []
    ensures |ts| == |qs|
  {
    if xs == [] then qs
    else
      var front, last := Slotted(qs, xs[..|xs| - 1]), xs[|xs| - 1];
      front[last.prompt % |qs| := front[last.prompt % |qs|] + [last]]
  }

  function Rearranged(qs: seq<seq<Rollout>>, n: nat): (ts: seq<seq<Rollout>>)
    requires 0 < n
    ensures |ts| == n
  {
    if qs == [] then seq(n, i => []) else Slotted(Rearranged(qs[..|qs| - 1], n), qs[|qs| - 1])
  }

  /** Ranks the arrived policy replicas anew, recomputes the steps and redistributes the rank queues. */
  function RebuildPolicyMesh(c: Config, w: World): World {
    var ids := SortByStart(w.policies, ArrivedPolicies(w));
    var m := w.(policies := BuildMeshIn(w.policies, ids));
    var t := Recompute(c, m, m.remain);
    if c.byRank && ids != [] then t.(rankQueues := Rearranged(t.rankQueues, |ids|)) else t
  }

  function RebuildRolloutMesh(w: World): World {
    w.(rollouts := BuildMeshIn(w.rollouts, SortByStart(w.rollouts, ArrivedRollouts(w))))
  }

  /** The first policy replica to arrive resumes the weights and hands them to the rollouts already there. */
  function FirstPolicyArrives(w: World, id: nat): (v: World)
    ensures v.policies.Keys == w.policies.Keys
  {
    var r := w.(resumed := true, policies := Load(w.policies, {id}, WeightResume));
    var ids := SortByStart(r.rollouts, ArrivedRollouts(r));
    if ids == [] then r
    else
      var s := SendPolicyToRollout(r, id, ids[0], None, None);
      if |ids| >= r.rolloutInit then BroadcastToRollouts(s, ids[0], AsSet(ids), Some(s.step), None) else s
  }

  /** Initialises all policy replicas once enough have arrived; later ones join the mesh one by one. */
  function AfterPolicyArrives(c: Config, w: World, id: nat): Option<World>
    requires id in w.policies
  {
    var ids := SortByStart(w.policies, ArrivedPolicies(w));
    if !w.policyReady && |ids| >= w.policyInit then
      var m := RebuildPolicyMesh(c, w.(policyReady := true));
      if |ids| > 1 then
        match FirstLoaded(m.policies, ids)
        case None => None
        case Some(src) =>
          var cmd := PolicyBroadcast(src, AsSet(ids), m.total);
          Some(m.(policies := SetStatus(Load(m.policies, AsSet(ids), cmd), AsSet(ids), Ready)))
      else
        Some(m.(policies := SetStatus(m.policies, AsSet(ids), Ready)))
    else if !w.policyReady then
      Some(w)
    else if w.policies[id].rank.Some? then
      None
    else
      match FirstLoaded(w.policies, ids)
      case None => None
      case Some(src) =>
        var m := RebuildPolicyMesh(c, w);
        var cmd := PolicyUnicast(src, id, m.total);
        Some(m.(policies := SetStatus(Load(Tell(m.policies, {src}, cmd), {id}, cmd), {id}, Ready)))
  }

  /** All atoms of a policy replica are there. */
  function PolicyArrives(c: Config, w: World, id: nat, now: int): Option<World>
    requires id in w.policies
  {
    if w.policies[id].status.Some? then None
    else
      var s := w.(policies := SetStatus(Stamp(w.policies, id, now), {id}, Uninitialized));
      if |ArrivedPolicies(s)| != 1 then AfterPolicyArrives(c, s, id)
      else if s.resumed then None
      else AfterPolicyArrives(c, FirstPolicyArrives(s, id), id)
  }

  function EnrolPolicy(w: World, id: nat, g: Group): World {
    w.(policies := g, policyOrder := if id in w.policies then w.policyOrder else w.policyOrder + [id],
       policyInit := if w.policyReady then w.policyInit else Max(|g|, w.policyInit))
  }

  /** An atom of a policy replica registers. */
  function RegisterPolicy(c: Config, w: World, id: nat, atom: nat, size: nat, now: int): Option<World> {
    match Enrol(w.policies, id, atom, size)
    case None => None
    case Some(g) => if Arrived(g[id]) then PolicyArrives(c, EnrolPolicy(w, id, g), id, now) else Some(EnrolPolicy(w, id, g))
  }

  function Without(order: seq<nat>, id: nat): (t: seq<nat>)
    ensures forall x :: x in t <==> x in order && x != id
  {
    if order == [] then []
    else if order[|order| - 1] == id then Without(order[..|order| - 1], id)
    else Without(order[..|order| - 1], id) + [order[|order| - 1]]
  }

  /** A policy replica leaves, or is found dead. */
  function UnregisterPolicy(c: Config, w: World, id: nat): Option<World> {
    if id !in w.policies || w.policies[id].status.None? then None
    else
      var u := w.(policies := w.policies - {id}, policyOrder := Without(w.policyOrder, id));
      if Finished(u) || w.policies[id].rank.None? || ArrivedPolicies(u) == [] then Some(u)
      else Some(RebuildPolicyMesh(c, u))
  }

  /** A rollout replica that has arrived gets its weights from a policy, if no rollout has any yet. */
  function GreetRollout(w: World, id: nat): World
    requires id in w.rollouts
  {
    var src := FirstLoaded(w.policies, SortByStart(w.policies, w.policyOrder));
    if src.Some? && (forall r :: r in ArrivedRollouts(w) && r in w.rollouts ==> !w.rollouts[r].loaded)
    then SendPolicyToRollout(w, src.value, id, None, None)
    else w
  }

  /** All initial rollout replicas are there: they form the mesh and share the weights. */
  function InitRollouts(w: World): World {
    var m, ids := RebuildRolloutMesh(w.(rolloutReady := true)), SortByStart(w.rollouts, ArrivedRollouts(w));
    match FirstLoaded(m.rollouts, ids)
    case None => m
    case Some(first) => BroadcastToRollouts(m, first, AsSet(ids), Some(m.step), None)
  }

  function AfterRolloutArrives(w: World, id: nat): Option<World>
    requires id in w.rollouts
  {
    var p := GreetRollout(w, id);
    if p.rolloutReady then Some(RebuildRolloutMesh(p))
    else if |ArrivedRollouts(p)| == p.rolloutInit then Some(InitRollouts(p))
    else if |ArrivedRollouts(p)| < p.rolloutInit then Some(p)
    else None
  }

  function EnrolRollout(w: World, id: nat, g: Group): World {
    w.(rollouts := g, rolloutOrder := if id in w.rollouts then w.rolloutOrder else w.rolloutOrder + [id],
       rolloutInit := if w.rolloutReady then w.rolloutInit else Max(|g|, w.rolloutInit))
  }

  /** All atoms of a rollout replica are there. */
  function RolloutArrives(w: World, id: nat, now: int): Option<World>
    requires id in w.rollouts
  {
    AfterRolloutArrives(w.(rollouts := Stamp(w.rollouts, id, now)), id)
  }

  /** An atom of a rollout replica registers. */
  function RegisterRollout(w: World, id: nat, atom: nat, size: nat, now: int): Option<World> {
    match Enrol(w.rollouts, id, atom, size)
    case None => None
    case Some(g) => if Arrived(g[id]) then RolloutArrives(EnrolRollout(w, id, g), id, now) else Some(EnrolRollout(w, id, g))
  }

  function UnregisterRollout(w: World, id: nat): Option<World> {
    if id !in w.rollouts then None
    else
      var u := w.(rollouts := w.rollouts - {id}, rolloutOrder := Without(w.rolloutOrder, id));
      if Finished(u) || w.rollouts[id].rank.None? || |u.rollouts| == 0 then Some(u)
      else Some(RebuildRolloutMesh(u))
  }

  // ---------- runs ----------

  datatype Event =
    | PolicyAtom(id: nat, atom: nat, size: nat, now: int)
    | PolicyGone(id: nat)
    | RolloutAtom(id: nat, atom: nat, size: nat, now: int)
    | RolloutGone(id: nat)
    | PromptsOut(samples: nat)
    | GroupIn(xs: seq<Rollout>)
    | AckIn(id: nat, step: int, lastStep: int)
    | EndIn(id: nat)

  function After(c: Config, w: World, e: Event): Option<World>
    requires ValidConfig(c)
  {
    match e
    case PolicyAtom(id, atom, size, now) => RegisterPolicy(c, w, id, atom, size, now)
    case PolicyGone(id) => UnregisterPolicy(c, w, id)
    case RolloutAtom(id, atom, size, now) => RegisterRollout(w, id, atom, size, now)
    case RolloutGone(id) => UnregisterRollout(w, id)
    case PromptsOut(samples) => Some(w.(inFlight := w.inFlight + samples))
    case GroupIn(xs) => PutGroup(c, w, xs)
    case AckIn(id, step, lastStep) => TrainAck(c, w, id, step, lastStep)
    case EndIn(id) => RolloutEnd(c, w, id)
  }

  /** No handler raises. */
  ghost predicate CanRun(c: Config, w: World, events: seq<Event>)
    requires ValidConfig(c)
    decreases |events|
  {
    events == [] || (After(c, w, events[0]).Some? && CanRun(c, After(c, w, events[0]).value, events[1..]))
  }

  ghost function Run(c: Config, w: World, events: seq<Event>): World
    requires ValidConfig(c) && CanRun(c, w, events)
    decreases |events|
  {
    if events == [] then w else Run(c, After(c, w, events[0]).value, events[1..])
  }

  function Opening(policyInit: nat, rolloutInit: nat, step: int, remain: int): World {
    World(map[], [], policyInit, false, false, map[], [], rolloutInit, false, step, 0, remain, 0, [], [], false, Log([], [], [], false))
  }
}
