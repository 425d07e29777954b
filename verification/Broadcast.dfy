/** Broadcasting commands to all ranks over a shared key-value store, with the keys of finished rounds removed. */
module Broadcast {

  datatype Key = Cmd(round: int) | Done(round: int, rank: nat)

  datatype Value = Packed(command: string) | Ack

  /** Where a rank stands in its current call: before its first store access, about to read the command, about
      to acknowledge, waiting for one acknowledgement after the other, and (the source only) removing the keys
      of the round before. */
  datatype Phase = Idle | Reading | Marking | Waiting(next: nat) | DroppingCmd | DroppingDone(next: nat)

  datatype Rank = Rank(counter: nat, phase: Phase, got: string, returned: seq<string>)

  /** The store, the ranks, and (for the record) every key ever removed. */
  datatype State = State(store: map<Key, Value>, ranks: seq<Rank>, removed: set<Key>)

  /** The source rank, the number of ranks, and the commands the source broadcasts, in order. */
  datatype Setting = Setting(src: nat, n: nat, commands: seq<string>)

  predicate ValidSetting(g: Setting) {
    2 <= g.n && g.src < g.n
  }

  function Start(g: Setting): State {
    State(map[], seq(g.n, i => Rank(0, Idle, "", [])), {})
  }

  /** The key a rank waits for or reads next, if any. */
  function Awaited(g: Setting, s: State, r: nat): set<Key>
    requires r < |s.ranks|
  {
    var me := s.ranks[r];
    match me.phase
    case Idle => if r == g.src then {} else {Cmd(me.counter)}
    case Reading => {Cmd(me.counter)}
    case Waiting(i) => if i < g.n then {Done(me.counter, i)} else {}
    case _ => {}
  }

  /** A rank can step when what it waits for is there; the source starts a round when it has a command. */
  predicate Enabled(g: Setting, s: State, r: nat) {
    && r < |s.ranks| && Awaited(g, s, r) <= s.store.Keys
    && (Starts(g, s, r) ==> s.ranks[r].counter < |g.commands|)
  }

  predicate Starts(g: Setting, s: State, r: nat)
    requires r < |s.ranks|
  {
    r == g.src && s.ranks[r].phase == Idle
  }

  function Finished(me: Rank): Rank {
    Rank(me.counter + 1, Idle, me.got, me.returned + [me.got])
  }

  function Acked(store: map<Key, Value>, round: int, r: nat): map<Key, Value> {
    store[Done(round, r) := Ack]
  }

  /** What rank r's next step does to the rank itself. */
  function RankAfter(g: Setting, s: State, r: nat): Rank
    requires Enabled(g, s, r)
  {
    var me := s.ranks[r];
    match me.phase
    case Idle => me.(phase := Reading)
    case Reading =>
      var v := s.store[Cmd(me.counter)];
      me.(phase := Marking, got := if v.Packed? then v.command else "")
    case Marking => me.(phase := Waiting(0))
    case Waiting(i) =>
      if i < g.n then me.(phase := Waiting(i + 1))
      else if r == g.src then me.(phase := DroppingCmd)
      else Finished(me)
    case DroppingCmd => me.(phase := DroppingDone(0))
    case DroppingDone(i) => if i < g.n then me.(phase := DroppingDone(i + 1)) else Finished(me)
  }

  /** The keys rank r's next step removes. */
  function Removes(g: Setting, s: State, r: nat): set<Key>
    requires r < |s.ranks|
  {
    var me := s.ranks[r];
    match me.phase
    case DroppingCmd => {Cmd(me.counter - 1)}
    case DroppingDone(i) => if i < g.n then {Done(me.counter - 1, i)} else {}
    case _ => {}
  }

  function After(g: Setting, s: State, r: nat): State
    requires Enabled(g, s, r)
  {
    var me := s.ranks[r];
    var store :=
      if Starts(g, s, r) then s.store[Cmd(me.counter) := Packed(g.commands[me.counter])]
      else if me.phase == Marking then Acked(s.store, me.counter, r)
      else s.store - Removes(g, s, r);
    State(store, s.ranks[r := RankAfter(g, s, r)], s.removed + Removes(g, s, r))
  }

  ghost predicate CanRun(g: Setting, s: State, schedule: seq<nat>)
    decreases |schedule|
  {
    schedule == [] || (Enabled(g, s, schedule[0]) && CanRun(g, After(g, s, schedule[0]), schedule[1..]))
  }

  /** Any interleaving of the ranks' steps. */
  ghost function Run(g: Setting, s: State, schedule: seq<nat>): State
    requires CanRun(g, s, schedule)
    decreases |schedule|
  {
    if schedule == [] then s else Run(g, After(g, s, schedule[0]), schedule[1..])
  }

  ghost predicate Reaches(g: Setting, schedule: seq<nat>, s: State) {
    CanRun(g, Start(g), schedule) && s == Run(g, Start(g), schedule)
  }

  // ---------- the invariant ----------

  /** Has acknowledged the command of a round. */
  predicate Marked(me: Rank, round: int) {
    me.counter > round ||
    (me.counter == round && (me.phase.Waiting? || me.phase.DroppingCmd? || me.phase.DroppingDone?))
  }

  predicate AllMarked(ranks: seq<Rank>, round: int) {
    forall i :: 0 <= i < |ranks| ==> Marked(ranks[i], round)
  }

  predicate Dropping(phase: Phase) {
    phase.DroppingCmd? || phase.DroppingDone?
  }

  /** The keys removed so far when the source stands at this round and phase. */
  predicate Gone(round: int, phase: Phase, key: Key) {
    || key.round < round - 1
    || (key.round == round - 1 && phase.DroppingDone? && (key.Done? ==> key.rank < phase.next))
  }

  /** The keys set so far. */
  predicate WasSet(g: Setting, ranks: seq<Rank>, key: Key)
    requires g.src < |ranks|
  {
    match key
    case Cmd(k) => 0 <= k && (k < ranks[g.src].counter || (k == ranks[g.src].counter && ranks[g.src].phase != Idle))
    case Done(k, i) => 0 <= k && i < |ranks| && Marked(ranks[i], k)
  }

  /** Exactly the keys set and not yet removed are there, with the command of their round. */
  ghost predicate StoreOk(g: Setting, s: State)
    requires g.src < |s.ranks|
  {
    var at := s.ranks[g.src];
    && (forall key :: key in s.store <==> WasSet(g, s.ranks, key) && !Gone(at.counter, at.phase, key))
    && (forall k :: Cmd(k) in s.store ==> 0 <= k < |g.commands| && s.store[Cmd(k)] == Packed(g.commands[k]))
    && (forall key :: key in s.removed ==> Gone(at.counter, at.phase, key))
  }

  /** A rank is in the source's round, or still waiting at the end of the one before, or done with it. */
  predicate InStep(g: Setting, ranks: seq<Rank>, r: nat)
    requires g.src < |ranks| && r < |ranks|
  {
    var at, me := ranks[g.src], ranks[r];
    && at.counter - 1 <= me.counter <= at.counter + 1
    && (me.counter == at.counter - 1 ==> me.phase.Waiting?)
    && (me.counter == at.counter && me.phase != Idle ==> at.phase != Idle)
    && (me.counter == at.counter + 1 ==> me.phase == Idle && AllMarked(ranks, at.counter))
  }

  predicate PhaseOk(g: Setting, ranks: seq<Rank>, r: nat)
    requires r < |ranks|
  {
    var me := ranks[r];
    && (Dropping(me.phase) ==> r == g.src && AllMarked(ranks, me.counter))
    && (me.phase.DroppingDone? ==> me.phase.next <= g.n)
    && (me.phase.Waiting? ==> me.phase.next <= g.n && forall i :: 0 <= i < me.phase.next && i < |ranks| ==> Marked(ranks[i], me.counter))
  }

  /** A rank has returned exactly the commands of its finished rounds, and holds that of its current one. */
  predicate CommandsOk(g: Setting, me: Rank) {
    && me.counter <= |g.commands| && me.returned == g.commands[..me.counter]
    && (me.phase != Idle ==> me.counter < |g.commands|)
    && (me.phase != Idle && me.phase != Reading ==> me.got == g.commands[me.counter])
  }

  predicate RankOk(g: Setting, ranks: seq<Rank>, r: nat)
    requires g.src < |ranks| && r < |ranks|
  {
    InStep(g, ranks, r) && PhaseOk(g, ranks, r) && CommandsOk(g, ranks[r])
  }

  ghost predicate Inv(g: Setting, s: State) {
    && ValidSetting(g) && |s.ranks| == g.n
    && (forall r :: 0 <= r < g.n ==> RankOk(g, s.ranks, r))
    && StoreOk(g, s)
  }

  lemma StartInv(g: Setting)
    requires ValidSetting(g)
    ensures Inv(g, Start(g))
  {
  }

  /** What a rank waits for is never a removed key, and what it reads is there. */
  lemma AwaitedNotGone(g: Setting, s: State, r: nat, key: Key)
    requires Inv(g, s) && r < g.n && key in Awaited(g, s, r)
    ensures key !in s.removed && (s.ranks[r].phase == Reading ==> key in s.store)
  {
    var at, me := s.ranks[g.src], s.ranks[r];
    assert RankOk(g, s.ranks, r) && RankOk(g, s.ranks, g.src);
    if me.counter == at.counter - 1 && Dropping(at.phase) {
      assert false;
    }
  }

  // ---------- every step keeps it ----------

  lemma MarkedGrows(g: Setting, s: State, r: nat, i: nat, round: int)
    requires Inv(g, s) && Enabled(g, s, r) && i < g.n && Marked(s.ranks[i], round)
    ensures Marked(After(g, s, r).ranks[i], round)
  {
    assert RankOk(g, s.ranks, r);
  }

  lemma RanksKept(g: Setting, s: State, r: nat, i: nat)
    requires Inv(g, s) && Enabled(g, s, r) && i < g.n
    ensures RankOk(g, After(g, s, r).ranks, i)
  {
    var ranks, next := s.ranks, After(g, s, r).ranks;
    assert RankOk(g, ranks, i) && RankOk(g, ranks, r) && RankOk(g, ranks, g.src);
    forall j: nat, round | j < g.n && Marked(ranks[j], round)
      ensures Marked(next[j], round)
    {
      MarkedGrows(g, s, r, j, round);
    }
    CommandsKept(g, s, r, i);
    PhaseKept(g, s, r, i);
    InStepKept(g, s, r, i);
  }

  lemma CommandsKept(g: Setting, s: State, r: nat, i: nat)
    requires Inv(g, s) && Enabled(g, s, r) && i < g.n
    ensures CommandsOk(g, After(g, s, r).ranks[i])
  {
    var me := s.ranks[r];
    assert RankOk(g, s.ranks, i) && RankOk(g, s.ranks, r);
    if i == r && me.phase == Idle && r != g.src {
      assert Cmd(me.counter) in s.store;
    }
  }

  lemma PhaseKept(g: Setting, s: State, r: nat, i: nat)
    requires Inv(g, s) && Enabled(g, s, r) && i < g.n
    requires forall j: nat, round :: j < g.n && Marked(s.ranks[j], round) ==> Marked(After(g, s, r).ranks[j], round)
    ensures PhaseOk(g, After(g, s, r).ranks, i)
  {
    assert RankOk(g, s.ranks, i) && RankOk(g, s.ranks, r);
    if i == r && s.ranks[r].phase.Waiting? && s.ranks[r].phase.next < g.n {
      assert Done(s.ranks[r].counter, s.ranks[r].phase.next) in s.store;
    }
  }

  lemma InStepKept(g: Setting, s: State, r: nat, i: nat)
    requires Inv(g, s) && Enabled(g, s, r) && i < g.n
    requires forall j: nat, round :: j < g.n && Marked(s.ranks[j], round) ==> Marked(After(g, s, r).ranks[j], round)
    ensures InStep(g, After(g, s, r).ranks, i)
  {
    var ranks := s.ranks;
    assert RankOk(g, ranks, i) && RankOk(g, ranks, r) && RankOk(g, ranks, g.src);
    if r == g.src && ranks[r].phase.DroppingDone? {
      assert Marked(ranks[i], ranks[r].counter);
    }
    if r != g.src && ranks[r].phase == Idle {
      assert Cmd(ranks[r].counter) in s.store;
    }
  }

  lemma StoreKept(g: Setting, s: State, r: nat)
    requires Inv(g, s) && Enabled(g, s, r)
    ensures StoreOk(g, After(g, s, r))
  {
    var at, me := s.ranks[g.src], s.ranks[r];
    assert RankOk(g, s.ranks, r) && RankOk(g, s.ranks, g.src);
    forall i: nat | i < g.n
      ensures RankOk(g, s.ranks, i)
    {
    }
    var t := After(g, s, r);
    forall key
      ensures key in t.store <==> WasSet(g, t.ranks, key) && !Gone(t.ranks[g.src].counter, t.ranks[g.src].phase, key)
    {
      KeyKept(g, s, r, key);
    }
  }

  lemma KeyKept(g: Setting, s: State, r: nat, key: Key)
    requires Inv(g, s) && Enabled(g, s, r)
    ensures var t := After(g, s, r);
            key in t.store <==> WasSet(g, t.ranks, key) && !Gone(t.ranks[g.src].counter, t.ranks[g.src].phase, key)
  {
    var at, me := s.ranks[g.src], s.ranks[r];
    assert RankOk(g, s.ranks, r) && RankOk(g, s.ranks, g.src);
    if key.Done? && key.rank < g.n {
      assert RankOk(g, s.ranks, key.rank);
    }
  }

  lemma StepKeepsInv(g: Setting, s: State, r: nat)
    requires Inv(g, s) && Enabled(g, s, r)
    ensures Inv(g, After(g, s, r))
  {
    forall i | 0 <= i < g.n
      ensures RankOk(g, After(g, s, r).ranks, i)
    {
      RanksKept(g, s, r, i);
    }
    StoreKept(g, s, r);
  }

  lemma {:induction false} RunKeepsInv(g: Setting, s: State, schedule: seq<nat>)
    requires Inv(g, s) && CanRun(g, s, schedule)
    ensures Inv(g, Run(g, s, schedule))
    decreases |schedule|
  {
    hide Inv, After, Enabled;
    if schedule != [] {
      StepKeepsInv(g, s, schedule[0]);
      RunKeepsInv(g, After(g, s, schedule[0]), schedule[1..]);
    }
  }

  lemma ReachedInv(g: Setting, schedule: seq<nat>, s: State)
    requires ValidSetting(g) && Reaches(g, schedule, s)
    ensures Inv(g, s)
  {
    StartInv(g);
    RunKeepsInv(g, Start(g), schedule);
  }

  // ---------- what the protocol promises ----------

  /** After any interleaving: the c-th command returned on every rank is the c-th the source packed; round
      counters differ by at most one; only two rounds have keys; and no rank waits for or reads a key that
      was removed. */
  lemma BroadcastIsSafe(g: Setting, schedule: seq<nat>, s: State)
    requires ValidSetting(g) && Reaches(g, schedule, s)
    ensures |s.ranks| == g.n
    ensures forall r :: 0 <= r < g.n ==> s.ranks[r].counter <= |g.commands| &&
                                         s.ranks[r].returned == g.commands[..s.ranks[r].counter]
    ensures forall a, b :: 0 <= a < g.n && 0 <= b < g.n ==> s.ranks[a].counter <= s.ranks[b].counter + 1
    ensures forall key :: key in s.store ==> s.ranks[g.src].counter - 1 <= key.round <= s.ranks[g.src].counter
    ensures forall r: nat, key :: r < g.n && key in Awaited(g, s, r) ==>
      key !in s.removed && (s.ranks[r].phase == Reading ==> key in s.store)
  {
    ReachedInv(g, schedule, s);
    forall r | 0 <= r < g.n
      ensures CommandsOk(g, s.ranks[r])
    {
      assert RankOk(g, s.ranks, r);
    }
    forall a, b | 0 <= a < g.n && 0 <= b < g.n
      ensures s.ranks[a].counter <= s.ranks[b].counter + 1
    {
      assert RankOk(g, s.ranks, a) && RankOk(g, s.ranks, b);
      if s.ranks[a].counter == s.ranks[g.src].counter + 1 {
        assert Marked(s.ranks[b], s.ranks[g.src].counter);
      }
    }
    forall r: nat, key | r < g.n && key in Awaited(g, s, r)
      ensures key !in s.removed && (s.ranks[r].phase == Reading ==> key in s.store)
    {
      AwaitedNotGone(g, s, r, key);
    }
    KeysOfTwoRounds(g, s);
  }

  lemma KeysOfTwoRounds(g: Setting, s: State)
    requires Inv(g, s)
    ensures forall key :: key in s.store ==> s.ranks[g.src].counter - 1 <= key.round <= s.ranks[g.src].counter
  {
    forall key | key in s.store
      ensures s.ranks[g.src].counter - 1 <= key.round <= s.ranks[g.src].counter
    {
      if key.Done? {
        assert RankOk(g, s.ranks, key.rank);
      }
    }
  }

  /** All ranks have returned from the same number of calls. */
  predicate AllFinished(g: Setting, s: State) {
    forall r :: 0 <= r < g.n && r < |s.ranks| && g.src < |s.ranks| ==>
      s.ranks[r].phase == Idle && s.ranks[r].counter == s.ranks[g.src].counter
  }

  ghost predicate SomeoneCanStep(g: Setting, s: State) {
    exists r: nat :: r < |s.ranks| && Enabled(g, s, r) && !Starts(g, s, r)
  }

  /** Nobody is ever stuck: unless all have finished the same round, some rank can take a step of it. */
  lemma NeverStuck(g: Setting, schedule: seq<nat>, s: State)
    requires ValidSetting(g) && Reaches(g, schedule, s)
    ensures AllFinished(g, s) || SomeoneCanStep(g, s)
  {
    ReachedInv(g, schedule, s);
    InvNotStuck(g, s);
  }

  lemma InvNotStuck(g: Setting, s: State)
    requires Inv(g, s)
    ensures AllFinished(g, s) || SomeoneCanStep(g, s)
  {
    var at := s.ranks[g.src];
    assert RankOk(g, s.ranks, g.src);
    if at.phase == Idle {
      if r :| 0 <= r < g.n && !(s.ranks[r].phase == Idle && s.ranks[r].counter == at.counter) {
        WaiterOfLastRoundCanStep(g, s, r);
      }
    } else if at.phase.Waiting? && at.phase.next < g.n && Done(at.counter, at.phase.next) !in s.store {
      LaggardCanStep(g, s, at.phase.next);
    } else {
      assert Enabled(g, s, g.src) && !Starts(g, s, g.src);
    }
  }

  lemma WaiterOfLastRoundCanStep(g: Setting, s: State, r: nat)
    requires Inv(g, s) && r < g.n && !Dropping(s.ranks[g.src].phase)
    requires s.ranks[r].counter != s.ranks[g.src].counter || s.ranks[g.src].phase == Idle != s.ranks[r].phase
    requires !Marked(s.ranks[g.src], s.ranks[g.src].counter) || s.ranks[r].counter == s.ranks[g.src].counter - 1
    ensures Enabled(g, s, r) && !Starts(g, s, r)
  {
    var at, me := s.ranks[g.src], s.ranks[r];
    assert RankOk(g, s.ranks, r) && RankOk(g, s.ranks, g.src);
    if me.counter == at.counter - 1 && me.phase.next < g.n {
      assert RankOk(g, s.ranks, me.phase.next);
      assert Marked(s.ranks[me.phase.next], at.counter - 1);
    }
  }

  /** A rank the source still waits for can step. */
  lemma LaggardCanStep(g: Setting, s: State, r: nat)
    requires Inv(g, s) && r < g.n
    requires s.ranks[g.src].phase.Waiting? && Done(s.ranks[g.src].counter, r) !in s.store
    ensures Enabled(g, s, r) && !Starts(g, s, r)
  {
    var at, me := s.ranks[g.src], s.ranks[r];
    assert RankOk(g, s.ranks, r) && RankOk(g, s.ranks, g.src);
    assert !Marked(me, at.counter);
    if me.counter == at.counter - 1 {
      WaiterOfLastRoundCanStep(g, s, r);
    }
  }

  // ---------- every round ends ----------

  /** The steps a rank has taken in its round. */
  function Taken(g: Setting, phase: Phase): nat {
    match phase
    case Idle => 0
    case Reading => 1
    case Marking => 2
    case Waiting(i) => 3 + i
    case DroppingCmd => 4 + g.n
    case DroppingDone(i) => 5 + g.n + i
  }

  function Goal(g: Setting, s: State): nat
    requires g.src < |s.ranks|
  {
    s.ranks[g.src].counter + if s.ranks[g.src].phase == Idle then 0 else 1
  }

  function RoundLength(g: Setting): nat {
    6 + 2 * g.n
  }

  /** An upper bound on the steps a rank takes before it has finished the rounds the source has started. */
  function Left(g: Setting, goal: nat, me: Rank): int {
    (goal - me.counter) * RoundLength(g) - Taken(g, me.phase)
  }

  function Work(g: Setting, goal: nat, ranks: seq<Rank>): int {
    if ranks == [] then 0 else Left(g, goal, ranks[0]) + Work(g, goal, ranks[1..])
  }

  lemma {:induction false} WorkUpdate(g: Setting, goal: nat, ranks: seq<Rank>, r: nat, me: Rank)
    requires r < |ranks|
    ensures Work(g, goal, ranks[r := me]) == Work(g, goal, ranks) - Left(g, goal, ranks[r]) + Left(g, goal, me)
  {
    if r == 0 {
      assert ranks[0 := me][1..] == ranks[1..];
    } else {
      assert ranks[r := me][1..] == ranks[1..][r - 1 := me];
      WorkUpdate(g, goal, ranks[1..], r - 1, me);
    }
  }

  lemma {:induction false} WorkNonNegative(g: Setting, goal: nat, ranks: seq<Rank>)
    requires forall i :: 0 <= i < |ranks| ==> 0 <= Left(g, goal, ranks[i])
    ensures 0 <= Work(g, goal, ranks)
  {
    if ranks != [] {
      WorkNonNegative(g, goal, ranks[1..]);
    }
  }

  lemma LeftDecreases(g: Setting, s: State, r: nat)
    requires Inv(g, s) && Enabled(g, s, r) && !Starts(g, s, r)
    ensures Goal(g, After(g, s, r)) == Goal(g, s)
    ensures Left(g, Goal(g, s), RankAfter(g, s, r)) < Left(g, Goal(g, s), s.ranks[r])
  {
    assert RankOk(g, s.ranks, r);
    var d, l := Goal(g, s) - s.ranks[r].counter, RoundLength(g);
    assert (d - 1) * l == d * l - l;
  }

  lemma LeftNonNegative(g: Setting, s: State, r: nat)
    requires Inv(g, s) && r < g.n
    ensures 0 <= Left(g, Goal(g, s), s.ranks[r])
  {
    var at, me := s.ranks[g.src], s.ranks[r];
    assert RankOk(g, s.ranks, r) && RankOk(g, s.ranks, g.src);
    var d, l := Goal(g, s) - me.counter, RoundLength(g);
    if me.counter == at.counter + 1 && at.phase == Idle {
      assert false;
    }
    assert 0 <= d;
    if me.phase != Idle {
      assert (d - 1) * l == d * l - l && 0 <= (d - 1) * l;
    } else {
      assert 0 <= d * l;
    }
  }

  lemma InvWorkDecreases(g: Setting, s: State, r: nat)
    requires Inv(g, s) && Enabled(g, s, r) && !Starts(g, s, r)
    ensures var t := After(g, s, r);
            Inv(g, t) && Goal(g, t) == Goal(g, s) && 0 <= Work(g, Goal(g, t), t.ranks) < Work(g, Goal(g, s), s.ranks)
  {
    var t := After(g, s, r);
    StepKeepsInv(g, s, r);
    LeftDecreases(g, s, r);
    WorkUpdate(g, Goal(g, s), s.ranks, r, RankAfter(g, s, r));
    forall i | 0 <= i < |t.ranks|
      ensures 0 <= Left(g, Goal(g, t), t.ranks[i])
    {
      LeftNonNegative(g, t, i);
    }
    WorkNonNegative(g, Goal(g, t), t.ranks);
  }

  /** Steps other than the source's starting a round use up a bounded amount of work, whatever the order. */
  lemma WorkDecreases(g: Setting, schedule: seq<nat>, s: State, r: nat)
    requires ValidSetting(g) && Reaches(g, schedule, s) && Enabled(g, s, r) && !Starts(g, s, r)
    ensures var t := After(g, s, r);
            g.src < |s.ranks| && g.src < |t.ranks| &&
            0 <= Work(g, Goal(g, t), t.ranks) < Work(g, Goal(g, s), s.ranks)
  {
    ReachedInv(g, schedule, s);
    InvWorkDecreases(g, s, r);
  }

  /** No step of a schedule starts a new round. */
  ghost predicate Quiet(g: Setting, s: State, schedule: seq<nat>)
    requires CanRun(g, s, schedule)
    decreases |schedule|
  {
    schedule == [] || (!Starts(g, s, schedule[0]) && Quiet(g, After(g, s, schedule[0]), schedule[1..]))
  }

  /** No rank is in a call, and all have returned the first commands packed, this many of them. */
  predicate AllReturned(g: Setting, s: State, rounds: nat)
    requires rounds <= |g.commands|
  {
    |s.ranks| == g.n && forall r :: 0 <= r < g.n ==> s.ranks[r].phase == Idle && s.ranks[r].returned == g.commands[..rounds]
  }

  /** From any state the ranks can finish the rounds the source has started: all return the same commands,
      up to the last one packed. */
  lemma {:induction false} RoundCompletes(g: Setting, s: State) returns (schedule: seq<nat>)
    requires Inv(g, s)
    ensures CanRun(g, s, schedule) && Quiet(g, s, schedule)
    ensures Goal(g, s) <= |g.commands| && AllReturned(g, Run(g, s, schedule), Goal(g, s))
    decreases Work(g, Goal(g, s), s.ranks)
  {
    hide Inv, Enabled, After;
    if AllFinished(g, s) {
      schedule := [];
      FinishedReturned(g, s);
    } else {
      InvNotStuck(g, s);
      var r: nat :| r < |s.ranks| && Enabled(g, s, r) && !Starts(g, s, r);
      InvWorkDecreases(g, s, r);
      var rest := RoundCompletes(g, After(g, s, r));
      schedule := [r] + rest;
      assert schedule[1..] == rest;
    }
  }

  lemma FinishedReturned(g: Setting, s: State)
    requires Inv(g, s) && AllFinished(g, s)
    ensures Goal(g, s) <= |g.commands|
    ensures AllReturned(g, s, Goal(g, s))
  {
    assert RankOk(g, s.ranks, g.src);
    assert s.ranks[g.src].phase == Idle;
    forall r | 0 <= r < g.n
      ensures s.ranks[r].phase == Idle && s.ranks[r].returned == g.commands[..Goal(g, s)]
    {
      assert RankOk(g, s.ranks, r);
    }
  }
}
