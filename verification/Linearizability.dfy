/** Many tasks, one queue, one engine. Every concurrent history of commands and
    replies is explained by one sequential run of direct engine calls, whatever
    the engine is and whatever it does on its own between two calls. */
module Linearizability {
  import opened Types
  import opened Commands

  // --------------------------------------------------- the sequential reference

  /** An arbitrary engine: which direct call may give which answer and lead where,
      and what may happen without a call (packets, timeouts, callbacks). */
  datatype Spec<!E> = Spec(call: (E, DirectCall, Answer, E) -> bool, env: (E, E) -> bool)

  /** One operation of the sequential run: the engine's own steps before it
      (`drift`), the call's answer, and the state it leaves. `at` is the moment
      in the history at which it takes effect. */
  datatype Op<E> = Op(task: nat, cmd: Command, drift: seq<E>, answer: Answer, after: E, at: nat)

  function Last<E>(e: E, drift: seq<E>): E {
    if drift == [] then e else drift[|drift| - 1]
  }

  ghost predicate Drifts<E(!new)>(spec: Spec<E>, e: E, drift: seq<E>) {
    forall i | 0 <= i < |drift| :: spec.env(Last(e, drift[..i]), drift[i])
  }

  function After<E>(e0: E, ops: seq<Op<E>>): E {
    if ops == [] then e0 else ops[|ops| - 1].after
  }

  /** The default client configuration after a sequence of operations. */
  function ConfigOf<E>(ops: seq<Op<E>>, initial: Option<Config>): Option<Config> {
    if ops == [] then initial
    else ConfigAfter(ops[|ops| - 1].cmd, ConfigOf(ops[..|ops| - 1], initial))
  }

  /** `e'` and `answer` are what serving `cmd` directly on the engine may give. */
  predicate Serves<E(==)>(spec: Spec<E>, e: E, cmd: Command, config: Option<Config>, answer: Answer, e': E) {
    && Fits(cmd, config, answer)
    && match CallOf(cmd, config, answer)
       case None => e' == e
       case Some(direct) => spec.call(e, direct, answer, e')
  }

  /** A legal sequential run of direct calls. */
  ghost predicate Legal<E(!new)>(spec: Spec<E>, e0: E, initial: Option<Config>, ops: seq<Op<E>>) {
    ops != [] ==>
      var n := |ops| - 1;
      var op, before, config := ops[n], After(e0, ops[..n]), ConfigOf(ops[..n], initial);
      && Legal(spec, e0, initial, ops[..n])
      && Drifts(spec, before, op.drift)
      && Serves(spec, Last(before, op.drift), op.cmd, config, op.answer, op.after)
  }

  /** The calls one command makes: none or one. */
  function Made(cmd: Command, config: Option<Config>, answer: Answer): seq<DirectCall> {
    match CallOf(cmd, config, answer)
    case None => []
    case Some(direct) => [direct]
  }

  /** The direct calls of a sequential run, in order. */
  function CallsOf<E>(ops: seq<Op<E>>, initial: Option<Config>): seq<DirectCall> {
    if ops == [] then []
    else
      var n := |ops| - 1;
      CallsOf(ops[..n], initial) + Made(ops[n].cmd, ConfigOf(ops[..n], initial), ops[n].answer)
  }

  lemma CallsGrow<E>(ops: seq<Op<E>>, op: Op<E>, initial: Option<Config>)
    ensures ConfigOf(ops + [op], initial) == ConfigAfter(op.cmd, ConfigOf(ops, initial))
    ensures CallsOf(ops + [op], initial) == CallsOf(ops, initial) + Made(op.cmd, ConfigOf(ops, initial), op.answer)
  {
    assert (ops + [op])[..|ops|] == ops;
  }

  // ------------------------------------------------------------------ histories

  /** What the tasks see: the sending of a command and the arrival of a reply.
      Commands are numbered in the order in which they are sent. */
  datatype Event =
    | Invoke(id: nat, task: nat, cmd: Command)
    | Respond(id: nat, task: nat, reply: Reply)

  /** Every operation is a command that was sent, and takes effect after that. */
  ghost predicate EffectFollowsSend<E(!new)>(h: seq<Event>, ops: seq<Op<E>>) {
    forall k | 0 <= k < |ops| :: SentBefore(h, Invoke(k, ops[k].task, ops[k].cmd), ops[k].at)
  }

  ghost predicate SentBefore(h: seq<Event>, e: Event, at: nat) {
    exists i :: 0 <= i < at && i < |h| && h[i] == e
  }

  /** Every reply is the one the sequential run gives, arrives after the effect,
      at the task that sent the command. */
  ghost predicate ReplyFollowsEffect<E(!new)>(h: seq<Event>, ops: seq<Op<E>>) {
    forall j | 0 <= j < |h| && h[j].Respond? ::
      && h[j].id < |ops| && ops[h[j].id].at <= j && ops[h[j].id].task == h[j].task
      && ReplyFor(ops[h[j].id].answer) == Some(h[j].reply)
  }

  ghost predicate RepliesOnce(h: seq<Event>) {
    forall i, j | 0 <= i < j < |h| && h[i].Respond? && h[j].Respond? :: h[i].id != h[j].id
  }

  /** A command sent after another's reply comes later in the sequential run. */
  ghost predicate RealTimeOrder(h: seq<Event>) {
    forall i, j | 0 <= i < j < |h| && h[i].Respond? && h[j].Invoke? :: h[i].id < h[j].id
  }

  /** So does a command sent after another, by the same task or not, answered or
      not. */
  ghost predicate SendOrder(h: seq<Event>) {
    forall i, j | 0 <= i < j < |h| && h[i].Invoke? && h[j].Invoke? :: h[i].id < h[j].id
  }

  ghost predicate EffectOrder<E(!new)>(ops: seq<Op<E>>) {
    forall k, m | 0 <= k < m < |ops| :: ops[k].at <= ops[m].at
  }

  /** `ops` explains the history `h`: operation k is the command numbered k. */
  ghost predicate Linearizes<E(!new)>(spec: Spec<E>, e0: E, initial: Option<Config>, h: seq<Event>, ops: seq<Op<E>>) {
    && Legal(spec, e0, initial, ops)
    && EffectFollowsSend(h, ops) && ReplyFollowsEffect(h, ops) && RepliesOnce(h)
    && RealTimeOrder(h) && SendOrder(h) && EffectOrder(ops)
  }

  // ------------------------------------------------------------------ the system

  datatype Request = Request(task: nat, cmd: Command)

  /** `sentAt[k]`: where in the history command k was sent. `abandoned`: the replies
      whose receivers were dropped. */
  datatype Sys<E> = Sys(
    queue: seq<Request>, e: E, config: Option<Config>, slots: map<nat, Reply>,
    history: seq<Event>, sentAt: seq<nat>, ops: seq<Op<E>>, drift: seq<E>, abandoned: set<nat>)

  datatype Step<E> =
    | Send(task: nat, cmd: Command)
    | Process(answer: Answer, e: E)
    | Evolve(e: E)
    | Receive(id: nat)
    | Abandon(id: nat)

  predicate Init<E(==)>(s: Sys<E>, e0: E, initial: Option<Config>) {
    s == Sys([], e0, initial, map[], [], [], [], [], {})
  }

  predicate Enabled<E(==)>(spec: Spec<E>, s: Sys<E>, a: Step<E>) {
    match a
    case Send(_, _) => true
    case Process(answer, e') =>
      s.queue != [] && Serves(spec, s.e, s.queue[0].cmd, s.config, answer, e')
    case Evolve(e') => spec.env(s.e, e')
    case Receive(id) => id in s.slots && id < |s.ops|
    case Abandon(id) => id in s.slots
  }

  /** Sending appends to the queue; processing takes from its front, calls the
      engine and fills the reply slot; replies arrive whenever the task looks. */
  function Next<E>(s: Sys<E>, a: Step<E>): Sys<E> {
    match a
    case Send(task, cmd) =>
      s.(queue := s.queue + [Request(task, cmd)], sentAt := s.sentAt + [|s.history|],
         history := s.history + [Invoke(|s.ops| + |s.queue|, task, cmd)])
    case Process(answer, e') =>
      if s.queue == [] then s else
      var r := s.queue[0];
      s.(queue := s.queue[1..], e := e', config := ConfigAfter(r.cmd, s.config),
         slots := if ReplyFor(answer).Some? then s.slots[|s.ops| := ReplyFor(answer).value] else s.slots,
         ops := s.ops + [Op(r.task, r.cmd, s.drift, answer, e', |s.history|)], drift := [])
    case Evolve(e') => s.(e := e', drift := s.drift + [e'])
    case Receive(id) =>
      if id in s.slots && id < |s.ops| then
        s.(slots := s.slots - {id}, history := s.history + [Respond(id, s.ops[id].task, s.slots[id])])
      else s
    case Abandon(id) =>
      if id in s.slots then s.(slots := s.slots - {id}, abandoned := s.abandoned + {id}) else s
  }

  /** The state after a schedule, in which steps that cannot happen are passed over. */
  function Drive<E(==)>(spec: Spec<E>, s: Sys<E>, steps: seq<Step<E>>): Sys<E> {
    if steps == [] then s
    else
      var n := |steps| - 1;
      var t := Drive(spec, s, steps[..n]);
      if Enabled(spec, t, steps[n]) then Next(t, steps[n]) else t
  }

  /** What processing leaves behind, part by part. */
  lemma ProcessIs<E>(s: Sys<E>, answer: Answer, e': E, initial: Option<Config>)
    requires s.queue != [] && s.config == ConfigOf(s.ops, initial)
    ensures var t, cmd := Next(s, Process(answer, e')), s.queue[0].cmd;
            && t.queue == s.queue[1..] && t.e == e' && |t.ops| == |s.ops| + 1
            && t.config == ConfigAfter(cmd, s.config) == ConfigOf(t.ops, initial)
            && t.slots == (if ReplyFor(answer).Some? then s.slots[|s.ops| := ReplyFor(answer).value] else s.slots)
            && CallsOf(t.ops, initial) == CallsOf(s.ops, initial) + Made(cmd, s.config, answer)
  {
    var r := s.queue[0];
    CallsGrow(s.ops, Op(r.task, r.cmd, s.drift, answer, e', |s.history|), initial);
  }

  ghost predicate Run<E(!new)>(spec: Spec<E>, e0: E, initial: Option<Config>, states: seq<Sys<E>>,
      steps: seq<Step<E>>) {
    && |states| == |steps| + 1
    && Init(states[0], e0, initial)
    && forall i | 0 <= i < |steps| :: Enabled(spec, states[i], steps[i]) && states[i + 1] == Next(states[i], steps[i])
  }

  // ------------------------------------------------------------------- invariant

  ghost predicate EngineOk<E(!new)>(spec: Spec<E>, e0: E, initial: Option<Config>, s: Sys<E>) {
    && Legal(spec, e0, initial, s.ops)
    && Drifts(spec, After(e0, s.ops), s.drift)
    && s.e == Last(After(e0, s.ops), s.drift)
    && s.config == ConfigOf(s.ops, initial)
  }

  /** The queue is a window on the numbered commands. */
  function Asked<E>(s: Sys<E>, k: nat): Request
    requires k < |s.ops| + |s.queue|
  {
    if k < |s.ops| then Request(s.ops[k].task, s.ops[k].cmd) else s.queue[k - |s.ops|]
  }

  ghost predicate SentOk<E>(s: Sys<E>) {
    && |s.sentAt| == |s.ops| + |s.queue|
    && (forall k | 0 <= k < |s.sentAt| ::
          && s.sentAt[k] < |s.history|
          && s.history[s.sentAt[k]] == Invoke(k, Asked(s, k).task, Asked(s, k).cmd))
    && (forall k, m | 0 <= k < m < |s.sentAt| :: s.sentAt[k] < s.sentAt[m])
    && (forall j | 0 <= j < |s.history| && s.history[j].Invoke? ::
          s.history[j].id < |s.sentAt| && s.sentAt[s.history[j].id] == j)
  }

  ghost predicate PointsOk<E>(s: Sys<E>) {
    && |s.ops| <= |s.sentAt|
    && (forall k | 0 <= k < |s.ops| :: s.sentAt[k] < s.ops[k].at <= |s.history|)
    && (forall k, m | 0 <= k < m < |s.ops| :: s.ops[k].at <= s.ops[m].at)
  }

  ghost predicate RepliesOk<E>(s: Sys<E>) {
    && (forall id | id in s.slots :: id < |s.ops| && ReplyFor(s.ops[id].answer) == Some(s.slots[id]))
    && (forall j | 0 <= j < |s.history| && s.history[j].Respond? ::
          var r := s.history[j];
          && r.id < |s.ops| && r.id !in s.slots && s.ops[r.id].at <= j && s.ops[r.id].task == r.task
          && ReplyFor(s.ops[r.id].answer) == Some(r.reply))
    && (forall i, j | 0 <= i < j < |s.history| && s.history[i].Respond? && s.history[j].Respond? ::
          s.history[i].id != s.history[j].id)
  }

  ghost predicate Responded(h: seq<Event>, id: nat) {
    exists j :: 0 <= j < |h| && h[j].Respond? && h[j].id == id
  }

  /** No reply vanishes: it waits in its slot, was received, or was abandoned. */
  ghost predicate ConservedOk<E>(s: Sys<E>) {
    && (forall k | 0 <= k < |s.ops| && ReplyFor(s.ops[k].answer).Some? ::
          k in s.slots || k in s.abandoned || Responded(s.history, k))
    && (forall id | id in s.abandoned :: id < |s.ops| && id !in s.slots && !Responded(s.history, id))
    && (forall id | id in s.abandoned :: ReplyFor(s.ops[id].answer).Some?)
  }

  ghost predicate Inv<E(!new)>(spec: Spec<E>, e0: E, initial: Option<Config>, s: Sys<E>) {
    EngineOk(spec, e0, initial, s) && SentOk(s) && PointsOk(s) && RepliesOk(s) && ConservedOk(s)
  }

  lemma DriftGrows<E(!new)>(spec: Spec<E>, e: E, drift: seq<E>, e': E)
    requires Drifts(spec, e, drift) && spec.env(Last(e, drift), e')
    ensures Drifts(spec, e, drift + [e']) && Last(e, drift + [e']) == e'
  {
    assert (drift + [e'])[..|drift|] == drift;
    assert forall i | 0 <= i < |drift| :: (drift + [e'])[..i] == drift[..i];
  }

  lemma LegalGrows<E(!new)>(spec: Spec<E>, e0: E, initial: Option<Config>, ops: seq<Op<E>>, op: Op<E>)
    requires Legal(spec, e0, initial, ops)
    requires Drifts(spec, After(e0, ops), op.drift)
    requires Serves(spec, Last(After(e0, ops), op.drift), op.cmd, ConfigOf(ops, initial), op.answer, op.after)
    ensures Legal(spec, e0, initial, ops + [op])
    ensures ConfigOf(ops + [op], initial) == ConfigAfter(op.cmd, ConfigOf(ops, initial))
  {
    assert (ops + [op])[..|ops|] == ops;
  }

  lemma KeepsEngine<E(!new)>(spec: Spec<E>, e0: E, initial: Option<Config>, s: Sys<E>, a: Step<E>)
    requires EngineOk(spec, e0, initial, s) && Enabled(spec, s, a)
    ensures EngineOk(spec, e0, initial, Next(s, a))
  {
    match a
    case Process(answer, e') =>
      LegalGrows(spec, e0, initial, s.ops, Op(s.queue[0].task, s.queue[0].cmd, s.drift, answer, e', |s.history|));
    case Evolve(e') => DriftGrows(spec, After(e0, s.ops), s.drift, e');
    case _ =>
  }

  lemma KeepsSent<E(!new)>(spec: Spec<E>, s: Sys<E>, a: Step<E>)
    requires SentOk(s) && Enabled(spec, s, a)
    ensures SentOk(Next(s, a))
  {
    var s' := Next(s, a);
    assert forall k | 0 <= k < |s.sentAt| :: Asked(s', k) == Asked(s, k);
  }

  lemma KeepsPoints<E(!new)>(spec: Spec<E>, s: Sys<E>, a: Step<E>)
    requires SentOk(s) && PointsOk(s) && Enabled(spec, s, a)
    ensures PointsOk(Next(s, a))
  {
  }

  lemma KeepsReplies<E(!new)>(spec: Spec<E>, s: Sys<E>, a: Step<E>)
    requires PointsOk(s) && RepliesOk(s) && Enabled(spec, s, a)
    ensures RepliesOk(Next(s, a))
  {
    match a
    case Receive(id) => ReceiveKeepsReplies(s, id);
    case Process(answer, e') => ProcessKeepsReplies(s, answer, e');
    case _ =>
  }

  lemma ReceiveKeepsReplies<E(!new)>(s: Sys<E>, id: nat)
    requires PointsOk(s) && RepliesOk(s) && id in s.slots && id < |s.ops|
    ensures RepliesOk(Next(s, Receive(id)))
  {
  }

  lemma ProcessKeepsReplies<E(!new)>(s: Sys<E>, answer: Answer, e': E)
    requires RepliesOk(s) && s.queue != []
    ensures RepliesOk(Next(s, Process(answer, e')))
  {
  }

  lemma RespondedGrows(h: seq<Event>, e: Event)
    ensures forall id :: Responded(h + [e], id) <==> Responded(h, id) || (e.Respond? && e.id == id)
  {
    forall id ensures Responded(h + [e], id) <==> Responded(h, id) || (e.Respond? && e.id == id) {
      if Responded(h, id) {
        var j :| 0 <= j < |h| && h[j].Respond? && h[j].id == id;
        assert (h + [e])[j] == h[j];
      }
      if e.Respond? && e.id == id {
        assert (h + [e])[|h|] == e;
      }
    }
  }

  lemma ReceiveConserves<E(!new)>(s: Sys<E>, id: nat)
    requires RepliesOk(s) && ConservedOk(s) && id in s.slots && id < |s.ops|
    ensures ConservedOk(Next(s, Receive(id)))
  {
    RespondedGrows(s.history, Respond(id, s.ops[id].task, s.slots[id]));
  }

  lemma SendConserves<E(!new)>(s: Sys<E>, task: nat, cmd: Command)
    requires ConservedOk(s)
    ensures ConservedOk(Next(s, Send(task, cmd)))
  {
    RespondedGrows(s.history, Invoke(|s.ops| + |s.queue|, task, cmd));
  }

  lemma AbandonConserves<E(!new)>(s: Sys<E>, id: nat)
    requires RepliesOk(s) && ConservedOk(s) && id in s.slots
    ensures ConservedOk(Next(s, Abandon(id)))
  {
  }

  lemma KeepsConserved<E(!new)>(spec: Spec<E>, s: Sys<E>, a: Step<E>)
    requires RepliesOk(s) && ConservedOk(s) && Enabled(spec, s, a)
    ensures ConservedOk(Next(s, a))
  {
    match a
    case Send(task, cmd) => SendConserves(s, task, cmd);
    case Receive(id) => ReceiveConserves(s, id);
    case Abandon(id) => AbandonConserves(s, id);
    case _ =>
  }

  lemma StepKeeps<E(!new)>(spec: Spec<E>, e0: E, initial: Option<Config>, s: Sys<E>, a: Step<E>)
    requires Inv(spec, e0, initial, s) && Enabled(spec, s, a)
    ensures Inv(spec, e0, initial, Next(s, a))
  {
    KeepsEngine(spec, e0, initial, s, a);
    KeepsSent(spec, s, a);
    KeepsPoints(spec, s, a);
    KeepsReplies(spec, s, a);
    KeepsConserved(spec, s, a);
  }

  lemma {:induction false} DriveKeeps<E(!new)>(spec: Spec<E>, e0: E, initial: Option<Config>, s: Sys<E>,
      steps: seq<Step<E>>)
    requires Inv(spec, e0, initial, s)
    ensures Inv(spec, e0, initial, Drive(spec, s, steps))
  {
    if steps != [] {
      var n := |steps| - 1;
      DriveKeeps(spec, e0, initial, s, steps[..n]);
      if Enabled(spec, Drive(spec, s, steps[..n]), steps[n]) {
        StepKeeps(spec, e0, initial, Drive(spec, s, steps[..n]), steps[n]);
      }
    }
  }

  lemma {:induction false} RunKeeps<E(!new)>(spec: Spec<E>, e0: E, initial: Option<Config>, states: seq<Sys<E>>,
      steps: seq<Step<E>>, n: nat)
    requires Run(spec, e0, initial, states, steps) && n < |states|
    ensures Inv(spec, e0, initial, states[n])
  {
    if n > 0 {
      RunKeeps(spec, e0, initial, states, steps, n - 1);
      StepKeeps(spec, e0, initial, states[n - 1], steps[n - 1]);
    }
  }

  // -------------------------------------------------------------------- theorems

  lemma EffectsFollowSends<E(!new)>(s: Sys<E>)
    requires SentOk(s) && PointsOk(s)
    ensures EffectFollowsSend(s.history, s.ops) && EffectOrder(s.ops)
  {
    forall k | 0 <= k < |s.ops|
      ensures SentBefore(s.history, Invoke(k, s.ops[k].task, s.ops[k].cmd), s.ops[k].at)
    {
      assert s.history[s.sentAt[k]] == Invoke(k, s.ops[k].task, s.ops[k].cmd);
    }
  }

  lemma SendsAreOrdered<E(!new)>(s: Sys<E>)
    requires SentOk(s)
    ensures SendOrder(s.history)
  {
    forall i, j | 0 <= i < j < |s.history| && s.history[i].Invoke? && s.history[j].Invoke?
      ensures s.history[i].id < s.history[j].id
    {
      assert s.sentAt[s.history[i].id] == i && s.sentAt[s.history[j].id] == j;
    }
  }

  lemma RealTimeIsRespected<E(!new)>(s: Sys<E>)
    requires SentOk(s) && PointsOk(s) && RepliesOk(s)
    ensures RealTimeOrder(s.history)
  {
    forall i, j | 0 <= i < j < |s.history| && s.history[i].Respond? && s.history[j].Invoke?
      ensures s.history[i].id < s.history[j].id
    {
      assert s.sentAt[s.history[i].id] < s.ops[s.history[i].id].at <= i;
      assert s.sentAt[s.history[j].id] == j;
    }
  }

  lemma InvLinearizes<E(!new)>(spec: Spec<E>, e0: E, initial: Option<Config>, s: Sys<E>)
    requires Inv(spec, e0, initial, s)
    ensures Linearizes(spec, e0, initial, s.history, s.ops)
  {
    EffectsFollowSends(s);
    SendsAreOrdered(s);
    RealTimeIsRespected(s);
  }

  /** Linearizability: at every moment of every run, for every engine, the
      history of the tasks is explained by the operations processed so far. */
  lemma EveryHistoryLinearizes<E(!new)>(spec: Spec<E>, e0: E, initial: Option<Config>, states: seq<Sys<E>>,
      steps: seq<Step<E>>, n: nat)
    requires Run(spec, e0, initial, states, steps) && n < |states|
    ensures Linearizes(spec, e0, initial, states[n].history, states[n].ops)
  {
    RunKeeps(spec, e0, initial, states, steps, n);
    InvLinearizes(spec, e0, initial, states[n]);
  }

  lemma {:induction false} LegalFits<E(!new)>(spec: Spec<E>, e0: E, initial: Option<Config>, ops: seq<Op<E>>, k: nat)
    requires Legal(spec, e0, initial, ops) && k < |ops|
    ensures Fits(ops[k].cmd, ConfigOf(ops[..k], initial), ops[k].answer)
  {
    var n := |ops| - 1;
    if k < n {
      LegalFits(spec, e0, initial, ops[..n], k);
      assert ops[..n][..k] == ops[..k];
    }
  }

  /** Replies are conserved. A processed command that carries a reply channel has
      its reply in exactly one place: waiting, received by the task that asked, or
      dropped with the future that asked. A fire-and-forget command never has one. */
  lemma RepliesConserved<E(!new)>(spec: Spec<E>, e0: E, initial: Option<Config>, states: seq<Sys<E>>,
      steps: seq<Step<E>>, n: nat, k: nat)
    requires Run(spec, e0, initial, states, steps) && n < |states| && k < |states[n].ops|
    ensures var s := states[n];
            var waits, got, dropped := k in s.slots, Responded(s.history, k), k in s.abandoned;
            && (Answerable(s.ops[k].cmd) <==> waits || got || dropped)
            && !(waits && got) && !(waits && dropped) && !(got && dropped)
  {
    RunKeeps(spec, e0, initial, states, steps, n);
    LegalFits(spec, e0, initial, states[n].ops, k);
    OneFate(states[n], k);
  }

  lemma OneFate<E(!new)>(s: Sys<E>, k: nat)
    requires RepliesOk(s) && ConservedOk(s) && k < |s.ops|
    ensures var waits, got, dropped := k in s.slots, Responded(s.history, k), k in s.abandoned;
            && (ReplyFor(s.ops[k].answer).Some? <==> waits || got || dropped)
            && !(waits && got) && !(waits && dropped) && !(got && dropped)
  {
    if Responded(s.history, k) {
      var j :| 0 <= j < |s.history| && s.history[j].Respond? && s.history[j].id == k;
    }
  }

  /** The default configuration is the one set last. */
  lemma {:induction false} LatestDefaultWins<E>(ops: seq<Op<E>>, initial: Option<Config>, k: nat)
    requires k <= |ops| && forall m | k <= m < |ops| :: !ops[m].cmd.SetDefaultClientConfig?
    ensures k == 0 ==> ConfigOf(ops, initial) == initial
    ensures k > 0 && ops[k - 1].cmd.SetDefaultClientConfig? ==> ConfigOf(ops, initial) == Some(ops[k - 1].cmd.default)
  {
    if k < |ops| {
      LatestDefaultWins(ops[..|ops| - 1], initial, k);
    }
  }

  /** Commands in the order of their sending. */
  function Sent(h: seq<Event>): seq<Command> {
    if h == [] then []
    else
      var n := |h| - 1;
      Sent(h[..n]) + (if h[n].Invoke? then [h[n].cmd] else [])
  }

  function Processed<E>(ops: seq<Op<E>>): seq<Command> {
    seq(|ops|, k requires 0 <= k < |ops| => ops[k].cmd)
  }

  function Queued(queue: seq<Request>): seq<Command> {
    seq(|queue|, k requires 0 <= k < |queue| => queue[k].cmd)
  }

  lemma SentGrows(h: seq<Event>, e: Event)
    ensures Sent(h + [e]) == Sent(h) + (if e.Invoke? then [e.cmd] else [])
  {
    assert (h + [e])[..|h|] == h;
  }

  ghost predicate Fifo<E>(s: Sys<E>) {
    Sent(s.history) == Processed(s.ops) + Queued(s.queue)
  }

  lemma SendKeepsFifo<E(!new)>(s: Sys<E>, task: nat, cmd: Command)
    requires Fifo(s)
    ensures Fifo(Next(s, Send(task, cmd)))
  {
    SentGrows(s.history, Invoke(|s.ops| + |s.queue|, task, cmd));
    assert Queued(s.queue + [Request(task, cmd)]) == Queued(s.queue) + [cmd];
  }

  lemma ProcessKeepsFifo<E(!new)>(s: Sys<E>, answer: Answer, e': E)
    requires Fifo(s) && s.queue != []
    ensures Fifo(Next(s, Process(answer, e')))
  {
    assert Processed(Next(s, Process(answer, e')).ops) == Processed(s.ops) + [s.queue[0].cmd];
    assert Queued(s.queue) == [s.queue[0].cmd] + Queued(s.queue[1..]);
  }

  lemma ReceiveKeepsFifo<E(!new)>(s: Sys<E>, id: nat)
    requires Fifo(s) && id in s.slots && id < |s.ops|
    ensures Fifo(Next(s, Receive(id)))
  {
    SentGrows(s.history, Respond(id, s.ops[id].task, s.slots[id]));
  }

  lemma StepKeepsFifo<E(!new)>(spec: Spec<E>, s: Sys<E>, a: Step<E>)
    requires Fifo(s) && Enabled(spec, s, a)
    ensures Fifo(Next(s, a))
  {
    match a
    case Send(task, cmd) => SendKeepsFifo(s, task, cmd);
    case Process(answer, e') => ProcessKeepsFifo(s, answer, e');
    case Receive(id) => ReceiveKeepsFifo(s, id);
    case _ =>
  }

  lemma {:induction false} FifoAlong<E(!new)>(states: seq<Sys<E>>, n: nat)
    requires n < |states| && Fifo(states[0])
    requires forall k | 0 < k < |states| :: Fifo(states[k - 1]) ==> Fifo(states[k])
    ensures Fifo(states[n])
  {
    if n > 0 {
      FifoAlong(states, n - 1);
    }
  }

  /** First in, first out, with nothing lost. */
  lemma QueueIsFifo<E(!new)>(spec: Spec<E>, e0: E, initial: Option<Config>, states: seq<Sys<E>>, steps: seq<Step<E>>,
      n: nat)
    requires Run(spec, e0, initial, states, steps) && n < |states|
    ensures Sent(states[n].history) == Processed(states[n].ops) + Queued(states[n].queue)
  {
    forall k | 0 < k < |states| && Fifo(states[k - 1]) ensures Fifo(states[k]) {
      StepKeepsFifo(spec, states[k - 1], steps[k - 1]);
    }
    FifoAlong(states, n);
  }

  function Only(p: Command -> bool, cmds: seq<Command>): seq<Command> {
    if cmds == [] then []
    else (if p(cmds[0]) then [cmds[0]] else []) + Only(p, cmds[1..])
  }

  lemma {:induction false} OnlySplits(p: Command -> bool, a: seq<Command>, b: seq<Command>)
    ensures Only(p, a + b) == Only(p, a) + Only(p, b)
  {
    if a == [] {
      assert a + b == b;
    } else {
      var head := if p(a[0]) then [a[0]] else [];
      calc {
        Only(p, a + b);
        { assert (a + b)[0] == a[0] && (a + b)[1..] == a[1..] + b; }
        head + Only(p, a[1..] + b);
        { OnlySplits(p, a[1..], b); }
        head + (Only(p, a[1..]) + Only(p, b));
        (head + Only(p, a[1..])) + Only(p, b);
        Only(p, a) + Only(p, b);
      }
    }
  }

  /** Seen from one stream, or any other set of commands, the shared queue is a
      queue of its own: what was processed, followed by what waits, is what was
      issued. */
  lemma EachStreamHasItsOwnQueue<E(!new)>(spec: Spec<E>, e0: E, initial: Option<Config>, states: seq<Sys<E>>,
      steps: seq<Step<E>>, n: nat, p: Command -> bool)
    requires Run(spec, e0, initial, states, steps) && n < |states|
    ensures Only(p, Sent(states[n].history)) == Only(p, Processed(states[n].ops)) + Only(p, Queued(states[n].queue))
  {
    QueueIsFifo(spec, e0, initial, states, steps, n);
    OnlySplits(p, Processed(states[n].ops), Queued(states[n].queue));
  }

  /** A queue as one handle sees it: the commands it has issued, and how many of
      them have been processed. */
  datatype View = View(issued: seq<Command>, done: nat)

  function ViewOf<E>(s: Sys<E>, p: Command -> bool): View {
    View(Only(p, Sent(s.history)), |Only(p, Processed(s.ops))|)
  }

  /** What a step of the shared system is for such a queue: its own command joins
      the end, its own next command is processed, or nothing happens. */
  ghost predicate ViewMoves<E>(s: Sys<E>, a: Step<E>, v: View, v': View, p: Command -> bool) {
    match a
    case Send(_, cmd) => v' == if p(cmd) then v.(issued := v.issued + [cmd]) else v
    case Process(_, _) =>
      s.queue != [] &&
        if p(s.queue[0].cmd) then
          v.done < |v.issued| && v.issued[v.done] == s.queue[0].cmd && v' == v.(done := v.done + 1)
        else v' == v
    case _ => v' == v
  }

  lemma OnlyGrows(p: Command -> bool, cmds: seq<Command>, cmd: Command)
    ensures Only(p, cmds + [cmd]) == Only(p, cmds) + (if p(cmd) then [cmd] else [])
  {
    OnlySplits(p, cmds, [cmd]);
    assert [cmd][1..] == [];
  }

  lemma SendMovesView<E(!new)>(s: Sys<E>, task: nat, cmd: Command, p: Command -> bool)
    ensures ViewMoves(s, Send(task, cmd), ViewOf(s, p), ViewOf(Next(s, Send(task, cmd)), p), p)
  {
    SentGrows(s.history, Invoke(|s.ops| + |s.queue|, task, cmd));
    OnlyGrows(p, Sent(s.history), cmd);
  }

  lemma ReceiveMovesNoView<E(!new)>(s: Sys<E>, id: nat, p: Command -> bool)
    requires id in s.slots && id < |s.ops|
    ensures ViewOf(Next(s, Receive(id)), p) == ViewOf(s, p)
  {
    SentGrows(s.history, Respond(id, s.ops[id].task, s.slots[id]));
    assert Sent(s.history) + [] == Sent(s.history);
  }

  lemma ProcessMovesView<E(!new)>(s: Sys<E>, answer: Answer, e': E, p: Command -> bool)
    requires s.queue != []
    requires Sent(s.history) == Processed(s.ops) + Queued(s.queue)
    ensures ViewMoves(s, Process(answer, e'), ViewOf(s, p), ViewOf(Next(s, Process(answer, e')), p), p)
  {
    var cmd, before := s.queue[0].cmd, Processed(s.ops);
    assert Processed(Next(s, Process(answer, e')).ops) == before + [cmd];
    OnlyGrows(p, before, cmd);
    assert Queued(s.queue) == [cmd] + Queued(s.queue[1..]);
    assert Sent(s.history) == before + [cmd] + Queued(s.queue[1..]);
    OnlySplits(p, before + [cmd], Queued(s.queue[1..]));
  }

  /** Every run of the shared bridge, watched through the commands of one handle, is
      a run of a queue that holds nothing else: own commands are issued at its end
      and processed from its front, and everybody else's are no step at all. */
  lemma SharedQueueProjects<E(!new)>(spec: Spec<E>, e0: E, initial: Option<Config>, states: seq<Sys<E>>,
      steps: seq<Step<E>>, n: nat, p: Command -> bool)
    requires Run(spec, e0, initial, states, steps) && n < |steps|
    ensures ViewMoves(states[n], steps[n], ViewOf(states[n], p), ViewOf(states[n + 1], p), p)
  {
    QueueIsFifo(spec, e0, initial, states, steps, n);
    match steps[n]
    case Send(task, cmd) => SendMovesView(states[n], task, cmd, p);
    case Process(answer, e') => ProcessMovesView(states[n], answer, e', p);
    case Receive(id) => ReceiveMovesNoView(states[n], id, p);
    case _ =>
  }
}
