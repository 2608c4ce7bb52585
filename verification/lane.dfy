/** The command lane of src/main.js: CommandQueue, a FIFO chain of actions
    that stops running bodies once the connection is gone, and
    sendSlashCommand, the ordered fallback over three ways of sending a
    slash command. */
module Lane {
  import opened Wrappers

  // ---------------------------------------------------------------------
  // sendSlashCommand
  // ---------------------------------------------------------------------

  /** The three ways of handing a command to the server, in the order tried:
      bot.chat, a raw `chat_message` packet, a raw `chat_command` packet. */
  datatype Channel = Chat | ChatMessage | ChatCommand

  /** One attempt: the channel and the text it carries. */
  datatype Attempt = Attempt(channel: Channel, text: string)

  /** What the bot offers: whether bot.chat is a function, whether it has a
      protocol client, and which channels throw when used. */
  datatype Bot = Bot(hasChat: bool, hasClient: bool, throws: Channel -> bool)

  /** The outcome of a fallback chain: the attempts made, in order, and the
      attempt that returned normally, if any. */
  datatype Sent = Sent(tried: seq<Attempt>, ended: Option<Attempt>)

  /** The generic ordered fallback: try each attempt in turn and stop at the
      first that succeeds. */
  function TryInOrder(cands: seq<Attempt>, ok: Attempt -> bool): (r: Sent)
    // the attempts made are a prefix of the candidates
    ensures |r.tried| <= |cands| && r.tried == cands[..|r.tried|]
    // every attempt but an ending one failed
    ensures forall i :: 0 <= i < |r.tried| && (r.ended.None? || i < |r.tried| - 1) ==> !ok(r.tried[i])
    // the chain ends at the first success, or runs out having tried everything
    ensures r.ended.Some? ==> |r.tried| > 0 && r.ended.value == r.tried[|r.tried| - 1] && ok(r.ended.value)
    ensures r.ended.None? ==> r.tried == cands
    decreases |cands|
  {
    if cands == [] then Sent([], None)
    else if ok(cands[0]) then Sent([cands[0]], Some(cands[0]))
    else
      var rest := TryInOrder(cands[1..], ok);
      Sent([cands[0]] + rest.tried, rest.ended)
  }

  /** The slash line `"/" + String(cmd)`. */
  function Line(cmd: string): string {
    "/" + cmd
  }

  /** The strategies sendSlashCommand offers, in order: bot.chat only when
      it is a function, the other two always. The `chat_command` packet
      carries the line without its leading slash. */
  function Candidates(bot: Bot, cmd: string): seq<Attempt> {
    (if bot.hasChat then [Attempt(Chat, Line(cmd))] else [])
    + [Attempt(ChatMessage, Line(cmd)), Attempt(ChatCommand, Line(cmd)[1..])]
  }

  /** Whether an attempt returns normally. bot.chat returns unless it throws;
      the raw writes go through optional chaining, so with no protocol
      client they return normally without sending anything. */
  predicate Returns(bot: Bot, a: Attempt) {
    if a.channel == Chat then !bot.throws(Chat) else !bot.hasClient || !bot.throws(a.channel)
  }

  /** sendSlashCommand, written out branch by branch. */
  function SendSlash(bot: Bot, cmd: string): (r: Sent)
    // it ends at bot.chat exactly when bot.chat exists and does not throw
    ensures (r.ended.Some? && r.ended.value.channel == Chat) <==> bot.hasChat && !bot.throws(Chat)
    // it never gives up while a raw write could still return
    ensures r.ended.None? <==> bot.hasClient && bot.throws(ChatMessage) && bot.throws(ChatCommand) && (!bot.hasChat || bot.throws(Chat))
    // the chat_command packet carries exactly the command text
    ensures forall i :: 0 <= i < |r.tried| && r.tried[i].channel == ChatCommand ==> r.tried[i].text == cmd
  {
    var line := Line(cmd);
    if bot.hasChat && !bot.throws(Chat) then
      Sent([Attempt(Chat, line)], Some(Attempt(Chat, line)))
    else
      var pre := if bot.hasChat then [Attempt(Chat, line)] else [];
      if !bot.hasClient || !bot.throws(ChatMessage) then
        Sent(pre + [Attempt(ChatMessage, line)], Some(Attempt(ChatMessage, line)))
      else if !bot.hasClient || !bot.throws(ChatCommand) then
        Sent(pre + [Attempt(ChatMessage, line), Attempt(ChatCommand, line[1..])], Some(Attempt(ChatCommand, line[1..])))
      else
        Sent(pre + [Attempt(ChatMessage, line), Attempt(ChatCommand, line[1..])], None)
  }

  /** sendSlashCommand is the ordered fallback over its three strategies. */
  lemma SendSlashIsFallback(bot: Bot, cmd: string)
    ensures SendSlash(bot, cmd) == TryInOrder(Candidates(bot, cmd), a => Returns(bot, a))
  {
    var ok := a => Returns(bot, a);
    var cs := Candidates(bot, cmd);
    var line := Line(cmd);
    var raw := [Attempt(ChatMessage, line), Attempt(ChatCommand, line[1..])];
    assert raw[1..] == [Attempt(ChatCommand, line[1..])];
    assert raw[1..][1..] == [];
    if bot.hasChat {
      assert cs == [Attempt(Chat, line)] + raw;
      assert cs[1..] == raw;
    } else {
      assert cs == raw;
    }
  }

  // ---------------------------------------------------------------------
  // CommandQueue
  // ---------------------------------------------------------------------

  /** What a queued action does: send a slash command (chatCommand, whose
      body never throws because sendSlashCommand catches every failure),
      or run some other action that may throw. */
  datatype Action = Slash(cmd: string) | Other(name: string, throws: bool)

  /** A pushed action with the pause that follows it. */
  datatype Job = Job(action: Action, delay: nat)

  /** What became of a job when its turn came: its body ran (and threw or
      not, then the lane paused for its delay), or the lane was dead and
      the job was passed over without running or pausing. */
  datatype Outcome = Executed(job: Job, threw: bool) | Skipped(job: Job)

  /** The lane: the alive flag, the jobs waiting their turn and the log of
      jobs whose turn has come. */
  datatype Queue = Queue(alive: bool, pending: seq<Job>, done: seq<Outcome>)

  /** What can happen to the lane: a push, the connection ending (the
      `end`, `kicked` and `error` events), or the next job taking its turn. */
  datatype Event = Push(job: Job) | Kill | RunNext

  function Throws(a: Action): bool {
    match a
    case Slash(_) => false
    case Other(_, t) => t
  }

  /** A new lane: alive, empty. */
  function Fresh(): Queue {
    Queue(true, [], [])
  }

  function Step(q: Queue, e: Event): (q': Queue)
    // the alive flag only ever goes from true to false
    ensures q'.alive ==> q.alive
    // the log only grows, by at most one outcome
    ensures |q.done| <= |q'.done| <= |q.done| + 1 && q'.done[..|q.done|] == q.done
    // an outcome logged on a dead lane is a skip; on a live one the body ran
    ensures |q'.done| > |q.done| ==> (q'.done[|q.done|].Skipped? <==> !q.alive)
    // a kill stops the lane and touches neither its pending jobs nor its log
    ensures e.Kill? ==> !q'.alive && q'.pending == q.pending && q'.done == q.done
    // a push appends the job to the pending jobs and runs nothing
    ensures e.Push? ==> q'.pending == q.pending + [e.job] && q'.done == q.done && q'.alive == q.alive
  {
    match e
    case Push(j) => q.(pending := q.pending + [j])
    case Kill => q.(alive := false)
    case RunNext =>
      if q.pending == [] then q
      else
        var j := q.pending[0];
        var o := if q.alive then Executed(j, Throws(j.action)) else Skipped(j);
        q.(pending := q.pending[1..], done := q.done + [o])
  }

  function Steps(q: Queue, es: seq<Event>): Queue
    decreases |es|
  {
    if es == [] then q else Steps(Step(q, es[0]), es[1..])
  }

  /** The job each outcome is about. */
  function Jobs(os: seq<Outcome>): (js: seq<Job>)
    ensures |js| == |os| && forall i :: 0 <= i < |os| ==> js[i] == os[i].job
  {
    if os == [] then [] else Jobs(os[..|os| - 1]) + [os[|os| - 1].job]
  }

  /** The jobs pushed by a sequence of events, in order. */
  function Pushed(es: seq<Event>): seq<Job>
    decreases |es|
  {
    if es == [] then [] else (if es[0].Push? then [es[0].job] else []) + Pushed(es[1..])
  }

  lemma JobsAppend(os: seq<Outcome>, o: Outcome)
    ensures Jobs(os + [o]) == Jobs(os) + [o.job]
  {
    assert (os + [o])[..|os|] == os;
  }

  /** One event keeps the done-then-pending order, adding a pushed job at the end. */
  lemma StepFifo(q: Queue, e: Event)
    ensures Jobs(Step(q, e).done) + Step(q, e).pending == Jobs(q.done) + q.pending + (if e.Push? then [e.job] else [])
  {
    if e.RunNext? && q.pending != [] {
      var q1 := Step(q, e);
      JobsAppend(q.done, q1.done[|q.done|]);
      assert q.pending == [q.pending[0]] + q.pending[1..];
    }
  }

  /** Actions take their turns in push order: at every point the jobs whose
      turn came, followed by the jobs still waiting, are exactly the jobs
      ever pushed, in push order. */
  lemma {:induction false} FifoOrder(q: Queue, es: seq<Event>)
    ensures Jobs(Steps(q, es).done) + Steps(q, es).pending == Jobs(q.done) + q.pending + Pushed(es)
    decreases |es|
  {
    if es != [] {
      var q1 := Step(q, es[0]);
      var head := if es[0].Push? then [es[0].job] else [];
      StepFifo(q, es[0]);
      FifoOrder(q1, es[1..]);
      assert Pushed(es) == head + Pushed(es[1..]);
      assert Jobs(q.done) + q.pending + head + Pushed(es[1..]) == Jobs(q.done) + q.pending + Pushed(es);
    }
  }

  /** Once the connection is gone the lane stays dead and every later turn
      is a skip: no action body runs again. */
  lemma {:induction false} DeadStaysDead(q: Queue, es: seq<Event>)
    requires !q.alive
    ensures var q' := Steps(q, es);
      && !q'.alive
      && |q.done| <= |q'.done| && q'.done[..|q.done|] == q.done
      && forall i :: |q.done| <= i < |q'.done| ==> q'.done[i].Skipped?
    decreases |es|
  {
    if es != [] {
      var q1 := Step(q, es[0]);
      DeadStaysDead(q1, es[1..]);
      var q' := Steps(q1, es[1..]);
      assert q'.done[..|q1.done|][..|q.done|] == q'.done[..|q.done|];
      forall i | |q.done| <= i < |q'.done| ensures q'.done[i].Skipped? {
        if i < |q1.done| {
          assert q'.done[i] == q'.done[..|q1.done|][i];
        }
      }
    }
  }

  /** Running every waiting job in turn. */
  function Drain(q: Queue): Queue
    decreases |q.pending|
  {
    if q.pending == [] then q else Drain(Step(q, RunNext))
  }

  /** On a live lane every waiting job runs, in order, whether or not
      earlier ones threw: a throwing action does not stop the ones after it. */
  lemma {:induction false} LiveDrainRunsAll(q: Queue)
    requires q.alive
    ensures var q' := Drain(q);
      && q'.alive && q'.pending == []
      && |q'.done| == |q.done| + |q.pending| && q'.done[..|q.done|] == q.done
      && forall i :: 0 <= i < |q.pending| ==> q'.done[|q.done| + i] == Executed(q.pending[i], Throws(q.pending[i].action))
    decreases |q.pending|
  {
    if q.pending != [] {
      var q1 := Step(q, RunNext);
      LiveDrainRunsAll(q1);
      var q' := Drain(q1);
      assert q'.done[..|q1.done|][..|q.done|] == q'.done[..|q.done|];
      assert q'.done[|q.done|] == q'.done[..|q1.done|][|q.done|];
      forall i | 1 <= i < |q.pending| ensures q'.done[|q.done| + i] == Executed(q.pending[i], Throws(q.pending[i].action)) {
        assert q.pending[i] == q1.pending[i - 1];
      }
    }
  }

  /** chatCommand: a job that sends `cmd` as a slash command. */
  function ChatCommandJob(cmd: string, delay: nat): (j: Job)
    ensures j.action == Slash(cmd) && j.delay == delay
    ensures !Throws(j.action)
  {
    Job(Slash(cmd), delay)
  }

  /** Why a slash job never throws into the lane: sendSlashCommand has an
      answer for every bot, and a send that fails on every channel is an
      answer too (no ending attempt, every strategy tried), not a raise. */
  lemma SendSlashFailureIsData(bot: Bot, cmd: string)
    ensures var r := SendSlash(bot, cmd);
      r.ended.None? ==> r.tried == Candidates(bot, cmd) && forall i :: 0 <= i < |r.tried| ==> !Returns(bot, r.tried[i])
  {
    SendSlashIsFallback(bot, cmd);
  }

  /** A chatCommand pushed on a live, idle lane runs on its turn, sending
      its command, and is logged as not having thrown whatever the bot does. */
  lemma ChatCommandRuns(q: Queue, cmd: string, delay: nat)
    requires q.alive && q.pending == []
    ensures Drain(Step(q, Push(ChatCommandJob(cmd, delay)))).done == q.done + [Executed(Job(Slash(cmd), delay), false)]
  {
    var q1 := Step(q, Push(ChatCommandJob(cmd, delay)));
    LiveDrainRunsAll(q1);
  }

  /** The total pause a log accounts for: executed jobs pause for their
      delay, skipped ones do not pause at all. */
  function Waited(os: seq<Outcome>): nat {
    if os == [] then 0
    else Waited(os[..|os| - 1]) + (if os[|os| - 1].Executed? then os[|os| - 1].job.delay else 0)
  }

  /** After the connection is gone the lane adds no further pauses. */
  lemma {:induction false} DeadAddsNoWait(q: Queue, es: seq<Event>)
    requires !q.alive
    ensures Waited(Steps(q, es).done) == Waited(q.done)
  {
    DeadStaysDead(q, es);
    SkipsAddNoWait(q.done, Steps(q, es).done);
  }

  lemma {:induction false} SkipsAddNoWait(pre: seq<Outcome>, all: seq<Outcome>)
    requires |pre| <= |all| && all[..|pre|] == pre
    requires forall i :: |pre| <= i < |all| ==> all[i].Skipped?
    ensures Waited(all) == Waited(pre)
    decreases |all|
  {
    if |all| > |pre| {
      var init := all[..|all| - 1];
      assert init[..|pre|] == pre;
      SkipsAddNoWait(pre, init);
    } else {
      assert all == pre;
    }
  }
}
