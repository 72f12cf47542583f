/** Pausing the one miner around a validator's Core replacement, so that no
  * block, and with it no DKG session, falls into it. */
module Mining {
  import opened Claims
  import opened Wrappers

  /** Length of a DKG cycle in blocks. */
  const Cycle: nat := 24

  /** The part of the cycle with no session running. */
  predicate QuietDkg(height: int) {
    height % Cycle >= 13 && height % Cycle <= 23
  }

  /** A session starts with the first block of each cycle. */
  predicate SessionStarts(height: int) {
    height % Cycle == 0
  }

  // ------------------------------------------------------------ the miner

  /** How the network treats the next call: whether a request takes effect,
    * what its caller hears, whether an observation shows Core, and the blocks
    * mined before and after that, as far as the miner runs. */
  datatype Answer = Answer(acts: bool, reply: Reply, core: bool, before: nat, after: nat)

  /** One request to stop or start the miner, and what became of it. */
  datatype Request = Request(on: bool, acted: bool, answered: bool)

  /** The chain, the miner, the requests sent, and the answers still to come.
    * Only the owned miner makes blocks. A process that runs out of answers has
    * died. */
  datatype State = State(height: nat, mining: bool, sent: seq<Request>, answers: seq<Answer>) {

    function Passed(blocks: nat): State {
      if mining then this.(height := height + blocks) else this
    }

    function Answered(): Answer {
      if answers == [] then Answer(false, Killed, false, 0, 0) else answers[0]
    }

    function Rest(): State {
      this.(answers := if answers == [] then [] else answers[1..])
    }
  }

  /** A call that changes nothing. */
  function Ask(s: State): (State, Reply) {
    var a := s.Answered();
    (s.Rest().Passed(a.before).Passed(a.after), a.reply)
  }

  /** The height of the miner's Core at some moment of the call. */
  function Status(s: State): (State, Reply, Option<nat>) {
    var a := s.Answered();
    var seen := s.Rest().Passed(a.before);
    (seen.Passed(a.after), a.reply, if a.reply.Done? && a.core then Some(seen.height) else None)
  }

  /** Stops or starts the miner; a call that is answered has acted. */
  function Switch(s: State, on: bool): (State, Reply) {
    var a := s.Answered();
    var acted := a.acts || a.reply.Done?;
    var now := s.Rest().Passed(a.before);
    (now.(mining := if acted then on else now.mining, sent := now.sent + [Request(on, acted, a.reply.Done?)]).Passed(a.after),
     a.reply)
  }

  /** Waits for the quiet part of the cycle, pauses the miner, and checks the
    * stopped height again: a block mined between the observation and the pause
    * sends it back to waiting. */
  function Pause(s: State): (State, Reply)
    decreases |s.answers|
  {
    var (a, answer, seen) := Status(s);
    if answer.Killed? then (a, Killed)
    else if seen.None? || !QuietDkg(seen.value) then Wait(s, a)
    else
      var (b, stopped) := Switch(a, false);
      if !stopped.Done? then (b, stopped)
      else
        var (c, again, height) := Status(b);
        if again.Killed? then (c, Killed)
        else if height.Some? && QuietDkg(height.value) then (c, Done)
        else
          var (d, started) := Switch(c, true);
          if !started.Done? then (d, started) else Wait(s, d)
  }

  /** The next round, unless the time is up. */
  function Wait(s: State, now: State): (State, Reply)
    requires |now.answers| < |s.answers| || now.answers == []
    decreases |s.answers|, 0
  {
    var (next, waited) := Ask(now);
    if !waited.Done? then (next, waited) else Pause(next)
  }

  /** After the replacement was asked for: a validator that answered gets time to
    * come back. */
  function Settle(s: State, replaced: Reply): (State, Reply) {
    if replaced.Done? then Ask(s) else (s, replaced)
  }

  /** Mining resumes even after a failed replacement. */
  function Resume(s: State, replaced: Reply): (State, Reply) {
    if replaced.Killed? then (s, Killed)
    else
      var (t, resumed) := Switch(s, true);
      (t, if resumed.Done? then replaced else resumed)
  }

  function Conclude(s: State, replaced: Reply): (State, Reply) {
    var (t, settled) := Settle(s, replaced);
    Resume(t, settled)
  }

  /** One validator's Core behind a pause. */
  function Replace(s: State): (State, Reply) {
    var (paused, reply) := Pause(s);
    if !reply.Done? then (paused, reply)
    else
      var (asked, replaced) := Ask(paused);
      Conclude(asked, replaced)
  }

  // -------------------------------------------------------------- the code

  class Network {
    var state: State

    constructor (state: State)
      ensures this.state == state
    {
      this.state := state;
    }

    method Call() returns (reply: Reply)
      modifies this
      ensures (state, reply) == Ask(old(state))
    {
      var a := state.Answered();
      state, reply := state.Rest().Passed(a.before).Passed(a.after), a.reply;
    }

    method CoreStatus() returns (reply: Reply, seen: Option<nat>)
      modifies this
      ensures (state, reply, seen) == Status(old(state))
    {
      var a := state.Answered();
      state := state.Rest().Passed(a.before);
      seen := if a.reply.Done? && a.core then Some(state.height) else None;
      state, reply := state.Passed(a.after), a.reply;
    }

    method SetMining(on: bool) returns (reply: Reply)
      modifies this
      ensures (state, reply) == Switch(old(state), on)
    {
      var a := state.Answered();
      state := state.Rest().Passed(a.before);
      var acted := a.acts || a.reply.Done?;
      state := state.(mining := if acted then on else state.mining, sent := state.sent + [Request(on, acted, a.reply.Done?)]);
      state, reply := state.Passed(a.after), a.reply;
    }

    /** The pausing loop. */
    method PauseMiningQuietly() returns (reply: Reply)
      modifies this
      ensures (state, reply) == Pause(old(state))
    {
      while true
        invariant Pause(old(state)) == Pause(state)
        decreases |state.answers|
      {
        var seen;
        reply, seen := CoreStatus();
        if reply.Killed? {
          return;
        }
        if seen.Some? && QuietDkg(seen.value) {
          reply := SetMining(false);
          if !reply.Done? {
            return;
          }
          reply, seen := CoreStatus();
          if reply.Killed? {
            return;
          }
          if seen.Some? && QuietDkg(seen.value) {
            return Done;
          }
          reply := SetMining(true);
          if !reply.Done? {
            return;
          }
        }
        reply := Call();
        if !reply.Done? {
          return;
        }
      }
    }

    /** What follows the replacement request of a paused network. */
    method ConcludeReplacement(replaced: Reply) returns (reply: Reply)
      modifies this
      ensures (state, reply) == Conclude(old(state), replaced)
    {
      reply := replaced;
      if reply.Done? {
        reply := Call();
      }
      if !reply.Killed? {
        var resumed := SetMining(true);
        if !resumed.Done? {
          reply := resumed;
        }
      }
    }

    method ReplaceQuietly() returns (reply: Reply)
      modifies this
      ensures (state, reply) == Replace(old(state))
    {
      reply := PauseMiningQuietly();
      if reply.Done? {
        reply := Call();
        reply := ConcludeReplacement(reply);
      }
    }
  }

  // ------------------------------------------------------------ main theorems

  /** A successful pause leaves the miner stopped at a quiet height, whatever was
    * mined while it waited. */
  lemma {:induction false} PauseEndsQuiet(s: State)
    requires Pause(s).1.Done?
    ensures !Pause(s).0.mining && QuietDkg(Pause(s).0.height)
    decreases |s.answers|
  {
    var (a, answer, seen) := Status(s);
    if seen.None? || !QuietDkg(seen.value) {
      PauseEndsQuiet(Ask(a).0);
    } else {
      var (b, stopped) := Switch(a, false);
      var (c, again, height) := Status(b);
      if height.None? || !QuietDkg(height.value) {
        PauseEndsQuiet(Ask(Switch(c, true).0).0);
      }
    }
  }

  /** From the success of the pause until mining is asked to resume the height
    * does not change, so the whole replacement lies at one quiet height. */
  lemma ReplacementIsQuiet(s: State)
    requires Pause(s).1.Done?
    ensures var paused := Pause(s).0; var (asked, replaced) := Ask(paused); var settled := Settle(asked, replaced).0;
      !settled.mining && paused.height == asked.height == settled.height && QuietDkg(settled.height)
  {
    PauseEndsQuiet(s);
  }

  /** No session starts at a quiet height; the last one started at least thirteen
    * blocks before, the next one starts within eleven. */
  lemma NoSessionInside(height: int)
    requires QuietDkg(height)
    ensures !SessionStarts(height)
    ensures exists next :: height < next <= height + 11 && SessionStarts(next)
    ensures forall h :: height - 13 < h <= height ==> !SessionStarts(h)
  {
    assert SessionStarts(height + (Cycle - height % Cycle));
  }

  /** Every pause that took effect was followed by a resume that did. */
  predicate Resumed(sent: seq<Request>) {
    forall i :: 0 <= i < |sent| && !sent[i].on && sent[i].acted ==>
      exists j :: i < j < |sent| && sent[j].on && sent[j].acted
  }

  /** The last request left the miner stopped: a pause that took effect although
    * its call failed, or a resume that did not. */
  predicate LeftStopped(sent: seq<Request>) {
    sent != [] && var last := sent[|sent| - 1]; if last.on then !last.acted else last.acted && !last.answered
  }

  /** Whether the miner runs after these requests, if it ran before them. */
  predicate RunsAfter(sent: seq<Request>) {
    if sent == [] then true
    else
      var last := sent[|sent| - 1];
      if last.acted then last.on else RunsAfter(sent[..|sent| - 1])
  }

  lemma {:induction false} RunsAfterIsResumed(sent: seq<Request>)
    ensures RunsAfter(sent) <==> Resumed(sent)
  {
    if sent != [] {
      var front, last := sent[..|sent| - 1], sent[|sent| - 1];
      RunsAfterIsResumed(front);
      if last.acted && !last.on {
        assert sent[|sent| - 1].acted && !sent[|sent| - 1].on;
      } else if last.acted {
        assert sent[|sent| - 1].on && sent[|sent| - 1].acted;
      } else if Resumed(sent) {
        forall i | 0 <= i < |front| && !front[i].on && front[i].acted
          ensures exists j :: i < j < |front| && front[j].on && front[j].acted
        {
          var j :| i < j < |sent| && sent[j].on && sent[j].acted;
          assert front[j] == sent[j];
        }
      } else {
        var i :| 0 <= i < |sent| && !sent[i].on && sent[i].acted
          && !exists j :: i < j < |sent| && sent[j].on && sent[j].acted;
        assert front[i] == sent[i];
      }
    }
  }

  /** The requests account for the miner. */
  predicate Accounted(s: State) {
    s.mining <==> RunsAfter(s.sent)
  }

  lemma SwitchAccounts(s: State, on: bool)
    requires Accounted(s)
    ensures Accounted(Switch(s, on).0)
  {
    var t := Switch(s, on).0;
    assert t.sent[..|t.sent| - 1] == s.sent;
  }

  /** Unless its process died, a pausing loop that began with a running miner
    * fails with it stopped exactly when its last request left it so. */
  lemma {:induction false} PauseAccounts(s: State)
    requires Accounted(s) && s.mining && !LeftStopped(s.sent)
    ensures Accounted(Pause(s).0)
    ensures Pause(s).1.Failed? ==> (Pause(s).0.mining <==> !LeftStopped(Pause(s).0.sent))
    decreases |s.answers|
  {
    var (a, answer, seen) := Status(s);
    if answer.Killed? {
    } else if seen.None? || !QuietDkg(seen.value) {
      WaitAccounts(s, a);
    } else {
      var (b, stopped) := Switch(a, false);
      SwitchAccounts(a, false);
      var (c, again, height) := Status(b);
      if stopped.Done? && !again.Killed? && (height.None? || !QuietDkg(height.value)) {
        var (d, started) := Switch(c, true);
        SwitchAccounts(c, true);
        if started.Done? {
          WaitAccounts(s, d);
        }
      }
    }
  }

  lemma {:induction false} WaitAccounts(s: State, now: State)
    requires |now.answers| < |s.answers| || now.answers == []
    requires Accounted(now) && now.mining && !LeftStopped(now.sent)
    ensures Accounted(Wait(s, now).0)
    ensures Wait(s, now).1.Failed? ==> (Wait(s, now).0.mining <==> !LeftStopped(Wait(s, now).0.sent))
    decreases |s.answers|, 0
  {
    var (next, waited) := Ask(now);
    if waited.Done? {
      PauseAccounts(next);
    }
  }

  /** What follows the request of a paused network leaves the miner stopped
    * exactly when its resume did not take effect, unless the process died. */
  lemma ConcludeAccounts(s: State, replaced: Reply)
    requires Accounted(s) && !s.mining
    ensures var (t, reply) := Conclude(s, replaced);
      && Accounted(t) && (reply.Done? ==> t.mining)
      && (!reply.Killed? ==> (t.mining <==> !LeftStopped(t.sent)))
  {
    SwitchAccounts(Settle(s, replaced).0, true);
  }

  /** Exactly when mining runs after one replacement that began with a running
    * miner. In any case: when every pause that took effect was followed by a
    * resume that did. Unless the process died: when the last request was neither
    * a pause that took effect although its call failed nor a resume that did
    * not take effect. */
  lemma MiningRunsIff(s: State)
    requires s.mining && s.sent == []
    ensures var (t, reply) := Replace(s);
      && (t.mining <==> Resumed(t.sent))
      && (!reply.Killed? ==> (t.mining <==> !LeftStopped(t.sent)))
      && (reply.Done? ==> t.mining)
  {
    var (t, reply) := Replace(s);
    PauseAccounts(s);
    var (paused, stopped) := Pause(s);
    if stopped.Done? {
      PauseEndsQuiet(s);
      var (asked, replaced) := Ask(paused);
      SwitchAccounts(Settle(asked, replaced).0, true);
    }
    RunsAfterIsResumed(t.sent);
  }

  const Quiet: Answer := Answer(true, Done, true, 0, 0)

  /** A pause that takes effect while its call fails: the replacement returns
    * with the miner stopped. */
  lemma FailedPauseStopsMining()
    ensures var s := State(13, true, [], [Quiet, Answer(true, Failed, false, 0, 0)]);
      Replace(s) == (State(13, false, [Request(false, true, false)], []), Failed)
  {
    var s := State(13, true, [], [Quiet, Answer(true, Failed, false, 0, 0)]);
    var (a, _, _) := Status(s);
    assert a == State(13, true, [], [Answer(true, Failed, false, 0, 0)]);
    assert Switch(a, false).0.sent == [Request(false, true, false)];
  }

  /** So does a failed resume inside the loop, here after a block that was mined
    * before the pause ended the quiet part of the cycle. */
  lemma FailedResumeInLoopStopsMining()
    ensures var s := State(23, true, [], [Quiet, Answer(true, Done, false, 1, 0), Quiet, Answer(false, Failed, false, 0, 0)]);
      Replace(s).1.Failed? && !Replace(s).0.mining && Replace(s).0.height == 24
  {
    var s := State(23, true, [], [Quiet, Answer(true, Done, false, 1, 0), Quiet, Answer(false, Failed, false, 0, 0)]);
    var (a, _, _) := Status(s);
    var (b, _) := Switch(a, false);
    assert b.height == 24 && !b.mining;
    var (c, _, seen) := Status(b);
    assert seen == Some(24);
    assert Switch(c, true).1.Failed?;
  }

  /** So does a failed resume after the replacement. */
  lemma FailedFinalResumeStopsMining()
    ensures var s := State(13, true, [], [Quiet, Quiet, Quiet, Quiet, Quiet, Answer(false, Failed, false, 0, 0)]);
      Replace(s).1.Failed? && !Replace(s).0.mining
  {
    var s := State(13, true, [], [Quiet, Quiet, Quiet, Quiet, Quiet, Answer(false, Failed, false, 0, 0)]);
    var (a, _, _) := Status(s);
    var (b, _) := Switch(a, false);
    var (c, _, _) := Status(b);
    assert Pause(s) == (c, Done);
    assert c.answers == [Quiet, Quiet, Answer(false, Failed, false, 0, 0)];
    assert Ask(c).0.answers == [Quiet, Answer(false, Failed, false, 0, 0)];
  }
}
