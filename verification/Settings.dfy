/** What a batch of commands leaves in the view, told by the commands alone. */
module Settings {
  import opened Bytes
  import opened Model
  import opened Radio

  /** The argument of the last command that sets something, or the old value. */
  function Latest<T>(cmds: seq<Command>, argument: Command -> Option<T>, was: T): T {
    if cmds == [] then was
    else if argument(cmds[|cmds| - 1]).Some? then argument(cmds[|cmds| - 1]).value
    else Latest(cmds[..|cmds| - 1], argument, was)
  }

  lemma {:induction false} LatestIs<T>(cmds: seq<Command>, argument: Command -> Option<T>, was: T)
    ensures var value := Latest(cmds, argument, was);
            || (value == was && forall i :: 0 <= i < |cmds| ==> argument(cmds[i]).None?)
            || (exists i :: 0 <= i < |cmds| && argument(cmds[i]) == Some(value)
                            && forall j :: i < j < |cmds| ==> argument(cmds[j]).None?)
  {
    if cmds != [] {
      var last := |cmds| - 1;
      LatestIs(cmds[..last], argument, was);
      assert forall i :: 0 <= i < last ==> cmds[..last][i] == cmds[i];
    }
  }

  lemma LatestLast<T>(before: seq<Command>, c: Command, argument: Command -> Option<T>, was: T)
    ensures Latest(before + [c], argument, was)
            == if argument(c).Some? then argument(c).value else Latest(before, argument, was)
  {
    assert (before + [c])[..|before|] == before;
  }

  function SfOf(c: Command): Option<u8> { if c.SetSf? then Some(c.sf) else None }
  function IntervalOf(c: Command): Option<u64> { if c.SetIntervalMs? then Some(c.ms) else None }
  function ModeOf(c: Command): Option<SimMode> { if c.SetMode? then Some(c.mode) else None }
  function DestOf(c: Command): Option<u32> { if c.SetTxDest? then Some(c.dest) else None }
  function AutoOf(c: Command): Option<bool> { if c.SetAutoTx? then Some(c.auto) else None }
  function RunningOf(c: Command): Option<bool> { if c.SetRunning? then Some(c.running) else None }
  function UhdOf(c: Command): Option<bool> { if c.SetUhdEnabled? then Some(c.on) else None }
  function ArgsOf(c: Command): Option<string> { if c.SetUhdArgs? then Some(c.args) else None }

  /** The typed messages among the commands, in order. */
  function TextsOf(cmds: seq<Command>): seq<Text> {
    if cmds == [] then []
    else TextsOf(cmds[..|cmds| - 1]) + if cmds[|cmds| - 1].SendText? then [cmds[|cmds| - 1].text] else []
  }

  lemma {:induction false} DrainLast(s: State, cmds: seq<Command>)
    requires cmds != []
    ensures Drain(s, cmds) == Execute(Drain(s, cmds[..|cmds| - 1]), cmds[|cmds| - 1])
    decreases |cmds|
  {
    var last := |cmds| - 1;
    if last > 0 {
      DrainLast(Execute(s, cmds[0]), cmds[1..]);
      assert cmds[1..][..last - 1] == cmds[..last][1..] && cmds[1..][last - 1] == cmds[last];
    } else {
      assert cmds[1..] == [] && cmds[..0] == [];
      assert Drain(Execute(s, cmds[0]), cmds[1..]) == Execute(s, cmds[0]);
    }
  }

  /** Each setting is the argument of the last command that sets it, or what it was. */
  ghost predicate SettingsDrained(v: View, cmds: seq<Command>, v': View) {
    && v'.sf == Latest(cmds, SfOf, v.sf) && v'.intervalMs == Latest(cmds, IntervalOf, v.intervalMs)
    && v'.mode == Latest(cmds, ModeOf, v.mode) && v'.txDest == Latest(cmds, DestOf, v.txDest)
    && v'.autoTx == Latest(cmds, AutoOf, v.autoTx) && v'.running == Latest(cmds, RunningOf, v.running)
    && v'.useUhd == Latest(cmds, UhdOf, v.useUhd) && v'.uhdArgs == Latest(cmds, ArgsOf, v.uhdArgs)
    && v'.nodeId == v.nodeId
  }

  ghost predicate Any(cmds: seq<Command>, kind: Command -> bool) {
    exists i :: 0 <= i < |cmds| && kind(cmds[i])
  }

  predicate ChangesNode(c: Command) { c.SetMode? || c.SetNodeName? }
  predicate SwitchesUhd(c: Command) { c.SetUhdEnabled? }
  predicate TunesUhd(c: Command) { c.SetUhdArgs? || c.SetUhdFreqHz? }

  lemma AnyLast(before: seq<Command>, c: Command, kind: Command -> bool)
    ensures Any(before + [c], kind) <==> Any(before, kind) || kind(c)
  {
    var cmds := before + [c];
    assert cmds[|before|] == c && forall i :: 0 <= i < |before| ==> cmds[i] == before[i];
    assert forall i :: 0 <= i < |cmds| ==> cmds[i] == if i < |before| then before[i] else c;
  }

  lemma NeverSwitched(cmds: seq<Command>, was: bool)
    ensures Any(cmds, SwitchesUhd) || Latest(cmds, UhdOf, was) == was
  {
    LatestIs(cmds, UhdOf, was);
  }

  /**
   The node is to be rebuilt if a mode or name command came; the driver if UHD was switched, or its
   arguments or frequency were set while it was on.
   */
  ghost predicate RequestsDrained(v: View, cmds: seq<Command>, v': View) {
    && (v'.rebuildNodes <==> v.rebuildNodes || Any(cmds, ChangesNode))
    && (v'.rebuildDriver <==> v.rebuildDriver || Any(cmds, SwitchesUhd) || (v.useUhd && Any(cmds, TunesUhd)))
  }

  /** Typed messages join the queue; a reset clears log and counters; nothing else touches them. */
  ghost predicate QueuesDrained(s: State, cmds: seq<Command>, s': State) {
    && s'.view.txQueue == s.view.txQueue + TextsOf(cmds) && s'.texts == s.texts.(applied := s.texts.applied + TextsOf(cmds))
    && (if ResetStats in cmds
        then s'.view.log == [] && s'.view.txCount == 0 && s'.view.rxCount == 0 && s'.hist == [] && s'.rx.since == |s.rx.all|
        else s'.view.log == s.view.log && s'.view.txCount == s.view.txCount && s'.view.rxCount == s.view.rxCount
             && s'.hist == s.hist && s'.rx.since == s.rx.since)
  }

  /** Commands change the view and the history of commands only. */
  ghost predicate OnlyCommanded(s: State, s': State) {
    s' == s.(view := s'.view, hist := s'.hist, texts := s'.texts, rx := s.rx.(since := s'.rx.since))
  }

  lemma SettingsStep(v: View, before: seq<Command>, v': View, c: Command)
    requires SettingsDrained(v, before, v')
    ensures SettingsDrained(v, before + [c], Apply(v', c))
  {
    LatestLast(before, c, SfOf, v.sf);
    LatestLast(before, c, IntervalOf, v.intervalMs);
    LatestLast(before, c, ModeOf, v.mode);
    LatestLast(before, c, DestOf, v.txDest);
    LatestLast(before, c, AutoOf, v.autoTx);
    LatestLast(before, c, RunningOf, v.running);
    LatestLast(before, c, UhdOf, v.useUhd);
    LatestLast(before, c, ArgsOf, v.uhdArgs);
  }

  lemma RequestsStep(v: View, before: seq<Command>, v': View, c: Command)
    requires RequestsDrained(v, before, v') && SettingsDrained(v, before, v')
    ensures RequestsDrained(v, before + [c], Apply(v', c))
  {
    AnyLast(before, c, ChangesNode);
    AnyLast(before, c, SwitchesUhd);
    AnyLast(before, c, TunesUhd);
    NeverSwitched(before, v.useUhd);
  }

  lemma QueuesStep(s: State, before: seq<Command>, s': State, c: Command)
    requires QueuesDrained(s, before, s') && OnlyCommanded(s, s')
    ensures QueuesDrained(s, before + [c], Execute(s', c)) && OnlyCommanded(s, Execute(s', c))
  {
    assert (before + [c])[..|before|] == before;
    assert ResetStats in before + [c] <==> ResetStats in before || c == ResetStats;
  }

  /** What a batch of commands does to the state of the loop. */
  lemma {:induction false} Drained(s: State, cmds: seq<Command>)
    ensures var s' := Drain(s, cmds);
            && SettingsDrained(s.view, cmds, s'.view) && RequestsDrained(s.view, cmds, s'.view)
            && QueuesDrained(s, cmds, s') && OnlyCommanded(s, s')
  {
    if cmds == [] {
      assert s.view.txQueue + [] == s.view.txQueue && s.texts.applied + [] == s.texts.applied;
    } else {
      var (before, c) := (cmds[..|cmds| - 1], cmds[|cmds| - 1]);
      var m := Drain(s, before);
      DrainLast(s, cmds);
      Drained(s, before);
      assert before + [c] == cmds;
      SettingsStep(s.view, before, m.view, c);
      RequestsStep(s.view, before, m.view, c);
      QueuesStep(s, before, m, c);
    }
  }
}
