/**
 The resumable interpreter that switches the channel: three tables of commands, each ended by
 an End command, run one command at a time from the stage and step it has reached.
 */
module ChannelSwitch {

  datatype CmdId = End | SetTxPowerLevel | BbRegWrite10 | WritePortUlong | WritePortUshort | WritePortUchar | RfWriteReg

  datatype Cmd = Cmd(id: CmdId, para1: nat, para2: nat, delay: nat)

  const END := Cmd(End, 0, 0, 0)

  // What a command does to the hardware, in order.
  datatype Effect =
    | TxPower(channel: nat)
    | PortWrite(bytes: nat, addr: nat, value: nat)
    | RfWrite(path: nat, reg: nat, data: nat)

  datatype RfChip = Rf8225 | Rf8256 | UnknownChip

  const VERSION_8190_BD := 3
  const CHANNEL_REGISTER := 7

  const ZEBRA_TABLE: seq<nat> :=
    [0, 0x085c, 0x08dc, 0x095c, 0x09dc, 0x0a5c, 0x0adc, 0x0b5c, 0x0bdc, 0x0c5c, 0x0cdc, 0x0d5c, 0x0ddc, 0x0e5c, 0x0f72]

  datatype Tables = Tables(pre: seq<Cmd>, rf: seq<Cmd>, post: seq<Cmd>)

  ghost predicate Ended(t: seq<Cmd>) {
    exists i :: 0 <= i < |t| && t[i].id.End?
  }

  ghost predicate AllEnded(t: Tables) {
    Ended(t.pre) && Ended(t.rf) && Ended(t.post)
  }

  // The commands before the first End.
  function Body(t: seq<Cmd>): (b: seq<Cmd>)
    ensures |b| <= |t| && b == t[..|b|]
    ensures forall i :: 0 <= i < |b| ==> !b[i].id.End?
    ensures |b| < |t| ==> t[|b|].id.End?
  {
    if t == [] || t[0].id.End? then [] else [t[0]] + Body(t[1..])
  }

  lemma EndedBody(t: seq<Cmd>)
    requires Ended(t)
    ensures |Body(t)| < |t|
  {
    assert |Body(t)| == |t| ==> Body(t) == t;
  }

  function TableOf(t: Tables, stage: nat): seq<Cmd> {
    if stage == 0 then t.pre else if stage == 1 then t.rf else t.post
  }

  // Where the interpreter may be: within the body of the table of its stage, or at its end.
  ghost predicate At(t: Tables, stage: nat, step: nat) {
    stage <= 2 && step <= |Body(TableOf(t, stage))|
  }

  // What is still to be done from there, the three tables one after the other.
  function Rest(t: Tables, stage: nat, step: nat): (r: seq<Cmd>)
    requires At(t, stage, step)
    decreases 2 - stage
  {
    var b := Body(TableOf(t, stage))[step..];
    if stage == 2 then b else b + Rest(t, stage + 1, 0)
  }

  lemma RestAtStart(t: Tables)
    ensures Rest(t, 0, 0) == Body(t.pre) + Body(t.rf) + Body(t.post)
  {
    assert Rest(t, 2, 0) == Body(t.post) && Rest(t, 1, 0) == Body(t.rf) + Rest(t, 2, 0);
  }

  lemma BodyAt(t: seq<Cmd>, step: nat)
    requires Ended(t) && step <= |Body(t)|
    ensures step < |t|
    ensures t[step].id.End? ==> Body(t)[step..] == []
    ensures !t[step].id.End? ==> step < |Body(t)| && Body(t)[step..] == [t[step]] + Body(t)[step + 1..]
  {
    EndedBody(t);
    hide Body;
    assert step < |Body(t)| ==> Body(t)[step] == t[step];
  }

  // The command at hand is the first of what is still to be done; an End leads to the next table.
  lemma RestHere(t: Tables, stage: nat, step: nat)
    requires AllEnded(t) && At(t, stage, step)
    ensures step < |TableOf(t, stage)|
    ensures var c := TableOf(t, stage)[step];
      && (c.id.End? && stage == 2 ==> Rest(t, stage, step) == [])
      && (c.id.End? && stage < 2 ==> At(t, stage + 1, 0) && Rest(t, stage, step) == Rest(t, stage + 1, 0))
      && (!c.id.End? ==> At(t, stage, step + 1) && Rest(t, stage, step) == [c] + Rest(t, stage, step + 1))
  {
    var table := TableOf(t, stage);
    BodyAt(table, step);
    RestIs(t, stage, step);
    if table[step].id.End? {
      hide *;
    } else {
      RestIs(t, stage, step + 1);
      if stage < 2 {
        Regroup(table[step], Body(table)[step + 1..], Rest(t, stage + 1, 0));
      }
      hide *;
    }
  }

  lemma RestIs(t: Tables, stage: nat, step: nat)
    requires At(t, stage, step)
    ensures stage == 2 ==> Rest(t, stage, step) == Body(TableOf(t, stage))[step..]
    ensures stage < 2 ==>
      At(t, stage + 1, 0) && Rest(t, stage, step) == Body(TableOf(t, stage))[step..] + Rest(t, stage + 1, 0)
    ensures stage < 2 ==> [] + Rest(t, stage + 1, 0) == Rest(t, stage + 1, 0)
  {
    hide Body, TableOf;
  }

  lemma Regroup(c: Cmd, b: seq<Cmd>, r: seq<Cmd>)
    ensures ([c] + b) + r == [c] + (b + r)
  {
  }

  function RfWrites(paths: nat, reg: nat, data: nat): (r: seq<Effect>)
    ensures |r| == paths && forall p :: 0 <= p < paths ==> r[p] == RfWrite(p, reg, data)
  {
    seq(paths, p requires 0 <= p < paths => RfWrite(p, reg, data))
  }

  // The board: its chip revision and how many RF paths it has.
  datatype Board = Board(icCut: nat, paths: nat)

  function Execute(c: Cmd, channel: nat, board: Board): seq<Effect> {
    match c.id
    case SetTxPowerLevel => if board.icCut > VERSION_8190_BD then [TxPower(channel)] else []
    case WritePortUlong => [PortWrite(4, c.para1, c.para2)]
    case WritePortUshort => [PortWrite(2, c.para1, c.para2 % 0x1_0000)]
    case WritePortUchar => [PortWrite(1, c.para1, c.para2 % 0x100)]
    case RfWriteReg => RfWrites(board.paths, c.para1, c.para2 * 128)
    case _ => []
  }

  function ExecuteAll(cs: seq<Cmd>, channel: nat, board: Board): seq<Effect> {
    if cs == [] then [] else Execute(cs[0], channel, board) + ExecuteAll(cs[1..], channel, board)
  }

  // How many of n commands are executed when the driver's "up" flag reads as in `up` after
  // each of them, and true from then on: up to and including the first after which it is down.
  function Executed(n: nat, up: seq<bool>): (k: nat)
    ensures k <= n
    ensures forall i :: 0 <= i < k - 1 && i < |up| ==> up[i]
    ensures k < n ==> 0 < k <= |up| && !up[k - 1]
  {
    if n == 0 then 0
    else if up == [] then n
    else if !up[0] then 1
    else 1 + Executed(n - 1, up[1..])
  }

  lemma {:induction false} ExecuteAllAppend(a: seq<Cmd>, b: seq<Cmd>, channel: nat, board: Board)
    ensures ExecuteAll(a + b, channel, board) == ExecuteAll(a, channel, board) + ExecuteAll(b, channel, board)
  {
    hide Execute;
    if a == [] {
      assert a + b == b;
    } else {
      assert (a + b)[1..] == a[1..] + b;
      ExecuteAllAppend(a[1..], b, channel, board);
    }
  }

  lemma ExecuteAllSnoc(cs: seq<Cmd>, n: nat, channel: nat, board: Board)
    requires n < |cs|
    ensures ExecuteAll(cs[..n + 1], channel, board)
      == ExecuteAll(cs[..n], channel, board) + Execute(cs[n], channel, board)
  {
    assert cs[..n + 1] == cs[..n] + [cs[n]];
    ExecuteAllAppend(cs[..n], [cs[n]], channel, board);
    ExecuteOne(cs[n], channel, board);
  }

  lemma ExecuteNone(cs: seq<Cmd>, channel: nat, board: Board)
    ensures ExecuteAll(cs[..0], channel, board) == [] && cs[0..] == cs
  {
  }

  lemma ExecuteOne(c: Cmd, channel: nat, board: Board)
    ensures ExecuteAll([c], channel, board) == Execute(c, channel, board)
  {
    hide Execute;
    assert [c][1..] == [];
    assert Execute(c, channel, board) + [] == Execute(c, channel, board);
  }

  lemma {:induction false} ExecutedIs(n: nat, total: nat, up: seq<bool>)
    requires n <= total && (forall i :: 0 <= i < n - 1 && i < |up| ==> up[i])
    requires n == total || (0 < n <= |up| && !up[n - 1])
    ensures n == Executed(total, up)
  {
    if total > 0 && up != [] && up[0] {
      ExecutedIs(n - 1, total - 1, up[1..]);
    }
  }

  // ---- The tables of one channel ----

  predicate HasTables(chip: RfChip, channel: nat) {
    !chip.UnknownChip? && 1 <= channel <= 14
  }

  // What the channel register takes: an RF8256 the channel number, an RF8225 the entry of its table.
  function Tuning(chip: RfChip, channel: nat): nat
    requires HasTables(chip, channel)
  {
    if chip.Rf8225? then ZEBRA_TABLE[channel] else channel
  }

  function TablesFor(chip: RfChip, channel: nat): Tables
    requires HasTables(chip, channel)
  {
    var tune := Cmd(RfWriteReg, CHANNEL_REGISTER, Tuning(chip, channel), 10);
    Tables([Cmd(SetTxPowerLevel, 0, 0, 0), END], [tune, END], [END])
  }

  lemma TablesEnd(chip: RfChip, channel: nat)
    requires HasTables(chip, channel)
    ensures AllEnded(TablesFor(chip, channel))
  {
    var t := TablesFor(chip, channel);
    assert t.pre[1].id.End? && t.rf[1].id.End? && t.post[0].id.End?;
  }

  lemma BodyOne(c: Cmd)
    requires !c.id.End?
    ensures Body([c, END]) == [c] && Body([END]) == []
  {
    assert [c, END][1..] == [END];
  }

  // The commands besides those of the tables below: a port write takes the low 8, 16 or 32 bits of
  // its second parameter to the port of the first, and the other commands write nothing.
  lemma PortWrites(c: Cmd, channel: nat, board: Board)
    requires c.para2 < 0x1_0000_0000
    ensures forall bytes :: bytes == 1 || bytes == 2 || bytes == 4 ==>
      (Execute(c, channel, board) == [PortWrite(bytes, c.para1, c.para2 % Range(bytes))] <==>
         c.id == if bytes == 1 then WritePortUchar else if bytes == 2 then WritePortUshort else WritePortUlong)
    ensures c.id == BbRegWrite10 || c.id == End ==> Execute(c, channel, board) == []
  {
    assert Range(1) == 0x100 && Range(2) == 0x1_0000 && Range(4) == 0x100 * 0x100 * Range(2);
    var w := RfWrites(board.paths, c.para1, c.para2 * 128);
    assert |w| > 0 ==> w[0].RfWrite?;
  }

  // How many values so many bytes have.
  function Range(bytes: nat): (r: nat)
    ensures r > 0
  {
    if bytes == 0 then 1 else 0x100 * Range(bytes - 1)
  }

  // The channel number for an RF8256; an RF8225 takes steps of 0x80 from 0x085c on for channels 1
  // to 13, and a value of its own for channel 14.
  lemma TuningIs(chip: RfChip, channel: nat)
    requires HasTables(chip, channel)
    ensures chip == Rf8256 ==> Tuning(chip, channel) == channel
    ensures chip == Rf8225 && channel <= 13 ==> Tuning(chip, channel) == 0x085c + 0x80 * (channel - 1)
    ensures chip == Rf8225 && channel == 14 ==> Tuning(chip, channel) == 0x0f72
  {
  }

  // What switching to a channel does: the transmit power, on boards newer than revision BD (3), and
  // then register 7 of every path.
  ghost predicate Tuned(chip: RfChip, channel: nat, board: Board, done: seq<Effect>) {
    var power := if board.icCut > 3 then [TxPower(channel)] else [];
    && (chip == Rf8256 ==> done == power + RfWrites(board.paths, 7, channel * 128))
    && (chip == Rf8225 && channel <= 13 ==>
          done == power + RfWrites(board.paths, 7, (0x085c + 0x80 * (channel - 1)) * 128))
    && (chip == Rf8225 && channel == 14 ==> done == power + RfWrites(board.paths, 7, 0x0f72 * 128))
  }

  lemma ChannelProgram(chip: RfChip, channel: nat, board: Board)
    requires !chip.UnknownChip? && 1 <= channel <= 14
    ensures var t := TablesFor(chip, channel);
      At(t, 0, 0) && |Rest(t, 0, 0)| == 2 && Tuned(chip, channel, board, ExecuteAll(Rest(t, 0, 0), channel, board))
  {
    var t := TablesFor(chip, channel);
    var a, b := Cmd(SetTxPowerLevel, 0, 0, 0), Cmd(RfWriteReg, CHANNEL_REGISTER, Tuning(chip, channel), 10);
    TuningIs(chip, channel);
    hide Tuning;
    BodyOne(a);
    BodyOne(b);
    RestAtStart(t);
    assert Rest(t, 0, 0) == [a] + [b] == [a, b];
    ExecuteAllAppend([a], [b], channel, board);
    ExecuteOne(a, channel, board);
    ExecuteOne(b, channel, board);
  }

  datatype WirelessMode = ModeA | ModeB | ModeG | ModeN24 | ModeN5 | OtherMode

  predicate FitsMode(mode: WirelessMode, channel: nat) {
    match mode
    case ModeA | ModeN5 => channel > 14
    case ModeB | ModeG | ModeN24 => channel <= 14
    case OtherMode => true
  }

  class Switcher {
    const board: Board
    const chip: RfChip
    var stage: nat
    var step: nat
    var log: seq<Effect>
    var inProgress: bool
    var chan: nat

    constructor (b: Board, c: RfChip)
      ensures board == b && chip == c && stage == 0 && step == 0 && log == [] && !inProgress
    {
      board, chip, stage, step, log, inProgress, chan := b, c, 0, 0, [], false, 1;
    }

    // The loop of rtl8192_phy_SwChnlStepByStep: run the next command, or find that none is left.
    method RunNext(t: Tables, channel: nat) returns (done: bool, delay: nat)
      requires AllEnded(t) && stage <= 2 && At(t, stage, step)
      modifies this`stage, this`step, this`log
      ensures stage <= 2 && At(t, stage, step)
      ensures var todo := old(Rest(t, stage, step));
        && done == (todo == [])
        && (done ==> log == old(log) && Rest(t, stage, step) == [] && delay == 0)
        && (!done ==>
              log == old(log) + Execute(todo[0], channel, board) && Rest(t, stage, step) == todo[1..]
              && delay == todo[0].delay)
    {
      hide Execute, Rest, At, AllEnded;
      while true
        invariant stage <= 2 && At(t, stage, step)
        invariant Rest(t, stage, step) == old(Rest(t, stage, step)) && log == old(log)
        decreases 2 - stage
      {
        RestHere(t, stage, step);
        var current := TableOf(t, stage)[step];
        if current.id == End {
          if stage == 2 {
            return true, 0;
          }
          stage := stage + 1;
          step := 0;
        } else {
          Perform(current, channel);
          step := step + 1;
          return false, current.delay;
        }
      }
    }

    method Perform(c: Cmd, channel: nat)
      modifies this`log
      ensures log == old(log) + Execute(c, channel, board)
    {
      match c.id {
        case SetTxPowerLevel =>
          if board.icCut > VERSION_8190_BD {
            log := log + [TxPower(channel)];
          }
        case WritePortUlong => log := log + [PortWrite(4, c.para1, c.para2)];
        case WritePortUshort => log := log + [PortWrite(2, c.para1, c.para2 % 0x1_0000)];
        case WritePortUchar => log := log + [PortWrite(1, c.para1, c.para2 % 0x100)];
        case RfWriteReg =>
          var path := 0;
          while path < board.paths
            invariant path <= board.paths
            invariant log == old(log) + RfWrites(board.paths, c.para1, c.para2 * 128)[..path]
          {
            log := log + [RfWrite(path, c.para1, c.para2 * 128)];
            path := path + 1;
          }
        case _ =>
      }
    }

    // Repeating it while the driver is up runs the commands still to be done, in order.
    method RunAll(t: Tables, channel: nat, up: seq<bool>)
      requires AllEnded(t) && stage <= 2 && At(t, stage, step)
      modifies this`stage, this`step, this`log
      ensures stage <= 2 && At(t, stage, step)
      ensures var todo := old(Rest(t, stage, step));
        var n := Executed(|todo|, up);
        log == old(log) + ExecuteAll(todo[..n], channel, board) && Rest(t, stage, step) == todo[n..]
    {
      hide Execute, Rest, At, AllEnded, ExecuteAll, Executed;
      ghost var todo := Rest(t, stage, step);
      var n := 0;
      ExecuteNone(todo, channel, board);
      while true
        invariant stage <= 2 && At(t, stage, step) && n <= |todo|
        invariant Rest(t, stage, step) == todo[n..] && log == old(log) + ExecuteAll(todo[..n], channel, board)
        invariant forall i :: 0 <= i < n && i < |up| ==> up[i]
        decreases |todo| - n
      {
        var done, delay := RunNext(t, channel);
        if done {
          break;
        }
        ExecuteAllSnoc(todo, n, channel, board);
        n := n + 1;
        if n <= |up| && !up[n - 1] {
          break;
        }
      }
      ExecutedIs(n, |todo|, up);
    }

    // rtl8192_phy_SwChnlStepByStep: nothing for a channel the regulations exclude; no progress
    // for one the radio does not have.
    method SwChnlStepByStep(channel: nat, legal: bool) returns (done: bool, delay: nat)
      requires HasTables(chip, channel) ==> stage <= 2 && At(TablesFor(chip, channel), stage, step)
      modifies this`stage, this`step, this`log
      ensures HasTables(chip, channel) ==> stage <= 2 && At(TablesFor(chip, channel), stage, step)
      ensures !legal ==> done && stage == old(stage) && step == old(step) && log == old(log)
      ensures legal && !HasTables(chip, channel) ==>
        !done && stage == old(stage) && step == old(step) && log == old(log)
      ensures legal && HasTables(chip, channel) ==>
        var t := TablesFor(chip, channel);
        var todo := old(Rest(t, stage, step));
        && done == (todo == [])
        && (done ==> log == old(log) && Rest(t, stage, step) == [])
        && (!done ==> log == old(log) + Execute(todo[0], channel, board) && Rest(t, stage, step) == todo[1..])
    {
      if !legal {
        return true, 0;
      }
      if !HasTables(chip, channel) {
        return false, 0;
      }
      TablesEnd(chip, channel);
      done, delay := RunNext(TablesFor(chip, channel), channel);
    }

    // rtl8192_phy_FinishSwChnlNow; `up` is what the driver's "up" flag reads after each command, and
    // true from then on. A legal channel the radio does not have is tried for as long as the driver
    // is up, so the loop only ends if it goes down.
    method FinishSwChnlNow(channel: nat, legal: bool, up: seq<bool>)
      requires HasTables(chip, channel) ==> stage <= 2 && At(TablesFor(chip, channel), stage, step)
      requires legal && !HasTables(chip, channel) ==> false in up
      modifies this`stage, this`step, this`log
      ensures !legal || !HasTables(chip, channel) ==> log == old(log)
      ensures legal && HasTables(chip, channel) ==>
        var todo := old(Rest(TablesFor(chip, channel), stage, step));
        log == old(log) + ExecuteAll(todo[..Executed(|todo|, up)], channel, board)
    {
      if legal && HasTables(chip, channel) {
        TablesEnd(chip, channel);
        RunAll(TablesFor(chip, channel), channel, up);
      } else {
        Retry(channel, legal, up);
      }
    }

    // The same loop where no turn of it makes progress.
    method Retry(channel: nat, legal: bool, up: seq<bool>)
      requires legal ==> !HasTables(chip, channel) && false in up
      requires HasTables(chip, channel) ==> stage <= 2 && At(TablesFor(chip, channel), stage, step)
      modifies this`stage, this`step, this`log
      ensures log == old(log) && stage == old(stage) && step == old(step)
    {
      var k := 0;
      while true
        invariant k <= |up| && (legal ==> forall i :: 0 <= i < k ==> up[i])
        invariant log == old(log) && stage == old(stage) && step == old(step)
        decreases |up| - k
      {
        var done, delay := SwChnlStepByStep(channel, legal);
        if done {
          return;
        }
        assert k < |up|;
        if !up[k] {
          return;
        }
        k := k + 1;
      }
    }

    // rtl8192_phy_SwChnl, whether the driver is up when it is called or not. A radio of a known type
    // has channels 1 to 14; channel 0 stands for 1.
    method SwChnl(channel: nat, mode: WirelessMode, legal: bool, isUp: bool, up: seq<bool>) returns (ok: bool)
      requires legal && !HasTables(chip, if channel == 0 then 1 else channel) ==> false in up
      modifies this
      ensures ok == (isUp && !old(inProgress)
                     && (mode == ModeA || mode == ModeN5 ==> channel > 14)
                     && (mode == ModeB || mode == ModeG || mode == ModeN24 ==> channel <= 14))
      ensures inProgress == old(inProgress)
      ensures !ok ==> log == old(log) && chan == old(chan)
      ensures var c := if channel == 0 then 1 else channel;
        && (ok ==> chan == c)
        && (ok && (!legal || chip.UnknownChip? || c > 14) ==> log == old(log))
        && (ok && legal && !chip.UnknownChip? && c <= 14 ==>
              var t := TablesFor(chip, c);
              At(t, 0, 0) && log == old(log) + ExecuteAll(Rest(t, 0, 0)[..Executed(|Rest(t, 0, 0)|, up)], c, board))
        && (ok && legal && !chip.UnknownChip? && c <= 14 && false !in up ==>
              |old(log)| <= |log| && old(log) == log[..|old(log)|] && Tuned(chip, c, board, log[|old(log)|..]))
    {
      if !isUp || inProgress || !FitsMode(mode, channel) {
        return false;
      }
      inProgress := true;
      var c := if channel == 0 then 1 else channel;
      chan := c;
      stage := 0;
      step := 0;
      if HasTables(chip, c) {
        WholeProgram(chip, c, board, up);
      }
      hide ExecuteAll, TablesFor, Rest, At, Tuned, RfWrites, Executed;
      FinishSwChnlNow(c, legal, up);
      inProgress := false;
      return true;
    }
  }

  // While the driver stays up, all of it is done.
  lemma WholeProgram(chip: RfChip, c: nat, board: Board, up: seq<bool>)
    requires HasTables(chip, c)
    ensures var t := TablesFor(chip, c);
      && At(t, 0, 0)
      && (false !in up ==> Tuned(chip, c, board, ExecuteAll(Rest(t, 0, 0)[..Executed(|Rest(t, 0, 0)|, up)], c, board)))
  {
    ChannelProgram(chip, c, board);
    var todo := Rest(TablesFor(chip, c), 0, 0);
    assert todo[..|todo|] == todo;
  }
}
