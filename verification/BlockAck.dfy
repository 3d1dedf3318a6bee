/**
 Block Ack records and the three Block Ack action frames (IEEE 802.11-2012, sections
 8.4.1.14 and 8.5.5.2 to 8.5.5.4), with their byte layout.
 */
module BlockAck {
  import opened Basics
  import opened SequenceNumbers

  type Bit = n: nat | n < 2
  type Nibble = n: nat | n < 16
  type TenBits = n: nat | n < 1024
  type Mac = m: seq<Byte> | |m| == 6 witness [0, 0, 0, 0, 0, 0]

  const ZERO_MAC: Mac := [0, 0, 0, 0, 0, 0]

  const BA_POLICY_DELAYED: Bit := 0
  const BA_POLICY_IMMEDIATE: Bit := 1
  const ADDBA_STATUS_SUCCESS: Word := 0
  const ADDBA_STATUS_REFUSED: Word := 37
  const ADDBA_STATUS_INVALID_PARAM: Word := 38
  const DELBA_REASON_END_BA: Word := 37
  const DELBA_REASON_UNKNOWN_BA: Word := 38
  const DELBA_REASON_TIMEOUT: Word := 39
  const BA_SETUP_TIMEOUT: Word := 200

  const ACT_CAT_BA: Byte := 3
  const ACT_ADDBAREQ: Byte := 0
  const ACT_ADDBARSP: Byte := 1
  const ACT_DELBA: Byte := 2

  datatype BaParam = BaParam(amsdu: Bit, policy: Bit, tid: Nibble, bufferSize: TenBits)

  datatype SeqCtrl = SeqCtrl(frag: Nibble, seqNum: SeqNum)

  const NO_PARAM := BaParam(0, 0, 0, 0)

  // The fields of BA_RECORD; `timer` says whether its timer is pending.
  datatype BaRecord = BaRecord(timer: bool, valid: bool, token: Byte, param: BaParam, timeout: Word, start: SeqCtrl)

  function Activate(ba: BaRecord, time: Word): BaRecord {
    ba.(valid := true, timer := ba.timer || time != 0)
  }

  function DeActivate(ba: BaRecord): BaRecord {
    ba.(valid := false, timer := false)
  }

  // ResetBaEntry: the timer is left as it is.
  function ResetBa(ba: BaRecord): BaRecord {
    BaRecord(ba.timer, false, 0, NO_PARAM, 0, SeqCtrl(0, 0))
  }

  predicate IsMulticast(addr: Mac) {
    addr[0] % 2 == 1
  }

  predicate IsBroadcast(addr: Mac) {
    addr == [0xff, 0xff, 0xff, 0xff, 0xff, 0xff]
  }

  // ---- Frames ----

  datatype Action =
    | AddBaReq(token: Byte, param: BaParam, timeout: Word, start: SeqCtrl)
    | AddBaRsp(token: Byte, status: Word, param: BaParam, timeout: Word)
    | DelBa(initiator: Bit, tid: Nibble, reason: Word)

  datatype Frame = Frame(dst: Mac, action: Action)

  function Le16(w: Word): (r: seq<Byte>)
    ensures |r| == 2
  {
    [w % 0x100, w / 0x100]
  }

  function Get16(s: seq<Byte>, at: nat): (w: Word)
    requires at + 1 < |s|
  {
    var lo: int, hi: int := s[at], s[at + 1];
    lo + 0x100 * hi
  }

  function PackParam(p: BaParam): Word {
    p.amsdu + 2 * p.policy + 4 * p.tid + 64 * p.bufferSize
  }

  function UnpackParam(w: Word): BaParam {
    BaParam(w % 2, w / 2 % 2, w / 4 % 16, w / 64)
  }

  function PackSeq(c: SeqCtrl): Word {
    c.frag + 16 * c.seqNum
  }

  // The body that follows the 24-byte management header.
  function Encode(a: Action): (r: seq<Byte>) {
    match a
    case AddBaReq(token, param, timeout, start) =>
      [ACT_CAT_BA, ACT_ADDBAREQ, token] + Le16(PackParam(param)) + Le16(timeout) + Le16(PackSeq(start))
    case AddBaRsp(token, status, param, timeout) =>
      [ACT_CAT_BA, ACT_ADDBARSP, token] + Le16(status) + Le16(PackParam(param)) + Le16(timeout)
    case DelBa(initiator, tid, reason) =>
      [ACT_CAT_BA, ACT_DELBA] + Le16(2048 * initiator + 4096 * tid) + Le16(reason)
  }

  // rtllib_ADDBA: the frame body, appended field by field.
  method BuildAddBa(ba: BaRecord, status: Word, kind: Byte) returns (tag: seq<Byte>)
    requires kind == ACT_ADDBAREQ || kind == ACT_ADDBARSP
    ensures tag == Encode(if kind == ACT_ADDBAREQ then AddBaReq(ba.token, ba.param, ba.timeout, ba.start)
                          else AddBaRsp(ba.token, status, ba.param, ba.timeout))
    ensures |tag| == 9
  {
    tag := [ACT_CAT_BA];
    tag := tag + [kind];
    tag := tag + [ba.token];
    if kind == ACT_ADDBARSP {
      tag := tag + Le16(status);
    }
    tag := tag + Le16(PackParam(ba.param));
    tag := tag + Le16(ba.timeout);
    if kind == ACT_ADDBAREQ {
      tag := tag + Le16(PackSeq(ba.start));
    }
  }

  // What rtllib_rx_ADDBAReq and rtllib_rx_ADDBARsp read from a body; None when it is too
  // short. The start sequence of a request is read from beyond the frame, so it is not here.
  function ParseReq(body: seq<Byte>): Option<(Byte, BaParam, Word)> {
    if |body| < 9 then None else Some((body[2], UnpackParam(Get16(body, 3)), Get16(body, 5)))
  }

  function ParseRsp(body: seq<Byte>): Option<(Byte, Word, BaParam, Word)> {
    if |body| < 9 then None else Some((body[2], Get16(body, 3), UnpackParam(Get16(body, 5)), Get16(body, 7)))
  }

  lemma ParamRoundTrip(p: BaParam)
    ensures UnpackParam(PackParam(p)) == p
  {
    var w: int := PackParam(p);
    var s: int := p.tid + 16 * p.bufferSize;
    var r: int := p.policy + 2 * s;
    DivMod(2, r, p.amsdu, w);
    DivMod(2, s, p.policy, r);
    DivMod(4, s, p.amsdu + 2 * p.policy, w);
    DivMod(16, p.bufferSize, p.tid, s);
    DivMod(64, p.bufferSize, p.amsdu + 2 * p.policy + 4 * p.tid, w);
  }

  // What one end sends is what the other end reads.
  lemma RequestRoundTrip(token: Byte, param: BaParam, timeout: Word, start: SeqCtrl)
    ensures ParseReq(Encode(AddBaReq(token, param, timeout, start))) == Some((token, param, timeout))
  {
    ParamRoundTrip(param);
    var body := Encode(AddBaReq(token, param, timeout, start));
    assert Get16(body, 3) == PackParam(param) && Get16(body, 5) == timeout;
  }

  lemma ResponseRoundTrip(token: Byte, status: Word, param: BaParam, timeout: Word)
    ensures ParseRsp(Encode(AddBaRsp(token, status, param, timeout))) == Some((token, status, param, timeout))
  {
    ParamRoundTrip(param);
    var body := Encode(AddBaRsp(token, status, param, timeout));
    assert Get16(body, 3) == status && Get16(body, 5) == PackParam(param) && Get16(body, 7) == timeout;
  }

  // ---- The bytes on the air ----

  lemma ParamBytes(p: BaParam)
    ensures Le16(PackParam(p)) == [p.amsdu + 2 * p.policy + 4 * p.tid + 64 * (p.bufferSize % 4), p.bufferSize / 4]
  {
    var low := p.amsdu + 2 * p.policy + 4 * p.tid + 64 * (p.bufferSize % 4);
    DivMod(0x100, p.bufferSize / 4, low, PackParam(p));
  }

  lemma SeqBytes(c: SeqCtrl)
    ensures Le16(PackSeq(c)) == [c.frag + 16 * (c.seqNum % 16), c.seqNum / 16]
  {
    DivMod(0x100, c.seqNum / 16, c.frag + 16 * (c.seqNum % 16), PackSeq(c));
  }

  lemma DelBaBytes(initiator: Bit, tid: Nibble)
    ensures Le16(2048 * initiator + 4096 * tid) == [0, 8 * initiator + 16 * tid]
  {
    DivMod(0x100, 8 * initiator + 16 * tid, 0, 2048 * initiator + 4096 * tid);
  }

  lemma WordBytes(w: Word)
    ensures Le16(w) == [w % 0x100, w / 0x100]
  {
  }

  lemma Joined(a: seq<Byte>, b: seq<Byte>, c: seq<Byte>, d: seq<Byte>)
    requires |a| == 3 && |b| == |c| == |d| == 2
    ensures a + b + c + d == [a[0], a[1], a[2], b[0], b[1], c[0], c[1], d[0], d[1]]
  {
  }

  // Category 3; action 0 for a request, 1 for a response, 2 for a DELBA; then the token, and every
  // 16-bit field with its low byte first. A DELBA names its initiator in bit 11 and its TID in bits
  // 12 to 15.
  lemma FrameBytes(token: Byte, status: Word, p: BaParam, timeout: Word, start: SeqCtrl, initiator: Bit,
                   tid: Nibble, reason: Word)
    ensures var low, high: nat := p.amsdu + 2 * p.policy + 4 * p.tid + 64 * (p.bufferSize % 4), p.bufferSize / 4;
      && Encode(AddBaReq(token, p, timeout, start)) ==
           [3, 0, token, low, high, timeout % 0x100, timeout / 0x100,
            start.frag + 16 * (start.seqNum % 16), start.seqNum / 16]
      && Encode(AddBaRsp(token, status, p, timeout)) ==
           [3, 1, token, status % 0x100, status / 0x100, low, high, timeout % 0x100, timeout / 0x100]
    ensures Encode(DelBa(initiator, tid, reason)) ==
      [3, 2, 0, 8 * initiator + 16 * tid, reason % 0x100, reason / 0x100]
  {
    hide PackParam, PackSeq, Le16;
    ParamBytes(p);
    SeqBytes(start);
    DelBaBytes(initiator, tid);
    WordBytes(timeout);
    WordBytes(status);
    WordBytes(reason);
    var a, b, c := Le16(PackParam(p)), Le16(timeout), Le16(PackSeq(start));
    Joined([ACT_CAT_BA, ACT_ADDBAREQ, token], a, b, c);
    Joined([ACT_CAT_BA, ACT_ADDBARSP, token], Le16(status), a, b);
  }
}
