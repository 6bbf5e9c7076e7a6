/**
 * The two-wire bus as the driver sees it. Every driver access moves exactly one
 * byte (its reads and writes always pass a length of 1), so a transaction is one
 * register read or one register write, which may fail. The chip is a file of
 * sixteen byte registers at 0x80 .. 0x8F. Whether each transaction succeeds
 * comes from an oracle fixed when the bus is created: the set of transaction
 * numbers that fail. Transaction n (the n-th access since the bus was created,
 * counting from 0) succeeds exactly when n is not in that set. A successful write stores its byte, except in the
 * interrupt status register, whose bits are cleared by writing ones to them. A
 * failed write and any read leave the register file unchanged.
 */
module Bus {
  import opened Registers

  /** The chip's sixteen registers, at 0x80 .. 0x8F in order. */
  type RegFile = r: seq<bv8> | |r| == 16
    witness [0, 0, 0, 0, 0, 0, 0, 0, 0, 0, 0, 0, 0, 0, 0, 0]

  /** What the driver asks of the bus: one single-byte register read or write. */
  datatype Request = RegRead(reg: bv8) | RegWrite(reg: bv8, value: bv8)

  /** A request as it went over the bus, with its outcome. */
  datatype Access = Access(req: Request, ok: bool)

  /** Outcome of transaction number `n` under `oracle`. */
  predicate Verdict(oracle: set<nat>, n: nat) {
    n !in oracle
  }

  /** Every access in `log` succeeded. */
  predicate AllOk(log: seq<Access>) {
    forall i :: 0 <= i < |log| ==> log[i].ok
  }

  /** What a register holds after `value` is written over `current`: the status register
      clears the bits written as one and keeps the others, every other register stores the byte. */
  function Stored(reg: bv8, current: bv8, value: bv8): bv8 {
    if reg == INT_STATUS then current & !value else value
  }

  /** Writing ones to the status register clears exactly those bits; any other register
      takes the byte written. */
  lemma StoredClearsStatusBits(reg: bv8, current: bv8, value: bv8)
    ensures var b := Stored(reg, current, value);
      && (reg == INT_STATUS ==> b & value == 0 && b & !value == current & !value)
      && (reg != INT_STATUS ==> b == value)
  {
  }

  /** The register file after one access; only a successful write to one of the sixteen
      registers changes it. */
  function Apply(regs: RegFile, a: Access): (r: RegFile)
  {
    if a.ok && a.req.RegWrite? && InMap(a.req.reg) then
      var i := Index(a.req.reg);
      regs[i := Stored(a.req.reg, regs[i], a.req.value)]
    else regs
  }

  /** The register file after the accesses of `log`, in order. */
  function Commit(regs: RegFile, log: seq<Access>): (r: RegFile)
    decreases |log|
  {
    if log == [] then regs else Apply(Commit(regs, log[..|log| - 1]), log[|log| - 1])
  }

  /** Two accesses in a row take effect one after the other. */
  lemma {:induction false} CommitTwo(regs: RegFile, a: Access, b: Access)
    ensures Commit(regs, [a, b]) == Apply(Apply(regs, a), b)
  {
    assert [a, b][..1] == [a];
    assert [a][..0] == [];
    assert Commit(regs, [a]) == Apply(Commit(regs, []), a);
  }

  /** Committing two logs one after the other is committing their concatenation. */
  lemma {:induction false} CommitAppend(regs: RegFile, l1: seq<Access>, l2: seq<Access>)
    ensures Commit(regs, l1 + l2) == Commit(Commit(regs, l1), l2)
    decreases |l2|
  {
    if l2 != [] {
      var l2' := l2[..|l2| - 1];
      assert (l1 + l2)[..|l1 + l2| - 1] == l1 + l2';
      CommitAppend(regs, l1, l2');
    } else {
      assert l1 + l2 == l1;
    }
  }

  /** A register that no successful write of `log` addresses keeps its value. */
  lemma {:induction false} CommitKeeps(regs: RegFile, log: seq<Access>, reg: bv8)
    requires InMap(reg)
    requires forall i :: 0 <= i < |log| && log[i].ok && log[i].req.RegWrite? ==> log[i].req.reg != reg
    ensures Commit(regs, log)[Index(reg)] == regs[Index(reg)]
    decreases |log|
  {
    if log != [] {
      CommitKeeps(regs, log[..|log| - 1], reg);
    }
  }

  /** A register holds the byte of the last successful write that addresses it. */
  lemma {:induction false} CommitLastWrite(regs: RegFile, log: seq<Access>, k: nat)
    requires k < |log|
    requires log[k].ok && log[k].req.RegWrite? && InMap(log[k].req.reg) && log[k].req.reg != INT_STATUS
    requires forall i :: k < i < |log| && log[i].ok && log[i].req.RegWrite? ==> log[i].req.reg != log[k].req.reg
    ensures Commit(regs, log)[Index(log[k].req.reg)] == log[k].req.value
    decreases |log|
  {
    if k < |log| - 1 {
      CommitLastWrite(regs, log[..|log| - 1], k);
    }
  }

  /**
   * The accesses made by a sequence of requests that stops at the first failure,
   * its first transaction being number `start`. ChainShape states what it holds.
   */
  function Chain(plan: seq<Request>, oracle: set<nat>, start: nat): (log: seq<Access>)
    ensures |log| <= |plan|
    ensures |log| == 0 <==> |plan| == 0
    decreases |plan|
  {
    if plan == [] then []
    else if Verdict(oracle, start) then [Access(plan[0], true)] + Chain(plan[1..], oracle, start + 1)
    else [Access(plan[0], false)]
  }

  /** The chain makes the plan's requests in order with the oracle's outcomes: every access but
      the last succeeded, and it stops early only after a failure. */
  lemma {:induction false} ChainShape(plan: seq<Request>, oracle: set<nat>, start: nat)
    ensures forall i :: 0 <= i < |Chain(plan, oracle, start)| ==>
      Chain(plan, oracle, start)[i] == Access(plan[i], Verdict(oracle, start + i))
    ensures forall i :: 0 <= i < |Chain(plan, oracle, start)| - 1 ==> Chain(plan, oracle, start)[i].ok
    ensures |Chain(plan, oracle, start)| < |plan| ==>
      !Chain(plan, oracle, start)[|Chain(plan, oracle, start)| - 1].ok
    decreases |plan|
  {
    if plan != [] && Verdict(oracle, start) {
      ChainShape(plan[1..], oracle, start + 1);
      var tail := Chain(plan[1..], oracle, start + 1);
      assert Chain(plan, oracle, start) == [Access(plan[0], true)] + tail;
      forall i | 1 <= i < |tail| + 1
        ensures Chain(plan, oracle, start)[i] == Access(plan[i], Verdict(oracle, start + i))
      {
        assert Chain(plan, oracle, start)[i] == tail[i - 1];
      }
    }
  }

  /** Every request of `plan` would succeed, starting at transaction `start`. */
  predicate ChainOk(plan: seq<Request>, oracle: set<nat>, start: nat) {
    forall n :: start <= n < start + |plan| ==> Verdict(oracle, n)
  }

  /** When every transaction before number `start + j` succeeds and that one fails, the chain
      makes `j + 1` requests and the plan fails. */
  lemma {:induction false} ChainStopsAt(plan: seq<Request>, oracle: set<nat>, start: nat, j: nat)
    requires j < |plan|
    requires forall n :: start <= n < start + j ==> Verdict(oracle, n)
    requires !Verdict(oracle, start + j)
    ensures |Chain(plan, oracle, start)| == j + 1
    ensures !ChainOk(plan, oracle, start)
    decreases j
  {
    if j > 0 {
      assert Verdict(oracle, start);
      ChainStopsAt(plan[1..], oracle, start + 1, j - 1);
    }
  }

  /** A chain runs to its end with every access successful exactly when every
      transaction it would make succeeds. */
  lemma ChainCompletes(plan: seq<Request>, oracle: set<nat>, start: nat)
    ensures ChainOk(plan, oracle, start) <==>
      |Chain(plan, oracle, start)| == |plan| && AllOk(Chain(plan, oracle, start))
  {
    ChainShape(plan, oracle, start);
    var log := Chain(plan, oracle, start);
    if |log| == |plan| && AllOk(log) {
      forall n | start <= n < start + |plan| ensures Verdict(oracle, n) {
        assert log[n - start].ok;
      }
    }
  }

  /** The chain is the only log that follows `plan` with the oracle's outcomes and stops at
      the first failure. */
  lemma {:induction false} ChainUnique(plan: seq<Request>, oracle: set<nat>, start: nat, log: seq<Access>)
    requires |log| <= |plan|
    requires forall i :: 0 <= i < |log| ==> log[i] == Access(plan[i], Verdict(oracle, start + i))
    requires forall i :: 0 <= i < |log| - 1 ==> log[i].ok
    requires |log| < |plan| ==> |log| > 0 && !log[|log| - 1].ok
    ensures Chain(plan, oracle, start) == log
    ensures ChainOk(plan, oracle, start) <==> |log| == |plan| && AllOk(log)
    decreases |plan|
  {
    if plan != [] {
      if Verdict(oracle, start) {
        assert log[0].ok;
        if |log| > 1 || |plan| == 1 {
          ChainUnique(plan[1..], oracle, start + 1, log[1..]);
          assert log == [log[0]] + log[1..];
        }
      }
    }
    ChainCompletes(plan, oracle, start);
  }

  /** Running two plans one after the other, the second only if the first succeeded, is
      running their concatenation. */
  lemma {:induction false} ChainAppend(p1: seq<Request>, p2: seq<Request>, oracle: set<nat>, start: nat)
    ensures Chain(p1 + p2, oracle, start) ==
      Chain(p1, oracle, start) + (if ChainOk(p1, oracle, start) then Chain(p2, oracle, start + |p1|) else [])
    decreases |p1|
  {
    if p1 == [] {
      assert p1 + p2 == p2;
    } else {
      assert (p1 + p2)[1..] == p1[1..] + p2;
      assert ChainOk(p1, oracle, start) == (Verdict(oracle, start) && ChainOk(p1[1..], oracle, start + 1));
      if Verdict(oracle, start) {
        ChainAppend(p1[1..], p2, oracle, start + 1);
        calc {
          Chain(p1 + p2, oracle, start);
          [Access(p1[0], true)] + Chain(p1[1..] + p2, oracle, start + 1);
          [Access(p1[0], true)] + Chain(p1[1..], oracle, start + 1) +
            (if ChainOk(p1, oracle, start) then Chain(p2, oracle, start + |p1|) else []);
        }
      }
    }
  }

  /** The first |done| requests of `plan` have been made and all of them succeeded. */
  predicate Progress(plan: seq<Request>, oracle: set<nat>, start: nat, done: seq<Access>) {
    |done| <= |plan| && ChainOk(plan[..|done|], oracle, start) && done == Chain(plan[..|done|], oracle, start)
  }

  /** Making the next `k` requests of a plan in progress, which themselves stop at the first
      failure: either every one succeeds and the plan is still in progress, or one fails and the
      accesses so far are the whole chain of the plan, which then did not succeed. */
  lemma {:induction false} Advance(plan: seq<Request>, oracle: set<nat>, start: nat, done: seq<Access>, k: nat, part: seq<Access>)
    requires Progress(plan, oracle, start, done) && |done| + k <= |plan|
    requires part == Chain(plan[|done|..|done| + k], oracle, start + |done|)
    ensures ChainOk(plan[|done|..|done| + k], oracle, start + |done|) ==> Progress(plan, oracle, start, done + part)
    ensures !ChainOk(plan[|done|..|done| + k], oracle, start + |done|) ==>
      Chain(plan, oracle, start) == done + part && !ChainOk(plan, oracle, start)
  {
    var p, q, r := plan[..|done|], plan[|done|..|done| + k], plan[|done| + k..];
    assert plan[..|done| + k] == p + q;
    if ChainOk(q, oracle, start + |done|) {
      ChainCompletes(q, oracle, start + |done|);
      AdvanceOk(p, q, oracle, start);
    } else {
      AdvanceFails(p, q, r, oracle, start);
      assert plan == plan[..|done| + k] + r;
    }
  }

  /** Two successful chains in a row make one successful chain. */
  lemma {:induction false} AdvanceOk(p: seq<Request>, q: seq<Request>, oracle: set<nat>, start: nat)
    requires ChainOk(p, oracle, start) && ChainOk(q, oracle, start + |p|)
    ensures ChainOk(p + q, oracle, start)
    ensures Chain(p + q, oracle, start) == Chain(p, oracle, start) + Chain(q, oracle, start + |p|)
  {
    ChainAppend(p, q, oracle, start);
  }

  /** A failing chain after a successful one ends the whole plan there. */
  lemma {:induction false} AdvanceFails(p: seq<Request>, q: seq<Request>, r: seq<Request>, oracle: set<nat>, start: nat)
    requires ChainOk(p, oracle, start) && !ChainOk(q, oracle, start + |p|)
    ensures !ChainOk(p + q + r, oracle, start)
    ensures Chain(p + q + r, oracle, start) == Chain(p, oracle, start) + Chain(q, oracle, start + |p|)
  {
    assert p + q + r == p + (q + r);
    ChainAppend(p, q + r, oracle, start);
    ChainAppend(q, r, oracle, start + |p|);
    var n :| start + |p| <= n < start + |p| + |q| && !Verdict(oracle, n);
    assert (p + q + r)[n - start] == q[n - start - |p|];
  }

  /** Making the next request of a plan in progress. */
  lemma {:induction false} Step(plan: seq<Request>, oracle: set<nat>, start: nat, done: seq<Access>)
    requires Progress(plan, oracle, start, done) && |done| < |plan|
    ensures Verdict(oracle, start + |done|) ==>
      Progress(plan, oracle, start, done + [Access(plan[|done|], true)])
    ensures !Verdict(oracle, start + |done|) ==>
      Chain(plan, oracle, start) == done + [Access(plan[|done|], false)] && !ChainOk(plan, oracle, start)
  {
    var q := plan[|done|..|done| + 1];
    assert q == [plan[|done|]];
    assert Chain(q, oracle, start + |done|) == [Access(plan[|done|], Verdict(oracle, start + |done|))];
    assert ChainOk(q, oracle, start + |done|) == Verdict(oracle, start + |done|);
    Advance(plan, oracle, start, done, 1, Chain(q, oracle, start + |done|));
  }

  /** Nothing of a plan has been made yet. */
  lemma ProgressStart(plan: seq<Request>, oracle: set<nat>, start: nat)
    ensures Progress(plan, oracle, start, [])
  {
    assert plan[..0] == [];
  }

  /** A plan whose every request has been made and succeeded ran its whole chain. */
  lemma {:induction false} ChainDone(plan: seq<Request>, oracle: set<nat>, start: nat, done: seq<Access>)
    requires Progress(plan, oracle, start, done) && |done| == |plan|
    ensures Chain(plan, oracle, start) == done && ChainOk(plan, oracle, start)
  {
    assert plan[..|done|] == plan;
  }

  /** The bus: the transport and the chip's register file behind it. */
  class RegisterBus {
    /** The numbers of the transactions that fail. */
    const oracle: set<nat>
    /** The chip's registers 0x80 .. 0x8F. */
    var regs: RegFile
    /** Every transaction so far, with its outcome. */
    var log: seq<Access>

    constructor (regs0: RegFile, oracle: set<nat>)
      ensures this.oracle == oracle && regs == regs0 && log == []
    {
      this.oracle := oracle;
      regs := regs0;
      log := [];
    }

    /** One register write. */
    method Write(reg: bv8, value: bv8) returns (ok: bool)
      requires InMap(reg)
      modifies this
      ensures ok == Verdict(oracle, |old(log)|)
      ensures log == old(log) + [Access(RegWrite(reg, value), ok)]
      ensures regs == if ok then old(regs)[Index(reg) := Stored(reg, old(regs)[Index(reg)], value)] else old(regs)
      ensures regs == Commit(old(regs), [Access(RegWrite(reg, value), ok)])
    {
      ok := |log| !in oracle;
      var a := Access(RegWrite(reg, value), ok);
      regs := Apply(regs, a);
      log := log + [a];
      assert [a][..0] == [];
    }

    /** One register read; the value is meaningful only when `ok`. */
    method Read(reg: bv8) returns (ok: bool, value: bv8)
      requires InMap(reg)
      modifies this
      ensures ok == Verdict(oracle, |old(log)|)
      ensures log == old(log) + [Access(RegRead(reg), ok)]
      ensures regs == old(regs) && regs == Commit(old(regs), [Access(RegRead(reg), ok)])
      ensures ok ==> value == regs[Index(reg)]
    {
      ok := |log| !in oracle;
      value := if ok then regs[Index(reg)] else 0;
      log := log + [Access(RegRead(reg), ok)];
      assert [Access(RegRead(reg), ok)][..0] == [];
    }
  }

  /** The transactions since the pre-state are exactly `delta`: the log grew by `delta` and the
      register file changed by its successful writes and nothing else. */
  twostate predicate Performed(port: RegisterBus, delta: seq<Access>)
    reads port
  {
    && port.log == old(port.log) + delta
    && port.regs == Commit(old(port.regs), delta)
  }

  /** The chain of a one-request plan is that request with its outcome. */
  lemma ChainOfOne(p0: Request, oracle: set<nat>, start: nat)
    ensures Chain([p0], oracle, start) == [Access(p0, Verdict(oracle, start))]
    ensures ChainOk([p0], oracle, start) == Verdict(oracle, start)
  {
    assert [p0][1..] == [];
  }

  /** The chain of a two-request plan: the second request is made only when the first
      succeeds, and the plan succeeds when both do. */
  lemma ChainOfTwo(p0: Request, p1: Request, oracle: set<nat>, start: nat)
    ensures Chain([p0, p1], oracle, start) ==
      if Verdict(oracle, start) then [Access(p0, true), Access(p1, Verdict(oracle, start + 1))]
      else [Access(p0, false)]
    ensures ChainOk([p0, p1], oracle, start) == (Verdict(oracle, start) && Verdict(oracle, start + 1))
  {
    assert [p0, p1][1..] == [p1];
    assert [p1][1..] == [];
  }

  /** Of two plans run one after the other, the second only when the first succeeded, the
      whole succeeds exactly when both do. */
  lemma ChainOkAppend(p: seq<Request>, q: seq<Request>, oracle: set<nat>, start: nat)
    ensures ChainOk(p + q, oracle, start) == (ChainOk(p, oracle, start) && ChainOk(q, oracle, start + |p|))
  {
  }

  /** A call that ran the chain of `p`, followed, when that succeeded, by a call that ran the
      chain of `q`, ran the chain of `p + q`. */
  lemma {:induction false} ComposeChains(p: seq<Request>, q: seq<Request>, oracle: set<nat>, l0: seq<Access>, r0: RegFile,
                      l1: seq<Access>, r1: RegFile, l2: seq<Access>, r2: RegFile)
    requires l1 == l0 + Chain(p, oracle, |l0|) && r1 == Commit(r0, Chain(p, oracle, |l0|))
    requires ChainOk(p, oracle, |l0|)
    requires l2 == l1 + Chain(q, oracle, |l1|) && r2 == Commit(r1, Chain(q, oracle, |l1|))
    ensures l2 == l0 + Chain(p + q, oracle, |l0|) && r2 == Commit(r0, Chain(p + q, oracle, |l0|))
    ensures ChainOk(p + q, oracle, |l0|) == ChainOk(q, oracle, |l1|)
  {
    ChainCompletes(p, oracle, |l0|);
    ChainAppend(p, q, oracle, |l0|);
    ChainOkAppend(p, q, oracle, |l0|);
    Compose(l0, r0, Chain(p, oracle, |l0|), l1, r1, Chain(q, oracle, |l1|), l2, r2);
  }

  /** A first plan that fails ends the concatenation there. */
  lemma {:induction false} StopChains(p: seq<Request>, q: seq<Request>, oracle: set<nat>, start: nat)
    requires !ChainOk(p, oracle, start)
    ensures Chain(p + q, oracle, start) == Chain(p, oracle, start) && !ChainOk(p + q, oracle, start)
  {
    ChainAppend(p, q, oracle, start);
    ChainOkAppend(p, q, oracle, start);
  }

  /** Two calls one after the other performed the concatenation of what each performed. */
  lemma {:induction false} Compose(l0: seq<Access>, r0: RegFile, d1: seq<Access>, l1: seq<Access>, r1: RegFile,
                d2: seq<Access>, l2: seq<Access>, r2: RegFile)
    requires l1 == l0 + d1 && r1 == Commit(r0, d1)
    requires l2 == l1 + d2 && r2 == Commit(r1, d2)
    ensures l2 == l0 + (d1 + d2) && r2 == Commit(r0, d1 + d2)
  {
    CommitAppend(r0, d1, d2);
  }

  /** One more request of a plan in progress, made by a call on a bus that had performed the
      accesses `done` since `l0`, `r0`. */
  lemma {:induction false} RunStep(plan: seq<Request>, oracle: set<nat>, done: seq<Access>, l0: seq<Access>, r0: RegFile,
                l1: seq<Access>, r1: RegFile, a: Access, l2: seq<Access>, r2: RegFile)
    requires Progress(plan, oracle, |l0|, done) && |done| < |plan|
    requires l1 == l0 + done && r1 == Commit(r0, done)
    requires a.req == plan[|done|] && a.ok == Verdict(oracle, |l1|)
    requires l2 == l1 + [a] && r2 == Commit(r1, [a])
    ensures l2 == l0 + (done + [a]) && r2 == Commit(r0, done + [a])
    ensures a.ok ==> Progress(plan, oracle, |l0|, done + [a])
    ensures !a.ok ==> Chain(plan, oracle, |l0|) == done + [a] && !ChainOk(plan, oracle, |l0|)
  {
    Step(plan, oracle, |l0|, done);
    Compose(l0, r0, done, l1, r1, [a], l2, r2);
  }

}
