/**
 The kernel -> OS -> DTK map behind two readers-writer locks (internal/syncronizedmap).

 Two views of the same object. `KernelOsDtkMapping` is the object as a lone caller sees it. `State` is the object
 under any number of concurrent calls, one lock operation or map access per step. The theorems at the end say that
 every interleaving looks like the lone object called one operation at a time, and that no interleaving gets stuck.
 */
module KernelOsDtk {
  import opened Base

  datatype Maps = Maps(kernelToOs: map<string, string>, osToDtk: map<string, string>)

  datatype Call =
    | SetNodeInfo(kernel: string, os: string)
    | SetImageStreamInfo(os: string, dtk: string)
    | GetImage(kernel: string)

  datatype Reply = Ack | Image(dtk: string) | NoKernel(kernel: string) | NoOs(os: string)

  const EMPTY := Maps(map[], map[])

  /** kernel -> OS -> DTK, composed in one state of the two maps. */
  function Compose(m: Maps, kernel: string): Reply {
    if kernel !in m.kernelToOs then NoKernel(kernel)
    else
      var os := m.kernelToOs[kernel];
      if os !in m.osToDtk then NoOs(os) else Image(m.osToDtk[os])
  }

  /** The effect and the reply of one call that nothing interferes with. */
  function Apply(m: Maps, c: Call): (Maps, Reply) {
    match c
    case SetNodeInfo(k, os) => (m.(kernelToOs := m.kernelToOs[k := os]), Ack)
    case SetImageStreamInfo(os, dtk) => (m.(osToDtk := m.osToDtk[os := dtk]), Ack)
    case GetImage(k) => (m, Compose(m, k))
  }

  class KernelOsDtkMapping {
    var kernelToOs: map<string, string>
    var osToDtk: map<string, string>

    function Contents(): Maps
      reads this
    {
      Maps(kernelToOs, osToDtk)
    }

    constructor ()
      ensures Contents() == EMPTY
    {
      kernelToOs := map[];
      osToDtk := map[];
    }

    method SetNodeInfo(kernelVersion: string, osImage: string)
      modifies this
      ensures kernelToOs == old(kernelToOs)[kernelVersion := osImage] && osToDtk == old(osToDtk)
      ensures Contents() == Apply(old(Contents()), Call.SetNodeInfo(kernelVersion, osImage)).0
    {
      kernelToOs := kernelToOs[kernelVersion := osImage];
    }

    method SetImageStreamInfo(osImage: string, dtkImage: string)
      modifies this
      ensures kernelToOs == old(kernelToOs) && osToDtk == old(osToDtk)[osImage := dtkImage]
      ensures Contents() == Apply(old(Contents()), Call.SetImageStreamInfo(osImage, dtkImage)).0
    {
      osToDtk := osToDtk[osImage := dtkImage];
    }

    method GetImage(kernelVersion: string) returns (r: Reply)
      ensures r ==
        if kernelVersion !in kernelToOs then NoKernel(kernelVersion)
        else if kernelToOs[kernelVersion] !in osToDtk then NoOs(kernelToOs[kernelVersion])
        else Image(osToDtk[kernelToOs[kernelVersion]])
      ensures r == Apply(Contents(), Call.GetImage(kernelVersion)).1
    {
      if kernelVersion !in kernelToOs {
        return NoKernel(kernelVersion);
      }
      var osImage := kernelToOs[kernelVersion];
      if osImage !in osToDtk {
        return NoOs(osImage);
      }
      return Image(osToDtk[osImage]);
    }
  }

  // ---- Concurrent calls ----------------------------------------------------------------------------

  /** One call in flight or finished; a goroutine that makes several calls is several of these in turn. */
  type CallId = nat

  /**
   sync.RWMutex. A writer first claims the lock, from which moment new readers wait, and then waits for the readers
   already inside to leave. sync.RWMutex also lets waiting readers in before the next writer; a schedule that does so is
   one of the schedules allowed here.
   */
  datatype Lock = Lock(writer: Option<CallId>, readers: set<CallId>)

  /** Where a call stands. The writers take Start, Claimed, Exclusive, Written, Done; GetImage the other path. */
  datatype Pc =
    | Start
    | Claimed
    | Exclusive
    | Written
    | KernelLocked
    | OsKnown(os: string)
    | BothLocked(os: string)
    | Decided(reply: Reply)     // the inner map is read, both locks are held
    | Leaving(reply: Reply)     // only the kernel lock is still held
    | Done(reply: Reply)

  datatype Thread = Thread(call: Call, pc: Pc)

  datatype Entry = Entry(id: CallId, call: Call, reply: Reply)

  /** log records each call at the step where it takes effect. */
  datatype State = State(kernelLock: Lock, osLock: Lock, maps: Maps, threads: map<CallId, Thread>, log: seq<Entry>)

  const INITIAL := State(Lock(None, {}), Lock(None, {}), EMPTY, map[], [])

  /** The lock a writer works under. */
  function WriteLock(s: State, c: Call): Lock {
    if c.SetNodeInfo? then s.kernelLock else s.osLock
  }

  /** Call t is not finished and the lock operation it is about to make, if any, would not block. */
  predicate Enabled(s: State, t: CallId) {
    t in s.threads &&
    var Thread(c, pc) := s.threads[t];
    match pc
    case Start => if c.GetImage? then s.kernelLock.writer == None else WriteLock(s, c).writer == None
    case Claimed => WriteLock(s, c).readers == {}
    case OsKnown(_) => s.osLock.writer == None
    case Done(_) => false
    case _ => true
  }

  /** SetNodeInfo and SetImageStreamInfo: the position reached, and the step's effect on the lock. */
  function WriterPc(pc: Pc): Pc {
    match pc
    case Start => Claimed
    case Claimed => Exclusive
    case Exclusive => Written
    case _ => Done(Ack)
  }

  function WriterLock(l: Lock, t: CallId, pc: Pc): Lock {
    match pc
    case Start => l.(writer := Some(t))
    case Written => l.(writer := None)
    case _ => l
  }

  /** GetImage: the position reached, reading the maps as they are. */
  function ReaderPc(pc: Pc, kernel: string, maps: Maps): Pc {
    match pc
    case Start => KernelLocked
    case KernelLocked =>
      if kernel in maps.kernelToOs then OsKnown(maps.kernelToOs[kernel]) else Leaving(NoKernel(kernel))
    case OsKnown(os) => BothLocked(os)
    case BothLocked(os) => Decided(if os in maps.osToDtk then Image(maps.osToDtk[os]) else NoOs(os))
    case Decided(reply) => Leaving(reply)
    case Leaving(reply) => Done(reply)
    case _ => pc
  }

  function ReaderKernelLock(l: Lock, t: CallId, pc: Pc): Lock {
    match pc
    case Start => l.(readers := l.readers + {t})
    case Leaving(_) => l.(readers := l.readers - {t})
    case _ => l
  }

  function ReaderOsLock(l: Lock, t: CallId, pc: Pc): Lock {
    match pc
    case OsKnown(_) => l.(readers := l.readers + {t})
    case Decided(_) => l.(readers := l.readers - {t})
    case _ => l
  }

  function NextThread(s: State, t: CallId): Thread
    requires t in s.threads
  {
    var Thread(c, pc) := s.threads[t];
    Thread(c, if c.GetImage? then ReaderPc(pc, c.kernel, s.maps) else WriterPc(pc))
  }

  /** One step of call t: a lock operation, or a read or write of a map. */
  function Next(s: State, t: CallId): State
    requires t in s.threads
  {
    var (th, th') := (s.threads[t], NextThread(s, t));
    var (c, pc) := (th.call, th.pc);
    State(
      if c.GetImage? then ReaderKernelLock(s.kernelLock, t, pc)
      else if c.SetNodeInfo? then WriterLock(s.kernelLock, t, pc) else s.kernelLock,
      if c.GetImage? then ReaderOsLock(s.osLock, t, pc)
      else if c.SetImageStreamInfo? then WriterLock(s.osLock, t, pc) else s.osLock,
      if pc.Exclusive? then Apply(s.maps, c).0 else s.maps,
      s.threads[t := th'],
      if TookEffect(th') && !TookEffect(th) then s.log + [Entry(t, c, ReplyOf(th'))] else s.log)
  }

  ghost predicate Advance(s: State, s': State) {
    exists t :: Enabled(s, t) && s' == Next(s, t)
  }

  ghost predicate Invoke(s: State, s': State) {
    exists t: CallId, c :: t !in s.threads && s' == s.(threads := s.threads[t := Thread(c, Start)])
  }

  ghost predicate IsRun(run: seq<State>) {
    && run != []
    && run[0] == INITIAL
    && forall i :: 0 <= i < |run| - 1 ==> Invoke(run[i], run[i + 1]) || Advance(run[i], run[i + 1])
  }

  // ---- What every step keeps -------------------------------------------------------------------------

  predicate WellTyped(th: Thread) {
    if th.call.GetImage? then !(th.pc.Claimed? || th.pc.Exclusive? || th.pc.Written?)
    else th.pc.Start? || th.pc.Claimed? || th.pc.Exclusive? || th.pc.Written? || th.pc == Done(Ack)
  }

  /** The call has claimed the write lock: the outer (kernel) lock or the inner (OS) lock. */
  predicate Writes(th: Thread, outer: bool) {
    (th.pc.Claimed? || Alone(th)) && (if outer then th.call.SetNodeInfo? else th.call.SetImageStreamInfo?)
  }

  predicate Alone(th: Thread) {
    th.pc.Exclusive? || th.pc.Written?
  }

  predicate Reads(th: Thread, outer: bool) {
    th.pc.BothLocked? || th.pc.Decided? || (outer && (th.pc.KernelLocked? || th.pc.OsKnown? || th.pc.Leaving?))
  }

  predicate TookEffect(th: Thread) {
    th.pc.Written? || th.pc.Decided? || th.pc.Leaving? || th.pc.Done?
  }

  function ReplyOf(th: Thread): Reply
    requires TookEffect(th)
  {
    if th.pc.Written? then Ack else th.pc.reply
  }

  /** The lock state is what the positions of the calls say, and a writer past its wait is alone. */
  ghost predicate LockAgrees(l: Lock, threads: map<CallId, Thread>, outer: bool) {
    && (forall t :: l.writer == Some(t) <==> t in threads && Writes(threads[t], outer))
    && (forall t :: t in l.readers <==> t in threads && Reads(threads[t], outer))
    && (forall t :: t in threads && Writes(threads[t], outer) && Alone(threads[t]) ==> l.readers == {})
  }

  predicate RemembersRight(th: Thread, maps: Maps) {
    th.call.GetImage? && (th.pc.OsKnown? || th.pc.BothLocked?) ==>
      th.call.kernel in maps.kernelToOs && maps.kernelToOs[th.call.kernel] == th.pc.os
  }

  /** What GetImage remembers of the outer map is still true while it holds the outer lock. */
  ghost predicate ReadersAgree(s: State) {
    forall t :: t in s.threads ==> RemembersRight(s.threads[t], s.maps)
  }

  ghost predicate LogAgrees(s: State) {
    && (forall t :: t in s.threads && TookEffect(s.threads[t]) ==>
          Entry(t, s.threads[t].call, ReplyOf(s.threads[t])) in s.log)
    && (forall e :: e in s.log ==>
          (e.id in s.threads && TookEffect(s.threads[e.id])
           && e.call == s.threads[e.id].call && e.reply == ReplyOf(s.threads[e.id])))
    && (forall i, j :: 0 <= i < j < |s.log| ==> s.log[i].id != s.log[j].id)
  }

  /** The maps after the logged calls, made one at a time. */
  function Replay(log: seq<Entry>): Maps {
    if log == [] then EMPTY else Apply(Replay(log[..|log| - 1]), log[|log| - 1].call).0
  }

  /** Every reply in the log is the one the lone object gives at that point. */
  ghost predicate Sequential(log: seq<Entry>) {
    log == [] ||
    var (earlier, last) := (log[..|log| - 1], log[|log| - 1]);
    Sequential(earlier) && last.reply == Apply(Replay(earlier), last.call).1
  }

  ghost predicate Inv(s: State) {
    && Typed(s)
    && LockAgrees(s.kernelLock, s.threads, true)
    && LockAgrees(s.osLock, s.threads, false)
    && ReadersAgree(s)
    && LogAgrees(s)
    && Replay(s.log) == s.maps
    && Sequential(s.log)
  }

  ghost predicate Typed(s: State) {
    forall t :: t in s.threads ==> WellTyped(s.threads[t])
  }

  lemma InvokeKeepsLock(l: Lock, threads: map<CallId, Thread>, t: CallId, c: Call, outer: bool)
    requires LockAgrees(l, threads, outer) && t !in threads
    ensures LockAgrees(l, threads[t := Thread(c, Start)], outer)
  {
  }

  lemma InvokeKeepsLog(s: State, t: CallId, c: Call)
    requires LogAgrees(s) && t !in s.threads
    ensures LogAgrees(s.(threads := s.threads[t := Thread(c, Start)]))
  {
    var s' := s.(threads := s.threads[t := Thread(c, Start)]);
    assert forall u :: u in s.threads ==> s'.threads[u] == s.threads[u];
  }

  lemma InvokeKeepsInv(s: State, s': State)
    requires Inv(s) && Invoke(s, s')
    ensures Inv(s')
  {
    var t: CallId, c :| t !in s.threads && s' == s.(threads := s.threads[t := Thread(c, Start)]);
    InvokeKeepsLock(s.kernelLock, s.threads, t, c, true);
    InvokeKeepsLock(s.osLock, s.threads, t, c, false);
    InvokeKeepsLog(s, t, c);
    hide LockAgrees, LogAgrees, Sequential, Replay;
  }

  lemma Relock(l: Lock, l': Lock, threads: map<CallId, Thread>, t: CallId, th: Thread, outer: bool)
    requires LockAgrees(l, threads, outer) && t in threads
    requires l'.readers == if Reads(th, outer) then l.readers + {t} else l.readers - {t}
    requires l'.writer == if Writes(th, outer) then Some(t) else if Writes(threads[t], outer) then None else l.writer
    requires Writes(th, outer) && !Writes(threads[t], outer) ==> l.writer == None
    requires Writes(th, outer) && Alone(th) ==> l'.readers == {}
    requires Reads(th, outer) && !Reads(threads[t], outer) ==> l.writer == None
    ensures LockAgrees(l', threads[t := th], outer)
  {
    var threads' := threads[t := th];
    forall u | u in threads' && u != t && Writes(threads'[u], outer) && Alone(threads'[u]) ensures l'.readers == {} {
      assert l.writer == Some(u);
    }
  }

  lemma OuterLockStep(s: State, t: CallId)
    requires Typed(s) && LockAgrees(s.kernelLock, s.threads, true) && Enabled(s, t)
    ensures LockAgrees(Next(s, t).kernelLock, Next(s, t).threads, true)
  {
    LockOfCall(s.kernelLock, s.threads, t, true);
    hide LockAgrees;
    Relock(s.kernelLock, Next(s, t).kernelLock, s.threads, t, NextThread(s, t), true);
  }

  lemma InnerLockStep(s: State, t: CallId)
    requires Typed(s) && LockAgrees(s.osLock, s.threads, false) && Enabled(s, t)
    ensures LockAgrees(Next(s, t).osLock, Next(s, t).threads, false)
  {
    LockOfCall(s.osLock, s.threads, t, false);
    hide LockAgrees;
    Relock(s.osLock, Next(s, t).osLock, s.threads, t, NextThread(s, t), false);
  }

  /** What the lock says about call t itself. */
  lemma LockOfCall(l: Lock, threads: map<CallId, Thread>, t: CallId, outer: bool)
    requires LockAgrees(l, threads, outer) && t in threads
    ensures l.writer == Some(t) <==> Writes(threads[t], outer)
    ensures t in l.readers <==> Reads(threads[t], outer)
    ensures Writes(threads[t], outer) && Alone(threads[t]) ==> l.readers == {}
  {
  }

  lemma LocksStep(s: State, t: CallId)
    requires Typed(s) && LockAgrees(s.kernelLock, s.threads, true) && LockAgrees(s.osLock, s.threads, false)
    requires Enabled(s, t)
    ensures Typed(Next(s, t))
    ensures LockAgrees(Next(s, t).kernelLock, Next(s, t).threads, true)
    ensures LockAgrees(Next(s, t).osLock, Next(s, t).threads, false)
  {
    OuterLockStep(s, t);
    InnerLockStep(s, t);
    hide LockAgrees;
  }

  /** A writer changes a map only when no reader is inside its lock. */
  lemma ReadersStep(s: State, t: CallId)
    requires Typed(s) && LockAgrees(s.kernelLock, s.threads, true) && ReadersAgree(s)
    requires Enabled(s, t)
    ensures ReadersAgree(Next(s, t))
  {
    var s' := Next(s, t);
    forall u | u in s'.threads && u != t && (s'.threads[u].pc.OsKnown? || s'.threads[u].pc.BothLocked?)
      ensures s'.maps.kernelToOs == s.maps.kernelToOs
    {
      assert u in s.kernelLock.readers;
    }
  }

  lemma LogOne(log: seq<Entry>, maps: Maps, e: Entry)
    requires Replay(log) == maps && Sequential(log) && e.reply == Apply(maps, e.call).1
    ensures Replay(log + [e]) == Apply(maps, e.call).0 && Sequential(log + [e])
  {
    assert (log + [e])[..|log|] == log;
  }

  lemma LogStep(s: State, t: CallId)
    requires Typed(s) && ReadersAgree(s) && Replay(s.log) == s.maps && Sequential(s.log)
    requires Enabled(s, t)
    ensures Replay(Next(s, t).log) == Next(s, t).maps && Sequential(Next(s, t).log)
  {
    var s', th, th' := Next(s, t), s.threads[t], NextThread(s, t);
    if TookEffect(th') && !TookEffect(th) {
      LogOne(s.log, s.maps, Entry(t, th.call, ReplyOf(th')));
    }
  }

  lemma LogAgreesStep(s: State, t: CallId)
    requires Typed(s) && LogAgrees(s) && Enabled(s, t)
    ensures LogAgrees(Next(s, t))
  {
    var s', th, th' := Next(s, t), s.threads[t], NextThread(s, t);
    forall u | u in s'.threads && TookEffect(s'.threads[u])
      ensures Entry(u, s'.threads[u].call, ReplyOf(s'.threads[u])) in s'.log
    {
      if u != t || TookEffect(th) {
        assert Entry(u, s.threads[u].call, ReplyOf(s.threads[u])) in s.log;
      } else {
        assert s'.log[|s.log|] == Entry(t, th.call, ReplyOf(th'));
      }
    }
  }

  lemma AdvanceKeepsInv(s: State, t: CallId)
    requires Inv(s) && Enabled(s, t)
    ensures Inv(Next(s, t))
  {
    LocksStep(s, t);
    ReadersStep(s, t);
    LogStep(s, t);
    LogAgreesStep(s, t);
  }

  lemma {:induction false} RunKeepsInv(run: seq<State>, i: nat)
    requires IsRun(run) && i < |run|
    ensures Inv(run[i])
  {
    if i > 0 {
      RunKeepsInv(run, i - 1);
      var s, s' := run[i - 1], run[i];
      if Invoke(s, s') {
        InvokeKeepsInv(s, s');
      } else {
        var t :| Enabled(s, t) && s' == Next(s, t);
        AdvanceKeepsInv(s, t);
      }
    }
  }

  // ---- Linearizability -------------------------------------------------------------------------------

  lemma {:induction false} LogOnlyGrows(run: seq<State>, i: nat, j: nat)
    requires IsRun(run) && i <= j < |run|
    ensures run[i].log <= run[j].log
  {
    if i < j {
      LogOnlyGrows(run, i, j - 1);
    }
  }

  /** A logged call sits in every longer log at the same place, and a call not yet made is not in the log. */
  lemma PlacedBefore(now: State, log: seq<Entry>, a: CallId, b: CallId, p: nat, q: nat)
    requires LogAgrees(now) && now.log <= log
    requires forall i, j :: 0 <= i < j < |log| ==> log[i].id != log[j].id
    requires a in now.threads && now.threads[a].pc.Done? && b !in now.threads
    requires p < |log| && q < |log| && log[p].id == a && log[q].id == b
    ensures p < q
  {
    assert Entry(a, now.threads[a].call, ReplyOf(now.threads[a])) in now.log;
    var k :| 0 <= k < |now.log| && now.log[k].id == a;
    assert log[k] == now.log[k];
    forall m | 0 <= m < |now.log| ensures log[m].id != b {
      assert log[m] == now.log[m] && now.log[m] in now.log;
    }
  }

  lemma RunLogAgrees(run: seq<State>, i: nat)
    requires IsRun(run) && i < |run|
    ensures LogAgrees(run[i])
  {
    RunKeepsInv(run, i);
  }

  /** No call that had not begun when another had finished is placed before it. */
  lemma RealTimeOrder(run: seq<State>, i: nat, a: CallId, b: CallId, p: nat, q: nat)
    requires IsRun(run) && i < |run|
    requires a in run[i].threads && run[i].threads[a].pc.Done? && b !in run[i].threads
    requires var log := run[|run| - 1].log; p < |log| && q < |log| && log[p].id == a && log[q].id == b
    ensures p < q
  {
    RunLogAgrees(run, i);
    RunLogAgrees(run, |run| - 1);
    LogOnlyGrows(run, i, |run| - 1);
    PlacedBefore(run[i], run[|run| - 1].log, a, b, p, q);
  }

  /**
   Every interleaving of any number of calls is equivalent to the lone object called one operation at a time: the log is
   a legal sequential history ending in the current maps, every finished call is in it exactly once with the reply it
   returned, and (RealTimeOrder) it respects the order of calls that do not overlap.
   */
  lemma Linearizable(run: seq<State>)
    requires IsRun(run)
    ensures var s := run[|run| - 1];
      && Sequential(s.log)
      && Replay(s.log) == s.maps
      && (forall t :: t in s.threads && s.threads[t].pc.Done? ==>
            Entry(t, s.threads[t].call, s.threads[t].pc.reply) in s.log)
      && (forall i, j :: 0 <= i < j < |s.log| ==> s.log[i].id != s.log[j].id)
  {
    RunKeepsInv(run, |run| - 1);
  }

  /** The last SetNodeInfo for the kernel among the first n calls names the OS. */
  ghost predicate LastOsIs(log: seq<Entry>, n: nat, kernel: string, os: string)
    requires n <= |log|
  {
    exists i :: 0 <= i < n && log[i].call == SetNodeInfo(kernel, os) && NoNodeInfo(log, i + 1, n, kernel)
  }

  /** No call numbered from `from` up to n is a SetNodeInfo for the kernel. */
  ghost predicate NoNodeInfo(log: seq<Entry>, from: nat, n: nat, kernel: string)
    requires from <= n <= |log|
  {
    forall j :: from <= j < n ==> !(log[j].call.SetNodeInfo? && log[j].call.kernel == kernel)
  }

  ghost predicate LastDtkIs(log: seq<Entry>, n: nat, os: string, dtk: string)
    requires n <= |log|
  {
    exists i :: 0 <= i < n && log[i].call == SetImageStreamInfo(os, dtk) && NoImageStream(log, i + 1, n, os)
  }

  ghost predicate NoImageStream(log: seq<Entry>, from: nat, n: nat, os: string)
    requires from <= n <= |log|
  {
    forall j :: from <= j < n ==> !(log[j].call.SetImageStreamInfo? && log[j].call.os == os)
  }

  lemma LastOsStep(log: seq<Entry>, n: nat, kernel: string, os: string)
    requires n < |log|
    ensures LastOsIs(log, n + 1, kernel, os) <==>
      log[n].call == SetNodeInfo(kernel, os) ||
      (LastOsIs(log, n, kernel, os) && !(log[n].call.SetNodeInfo? && log[n].call.kernel == kernel))
  {
    if i :| 0 <= i < n && log[i].call == SetNodeInfo(kernel, os) && NoNodeInfo(log, i + 1, n, kernel) {
      if !(log[n].call.SetNodeInfo? && log[n].call.kernel == kernel) { assert NoNodeInfo(log, i + 1, n + 1, kernel); }
    }
    if log[n].call == SetNodeInfo(kernel, os) { assert NoNodeInfo(log, n + 1, n + 1, kernel); }
    if i :| 0 <= i < n + 1 && log[i].call == SetNodeInfo(kernel, os) && NoNodeInfo(log, i + 1, n + 1, kernel) {
      if i < n { assert NoNodeInfo(log, i + 1, n, kernel); }
    }
  }

  lemma LastDtkStep(log: seq<Entry>, n: nat, os: string, dtk: string)
    requires n < |log|
    ensures LastDtkIs(log, n + 1, os, dtk) <==>
      log[n].call == SetImageStreamInfo(os, dtk) ||
      (LastDtkIs(log, n, os, dtk) && !(log[n].call.SetImageStreamInfo? && log[n].call.os == os))
  {
    if i :| 0 <= i < n && log[i].call == SetImageStreamInfo(os, dtk) && NoImageStream(log, i + 1, n, os) {
      if !(log[n].call.SetImageStreamInfo? && log[n].call.os == os) { assert NoImageStream(log, i + 1, n + 1, os); }
    }
    if log[n].call == SetImageStreamInfo(os, dtk) { assert NoImageStream(log, n + 1, n + 1, os); }
    if i :| 0 <= i < n + 1 && log[i].call == SetImageStreamInfo(os, dtk) && NoImageStream(log, i + 1, n + 1, os) {
      if i < n { assert NoImageStream(log, i + 1, n, os); }
    }
  }

  /** The maps hold what was written last. */
  lemma {:induction false} ReplayedOs(log: seq<Entry>, n: nat, kernel: string, os: string)
    requires n <= |log|
    ensures var m := Replay(log[..n]).kernelToOs; (kernel in m && m[kernel] == os) <==> LastOsIs(log, n, kernel, os)
    ensures kernel !in Replay(log[..n]).kernelToOs <==> NoNodeInfo(log, 0, n, kernel)
  {
    if n > 0 {
      ReplayedOs(log, n - 1, kernel, os);
      LastOsStep(log, n - 1, kernel, os);
      assert log[..n][..n - 1] == log[..n - 1];
    }
  }

  lemma {:induction false} ReplayedDtk(log: seq<Entry>, n: nat, os: string, dtk: string)
    requires n <= |log|
    ensures var m := Replay(log[..n]).osToDtk; (os in m && m[os] == dtk) <==> LastDtkIs(log, n, os, dtk)
    ensures os !in Replay(log[..n]).osToDtk <==> NoImageStream(log, 0, n, os)
  {
    if n > 0 {
      ReplayedDtk(log, n - 1, os, dtk);
      LastDtkStep(log, n - 1, os, dtk);
      assert log[..n][..n - 1] == log[..n - 1];
    }
  }

  lemma {:induction false} SequentialAt(log: seq<Entry>, p: nat)
    requires Sequential(log) && p < |log|
    ensures log[p].reply == Apply(Replay(log[..p]), log[p].call).1
  {
    if p < |log| - 1 {
      SequentialAt(log[..|log| - 1], p);
      assert log[..|log| - 1][..p] == log[..p];
    }
  }

  /** What GetImage replies at its place in a sequential history, in terms of the writes before it. */
  ghost predicate RepliesToLastWrites(log: seq<Entry>, p: nat)
    requires p < |log| && log[p].call.GetImage?
  {
    var (k, reply) := (log[p].call.kernel, log[p].reply);
    && (forall d :: reply == Image(d) <==> exists os :: LastOsIs(log, p, k, os) && LastDtkIs(log, p, os, d))
    && (reply == NoKernel(k) <==> NoNodeInfo(log, 0, p, k))
    && (forall os :: reply == NoOs(os) <==> LastOsIs(log, p, k, os) && NoImageStream(log, 0, p, os))
  }

  lemma ReplyMeans(log: seq<Entry>, p: nat)
    requires Sequential(log) && p < |log| && log[p].call.GetImage?
    ensures RepliesToLastWrites(log, p)
  {
    var (k, reply, maps) := (log[p].call.kernel, log[p].reply, Replay(log[..p]));
    SequentialAt(log, p);
    forall os ensures (k in maps.kernelToOs && maps.kernelToOs[k] == os) <==> LastOsIs(log, p, k, os) {
      ReplayedOs(log, p, k, os);
    }
    forall os, d ensures (os in maps.osToDtk && maps.osToDtk[os] == d) <==> LastDtkIs(log, p, os, d) {
      ReplayedDtk(log, p, os, d);
    }
    forall os ensures os !in maps.osToDtk <==> NoImageStream(log, 0, p, os) {
      ReplayedDtk(log, p, os, "");
    }
    ReplayedOs(log, p, k, "");
    hide Replay, LastOsIs, LastDtkIs, NoNodeInfo, NoImageStream;
    forall d ensures reply == Image(d) <==> exists os :: LastOsIs(log, p, k, os) && LastDtkIs(log, p, os, d) {
      if reply == Image(d) { assert LastOsIs(log, p, k, maps.kernelToOs[k]); }
    }
  }

  /**
   The last write wins. In every interleaving, at its place in the history a GetImage replies with the image named last
   for the OS named last for its kernel, or says which of the two was never named; and a writer is just acknowledged.
   */
  lemma LastWritesDecide(run: seq<State>, p: nat)
    requires IsRun(run) && p < |run[|run| - 1].log|
    ensures var log := run[|run| - 1].log;
      if log[p].call.GetImage? then RepliesToLastWrites(log, p) else log[p].reply == Ack
  {
    var log := run[|run| - 1].log;
    Linearizable(run);
    if log[p].call.GetImage? { ReplyMeans(log, p); } else { SequentialAt(log, p); }
  }

  lemma DecidingStep(s: State, t: CallId)
    requires Typed(s) && ReadersAgree(s) && Enabled(s, t) && s.threads[t].call.GetImage?
    requires !TookEffect(s.threads[t]) && TookEffect(NextThread(s, t))
    ensures ReplyOf(NextThread(s, t)) == Compose(s.maps, s.threads[t].call.kernel)
  {
  }

  /**
   A decided GetImage was decided before this step with the same reply, or is decided by it, from the current maps.
   */
  lemma DecidedAtStep(s: State, s': State, t: CallId)
    requires Inv(s) && (Invoke(s, s') || Advance(s, s'))
    requires t in s'.threads && s'.threads[t].call.GetImage? && TookEffect(s'.threads[t])
    ensures t in s.threads && s.threads[t].call == s'.threads[t].call
    ensures if TookEffect(s.threads[t]) then ReplyOf(s.threads[t]) == ReplyOf(s'.threads[t])
            else ReplyOf(s'.threads[t]) == Compose(s.maps, s.threads[t].call.kernel)
  {
    if !Invoke(s, s') {
      var u :| Enabled(s, u) && s' == Next(s, u);
      if u == t && !TookEffect(s.threads[t]) { DecidingStep(s, t); }
    }
  }

  /** The reply of GetImage is the composition of both maps in one state between its call and its return. */
  lemma {:induction false} GetImageSeesOneState(run: seq<State>, i: nat, j: nat, t: CallId, kernel: string)
    requires IsRun(run) && i <= j < |run|
    requires t !in run[i].threads
    requires t in run[j].threads && run[j].threads[t].call == GetImage(kernel) && TookEffect(run[j].threads[t])
    ensures exists m :: i <= m <= j && Compose(run[m].maps, kernel) == ReplyOf(run[j].threads[t])
    decreases j
  {
    RunKeepsInv(run, j - 1);
    DecidedAtStep(run[j - 1], run[j], t);
    if TookEffect(run[j - 1].threads[t]) {
      GetImageSeesOneState(run, i, j - 1, t, kernel);
    } else {
      assert Compose(run[j - 1].maps, kernel) == ReplyOf(run[j].threads[t]);
    }
  }

  // ---- Progress --------------------------------------------------------------------------------------

  ghost predicate Unfinished(s: State, t: CallId) {
    t in s.threads && !s.threads[t].pc.Done?
  }

  /** While any call is unfinished, some call can step, even when a waiting writer keeps new readers out. */
  lemma DeadlockFree(s: State, t: CallId) returns (u: CallId)
    requires Inv(s) && Unfinished(s, t)
    ensures Enabled(s, u)
  {
    if r :| r in s.osLock.readers {
      u := r;
    } else if s.osLock.writer != None {
      u := s.osLock.writer.value;
    } else if r :| r in s.kernelLock.readers {
      u := r;
    } else if s.kernelLock.writer != None {
      u := s.kernelLock.writer.value;
    } else {
      u := t;
      assert s.threads[t].pc.Start? by {
        assert s.kernelLock.writer != Some(t) && s.osLock.writer != Some(t);
      }
    }
  }

  function Remaining(th: Thread): nat {
    match th.pc
    case Start => if th.call.GetImage? then 6 else 4
    case KernelLocked => 5
    case OsKnown(_) => 4
    case BothLocked(_) => 3
    case Decided(_) => 2
    case Leaving(_) => 1
    case Claimed => 3
    case Exclusive => 2
    case Written => 1
    case Done(_) => 0
  }

  ghost function Work(threads: map<CallId, Thread>): nat {
    if threads == map[] then 0
    else var t :| t in threads; Remaining(threads[t]) + Work(threads - {t})
  }

  lemma {:induction false} WorkWithout(threads: map<CallId, Thread>, t: CallId)
    requires t in threads
    ensures Work(threads) == Remaining(threads[t]) + Work(threads - {t})
    decreases |threads|
  {
    var x :| x in threads && Work(threads) == Remaining(threads[x]) + Work(threads - {x});
    if x != t {
      WorkWithout(threads - {x}, t);
      WorkWithout(threads - {t}, x);
      assert threads - {x} - {t} == threads - {t} - {x};
    }
  }

  lemma StepDoesWork(s: State, t: CallId)
    requires Typed(s) && Enabled(s, t)
    ensures Work(Next(s, t).threads) < Work(s.threads)
  {
    var threads' := Next(s, t).threads;
    WorkWithout(s.threads, t);
    WorkWithout(threads', t);
    assert threads' - {t} == s.threads - {t};
  }

  /** No call can step: every call is finished, or all are blocked. */
  ghost predicate Stopped(s: State) {
    forall t :: !Enabled(s, t)
  }

  /** Once no new calls arrive, every schedule is at most Work steps long, and when it stops every call has returned. */
  lemma {:induction false} EveryScheduleEnds(run: seq<State>, j: nat)
    requires j < |run| && Inv(run[0])
    requires forall i :: 0 <= i < |run| - 1 ==> Advance(run[i], run[i + 1])
    ensures Inv(run[j])
    ensures j + Work(run[j].threads) <= Work(run[0].threads)
    ensures Stopped(run[j]) ==> forall t :: t in run[j].threads ==> run[j].threads[t].pc.Done?
  {
    if j > 0 {
      EveryScheduleEnds(run, j - 1);
      var s := run[j - 1];
      assert Advance(s, run[j - 1 + 1]);
      var t :| Enabled(s, t) && run[j] == Next(s, t);
      AdvanceKeepsInv(s, t);
      StepDoesWork(s, t);
    }
    StoppedMeansFinished(run[j]);
  }

  lemma StoppedMeansFinished(s: State)
    requires Inv(s)
    ensures Stopped(s) ==> forall t :: t in s.threads ==> s.threads[t].pc.Done?
  {
    forall t | t in s.threads && !s.threads[t].pc.Done? ensures !Stopped(s) {
      var u := DeadlockFree(s, t);
    }
  }
}
