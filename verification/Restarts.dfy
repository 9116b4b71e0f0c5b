/**
 When a run leaves a child of the head parked: exactly when a restored block is one that a block was waiting for.
 */
module Restarts {
  import opened Base
  import opened Models
  import Merkle
  import Snapshot
  import opened Engine
  import opened Nvs
  import S = System
  import P = Parking

  /** The startup bundle restores a block that some parked block waits for. */
  ghost predicate WaitedFor(c: Crypto, n: S.Node) {
    n.latest.Some? &&
    var (b, bytes) := n.latest.value;
    Restore(c, n.engine, Some(b), Some(bytes)).1 == SnapshotRestored && BlockHash(c, b) in n.engine.parked
  }

  lemma RestoreRefused(c: Crypto, e: Engine, block: Option<Block>, bytes: Option<Bytes>)
    requires Restore(c, e, block, bytes).1 != SnapshotRestored
    ensures Restore(c, e, block, bytes).0 == e
  {
    hide Snapshot.StateFromBytes, Merkle.StateRoot, BlockHash;
  }

  /** From a clear head, one event leaves it clear exactly unless it restores a block that is waited for. */
  lemma ExecClear(c: Crypto, pc: Postcard, n: S.Node, ev: S.Event)
    requires Live(n.engine) && P.HeadClear(n.engine)
    ensures P.HeadClear(S.Exec(c, pc, n, ev).engine) <==> !(ev.RestoreLatest? && WaitedFor(c, n))
  {
    hide Step, Restore, Load, LatestBundle, BlockHash, Save;
    match ev {
      case Receive(i) => P.StepClear(c, n.engine, i);
      case DeliverLoad(k) => if k < |n.loads| { P.StepClear(c, n.engine, StorageLoaded(n.loads[k].0, n.loads[k].1)); }
      case RestoreLatest =>
        if n.latest.Some? {
          var (b, bytes) := n.latest.value;
          if Restore(c, n.engine, Some(b), Some(bytes)).1 == SnapshotRestored {
            P.RestoreClear(c, n.engine, b, bytes);
          } else {
            RestoreRefused(c, n.engine, Some(b), Some(bytes));
          }
        } else {
          S.RestoreNothing(c, n.engine);
        }
      case _ =>
    }
  }

  /** No restore of the run hits a block that is waited for. */
  ghost predicate RestoresClear(c: Crypto, pc: Postcard, evs: seq<S.Event>) {
    evs == [] ||
    var n := |evs| - 1;
    RestoresClear(c, pc, evs[..n]) && !(evs[n].RestoreLatest? && WaitedFor(c, S.Run(c, pc, evs[..n])))
  }

  /** The head is clear after every event of the run. */
  ghost predicate AlwaysClear(c: Crypto, pc: Postcard, evs: seq<S.Event>) {
    P.HeadClear(S.Run(c, pc, evs).engine) && (evs != [] ==> AlwaysClear(c, pc, evs[..|evs| - 1]))
  }

  /** Over every run, crashes and restarts included, no parked block is ever a child of the head if and only if no
      restore happens while a block waits for the restored one. */
  lemma {:induction false} ClearExactly(c: Crypto, pc: Postcard, evs: seq<S.Event>)
    ensures AlwaysClear(c, pc, evs) <==> RestoresClear(c, pc, evs)
    decreases |evs|
  {
    hide S.Exec, WaitedFor, P.HeadClear;
    if evs == [] {
      StartClear(c, pc);
    } else {
      var n := |evs| - 1;
      ClearExactly(c, pc, evs[..n]);
      if AlwaysClear(c, pc, evs[..n]) { ExecClear(c, pc, S.Run(c, pc, evs[..n]), evs[n]); }
    }
  }

  lemma StartClear(c: Crypto, pc: Postcard)
    ensures P.HeadClear(S.Run(c, pc, []).engine)
  {
    hide BlockHash;
  }
}
